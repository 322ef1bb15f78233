/** How often a task is tried: never after it ended well, and all its attempts before it fails. */
module QueueAttempts {
  import opened Wrappers
  import opened QueueMachine
  import opened QueueInvariant
  import opened QueueHistory

  /** No other place in the queue or its history holds a task of this number. */
  ghost predicate AloneAnywhere(s: State, w: nat, id: nat) {
    && (forall v | v in s.workers && v != w && Carries(At(s, v)) :: At(s, v).task.id != id)
    && (forall k, i | k in s.chains && 0 <= i < |s.chains[k].tasks| :: s.chains[k].tasks[i].id != id)
    && (forall i | 0 <= i < |s.ended| :: s.ended[i].task.id != id)
  }

  lemma InLine(cfg: Config, s: State, key: string, task: Task)
    requires Counted(cfg, s) && Conserved(s) && task in Line(s, key)
    ensures task.id < |s.accepted| && s.accepted[task.id] == task && task.key == key
  {
    LineRises(cfg, s, key);
  }

  lemma EndedInLine(s: State, i: nat)
    requires i < |s.ended|
    ensures s.ended[i].task in Of(EndedTasks(s.ended), s.ended[i].task.key)
  {
    assert EndedTasks(s.ended)[i] == s.ended[i].task;
    OfMembers(EndedTasks(s.ended), s.ended[i].task.key, s.ended[i].task);
  }

  lemma CarriedAlone(cfg: Config, s: State, w: nat)
    requires Paired(s) && OwnTasks(s) && Counted(cfg, s) && Conserved(s) && w in s.workers && Carries(At(s, w))
    ensures At(s, w).task.id < |s.accepted|
    ensures AloneAnywhere(s, w, At(s, w).task.id)
  {
    var task, key := At(s, w).task, s.workers[w].key;
    var ended := Of(EndedTasks(s.ended), key);
    assert Current(s, key) == [task];
    assert Line(s, key) == ended + [task] + Waiting(s, key);
    LineRises(cfg, s, key);
    RisingOnce(ended, task, Waiting(s, key));
    InLine(cfg, s, key, task);
    forall v | v in s.workers && v != w && Carries(At(s, v)) ensures At(s, v).task.id != task.id {
      assert Current(s, s.workers[v].key) == [At(s, v).task];
      InLine(cfg, s, s.workers[v].key, At(s, v).task);
    }
    forall k, i | k in s.chains && 0 <= i < |s.chains[k].tasks| ensures s.chains[k].tasks[i].id != task.id {
      assert s.chains[k].tasks[i] in Waiting(s, k);
      InLine(cfg, s, k, s.chains[k].tasks[i]);
    }
    forall i | 0 <= i < |s.ended| ensures s.ended[i].task.id != task.id {
      EndedInLine(s, i);
      InLine(cfg, s, s.ended[i].task.key, s.ended[i].task);
    }
  }

  ghost predicate SameAttempts(s: State, t: State) {
    t.attempts == s.attempts && t.ended == s.ended && (s.cancelled ==> t.cancelled)
  }

  lemma TriedSame(cfg: Config, s: State, t: State)
    requires SameAttempts(s, t)
    ensures forall stage | Carries(stage) && StageTried(cfg, s, stage) :: StageTried(cfg, t, stage)
    ensures forall e | EndingTried(cfg, s, e) :: EndingTried(cfg, t, e)
    ensures forall id :: Tries(t, id) == Tries(s, id)
  {
    assert forall id :: Tries(t, id) == Tries(s, id);
    forall stage | Carries(stage) && StageTried(cfg, s, stage) ensures StageTried(cfg, t, stage) {
      hide Tries;
    }
  }

  lemma NewTaskLast(cfg: Config, s: State, key: string)
    ensures var t := Enqueued(cfg, s, key);
      forall k, i | k in t.chains && 0 <= i < |t.chains[k].tasks| ::
        || t.chains[k].tasks[i].id == |s.accepted|
        || (k in s.chains && i < |s.chains[k].tasks| && t.chains[k].tasks[i] == s.chains[k].tasks[i])
  {
  }

  lemma TriedEnqueue(cfg: Config, s: State, key: string)
    requires Paired(s) && Tried(cfg, s)
    ensures Tried(cfg, Enqueued(cfg, s, key))
  {
    var t := Enqueued(cfg, s, key);
    assert SameAttempts(s, t) && |t.accepted| >= |s.accepted|;
    TriedSame(cfg, s, t);
    assert Tries(s, |s.accepted|) == 0;
    assert forall w | w in t.workers && Carries(At(t, w)) :: w in s.workers && At(t, w) == At(s, w);
    NewTaskLast(cfg, s, key);
    hide StageTried, EndingTried, Tries, Carries, Enqueued;
  }

  lemma TriedTake(cfg: Config, s: State, w: nat)
    requires Paired(s) && Tried(cfg, s) && w in s.workers && At(s, w).Looking?
    ensures Tried(cfg, Took(s, w))
  {
    var t, key := Took(s, w), s.workers[w].key;
    assert SameAttempts(s, t) && t.accepted == s.accepted;
    TriedSame(cfg, s, t);
    hide EndingTried, SameAttempts, Tries;
    forall v | v in t.workers && Carries(At(t, v)) ensures StageTried(cfg, t, At(t, v)) {
      if v == w {
        assert At(t, w) == Registering(s.chains[key].tasks[0]);
      } else {
        assert At(t, v) == At(s, v);
        hide StageTried;
      }
    }
    hide StageTried;
  }

  lemma TriedCancel(cfg: Config, s: State)
    requires Tried(cfg, s)
    ensures Tried(cfg, s.(cancelled := true))
  {
    var t := s.(cancelled := true);
    TriedSame(cfg, s, t);
    assert forall v | v in t.workers :: At(t, v) == At(s, v);
    hide StageTried, EndingTried, Tries;
  }

  /** The stepping worker's own record of attempts. */
  lemma TriedOwn(cfg: Config, s: State, e: Event)
    requires cfg.Valid() && Enabled(cfg, s, e) && OfWorker(e) && StageTried(cfg, s, At(s, e.worker))
    ensures !e.Report? ==> StageTried(cfg, Shifted(cfg, s, e), Advance(cfg, s, e))
    ensures e.Begin? && !s.cancelled ==> Tries(s, At(s, e.worker).task.id) < cfg.maxAttempts
  {
    hide GatesAfter, RepositoriesAfter;
  }

  lemma TriesAfterShift(cfg: Config, s: State, e: Event, id: nat)
    requires Enabled(cfg, s, e) && OfWorker(e)
    ensures id != At(s, e.worker).task.id || !e.Begin? ==> Tries(Shifted(cfg, s, e), id) == Tries(s, id)
    ensures Shifted(cfg, s, e).cancelled == s.cancelled
  {
    hide GatesAfter, RepositoriesAfter, Advance;
  }

  lemma TriedOthers(cfg: Config, s: State, e: Event, stage: Stage)
    requires Enabled(cfg, s, e) && OfWorker(e) && Carries(stage) && StageTried(cfg, s, stage)
    requires stage.task.id != At(s, e.worker).task.id
    ensures StageTried(cfg, Shifted(cfg, s, e), stage)
  {
    TriesAfterShift(cfg, s, e, stage.task.id);
    hide Shifted, Tries;
  }

  lemma EndingTriedShift(cfg: Config, s: State, e: Event, ending: Ending)
    requires Enabled(cfg, s, e) && OfWorker(e) && EndingTried(cfg, s, ending)
    requires ending.task.id != At(s, e.worker).task.id || e.Report?
    ensures EndingTried(cfg, Shifted(cfg, s, e), ending)
  {
    TriesAfterShift(cfg, s, e, ending.task.id);
    hide Shifted, Tries;
  }

  lemma EndedAfterShift(cfg: Config, s: State, e: Event)
    requires Enabled(cfg, s, e) && OfWorker(e)
    ensures Shifted(cfg, s, e).ended ==
      if e.Report? then s.ended + [Ending(At(s, e.worker).task, At(s, e.worker).ok)] else s.ended
    ensures Shifted(cfg, s, e).chains == s.chains && Shifted(cfg, s, e).accepted == s.accepted
  {
    hide GatesAfter, RepositoriesAfter, Advance;
  }

  lemma AttemptsBounded(cfg: Config, s: State, e: Event)
    requires cfg.Valid() && Tried(cfg, s) && Enabled(cfg, s, e) && OfWorker(e) && At(s, e.worker).task.id < |s.accepted|
    ensures var t := Shifted(cfg, s, e);
      forall id | id in t.attempts :: t.attempts[id] <= cfg.maxAttempts && id < |t.accepted|
  {
    assert StageTried(cfg, s, At(s, e.worker));
    TriedOwn(cfg, s, e);
    hide GatesAfter, RepositoriesAfter, Advance, StageTried, EndingTried;
  }

  lemma TriedShift(cfg: Config, s: State, e: Event)
    requires cfg.Valid() && Paired(s) && OwnTasks(s) && Counted(cfg, s) && Conserved(s) && Tried(cfg, s)
    requires Enabled(cfg, s, e) && OfWorker(e)
    ensures Tried(cfg, Shifted(cfg, s, e))
  {
    var t, w := Shifted(cfg, s, e), e.worker;
    AdvanceKeepsTask(cfg, s, e);
    ShiftOnlyStage(cfg, s, e);
    CarriedAlone(cfg, s, w);
    EndedAfterShift(cfg, s, e);
    assert StageTried(cfg, s, At(s, w));
    TriedOwn(cfg, s, e);
    AttemptsBounded(cfg, s, e);
    hide Shifted, Advance, Paired, OwnTasks, Counted, Conserved, StageTried, Tries, EndingTried;
    forall v | v in t.workers && Carries(At(t, v)) ensures StageTried(cfg, t, At(t, v)) {
      if v != w {
        assert t.workers[v] == s.workers[v];
        TriedOthers(cfg, s, e, At(s, v));
      }
    }
    forall k, i | k in t.chains && 0 <= i < |t.chains[k].tasks| ensures Tries(t, t.chains[k].tasks[i].id) == 0 {
      TriesAfterShift(cfg, s, e, t.chains[k].tasks[i].id);
    }
    forall i | 0 <= i < |t.ended| ensures EndingTried(cfg, t, t.ended[i]) {
      if i < |s.ended| {
        EndingTriedShift(cfg, s, e, s.ended[i]);
      } else {
        ReportTried(cfg, s, e);
      }
    }
  }

  lemma ReportTried(cfg: Config, s: State, e: Event)
    requires Enabled(cfg, s, e) && e.Report? && StageTried(cfg, s, At(s, e.worker))
    ensures EndingTried(cfg, Shifted(cfg, s, e), Ending(At(s, e.worker).task, At(s, e.worker).ok))
  {
    EndingTriedShift(cfg, s, e, Ending(At(s, e.worker).task, At(s, e.worker).ok));
  }

  lemma TriedKept(cfg: Config, s: State, e: Event)
    requires cfg.Valid() && Paired(s) && OwnTasks(s) && Counted(cfg, s) && Conserved(s) && Tried(cfg, s)
    requires Enabled(cfg, s, e)
    ensures Tried(cfg, Next(cfg, s, e))
  {
    hide Shifted, Enqueued, Took, Conserved, Paired, OwnTasks, Counted, Tried;
    if e.Enqueue? {
      TriedEnqueue(cfg, s, e.key);
    } else if e.Cancel? {
      TriedCancel(cfg, s);
    } else if e.Take? {
      TriedTake(cfg, s, e.worker);
    } else {
      TriedShift(cfg, s, e);
    }
  }

  lemma InvKept(cfg: Config, s: State, e: Event)
    requires cfg.Valid() && Inv(cfg, s) && Enabled(cfg, s, e)
    ensures Inv(cfg, Next(cfg, s, e))
  {
    PairedKept(cfg, s, e);
    OwnTasksKept(cfg, s, e);
    GatedKept(cfg, s, e);
    SlottedKept(cfg, s, e);
    CountedKept(cfg, s, e);
    ConservedKept(cfg, s, e);
    TriedKept(cfg, s, e);
    hide Next, Paired, OwnTasks, Gated, Slotted, Counted, Conserved, Tried;
  }

  lemma InvAtStart(cfg: Config)
    ensures Inv(cfg, EMPTY)
  {
    assert Users(EMPTY, 0) == {};
    assert SlotHolders(EMPTY) == {};
    assert forall key :: ConservedFor(EMPTY, key);
  }

  /** Every state any run of the queue can reach satisfies the invariant. */
  lemma {:induction false} InvAlways(cfg: Config, log: seq<Event>)
    requires cfg.Valid() && Reached(cfg, log).Some?
    ensures Inv(cfg, Reached(cfg, log).value)
  {
    if log == [] {
      InvAtStart(cfg);
    } else {
      var before := log[..|log| - 1];
      InvAlways(cfg, before);
      InvKept(cfg, Reached(cfg, before).value, log[|log| - 1]);
    }
  }
}
