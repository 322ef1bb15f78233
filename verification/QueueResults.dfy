/** What a task's end says: it ended well exactly if one of its attempts did, and the last one at that. */
module QueueResults {
  import opened Wrappers
  import opened QueueMachine
  import opened QueueInvariant
  import opened QueueHistory
  import opened QueueAttempts

  /** The task whose attempt a step reports as a success. */
  ghost function Winner(cfg: Config, s: State, e: Event): set<nat>
    requires Enabled(cfg, s, e)
  {
    if e.Return? && e.ok then {At(s, e.worker).task.id} else {}
  }

  /** The tasks of which an attempt succeeded in a run. */
  ghost function Winners(cfg: Config, log: seq<Event>): set<nat> {
    if log == [] then {}
    else
      var front, e := log[..|log| - 1], log[|log| - 1];
      var before := Reached(cfg, front);
      Winners(cfg, front) + if before.Some? && Enabled(cfg, before.value, e) then Winner(cfg, before.value, e) else {}
  }

  predicate StageResult(stage: Stage, won: bool)
    requires Carries(stage)
  {
    match stage
    case LeavingSlot(_, _, ok) => ok == won
    case LeavingGate(_, _, ok) => ok == won
    case Unregistering(_, _, ok) => ok == won
    case Finishing(_, ok) => ok == won
    case Reporting(_, ok) => ok == won
    case _ => !won
  }

  ghost predicate ResultsTold(s: State, winners: set<nat>) {
    && (forall id | id in winners :: id < |s.accepted|)
    && (forall w | w in s.workers && Carries(At(s, w)) :: StageResult(At(s, w), At(s, w).task.id in winners))
    && (forall k, i | k in s.chains && 0 <= i < |s.chains[k].tasks| :: s.chains[k].tasks[i].id !in winners)
    && (forall i | 0 <= i < |s.ended| :: s.ended[i].ok <==> s.ended[i].task.id in winners)
  }

  lemma ResultsEnqueue(cfg: Config, s: State, key: string, winners: set<nat>)
    requires ResultsTold(s, winners)
    ensures ResultsTold(Enqueued(cfg, s, key), winners)
  {
    var t := Enqueued(cfg, s, key);
    assert |t.accepted| >= |s.accepted| && t.ended == s.ended;
    assert forall w | w in t.workers && Carries(At(t, w)) :: w in s.workers && At(t, w) == At(s, w) by {
      SameCarriers(cfg, s, key);
    }
    NewTaskLast(cfg, s, key);
    hide StageResult, Carries, Enqueued;
  }

  lemma SameCarriers(cfg: Config, s: State, key: string)
    ensures var t := Enqueued(cfg, s, key);
      forall w | w in t.workers && Carries(At(t, w)) :: w in s.workers && At(t, w) == At(s, w)
  {
  }

  lemma ResultsTake(s: State, w: nat, winners: set<nat>)
    requires w in s.workers && ResultsTold(s, winners)
    ensures ResultsTold(Took(s, w), winners)
  {
    var t, key := Took(s, w), s.workers[w].key;
    forall v | v in t.workers && Carries(At(t, v)) ensures StageResult(At(t, v), At(t, v).task.id in winners) {
      if v == w {
        assert At(t, w) == Registering(s.chains[key].tasks[0]);
      } else {
        assert At(t, v) == At(s, v);
        hide StageResult;
      }
    }
    hide StageResult;
  }

  /** The stepping worker's own flag. */
  lemma ResultOwn(cfg: Config, s: State, e: Event, won: bool)
    requires Enabled(cfg, s, e) && OfWorker(e) && StageResult(At(s, e.worker), won)
    ensures !e.Report? ==> StageResult(Advance(cfg, s, e), won || (e.Return? && e.ok))
    ensures e.Report? ==> At(s, e.worker).ok == won
    ensures e.Return? || e.Begin? ==> !won
  {
  }

  /** The task is at one place only, and there a worker went on with it. */
  ghost predicate WentOn(cfg: Config, s: State, t: State, w: nat, id: nat) {
    && w in s.workers && Carries(At(s, w)) && At(s, w).task.id == id < |s.accepted| && AloneAnywhere(s, w, id)
    && t.workers.Keys == s.workers.Keys && (forall v | v in s.workers && v != w :: t.workers[v] == s.workers[v])
    && t.chains == s.chains && t.accepted == s.accepted
  }

  lemma OthersTold(cfg: Config, s: State, t: State, w: nat, id: nat, winners: set<nat>, more: set<nat>)
    requires WentOn(cfg, s, t, w, id) && ResultsTold(s, winners) && more <= {id}
    requires Carries(At(t, w)) ==> At(t, w).task.id == id && StageResult(At(t, w), id in winners + more)
    requires t.ended == s.ended
          || exists ending: Ending ::
               t.ended == s.ended + [ending] && ending.task.id == id && ending.ok == (id in winners + more)
    ensures ResultsTold(t, winners + more)
  {
    hide StageResult;
    forall v | v in t.workers && Carries(At(t, v)) ensures StageResult(At(t, v), At(t, v).task.id in winners + more) {
      if v != w {
        assert At(t, v) == At(s, v);
      }
    }
  }

  lemma WorkerWentOn(cfg: Config, s: State, e: Event)
    requires Paired(s) && OwnTasks(s) && Counted(cfg, s) && Conserved(s) && Enabled(cfg, s, e) && OfWorker(e)
    ensures Carries(At(s, e.worker))
    ensures WentOn(cfg, s, Shifted(cfg, s, e), e.worker, At(s, e.worker).task.id)
  {
    AdvanceKeepsTask(cfg, s, e);
    ShiftOnlyStage(cfg, s, e);
    CarriedAlone(cfg, s, e.worker);
    EndedAfterShift(cfg, s, e);
    hide Shifted, Advance, Paired, OwnTasks, Counted, Conserved, AloneAnywhere;
  }

  lemma ResultsShift(cfg: Config, s: State, e: Event, winners: set<nat>)
    requires Paired(s) && OwnTasks(s) && Counted(cfg, s) && Conserved(s)
    requires Enabled(cfg, s, e) && OfWorker(e) && ResultsTold(s, winners)
    ensures ResultsTold(Shifted(cfg, s, e), winners + Winner(cfg, s, e))
  {
    WorkerWentOn(cfg, s, e);
    hide Paired, OwnTasks, Counted, Conserved, WentOn;
    var t, w := Shifted(cfg, s, e), e.worker;
    var id := At(s, w).task.id;
    ShiftOnlyStage(cfg, s, e);
    AdvanceKeepsTask(cfg, s, e);
    EndedAfterShift(cfg, s, e);
    assert StageResult(At(s, w), id in winners);
    ResultOwn(cfg, s, e, id in winners);
    hide Shifted, Advance, StageResult, ResultsTold;
    assert id in winners + Winner(cfg, s, e) <==> id in winners || (e.Return? && e.ok);
    OthersTold(cfg, s, t, w, id, winners, Winner(cfg, s, e));
  }

  lemma ResultsKept(cfg: Config, s: State, e: Event, winners: set<nat>)
    requires cfg.Valid() && Inv(cfg, s) && Enabled(cfg, s, e) && ResultsTold(s, winners)
    ensures ResultsTold(Next(cfg, s, e), winners + Winner(cfg, s, e))
  {
    hide Shifted, Enqueued, Took, Gated, Slotted, Tried;
    assert !OfWorker(e) ==> winners + Winner(cfg, s, e) == winners;
    if e.Enqueue? {
      ResultsEnqueue(cfg, s, e.key, winners);
    } else if e.Take? {
      ResultsTake(s, e.worker, winners);
    } else if OfWorker(e) {
      ResultsShift(cfg, s, e, winners);
    } else {
      hide StageResult;
      assert forall v | v in s.workers :: At(s.(cancelled := true), v) == At(s, v);
    }
  }

  lemma {:induction false} ResultsAlways(cfg: Config, log: seq<Event>)
    requires cfg.Valid() && Reached(cfg, log).Some?
    ensures ResultsTold(Reached(cfg, log).value, Winners(cfg, log))
  {
    if log != [] {
      var front := log[..|log| - 1];
      ResultsAlways(cfg, front);
      InvAlways(cfg, front);
      ResultsKept(cfg, Reached(cfg, front).value, log[|log| - 1], Winners(cfg, front));
      hide ResultsTold, Inv, Next, Enabled;
    }
  }

  /** A task ends well exactly if an attempt of it succeeded, and after that it is not tried again. */
  lemma SuccessIsTold(cfg: Config, log: seq<Event>)
    requires cfg.Valid() && Reached(cfg, log).Some?
    ensures var s := Reached(cfg, log).value;
      && (forall i | 0 <= i < |s.ended| :: s.ended[i].ok <==> s.ended[i].task.id in Winners(cfg, log))
      && (forall e | Enabled(cfg, s, e) && e.Begin? :: At(s, e.worker).task.id !in Winners(cfg, log))
  {
    ResultsAlways(cfg, log);
    var s := Reached(cfg, log).value;
    forall e | Enabled(cfg, s, e) && e.Begin? ensures At(s, e.worker).task.id !in Winners(cfg, log) {
      assert StageResult(At(s, e.worker), At(s, e.worker).task.id in Winners(cfg, log));
    }
  }

  /** After a failed attempt the worker leaves if it has no attempt left or the queue is cancelled; else
      it is ready for the next one, after a wait exactly if there is a delay between attempts. */
  lemma RetriesWait(cfg: Config, s: State, w: nat)
    requires Enabled(cfg, s, Return(w, false))
    ensures var t := Next(cfg, s, Return(w, false)); var attempt := At(s, w).attempt;
      && w in t.workers
      && (Enabled(cfg, t, LeaveSlot(w)) <==> s.cancelled || attempt >= cfg.maxAttempts)
      && (Enabled(cfg, t, Begin(w)) <==> !s.cancelled && attempt < cfg.maxAttempts && !cfg.retryDelay)
      && (Enabled(cfg, t, Wake(w)) <==> !s.cancelled && attempt < cfg.maxAttempts && cfg.retryDelay)
      && (Enabled(cfg, t, Wake(w)) ==> Enabled(cfg, Next(cfg, t, Wake(w)), Begin(w)))
  {
  }
}
