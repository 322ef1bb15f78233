/** Conservation, order and attempts: the queue's history agrees with its state at every step. */
module QueueHistory {
  import opened QueueMachine
  import opened QueueInvariant

  lemma OfSnoc(tasks: seq<Task>, last: Task, key: string)
    ensures Of(tasks + [last], key) == Of(tasks, key) + if last.key == key then [last] else []
  {
    assert (tasks + [last])[..|tasks|] == tasks;
  }

  lemma {:induction false} OfMembers(tasks: seq<Task>, key: string, task: Task)
    ensures task in Of(tasks, key) <==> task in tasks && task.key == key
  {
    if tasks != [] {
      OfMembers(tasks[..|tasks| - 1], key, task);
      assert tasks == tasks[..|tasks| - 1] + [tasks[|tasks| - 1]];
    }
  }

  ghost predicate Rising(tasks: seq<Task>) {
    forall i, j | 0 <= i < j < |tasks| :: tasks[i].id < tasks[j].id
  }

  lemma {:induction false} OfRises(tasks: seq<Task>, key: string)
    requires Rising(tasks)
    ensures Rising(Of(tasks, key))
  {
    if tasks != [] {
      var init, last := tasks[..|tasks| - 1], tasks[|tasks| - 1];
      OfRises(init, key);
      forall t | t in Of(init, key) ensures t.id < last.id {
        OfMembers(init, key, t);
        var i :| 0 <= i < |init| && init[i] == t;
        assert tasks[i] == t;
      }
      assert forall i | 0 <= i < |Of(init, key)| :: Of(init, key)[i] in Of(init, key);
    }
  }

  lemma EndedSnoc(ended: seq<Ending>, e: Ending)
    ensures EndedTasks(ended + [e]) == EndedTasks(ended) + [e.task]
  {
  }

  /** The tasks of one key as they stand: ended, at work, waiting. */
  ghost function Line(s: State, key: string): seq<Task> {
    Of(EndedTasks(s.ended), key) + Current(s, key) + Waiting(s, key)
  }

  /** Everything in a key's line was accepted, under its own id, in rising order. */
  lemma LineRises(cfg: Config, s: State, key: string)
    requires Counted(cfg, s) && Conserved(s)
    ensures Rising(Line(s, key))
    ensures forall t | t in Line(s, key) :: t.id < |s.accepted| && s.accepted[t.id] == t && t.key == key
  {
    assert ConservedFor(s, key);
    assert Line(s, key) == Of(s.accepted, key);
    OfRises(s.accepted, key);
    forall t | t in Line(s, key) ensures t.id < |s.accepted| && s.accepted[t.id] == t && t.key == key {
      OfMembers(s.accepted, key, t);
    }
  }

  lemma EnqueueLines(cfg: Config, s: State, key: string, k: string)
    requires Paired(s) && !Rejects(cfg, s)
    ensures Current(Enqueued(cfg, s, key), k) == Current(s, k)
    ensures Waiting(Enqueued(cfg, s, key), k) == Waiting(s, k) + if k == key then [Task(|s.accepted|, key)] else []
  {
    hide Of;
  }

  lemma EnqueueHistory(cfg: Config, s: State, key: string)
    requires !Rejects(cfg, s)
    ensures Enqueued(cfg, s, key).accepted == s.accepted + [Task(|s.accepted|, key)]
    ensures Enqueued(cfg, s, key).taken == s.taken && Enqueued(cfg, s, key).ended == s.ended
  {
  }

  lemma ConservedEnqueue(cfg: Config, s: State, key: string)
    requires Paired(s) && Conserved(s)
    ensures Conserved(Enqueued(cfg, s, key))
  {
    if !Rejects(cfg, s) {
      forall k ensures ConservedFor(Enqueued(cfg, s, key), k) {
        assert ConservedFor(s, k);
        OfSnoc(s.accepted, Task(|s.accepted|, key), k);
        EnqueueLines(cfg, s, key, k);
        EnqueueHistory(cfg, s, key);
        hide Enqueued, Waiting, Current, Of;
      }
    }
  }

  /** The task the worker of this key would take next, if any. */
  function Head(s: State, w: nat): seq<Task>
    requires w in s.workers
  {
    var waiting := Waiting(s, s.workers[w].key);
    if waiting == [] then [] else [waiting[0]]
  }

  lemma TakeLines(s: State, w: nat, k: string)
    requires Paired(s) && w in s.workers && At(s, w).Looking?
    ensures k != s.workers[w].key ==>
      Current(Took(s, w), k) == Current(s, k) && Waiting(Took(s, w), k) == Waiting(s, k)
    ensures k == s.workers[w].key ==>
      && Current(s, k) == [] && Current(Took(s, w), k) == Head(s, w)
      && Waiting(s, k) == Head(s, w) + Waiting(Took(s, w), k)
  {
    hide Of;
  }

  lemma TakeHistory(s: State, w: nat)
    requires Paired(s) && w in s.workers && At(s, w).Looking?
    ensures Took(s, w).taken == s.taken + Head(s, w)
    ensures Took(s, w).accepted == s.accepted && Took(s, w).ended == s.ended
  {
  }

  lemma ConservedTake(s: State, w: nat)
    requires Paired(s) && OwnTasks(s) && Conserved(s) && w in s.workers && At(s, w).Looking?
    ensures Conserved(Took(s, w))
  {
    TakeHistory(s, w);
    forall k ensures ConservedFor(Took(s, w), k) {
      assert ConservedFor(s, k);
      TakeLines(s, w, k);
      HeadIsOwn(s, w, k);
      hide Took, Waiting, Current, Of, Head, Paired, OwnTasks;
    }
  }

  lemma HeadIsOwn(s: State, w: nat, k: string)
    requires Paired(s) && OwnTasks(s) && w in s.workers
    ensures Of(s.taken + Head(s, w), k) == Of(s.taken, k) + if k == s.workers[w].key then Head(s, w) else []
  {
    if Head(s, w) != [] {
      OfSnoc(s.taken, Head(s, w)[0], k);
    } else {
      assert s.taken + [] == s.taken;
    }
  }

  lemma ConservedForShift(cfg: Config, s: State, e: Event, k: string)
    requires Paired(s) && Enabled(cfg, s, e) && OfWorker(e) && ConservedFor(s, k)
    requires At(s, e.worker).task.key == s.workers[e.worker].key
    requires Carries(At(s, e.worker))
    ensures ConservedFor(Shifted(cfg, s, e), k)
  {
    var t, w := Shifted(cfg, s, e), e.worker;
    AdvanceKeepsTask(cfg, s, e);
    ShiftOnlyStage(cfg, s, e);
    hide Advance, GatesAfter, RepositoriesAfter;
    var task := At(s, w).task;
    if e.Report? {
      EndedSnoc(s.ended, Ending(task, At(s, w).ok));
    }
    OfSnoc(EndedTasks(s.ended), task, k);
    assert Waiting(t, k) == Waiting(s, k);
    if k == s.workers[w].key {
      assert Current(s, k) == [task] && Current(t, k) == if e.Report? then [] else [task];
    } else {
      assert Current(t, k) == Current(s, k);
    }
  }

  lemma ConservedShift(cfg: Config, s: State, e: Event)
    requires Paired(s) && OwnTasks(s) && Conserved(s) && Enabled(cfg, s, e) && OfWorker(e)
    ensures Conserved(Shifted(cfg, s, e))
  {
    AdvanceKeepsTask(cfg, s, e);
    hide Advance, Shifted, ConservedFor;
    forall k ensures ConservedFor(Shifted(cfg, s, e), k) {
      assert ConservedFor(s, k);
      ConservedForShift(cfg, s, e, k);
    }
  }

  lemma ConservedKept(cfg: Config, s: State, e: Event)
    requires Paired(s) && OwnTasks(s) && Conserved(s) && Enabled(cfg, s, e)
    ensures Conserved(Next(cfg, s, e))
  {
    hide Shifted, Enqueued, Took, Conserved, Paired, OwnTasks;
    if e.Enqueue? {
      ConservedEnqueue(cfg, s, e.key);
    } else if e.Cancel? {
      ConservedCancel(s);
    } else if e.Take? {
      ConservedTake(s, e.worker);
    } else {
      ConservedShift(cfg, s, e);
    }
  }

  lemma ConservedCancel(s: State)
    requires Conserved(s)
    ensures Conserved(s.(cancelled := true))
  {
    forall k ensures ConservedFor(s.(cancelled := true), k) {
      assert ConservedFor(s, k);
    }
  }

  lemma QueuedAfterEnqueue(cfg: Config, s: State, key: string, task: Task)
    requires !Rejects(cfg, s)
    ensures Queued(Enqueued(cfg, s, key), task) <==> Queued(s, task) || task == Task(|s.accepted|, key)
  {
  }

  lemma WorkingAfterEnqueue(cfg: Config, s: State, key: string, task: Task)
    requires Paired(s) && !Rejects(cfg, s)
    ensures Working(Enqueued(cfg, s, key), task) <==> Working(s, task)
  {
    var t := Enqueued(cfg, s, key);
    assert forall w | w in s.workers :: w in t.workers && t.workers[w] == s.workers[w];
    assert forall w | w in t.workers && InFlight(At(t, w)) :: w in s.workers;
  }

  ghost predicate Unfinished(s: State, task: Task) {
    Queued(s, task) || Working(s, task)
  }

  lemma CountedGrow(cfg: Config, s: State, t: State, task: Task)
    requires Counted(cfg, s) && s.pending < cfg.maxPending && task.id == |s.accepted|
    requires t.pending == s.pending + 1 && t.open == s.open + {task.id} && t.accepted == s.accepted + [task]
    requires forall x :: Unfinished(t, x) <==> Unfinished(s, x) || x == task
    ensures Counted(cfg, t)
  {
    assert forall x :: Unfinished(s, x) <==> Queued(s, x) || Working(s, x);
    assert forall x :: Unfinished(t, x) <==> Queued(t, x) || Working(t, x);
    hide Queued, Working, Unfinished;
  }

  lemma CountedShrink(cfg: Config, s: State, t: State, task: Task)
    requires Counted(cfg, s) && task.id in s.open && s.accepted[task.id] == task
    requires t.pending == Less(s.pending) && t.open == s.open - {task.id} && t.accepted == s.accepted
    requires forall x | x != task :: Unfinished(t, x) <==> Unfinished(s, x)
    requires !Unfinished(t, task)
    ensures Counted(cfg, t)
  {
    assert forall x :: Unfinished(s, x) <==> Queued(s, x) || Working(s, x);
    assert forall x :: Unfinished(t, x) <==> Queued(t, x) || Working(t, x);
    hide Queued, Working, Unfinished;
  }

  lemma CountedEnqueue(cfg: Config, s: State, key: string)
    requires Paired(s) && Counted(cfg, s)
    ensures Counted(cfg, Enqueued(cfg, s, key))
  {
    if !Rejects(cfg, s) {
      var t, task := Enqueued(cfg, s, key), Task(|s.accepted|, key);
      forall x ensures Unfinished(t, x) <==> Unfinished(s, x) || x == task {
        QueuedAfterEnqueue(cfg, s, key, x);
        WorkingAfterEnqueue(cfg, s, key, x);
        hide Queued, Working, Enqueued;
      }
      hide Unfinished;
      assert t.open == s.open + {task.id} && t.pending == s.pending + 1 && t.accepted == s.accepted + [task];
      CountedGrow(cfg, s, t, task);
    }
  }

  lemma QueuedAfterTake(s: State, w: nat, task: Task)
    requires Paired(s) && w in s.workers && At(s, w).Looking?
    ensures task !in Head(s, w) ==> (Queued(Took(s, w), task) <==> Queued(s, task))
  {
  }

  lemma WorkingAfterTake(s: State, w: nat, task: Task)
    requires Paired(s) && w in s.workers && At(s, w).Looking?
    ensures Working(Took(s, w), task) <==> Working(s, task) || task in Head(s, w)
  {
    var t := Took(s, w);
    assert forall v | v in s.workers && v != w :: v in t.workers && t.workers[v] == s.workers[v];
    assert forall v | v in t.workers && v != w :: v in s.workers;
    if Head(s, w) != [] {
      assert w in t.workers && At(t, w) == Registering(Head(s, w)[0]);
    } else {
      assert w !in t.workers;
    }
  }

  lemma TakeKeepsPlaces(s: State, w: nat, task: Task)
    requires Paired(s) && OwnTasks(s) && w in s.workers && At(s, w).Looking?
    ensures Queued(Took(s, w), task) || Working(Took(s, w), task) <==> Queued(s, task) || Working(s, task)
  {
    QueuedAfterTake(s, w, task);
    WorkingAfterTake(s, w, task);
    assert task in Head(s, w) ==> Queued(s, task);
    hide Took, Working;
  }

  lemma CountedSame(cfg: Config, s: State, t: State)
    requires Counted(cfg, s)
    requires t.pending == s.pending && t.open == s.open && t.accepted == s.accepted
    requires forall task :: Queued(t, task) || Working(t, task) <==> Queued(s, task) || Working(s, task)
    ensures Counted(cfg, t)
  {
    hide Queued, Working;
  }

  lemma CountedTake(cfg: Config, s: State, w: nat)
    requires Paired(s) && OwnTasks(s) && Counted(cfg, s) && w in s.workers && At(s, w).Looking?
    ensures Counted(cfg, Took(s, w))
  {
    forall task
      ensures Queued(Took(s, w), task) || Working(Took(s, w), task) <==> Queued(s, task) || Working(s, task)
    {
      TakeKeepsPlaces(s, w, task);
    }
    assert Took(s, w).pending == s.pending && Took(s, w).open == s.open && Took(s, w).accepted == s.accepted;
    hide Took, Working, Queued, Counted;
    CountedSame(cfg, s, Took(s, w));
  }

  lemma WorkingAfterShift(cfg: Config, s: State, e: Event, task: Task)
    requires Enabled(cfg, s, e) && OfWorker(e)
    ensures Working(Shifted(cfg, s, e), task) ==> Working(s, task)
    ensures Working(s, task) ==> Working(Shifted(cfg, s, e), task) || (e.Finish? && task == At(s, e.worker).task)
  {
    var t, w := Shifted(cfg, s, e), e.worker;
    AdvanceKeepsTask(cfg, s, e);
    ShiftOnlyStage(cfg, s, e);
    hide Advance, Shifted;
    assert forall v | v in s.workers && v != w :: v in t.workers && t.workers[v] == s.workers[v];
  }

  lemma RisingOnce(before: seq<Task>, task: Task, after: seq<Task>)
    requires Rising(before + [task] + after)
    ensures task !in before && task !in after
  {
    var all := before + [task] + after;
    assert all[|before|] == task;
    assert forall i | 0 <= i < |before| :: all[i] == before[i];
    assert forall i | 0 <= i < |after| :: all[|before| + 1 + i] == after[i];
  }

  /** A finishing task is at no other place. */
  lemma FinishingIsAlone(cfg: Config, s: State, w: nat)
    requires Paired(s) && OwnTasks(s) && Counted(cfg, s) && Conserved(s)
    requires w in s.workers && At(s, w).Finishing?
    ensures var task := At(s, w).task;
      && task.id in s.open && s.accepted[task.id] == task && !Queued(s, task)
      && !Working(Shifted(cfg, s, Finish(w)), task)
  {
    var task, key := At(s, w).task, s.workers[w].key;
    assert Current(s, key) == [task];
    LineRises(cfg, s, key);
    var ended := Of(EndedTasks(s.ended), key);
    assert Line(s, key) == ended + [task] + Waiting(s, key);
    assert task in Line(s, key) && Working(s, task);
    if Queued(s, task) {
      RisingOnce(ended, task, Waiting(s, key));
    }
    ShiftOnlyStage(cfg, s, Finish(w));
    AloneAtWork(cfg, s, w);
  }

  lemma AloneAtWork(cfg: Config, s: State, w: nat)
    requires Paired(s) && OwnTasks(s) && w in s.workers && At(s, w).Finishing?
    requires OnlyStage(s, Shifted(cfg, s, Finish(w)), w)
    ensures !Working(Shifted(cfg, s, Finish(w)), At(s, w).task)
  {
    var t := Shifted(cfg, s, Finish(w));
    forall v | v in t.workers && InFlight(At(t, v)) ensures At(t, v).task != At(s, w).task {
      assert v != w && t.workers[v] == s.workers[v];
    }
  }

  lemma CountedFinish(cfg: Config, s: State, w: nat)
    requires Paired(s) && OwnTasks(s) && Counted(cfg, s) && Conserved(s)
    requires w in s.workers && At(s, w).Finishing?
    ensures Counted(cfg, Shifted(cfg, s, Finish(w)))
  {
    var t, task := Shifted(cfg, s, Finish(w)), At(s, w).task;
    FinishingIsAlone(cfg, s, w);
    assert t.open == s.open - {task.id} && t.accepted == s.accepted && t.pending == Less(s.pending);
    forall x | x != task ensures Unfinished(t, x) <==> Unfinished(s, x) {
      WorkingAfterShift(cfg, s, Finish(w), x);
      assert t.chains == s.chains;
      hide Shifted, Working;
    }
    assert !Queued(t, task);
    hide Shifted, Working, Conserved, Paired, OwnTasks, Queued;
    CountedShrink(cfg, s, t, task);
  }

  lemma CountedShift(cfg: Config, s: State, e: Event)
    requires Counted(cfg, s) && Enabled(cfg, s, e) && OfWorker(e) && !e.Finish?
    ensures Counted(cfg, Shifted(cfg, s, e))
  {
    forall task
      ensures Queued(Shifted(cfg, s, e), task) || Working(Shifted(cfg, s, e), task) <==>
              Queued(s, task) || Working(s, task)
    {
      WorkingAfterShift(cfg, s, e, task);
      hide Advance, Working, GatesAfter, RepositoriesAfter;
    }
    var t := Shifted(cfg, s, e);
    assert t.pending == s.pending && t.open == s.open && t.accepted == s.accepted;
    hide Shifted, Counted, Queued, Working;
    CountedSame(cfg, s, t);
  }

  lemma CountedKept(cfg: Config, s: State, e: Event)
    requires Paired(s) && OwnTasks(s) && Counted(cfg, s) && Conserved(s) && Enabled(cfg, s, e)
    ensures Counted(cfg, Next(cfg, s, e))
  {
    hide Shifted, Enqueued, Took, Conserved, Paired, OwnTasks, Counted;
    if e.Enqueue? {
      CountedEnqueue(cfg, s, e.key);
    } else if e.Cancel? {
      CountedSame(cfg, s, s.(cancelled := true));
    } else if e.Take? {
      CountedTake(cfg, s, e.worker);
    } else if e.Finish? {
      CountedFinish(cfg, s, e.worker);
    } else {
      CountedShift(cfg, s, e);
    }
  }
}
