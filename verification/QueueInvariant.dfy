/** What every step of the release queue keeps. */
module QueueInvariant {
  import opened Wrappers
  import opened QueueMachine

  /** Each live key has exactly one worker, and each worker serves the one queue object of its key. */
  ghost predicate Paired(s: State) {
    && (forall k | k in s.chains :: s.chains[k].worker in s.workers && s.workers[s.chains[k].worker].key == k)
    && (forall w | w in s.workers :: s.workers[w].key in s.chains && s.chains[s.workers[w].key].worker == w)
    && (forall w | w in s.workers :: w < s.names)
  }

  predicate Carries(stage: Stage) {
    !stage.Looking?
  }

  ghost predicate OwnTasks(s: State) {
    && (forall w | w in s.workers && Carries(At(s, w)) :: At(s, w).task.key == s.workers[w].key)
    && (forall k, i | k in s.chains && 0 <= i < |s.chains[k].tasks| :: s.chains[k].tasks[i].key == k)
  }

  ghost function Users(s: State, g: nat): set<nat> {
    set w | w in s.workers && UsesGate(At(s, w)) == Some(g)
  }

  /** One gate object per repository, shared by exactly the workers counted in it, held by the
      one worker that acquired it. */
  ghost predicate Gated(s: State) {
    && (forall r | r in s.repositories :: s.repositories[r] in s.gates && s.gates[s.repositories[r]].repository == r)
    && (forall g | g in s.gates :: g < s.names && GateRight(s, g))
    && (forall w | w in s.workers && UsesGate(At(s, w)).Some? :: WorkerGated(s, w, UsesGate(At(s, w)).value))
  }

  ghost predicate GateRight(s: State, g: nat)
    requires g in s.gates
  {
    && s.gates[g].repository in s.repositories && s.repositories[s.gates[g].repository] == g
    && s.gates[g].users == |Users(s, g)| && s.gates[g].users > 0
    && (s.gates[g].holder.Some? ==>
          var w := s.gates[g].holder.value;
          w in s.workers && HoldsGate(At(s, w)) && UsesGate(At(s, w)) == Some(g))
  }

  ghost predicate WorkerGated(s: State, w: nat, g: nat)
    requires w in s.workers
  {
    && g in s.gates && s.gates[g].repository == QueueRepository(s.workers[w].key)
    && (HoldsGate(At(s, w)) ==> s.gates[g].holder == Some(w))
  }

  ghost function SlotHolders(s: State): set<nat> {
    set w | w in s.workers && HoldsSlot(At(s, w))
  }

  ghost predicate Slotted(cfg: Config, s: State) {
    s.slotsUsed == |SlotHolders(s)| <= cfg.slots
  }

  ghost predicate Queued(s: State, task: Task) {
    task.key in s.chains && task in s.chains[task.key].tasks
  }

  ghost predicate Working(s: State, task: Task) {
    exists w :: w in s.workers && InFlight(At(s, w)) && At(s, w).task == task
  }

  /** Pending counts exactly the queued and in-flight tasks. */
  ghost predicate Counted(cfg: Config, s: State) {
    && s.pending == |s.open| <= cfg.maxPending
    && (forall i | 0 <= i < |s.accepted| :: s.accepted[i].id == i)
    && (forall id | id in s.open :: id < |s.accepted|)
    && (forall id | 0 <= id < |s.accepted| :: id in s.open <==> Queued(s, s.accepted[id]) || Working(s, s.accepted[id]))
  }

  function Of(tasks: seq<Task>, key: string): seq<Task> {
    if tasks == [] then []
    else
      var last := tasks[|tasks| - 1];
      Of(tasks[..|tasks| - 1], key) + if last.key == key then [last] else []
  }

  function EndedTasks(ended: seq<Ending>): seq<Task> {
    seq(|ended|, i requires 0 <= i < |ended| => ended[i].task)
  }

  function Waiting(s: State, key: string): seq<Task> {
    if key in s.chains then s.chains[key].tasks else []
  }

  function Current(s: State, key: string): seq<Task> {
    if key in s.chains && s.chains[key].worker in s.workers && Carries(At(s, s.chains[key].worker))
    then [At(s, s.chains[key].worker).task] else []
  }

  /** For every key: accepted is ended, then the one task at work, then the waiting ones, in order. */
  ghost predicate Conserved(s: State) {
    forall key :: ConservedFor(s, key)
  }

  ghost predicate ConservedFor(s: State, key: string) {
    && Of(s.accepted, key) == Of(s.taken, key) + Waiting(s, key)
    && Of(s.taken, key) == Of(EndedTasks(s.ended), key) + Current(s, key)
  }

  ghost predicate Tried(cfg: Config, s: State) {
    && (forall id | id in s.attempts :: s.attempts[id] <= cfg.maxAttempts && id < |s.accepted|)
    && (forall w | w in s.workers && Carries(At(s, w)) :: StageTried(cfg, s, At(s, w)))
    && (forall k, i | k in s.chains && 0 <= i < |s.chains[k].tasks| :: Tries(s, s.chains[k].tasks[i].id) == 0)
    && (forall i | 0 <= i < |s.ended| :: EndingTried(cfg, s, s.ended[i]))
  }

  ghost predicate EndingTried(cfg: Config, s: State, e: Ending) {
    && (e.ok ==> 1 <= Tries(s, e.task.id))
    && (!e.ok && !s.cancelled ==> Tries(s, e.task.id) == cfg.maxAttempts)
  }

  ghost predicate StageTried(cfg: Config, s: State, stage: Stage)
    requires Carries(stage)
  {
    match stage
    case Registering(t) => Tries(s, t.id) == 0
    case AtGate(t, _) => Tries(s, t.id) == 0
    case AtSlot(t, _) => Tries(s, t.id) == 0
    case Prepared(t, _, a) => 1 <= a <= cfg.maxAttempts && Tries(s, t.id) == a - 1
    case Executing(t, _, a) => 1 <= a <= cfg.maxAttempts && Tries(s, t.id) == a
    case Delaying(t, _, a) => 1 <= a < cfg.maxAttempts && Tries(s, t.id) == a
    case LeavingSlot(t, _, ok) => EndingTried(cfg, s, Ending(t, ok))
    case LeavingGate(t, _, ok) => EndingTried(cfg, s, Ending(t, ok))
    case Unregistering(t, _, ok) => EndingTried(cfg, s, Ending(t, ok))
    case Finishing(t, ok) => EndingTried(cfg, s, Ending(t, ok))
    case Reporting(t, ok) => EndingTried(cfg, s, Ending(t, ok))
  }

  ghost predicate Inv(cfg: Config, s: State) {
    Paired(s) && OwnTasks(s) && Gated(s) && Slotted(cfg, s) && Counted(cfg, s) && Conserved(s) && Tried(cfg, s)
  }

  lemma PairedEnqueue(cfg: Config, s: State, key: string)
    requires Paired(s)
    ensures Paired(Enqueued(cfg, s, key))
  {
  }

  lemma PairedTake(s: State, w: nat)
    requires Paired(s) && w in s.workers
    ensures Paired(Took(s, w))
  {
  }

  lemma PairedShift(cfg: Config, s: State, e: Event)
    requires Paired(s) && Enabled(cfg, s, e) && OfWorker(e)
    ensures Paired(Shifted(cfg, s, e))
  {
    hide Advance, GatesAfter, RepositoriesAfter;
  }

  lemma PairedKept(cfg: Config, s: State, e: Event)
    requires Paired(s) && Enabled(cfg, s, e)
    ensures Paired(Next(cfg, s, e))
  {
    hide Enqueued, Took, Shifted;
    if e.Enqueue? {
      PairedEnqueue(cfg, s, e.key);
    } else if e.Take? {
      PairedTake(s, e.worker);
    } else if OfWorker(e) {
      PairedShift(cfg, s, e);
    }
  }

  lemma AdvanceKeepsTask(cfg: Config, s: State, e: Event)
    requires Enabled(cfg, s, e) && OfWorker(e)
    ensures Carries(At(s, e.worker))
    ensures Carries(Advance(cfg, s, e)) <==> !e.Report?
    ensures !e.Report? ==> Advance(cfg, s, e).task == At(s, e.worker).task
    ensures InFlight(At(s, e.worker)) <==> !e.Report?
    ensures InFlight(Advance(cfg, s, e)) <==> !e.Report? && !e.Finish?
  {
  }

  lemma OwnTasksShift(cfg: Config, s: State, e: Event)
    requires Paired(s) && OwnTasks(s) && Enabled(cfg, s, e) && OfWorker(e)
    ensures OwnTasks(Shifted(cfg, s, e))
  {
    AdvanceKeepsTask(cfg, s, e);
    hide Advance, GatesAfter, RepositoriesAfter;
  }

  lemma OwnTasksEnqueue(cfg: Config, s: State, key: string)
    requires Paired(s) && OwnTasks(s)
    ensures OwnTasks(Enqueued(cfg, s, key))
  {
  }

  lemma OwnTasksTake(s: State, w: nat)
    requires Paired(s) && OwnTasks(s) && w in s.workers
    ensures OwnTasks(Took(s, w))
  {
  }

  lemma OwnTasksKept(cfg: Config, s: State, e: Event)
    requires Paired(s) && OwnTasks(s) && Enabled(cfg, s, e)
    ensures OwnTasks(Next(cfg, s, e))
  {
    hide Enqueued, Took, Shifted;
    if e.Enqueue? {
      OwnTasksEnqueue(cfg, s, e.key);
    } else if e.Take? {
      OwnTasksTake(s, e.worker);
    } else if OfWorker(e) {
      OwnTasksShift(cfg, s, e);
    }
  }

  /** Only the stage of worker `w` differs. */
  ghost predicate OnlyStage(s: State, t: State, w: nat) {
    w in s.workers && w in t.workers && t.workers == s.workers[w := Worker(s.workers[w].key, At(t, w))]
  }

  lemma UsersAfterStage(s: State, t: State, w: nat, g: nat)
    requires OnlyStage(s, t, w)
    ensures UsesGate(At(s, w)) == UsesGate(At(t, w)) ==> Users(t, g) == Users(s, g)
    ensures UsesGate(At(s, w)) != Some(g) && UsesGate(At(t, w)) != Some(g) ==> Users(t, g) == Users(s, g)
    ensures UsesGate(At(s, w)) != Some(g) && UsesGate(At(t, w)) == Some(g) ==>
      Users(t, g) == Users(s, g) + {w} && |Users(t, g)| == |Users(s, g)| + 1
    ensures UsesGate(At(s, w)) == Some(g) && UsesGate(At(t, w)) != Some(g) ==>
      Users(t, g) == Users(s, g) - {w} && |Users(t, g)| == |Users(s, g)| - 1
  {
    assert forall v | v in s.workers && v != w :: t.workers[v] == s.workers[v];
    if UsesGate(At(s, w)) == Some(g) {
      assert w in Users(s, g);
    }
    if UsesGate(At(s, w)) != Some(g) && UsesGate(At(t, w)) == Some(g) {
      assert Users(t, g) == Users(s, g) + {w};
    } else if UsesGate(At(s, w)) == Some(g) && UsesGate(At(t, w)) != Some(g) {
      assert Users(t, g) == Users(s, g) - {w};
    } else {
      assert Users(t, g) == Users(s, g);
    }
  }

  /** Gates only care about who uses and who holds them. */
  ghost predicate SameGateUse(s: State, t: State) {
    && t.gates == s.gates && t.repositories == s.repositories && t.names >= s.names
    && (forall w | w in s.workers && UsesGate(At(s, w)).Some? :: w in t.workers && t.workers[w] == s.workers[w])
    && (forall w | w in t.workers && UsesGate(At(t, w)).Some? :: w in s.workers && t.workers[w] == s.workers[w])
  }

  lemma GatedSame(s: State, t: State)
    requires Gated(s) && SameGateUse(s, t)
    ensures Gated(t)
  {
    forall g | g in t.gates ensures g < t.names && GateRight(t, g) {
      assert GateRight(s, g);
      assert Users(t, g) == Users(s, g);
    }
    forall w | w in t.workers && UsesGate(At(t, w)).Some? ensures WorkerGated(t, w, UsesGate(At(t, w)).value) {
      assert WorkerGated(s, w, UsesGate(At(s, w)).value);
    }
  }

  /** A gate untouched by the step of `w`, which neither used nor uses it. */
  lemma OtherGate(s: State, t: State, w: nat, h: nat)
    requires OnlyStage(s, t, w) && h in s.gates && GateRight(s, h)
    requires UsesGate(At(s, w)) != Some(h) && UsesGate(At(t, w)) != Some(h)
    requires h in t.gates && t.gates[h] == s.gates[h]
    requires s.gates[h].repository in t.repositories && t.repositories[s.gates[h].repository] == h
    ensures GateRight(t, h)
  {
    UsersAfterStage(s, t, w, h);
  }

  lemma OtherUser(s: State, t: State, w: nat, v: nat)
    requires OnlyStage(s, t, w) && v in s.workers && v != w && UsesGate(At(s, v)).Some?
    requires WorkerGated(s, v, UsesGate(At(s, v)).value)
    requires var g := UsesGate(At(s, v)).value;
      && g in t.gates && t.gates[g].repository == s.gates[g].repository
      && (t.gates[g].holder == s.gates[g].holder || s.gates[g].holder in {None, Some(w)})
    ensures v in t.workers && At(t, v) == At(s, v) && WorkerGated(t, v, UsesGate(At(s, v)).value)
  {
  }

  /** A worker that keeps using its gate may take or leave the semaphore. */
  ghost predicate SameGateHeldBy(s: State, t: State, w: nat, g: nat) {
    && OnlyStage(s, t, w)
    && UsesGate(At(s, w)) == UsesGate(At(t, w)) == Some(g) && g in s.gates
    && t.repositories == s.repositories && t.names == s.names
    && t.gates == s.gates[g := s.gates[g].(holder :=
         if HoldsGate(At(t, w)) then Some(w) else if HoldsGate(At(s, w)) then None else s.gates[g].holder)]
    && (HoldsGate(At(t, w)) && !HoldsGate(At(s, w)) ==> s.gates[g].holder == None)
  }

  lemma WorkersHold(s: State, t: State, w: nat, g: nat)
    requires Gated(s) && SameGateHeldBy(s, t, w, g)
    ensures forall v | v in t.workers && UsesGate(At(t, v)).Some? :: WorkerGated(t, v, UsesGate(At(t, v)).value)
  {
    assert WorkerGated(s, w, g);
    hide UsesGate, HoldsGate;
    forall v | v in t.workers && UsesGate(At(t, v)).Some? ensures WorkerGated(t, v, UsesGate(At(t, v)).value) {
      if v != w {
        OtherUser(s, t, w, v);
      }
    }
  }

  lemma HoldRight(s: State, t: State, w: nat, g: nat)
    requires Gated(s) && SameGateHeldBy(s, t, w, g)
    ensures forall h | h in t.gates :: h < t.names && GateRight(t, h)
  {
    assert WorkerGated(s, w, g) && GateRight(s, g);
    UsersAfterStage(s, t, w, g);
    hide Users, UsesGate, HoldsGate, WorkerGated;
    assert GateRight(t, g);
    forall h | h in t.gates ensures h < t.names && GateRight(t, h) {
      if h != g {
        OtherGate(s, t, w, h);
      }
    }
  }

  lemma GatedHold(s: State, t: State, w: nat, g: nat)
    requires Gated(s) && SameGateHeldBy(s, t, w, g)
    ensures Gated(t)
  {
    HoldRight(s, t, w, g);
    WorkersHold(s, t, w, g);
    hide Users, UsesGate, HoldsGate, WorkerGated, GateRight;
  }

  /** Worker `w` joins the users of gate `g` of its repository, creating it if need be. */
  ghost predicate JoinsGate(s: State, t: State, w: nat, g: nat) {
    && OnlyStage(s, t, w) && t.names == s.names + 1
    && UsesGate(At(s, w)) == None && UsesGate(At(t, w)) == Some(g) && !HoldsGate(At(t, w))
    && var repository := QueueRepository(s.workers[w].key);
    && t.repositories == s.repositories[repository := g]
    && (repository in s.repositories ==>
          g == s.repositories[repository] && g in s.gates
          && t.gates == s.gates[g := s.gates[g].(users := s.gates[g].users + 1)])
    && (repository !in s.repositories ==> g == s.names && t.gates == s.gates[g := Gate(repository, None, 1)])
  }

  lemma NoUsersOfNewGate(s: State, g: nat)
    requires Gated(s) && g !in s.gates
    ensures Users(s, g) == {}
  {
    forall v | v in s.workers ensures UsesGate(At(s, v)) != Some(g) {
      if UsesGate(At(s, v)).Some? {
        assert WorkerGated(s, v, UsesGate(At(s, v)).value);
      }
    }
  }

  lemma WorkersJoin(s: State, t: State, w: nat, g: nat)
    requires Gated(s) && JoinsGate(s, t, w, g)
    ensures forall v | v in t.workers && UsesGate(At(t, v)).Some? :: WorkerGated(t, v, UsesGate(At(t, v)).value)
  {
    hide UsesGate, HoldsGate, QueueRepository, GateRight;
    forall v | v in t.workers && UsesGate(At(t, v)).Some? ensures WorkerGated(t, v, UsesGate(At(t, v)).value) {
      if v != w {
        OtherUser(s, t, w, v);
      }
    }
  }

  lemma JoinRight(s: State, t: State, w: nat, g: nat)
    requires Gated(s) && JoinsGate(s, t, w, g)
    ensures g in t.gates && GateRight(t, g)
  {
    UsersAfterStage(s, t, w, g);
    if QueueRepository(s.workers[w].key) in s.repositories {
      assert GateRight(s, g);
    } else {
      NoUsersOfNewGate(s, g);
    }
  }

  lemma GatesAfterJoin(s: State, t: State, w: nat, g: nat)
    requires Gated(s) && JoinsGate(s, t, w, g)
    ensures forall h | h in t.gates :: h < t.names && GateRight(t, h)
  {
    JoinRight(s, t, w, g);
    hide Users, UsesGate, HoldsGate, QueueRepository, WorkerGated;
    forall h | h in t.gates ensures h < t.names && GateRight(t, h) {
      if h != g {
        assert GateRight(s, h);
        OtherGate(s, t, w, h);
      }
    }
  }

  lemma GatedJoin(s: State, t: State, w: nat, g: nat)
    requires Gated(s) && JoinsGate(s, t, w, g)
    ensures Gated(t)
  {
    GatesAfterJoin(s, t, w, g);
    WorkersJoin(s, t, w, g);
    hide Users, UsesGate, HoldsGate, QueueRepository, WorkerGated, GateRight;
    assert forall r | r in t.repositories :: t.repositories[r] in t.gates && t.gates[t.repositories[r]].repository == r;
  }

  /** Worker `w` leaves the users of its gate; the last one removes it. */
  ghost predicate LeavesGate(s: State, t: State, w: nat, g: nat) {
    && OnlyStage(s, t, w) && t.names == s.names
    && UsesGate(At(s, w)) == Some(g) && !HoldsGate(At(s, w)) && UsesGate(At(t, w)) == None && g in s.gates
    && (s.gates[g].users <= 1 ==>
          t.gates == s.gates - {g} && t.repositories == s.repositories - {QueueRepository(s.workers[w].key)})
    && (s.gates[g].users > 1 ==>
          && t.gates == s.gates[g := s.gates[g].(users := s.gates[g].users - 1)] && t.repositories == s.repositories)
  }

  lemma WorkersLeave(s: State, t: State, w: nat, g: nat)
    requires Gated(s) && LeavesGate(s, t, w, g)
    ensures forall v | v in t.workers && UsesGate(At(t, v)).Some? :: WorkerGated(t, v, UsesGate(At(t, v)).value)
  {
    assert WorkerGated(s, w, g) && GateRight(s, g);
    UsersAfterStage(s, t, w, g);
    hide UsesGate, HoldsGate, QueueRepository, GateRight;
    forall v | v in t.workers && UsesGate(At(t, v)).Some? ensures WorkerGated(t, v, UsesGate(At(t, v)).value) {
      assert UsesGate(At(t, v)) == Some(g) ==> v in Users(t, g);
      OtherUser(s, t, w, v);
    }
  }

  lemma LeaveRight(s: State, t: State, w: nat, g: nat)
    requires Gated(s) && LeavesGate(s, t, w, g)
    ensures g in t.gates ==> GateRight(t, g)
    ensures forall r | r in t.repositories :: t.repositories[r] in t.gates && t.gates[t.repositories[r]].repository == r
  {
    assert WorkerGated(s, w, g) && GateRight(s, g);
    UsersAfterStage(s, t, w, g);
  }

  lemma GatedLeave(s: State, t: State, w: nat, g: nat)
    requires Gated(s) && LeavesGate(s, t, w, g)
    ensures Gated(t)
  {
    assert WorkerGated(s, w, g);
    LeaveRight(s, t, w, g);
    WorkersLeave(s, t, w, g);
    hide Users, UsesGate, HoldsGate, QueueRepository, WorkerGated;
    forall h | h in t.gates ensures h < t.names && GateRight(t, h) {
      if h != g {
        assert GateRight(s, h);
        OtherGate(s, t, w, h);
      }
    }
  }

  lemma RegisterUse(cfg: Config, s: State, w: nat)
    requires Gated(s) && Enabled(cfg, s, Register(w))
    ensures JoinsGate(s, Shifted(cfg, s, Register(w)), w, GateFor(s, w))
  {
    hide QueueRepository, GateRight, WorkerGated;
  }

  lemma UnregisterUse(cfg: Config, s: State, w: nat)
    requires Enabled(cfg, s, Unregister(w))
    ensures LeavesGate(s, Shifted(cfg, s, Unregister(w)), w, At(s, w).gate)
  {
    hide QueueRepository;
  }

  lemma HoldUse(cfg: Config, s: State, e: Event)
    requires Enabled(cfg, s, e) && OfWorker(e) && !e.Register? && !e.Unregister?
    requires UsesGate(At(s, e.worker)).Some?
    requires WorkerGated(s, e.worker, UsesGate(At(s, e.worker)).value)
    ensures SameGateHeldBy(s, Shifted(cfg, s, e), e.worker, UsesGate(At(s, e.worker)).value)
  {
    hide QueueRepository;
  }

  lemma NoUse(cfg: Config, s: State, e: Event)
    requires Enabled(cfg, s, e) && OfWorker(e) && !e.Register? && UsesGate(At(s, e.worker)) == None
    ensures SameGateUse(s, Shifted(cfg, s, e))
  {
    hide QueueRepository;
  }

  lemma EnqueueUse(cfg: Config, s: State, key: string)
    requires Paired(s)
    ensures SameGateUse(s, Enqueued(cfg, s, key))
  {
    hide UsesGate;
    assert UsesGate(Looking) == None by { LookingUsesNone(); }
  }

  lemma LookingUsesNone()
    ensures UsesGate(Looking) == None
    ensures forall task :: UsesGate(Registering(task)) == None
  {
  }

  lemma CancelUse(s: State)
    ensures SameGateUse(s, s.(cancelled := true))
  {
  }

  lemma TakeUse(s: State, w: nat)
    requires w in s.workers && At(s, w).Looking?
    ensures SameGateUse(s, Took(s, w))
  {
    LookingUsesNone();
    hide UsesGate;
  }

  lemma GatedKept(cfg: Config, s: State, e: Event)
    requires Paired(s) && Gated(s) && Enabled(cfg, s, e)
    ensures Gated(Next(cfg, s, e))
  {
    hide Shifted, Enqueued, Took, GateRight, WorkerGated, JoinsGate, LeavesGate, SameGateHeldBy, SameGateUse;
    var t := Next(cfg, s, e);
    if !OfWorker(e) {
      if e.Enqueue? {
        EnqueueUse(cfg, s, e.key);
      } else if e.Take? {
        TakeUse(s, e.worker);
      } else {
        CancelUse(s);
      }
      GatedSame(s, t);
    } else if e.Register? {
      RegisterUse(cfg, s, e.worker);
      GatedJoin(s, t, e.worker, GateFor(s, e.worker));
    } else if e.Unregister? {
      UnregisterUse(cfg, s, e.worker);
      GatedLeave(s, t, e.worker, At(s, e.worker).gate);
    } else if UsesGate(At(s, e.worker)).Some? {
      HoldUse(cfg, s, e);
      GatedHold(s, t, e.worker, UsesGate(At(s, e.worker)).value);
    } else {
      NoUse(cfg, s, e);
      GatedSame(s, t);
    }
  }

  lemma SlotHoldersAfterStage(s: State, t: State, w: nat)
    requires OnlyStage(s, t, w)
    ensures |SlotHolders(t)| == |SlotHolders(s)| + (if HoldsSlot(At(t, w)) then 1 else 0)
                                                 - (if HoldsSlot(At(s, w)) then 1 else 0)
  {
    assert forall v | v in s.workers && v != w :: t.workers[v] == s.workers[v];
    if HoldsSlot(At(s, w)) {
      assert w in SlotHolders(s);
    }
    if HoldsSlot(At(t, w)) {
      assert SlotHolders(t) == SlotHolders(s) - {w} + {w};
      assert SlotHolders(t) - {w} == SlotHolders(s) - {w};
    } else {
      assert SlotHolders(t) == SlotHolders(s) - {w};
    }
  }

  lemma ShiftOnlyStage(cfg: Config, s: State, e: Event)
    requires Enabled(cfg, s, e) && OfWorker(e)
    ensures OnlyStage(s, Shifted(cfg, s, e), e.worker)
    ensures At(Shifted(cfg, s, e), e.worker) == Advance(cfg, s, e)
  {
    hide Advance, GatesAfter, RepositoriesAfter;
  }

  lemma AdvanceSlot(cfg: Config, s: State, e: Event)
    requires Enabled(cfg, s, e) && OfWorker(e)
    ensures e.EnterSlot? ==> !HoldsSlot(At(s, e.worker)) && HoldsSlot(Advance(cfg, s, e))
    ensures e.LeaveSlot? ==> HoldsSlot(At(s, e.worker)) && !HoldsSlot(Advance(cfg, s, e))
    ensures !e.EnterSlot? && !e.LeaveSlot? ==> (HoldsSlot(At(s, e.worker)) <==> HoldsSlot(Advance(cfg, s, e)))
  {
  }

  lemma SlottedShift(cfg: Config, s: State, e: Event)
    requires Slotted(cfg, s) && Enabled(cfg, s, e) && OfWorker(e)
    ensures Slotted(cfg, Shifted(cfg, s, e))
  {
    AdvanceSlot(cfg, s, e);
    ShiftOnlyStage(cfg, s, e);
    SlotHoldersAfterStage(s, Shifted(cfg, s, e), e.worker);
    hide Advance, GatesAfter, RepositoriesAfter, SlotHolders, HoldsSlot;
  }

  lemma SlottedEnqueue(cfg: Config, s: State, key: string)
    requires Paired(s)
    ensures SlotHolders(Enqueued(cfg, s, key)) == SlotHolders(s)
    ensures Enqueued(cfg, s, key).slotsUsed == s.slotsUsed
  {
  }

  lemma SlottedTake(s: State, w: nat)
    requires w in s.workers && At(s, w).Looking?
    ensures SlotHolders(Took(s, w)) == SlotHolders(s) && Took(s, w).slotsUsed == s.slotsUsed
  {
  }

  lemma SlottedKept(cfg: Config, s: State, e: Event)
    requires Paired(s) && Slotted(cfg, s) && Enabled(cfg, s, e)
    ensures Slotted(cfg, Next(cfg, s, e))
  {
    hide Enqueued, Took, Shifted;
    if e.Enqueue? {
      SlottedEnqueue(cfg, s, e.key);
    } else if e.Take? {
      SlottedTake(s, e.worker);
    } else if OfWorker(e) {
      SlottedShift(cfg, s, e);
    } else {
      assert SlotHolders(Next(cfg, s, e)) == SlotHolders(s);
    }
  }
}
