/** The queue cannot get stuck, and once nothing more is accepted it comes to rest. */
module QueueProgress {
  import opened Wrappers
  import opened QueueMachine
  import opened QueueInvariant
  import opened QueueHistory
  import opened QueueAttempts

  /** The step a worker takes from its stage unless the queue is cancelled or its task fails. */
  function StepFrom(stage: Stage, w: nat): Event {
    match stage
    case Looking => Take(w)
    case Registering(_) => Register(w)
    case AtGate(_, _) => EnterGate(w)
    case AtSlot(_, _) => EnterSlot(w)
    case Prepared(_, _, _) => Begin(w)
    case Executing(_, _, _) => Return(w, true)
    case Delaying(_, _, _) => Wake(w)
    case LeavingSlot(_, _, _) => LeaveSlot(w)
    case LeavingGate(_, _, _) => LeaveGate(w)
    case Unregistering(_, _, _) => Unregister(w)
    case Finishing(_, _) => Finish(w)
    case Reporting(_, _) => Report(w)
  }

  predicate CanStep(cfg: Config, s: State, w: nat)
    requires w in s.workers
  {
    Enabled(cfg, s, StepFrom(At(s, w), w))
  }

  /** Past its gate, a worker can always leave it: the gate is there as long as it is used. */
  lemma LeavingIsFree(cfg: Config, s: State, w: nat)
    requires Gated(s) && w in s.workers && (At(s, w).LeavingGate? || At(s, w).Unregistering?)
    ensures CanStep(cfg, s, w)
  {
    assert WorkerGated(s, w, At(s, w).gate);
    hide GateRight;
  }

  /** At its gate, a worker waits only for the gate's holder. */
  lemma GateBlocks(cfg: Config, s: State, w: nat)
    requires Gated(s) && w in s.workers && At(s, w).AtGate?
    ensures At(s, w).gate in s.gates && (CanStep(cfg, s, w) || s.gates[At(s, w).gate].holder.Some?)
  {
    assert WorkerGated(s, w, At(s, w).gate);
    hide GateRight;
  }

  lemma OtherStagesStep(cfg: Config, s: State, w: nat)
    requires w in s.workers && !At(s, w).AtGate? && !At(s, w).LeavingGate? && !At(s, w).Unregistering?
    ensures CanStep(cfg, s, w) || (At(s, w).AtSlot? && s.slotsUsed >= cfg.slots)
  {
  }

  /** Only the two semaphores can hold a worker up. */
  lemma OnlySemaphoresBlock(cfg: Config, s: State, w: nat)
    requires Gated(s) && w in s.workers && !CanStep(cfg, s, w)
    ensures At(s, w).AtGate? || At(s, w).AtSlot?
    ensures At(s, w).AtGate? ==> At(s, w).gate in s.gates && s.gates[At(s, w).gate].holder.Some?
    ensures At(s, w).AtSlot? ==> s.slotsUsed >= cfg.slots
  {
    hide Gated, CanStep;
    if At(s, w).AtGate? {
      GateBlocks(cfg, s, w);
    } else if At(s, w).LeavingGate? || At(s, w).Unregistering? {
      LeavingIsFree(cfg, s, w);
    } else {
      OtherStagesStep(cfg, s, w);
    }
  }

  /** A worker waiting for a slot waits for one that can go on. */
  lemma SlotHolderMoves(cfg: Config, s: State)
    requires cfg.Valid() && Slotted(cfg, s) && s.slotsUsed >= cfg.slots
    ensures exists v :: v in s.workers && CanStep(cfg, s, v)
  {
    var v :| v in SlotHolders(s);
    HolderMoves(cfg, s, v);
    hide CanStep;
  }

  lemma HolderMoves(cfg: Config, s: State, v: nat)
    requires v in s.workers && HoldsSlot(At(s, v))
    ensures CanStep(cfg, s, v)
  {
  }

  /** Every wait ends at a worker that can go on, because gates are taken before slots. */
  lemma NoDeadlock(cfg: Config, s: State)
    requires cfg.Valid() && Inv(cfg, s) && s.workers != map[]
    ensures exists v :: v in s.workers && CanStep(cfg, s, v)
  {
    hide Paired, OwnTasks, Counted, Conserved, Tried, CanStep, GateRight;
    var w :| w in s.workers;
    if !CanStep(cfg, s, w) {
      OnlySemaphoresBlock(cfg, s, w);
      if At(s, w).AtGate? {
        var g := At(s, w).gate;
        var h := s.gates[g].holder.value;
        HolderIsWorker(s, g);
        if !CanStep(cfg, s, h) {
          OnlySemaphoresBlock(cfg, s, h);
          SlotHolderMoves(cfg, s);
        }
      } else {
        SlotHolderMoves(cfg, s);
      }
    }
  }

  lemma HolderIsWorker(s: State, g: nat)
    requires Gated(s) && g in s.gates && s.gates[g].holder.Some?
    ensures s.gates[g].holder.value in s.workers && HoldsGate(At(s, s.gates[g].holder.value))
  {
    assert GateRight(s, g);
  }

  /** Some worker has a step to take whenever an accepted task has not ended. */
  lemma UnfinishedMoves(cfg: Config, log: seq<Event>)
    requires cfg.Valid() && Reached(cfg, log).Some?
    requires |Reached(cfg, log).value.ended| != |Reached(cfg, log).value.accepted|
    ensures exists v :: v in Reached(cfg, log).value.workers && CanStep(cfg, Reached(cfg, log).value, v)
  {
    InvAlways(cfg, log);
    var s := Reached(cfg, log).value;
    if s.workers == map[] {
      AtRest(cfg, s);
    } else {
      NoDeadlock(cfg, s);
    }
  }

  lemma NothingByKeys(a: seq<Task>, b: seq<Task>)
    requires a == [] && forall key :: Of(a, key) == Of(b, key)
    ensures b == []
  {
    if b != [] {
      OfMembers(b, b[0].key, b[0]);
      OfMembers(a, b[0].key, b[0]);
    }
  }

  /** Where the last task of a has its like in b. */
  lemma LastIsThere(a: seq<Task>, b: seq<Task>) returns (at: nat)
    requires a != [] && Of(b, a[|a| - 1].key) == Of(a, a[|a| - 1].key)
    ensures at < |b| && b[at].key == a[|a| - 1].key
    ensures forall i | at < i < |b| :: b[i].key != a[|a| - 1].key
  {
    var last := a[|a| - 1];
    OfMembers(a, last.key, last);
    at := LastOf(b, last.key);
    hide Of;
  }

  lemma KeyWithoutLast(a: seq<Task>, b: seq<Task>, at: nat, key: string)
    requires a != [] && at < |b| && b[at].key == a[|a| - 1].key && Of(a, key) == Of(b, key)
    requires forall i | at < i < |b| :: b[i].key != b[at].key
    ensures Of(a[..|a| - 1], key) == Of(b[..at] + b[at + 1..], key)
  {
    hide Of;
    var front, last, rest := a[..|a| - 1], a[|a| - 1], b[..at] + b[at + 1..];
    WithoutLast(b, last.key, at, key);
    OfSnoc(front, last, key);
    assert a == front + [last];
    if key == last.key {
      Snoc(Of(front, key), Of(rest, key), last, b[at]);
    } else {
      assert Of(a, key) == Of(front, key) && Of(b, key) == Of(rest, key);
    }
  }

  /** Two lists of tasks with the same tasks for every key are equally long. */
  lemma {:induction false} SameByKeys(a: seq<Task>, b: seq<Task>)
    requires forall key :: Of(a, key) == Of(b, key)
    ensures |a| == |b|
  {
    hide Of;
    if a == [] {
      NothingByKeys(a, b);
    } else {
      var at := LastIsThere(a, b);
      var rest := b[..at] + b[at + 1..];
      forall key ensures Of(a[..|a| - 1], key) == Of(rest, key) {
        KeyWithoutLast(a, b, at, key);
      }
      SameByKeys(a[..|a| - 1], rest);
    }
  }

  lemma Snoc(a: seq<Task>, b: seq<Task>, x: Task, y: Task)
    ensures a + [x] == b + [y] ==> a == b
  {
    assert (a + [x])[..|a|] == a;
    assert (b + [y])[..|b|] == b;
    assert |a + [x]| == |a| + 1 && |b + [y]| == |b| + 1;
  }

  /** Where the last task of a key stands. */
  function LastOf(tasks: seq<Task>, key: string): (at: nat)
    ensures Of(tasks, key) != [] ==> at < |tasks| && tasks[at].key == key
    ensures forall i | at < i < |tasks| :: tasks[i].key != key
  {
    if tasks == [] then 0
    else if tasks[|tasks| - 1].key == key then |tasks| - 1
    else LastOf(tasks[..|tasks| - 1], key)
  }

  lemma {:induction false} OfConcat(a: seq<Task>, b: seq<Task>, key: string)
    ensures Of(a + b, key) == Of(a, key) + Of(b, key)
  {
    if b == [] {
      assert a + b == a;
    } else {
      OfConcat(a, b[..|b| - 1], key);
      assert (a + b)[..|a + b| - 1] == a + b[..|b| - 1];
    }
  }

  lemma {:induction false} OfNone(tasks: seq<Task>, key: string)
    requires forall i | 0 <= i < |tasks| :: tasks[i].key != key
    ensures Of(tasks, key) == []
  {
    if tasks != [] {
      OfNone(tasks[..|tasks| - 1], key);
    }
  }

  lemma WithoutLast(tasks: seq<Task>, last: string, at: nat, key: string)
    requires at < |tasks| && tasks[at].key == last && forall i | at < i < |tasks| :: tasks[i].key != last
    ensures Of(tasks, key) == Of(tasks[..at] + tasks[at + 1..], key) + if key == last then [tasks[at]] else []
  {
    hide Of;
    var before, after := tasks[..at], tasks[at + 1..];
    assert tasks == before + [tasks[at]] + after;
    OfConcat(before + [tasks[at]], after, key);
    OfConcat(before, after, key);
    OfSnoc(before, tasks[at], key);
    if key == last {
      OfNone(after, key);
    }
  }

  /** Without workers nothing is left: every accepted task has ended. */
  lemma AtRest(cfg: Config, s: State)
    requires Inv(cfg, s) && s.workers == map[]
    ensures |s.ended| == |s.accepted| && s.open == {} && s.chains == map[] && s.slotsUsed == 0 && s.gates == map[]
  {
    assert s.chains == map[];
    assert SlotHolders(s) == {};
    forall key ensures Of(s.accepted, key) == Of(EndedTasks(s.ended), key) {
      assert ConservedFor(s, key);
    }
    SameByKeys(s.accepted, EndedTasks(s.ended));
    assert forall task :: !Queued(s, task) && !Working(s, task);
    NoWorkersNoGates(s);
  }

  lemma NoWorkersNoGates(s: State)
    requires Gated(s) && s.workers == map[]
    ensures s.gates == map[]
  {
    assert forall g :: Users(s, g) == {};
  }

  ghost function Sum<K(!new), V>(m: map<K, V>, f: V -> nat): nat {
    if m == map[] then 0
    else
      var k :| k in m;
      f(m[k]) + Sum(m - {k}, f)
  }

  lemma {:induction false} SumWithout<K(!new), V>(m: map<K, V>, k: K, f: V -> nat)
    requires k in m
    ensures Sum(m, f) == f(m[k]) + Sum(m - {k}, f)
    decreases |m|
  {
    var j :| j in m && Sum(m, f) == f(m[j]) + Sum(m - {j}, f);
    if j != k {
      SumWithout(m - {j}, k, f);
      SumWithout(m - {k}, j, f);
      assert m - {j} - {k} == m - {k} - {j};
    }
  }

  lemma SumPut<K(!new), V>(m: map<K, V>, k: K, v: V, f: V -> nat)
    ensures Sum(m[k := v], f) == f(v) + Sum(m - {k}, f)
  {
    SumWithout(m[k := v], k, f);
    assert m[k := v] - {k} == m - {k};
  }

  /** Steps a task may still cost from its registration on. */
  function Cost(cfg: Config): nat {
    3 * cfg.maxAttempts + 9
  }

  /** An upper bound of the steps a worker has left with its task, and its next look. */
  function Rank(cfg: Config, stage: Stage): nat {
    match stage
    case Looking => 1
    case Reporting(_, _) => 2
    case Finishing(_, _) => 3
    case Unregistering(_, _, _) => 4
    case LeavingGate(_, _, _) => 5
    case LeavingSlot(_, _, _) => 6
    case Delaying(_, _, a) => 7 + 3 * Less(cfg.maxAttempts + 1 - Min(a, cfg.maxAttempts + 1))
    case Executing(_, _, a) => 8 + 3 * Less(cfg.maxAttempts + 1 - Min(a, cfg.maxAttempts + 1))
    case Prepared(_, _, a) => 9 + 3 * Less(cfg.maxAttempts + 1 - Min(a, cfg.maxAttempts + 1))
    case AtSlot(_, _) => 7 + 3 * cfg.maxAttempts
    case AtGate(_, _) => 8 + 3 * cfg.maxAttempts
    case Registering(_) => Cost(cfg)
  }

  function Min(a: nat, b: nat): (m: nat)
    ensures m <= b
  {
    if a < b then a else b
  }

  ghost function WorkerRank(cfg: Config): Worker -> nat {
    (worker: Worker) => Rank(cfg, worker.stage)
  }

  ghost function ChainRank(cfg: Config): Chain -> nat {
    (chain: Chain) => Cost(cfg) * |chain.tasks|
  }

  /** The steps left to a queue that accepts nothing more. */
  ghost function Potential(cfg: Config, s: State): nat {
    Sum(s.workers, WorkerRank(cfg)) + Sum(s.chains, ChainRank(cfg))
  }

  lemma AdvanceFalls(cfg: Config, s: State, e: Event)
    requires cfg.Valid() && Enabled(cfg, s, e) && OfWorker(e) && StageTried(cfg, s, At(s, e.worker))
    ensures Rank(cfg, Advance(cfg, s, e)) < Rank(cfg, At(s, e.worker))
  {
  }

  lemma ShiftFalls(cfg: Config, s: State, e: Event)
    requires cfg.Valid() && Tried(cfg, s) && Enabled(cfg, s, e) && OfWorker(e)
    ensures Potential(cfg, Shifted(cfg, s, e)) < Potential(cfg, s)
  {
    var t, w, f := Shifted(cfg, s, e), e.worker, WorkerRank(cfg);
    AdvanceKeepsTask(cfg, s, e);
    assert StageTried(cfg, s, At(s, w));
    AdvanceFalls(cfg, s, e);
    ShiftOnlyStage(cfg, s, e);
    assert t.chains == s.chains;
    hide Advance, Shifted, Rank, StageTried, EndingTried;
    SumWithout(s.workers, w, f);
    SumPut(s.workers, w, t.workers[w], f);
  }

  lemma TakeFalls(cfg: Config, s: State, w: nat)
    requires Paired(s) && w in s.workers && At(s, w).Looking?
    ensures Potential(cfg, Took(s, w)) < Potential(cfg, s)
  {
    var t, key, f := Took(s, w), s.workers[w].key, WorkerRank(cfg);
    SumWithout(s.workers, w, f);
    SumWithout(s.chains, key, ChainRank(cfg));
    if s.chains[key].tasks != [] {
      SumPut(s.workers, w, t.workers[w], f);
      SumPut(s.chains, key, t.chains[key], ChainRank(cfg));
      assert Cost(cfg) * |s.chains[key].tasks| == Cost(cfg) * (|s.chains[key].tasks| - 1) + Cost(cfg);
    }
  }

  /** Every step of a worker uses up potential, and cancelling adds none. */
  lemma PotentialFalls(cfg: Config, s: State, e: Event)
    requires cfg.Valid() && Inv(cfg, s) && Enabled(cfg, s, e) && !e.Enqueue?
    ensures Potential(cfg, Next(cfg, s, e)) <= Potential(cfg, s)
    ensures !e.Cancel? ==> Potential(cfg, Next(cfg, s, e)) < Potential(cfg, s)
  {
    hide Shifted, Took, Gated, OwnTasks, Slotted, Counted, Conserved;
    if e.Take? {
      TakeFalls(cfg, s, e.worker);
    } else if OfWorker(e) {
      ShiftFalls(cfg, s, e);
    }
  }

  function WorkerSteps(log: seq<Event>): nat {
    if log == [] then 0
    else WorkerSteps(log[..|log| - 1]) + if log[|log| - 1].Cancel? || log[|log| - 1].Enqueue? then 0 else 1
  }

  /** Once the queue accepts nothing more, workers take a bounded number of steps. */
  lemma {:induction false} RunsDown(cfg: Config, log: seq<Event>, more: seq<Event>)
    requires cfg.Valid() && Reached(cfg, log + more).Some?
    requires forall i | 0 <= i < |more| :: !more[i].Enqueue?
    ensures Reached(cfg, log).Some?
    ensures WorkerSteps(more) + Potential(cfg, Reached(cfg, log + more).value)
         <= Potential(cfg, Reached(cfg, log).value)
  {
    if more == [] {
      assert log + more == log;
    } else {
      var less := more[..|more| - 1];
      assert (log + more)[..|log + more| - 1] == log + less;
      RunsDown(cfg, log, less);
      InvAlways(cfg, log + less);
      PotentialFalls(cfg, Reached(cfg, log + less).value, more[|more| - 1]);
    }
  }

  /** A run that goes on until no worker can step ends with every accepted task ended and with
      nothing held: waiting for the queue returns, whether it was cancelled or not. */
  lemma WaitReturns(cfg: Config, log: seq<Event>, more: seq<Event>)
    requires cfg.Valid() && Reached(cfg, log + more).Some?
    requires forall i | 0 <= i < |more| :: !more[i].Enqueue?
    ensures Reached(cfg, log).Some? && WorkerSteps(more) <= Potential(cfg, Reached(cfg, log).value)
    ensures var s := Reached(cfg, log + more).value;
      (forall w | w in s.workers :: !CanStep(cfg, s, w)) ==>
        |s.ended| == |s.accepted| && s.open == {} && s.workers == map[] && s.gates == map[] && s.slotsUsed == 0
  {
    RunsDown(cfg, log, more);
    InvAlways(cfg, log + more);
    var s := Reached(cfg, log + more).value;
    if forall w | w in s.workers :: !CanStep(cfg, s, w) {
      hide Inv, CanStep;
      if s.workers != map[] {
        NoDeadlock(cfg, s);
      }
      AtRest(cfg, s);
    }
  }
}
