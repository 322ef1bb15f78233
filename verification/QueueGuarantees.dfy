/** What the release queue promises in every state that any run of it can reach. */
module QueueGuarantees {
  import opened Wrappers
  import opened QueueMachine
  import opened QueueInvariant
  import opened QueueHistory
  import opened QueueAttempts
  import opened QueueKeys

  ghost function Running(s: State): set<nat> {
    set w | w in s.workers && At(s, w).Executing?
  }

  /** At most one task per repository executes, whatever its branch and the case of its name, and
      never more tasks than there are slots. Which keys are of one repository is told by their texts. */
  lemma RepositoriesExclude(cfg: Config, log: seq<Event>)
    requires cfg.Valid() && Reached(cfg, log).Some?
    ensures var s := Reached(cfg, log).value;
      && |Running(s)| <= cfg.slots
      && (forall v, w | v in Running(s) && w in Running(s) && v != w ::
            !OneRepository(At(s, v).task.key, At(s, w).task.key))
  {
    InvAlways(cfg, log);
    var s := Reached(cfg, log).value;
    assert Running(s) <= SlotHolders(s);
    SubsetSize(Running(s), SlotHolders(s));
    forall v, w | v in Running(s) && w in Running(s) && v != w
      ensures !OneRepository(At(s, v).task.key, At(s, w).task.key)
    {
      DifferentRepositories(s, v, w);
      OneRepositoryByText(At(s, v).task.key, At(s, w).task.key);
    }
  }

  /** A task is accepted exactly if the queue is not cancelled and has room, whatever its key, and
      waiting for room is all it takes; cancelling is always possible. */
  lemma EnqueueAccepts(cfg: Config, s: State, key: string)
    ensures Enabled(cfg, s, Enqueue(key)) && Enabled(cfg, s, Cancel) && Next(cfg, s, Cancel).cancelled
    ensures var t := Next(cfg, s, Enqueue(key));
      if s.cancelled || s.pending >= cfg.maxPending then t == s
      else t.accepted == s.accepted + [Task(|s.accepted|, key)] && t.pending == s.pending + 1
           && Waiting(t, key) == Waiting(s, key) + [Task(|s.accepted|, key)]
  {
  }

  /** Tasks wait for each other at one gate exactly if their keys stand for one repository. */
  lemma GatesAreShared(cfg: Config, log: seq<Event>, v: nat, w: nat)
    requires cfg.Valid() && Reached(cfg, log).Some?
    requires var s := Reached(cfg, log).value;
      v in s.workers && w in s.workers && UsesGate(At(s, v)).Some? && UsesGate(At(s, w)).Some?
    ensures var s := Reached(cfg, log).value;
      UsesGate(At(s, v)) == UsesGate(At(s, w)) <==> OneRepository(At(s, v).task.key, At(s, w).task.key)
  {
    InvAlways(cfg, log);
    var s := Reached(cfg, log).value;
    hide Reached;
    SameGate(s, v, w);
    OneRepositoryByText(At(s, v).task.key, At(s, w).task.key);
  }

  lemma SameGate(s: State, v: nat, w: nat)
    requires OwnTasks(s) && Gated(s)
    requires v in s.workers && w in s.workers && UsesGate(At(s, v)).Some? && UsesGate(At(s, w)).Some?
    ensures UsesGate(At(s, v)) == UsesGate(At(s, w)) <==>
      QueueRepository(At(s, v).task.key) == QueueRepository(At(s, w).task.key)
  {
    var g, h := UsesGate(At(s, v)).value, UsesGate(At(s, w)).value;
    assert WorkerGated(s, v, g) && WorkerGated(s, w, h);
    assert GateRight(s, g) && GateRight(s, h);
  }

  lemma SubsetSize<T>(small: set<T>, large: set<T>)
    requires small <= large
    ensures |small| <= |large|
  {
    assert large == small + (large - small);
  }

  lemma DifferentRepositories(s: State, v: nat, w: nat)
    requires Paired(s) && OwnTasks(s) && Gated(s) && v != w
    requires v in s.workers && w in s.workers && HoldsGate(At(s, v)) && HoldsGate(At(s, w))
    ensures QueueRepository(At(s, v).task.key) != QueueRepository(At(s, w).task.key)
  {
    var g, h := UsesGate(At(s, v)).value, UsesGate(At(s, w)).value;
    assert WorkerGated(s, v, g) && WorkerGated(s, w, h);
    assert GateRight(s, g) && GateRight(s, h);
  }

  /** A repository never has two live gates, and a gate lives only while some worker uses it. */
  lemma GatesLiveWithUsers(cfg: Config, log: seq<Event>)
    requires cfg.Valid() && Reached(cfg, log).Some?
    ensures var s := Reached(cfg, log).value;
      && (forall g, h | g in s.gates && h in s.gates && g != h :: s.gates[g].repository != s.gates[h].repository)
      && (forall g | g in s.gates :: exists w :: w in s.workers && UsesGate(At(s, w)) == Some(g))
      && (forall r :: r in s.repositories <==> exists g :: g in s.gates && s.gates[g].repository == r)
      && (s.open == {} ==> s.gates == map[] && s.repositories == map[])
  {
    InvAlways(cfg, log);
    var s := Reached(cfg, log).value;
    GatesOfUsers(cfg, s);
    hide Inv, UsesGate, InFlight;
    if s.open == {} && s.gates != map[] {
      var g :| g in s.gates;
      var w :| w in s.workers && UsesGate(At(s, w)) == Some(g);
      UsersAreInFlight(s, w);
      CarriedIsOpen(cfg, s, w);
    }
  }

  lemma UsersAreInFlight(s: State, w: nat)
    requires w in s.workers && UsesGate(At(s, w)).Some?
    ensures InFlight(At(s, w))
  {
  }

  lemma GatesOfUsers(cfg: Config, s: State)
    requires Inv(cfg, s)
    ensures forall g, h | g in s.gates && h in s.gates && g != h :: s.gates[g].repository != s.gates[h].repository
    ensures forall g | g in s.gates :: exists w :: w in s.workers && UsesGate(At(s, w)) == Some(g)
    ensures forall r :: r in s.repositories <==> exists g :: g in s.gates && s.gates[g].repository == r
    ensures s.gates == map[] ==> s.repositories == map[]
  {
    assert forall g | g in s.gates :: GateRight(s, g);
    forall g | g in s.gates ensures exists w :: w in s.workers && UsesGate(At(s, w)) == Some(g) {
      assert |Users(s, g)| > 0;
      var w :| w in Users(s, g);
    }
  }

  lemma CarriedIsOpen(cfg: Config, s: State, w: nat)
    requires Inv(cfg, s) && w in s.workers && InFlight(At(s, w))
    ensures At(s, w).task.id in s.open
  {
    var task, key := At(s, w).task, s.workers[w].key;
    assert Current(s, key) == [task];
    assert task in Line(s, key);
    InLine(cfg, s, key, task);
    assert Working(s, task);
  }

  /** Pending is the number of accepted tasks that are queued or at work, and is bounded. */
  lemma PendingIsExact(cfg: Config, log: seq<Event>)
    requires cfg.Valid() && Reached(cfg, log).Some?
    ensures var s := Reached(cfg, log).value;
      && s.pending == |s.open| <= cfg.maxPending
      && s.open == set id: nat | id < |s.accepted| && (Queued(s, s.accepted[id]) || Working(s, s.accepted[id])) :: id
  {
    InvAlways(cfg, log);
  }

  /** Tasks of a key are taken in acceptance order, never two at a time, and one is only taken
      once all earlier ones of its key have ended. */
  lemma KeysRunInOrder(cfg: Config, log: seq<Event>, key: string)
    requires cfg.Valid() && Reached(cfg, log).Some?
    ensures var s := Reached(cfg, log).value;
      && Of(s.taken, key) <= Of(s.accepted, key)
      && Of(EndedTasks(s.ended), key) <= Of(s.taken, key)
      && |Of(s.taken, key)| <= |Of(EndedTasks(s.ended), key)| + 1
      && (forall v, w | v in s.workers && w in s.workers && v != w && Carries(At(s, v)) && Carries(At(s, w)) ::
            At(s, v).task.key != At(s, w).task.key)
      && (forall w | w in s.workers && Carries(At(s, w)) && At(s, w).task.key == key ::
            Of(s.taken, key) == Of(EndedTasks(s.ended), key) + [At(s, w).task])
  {
    InvAlways(cfg, log);
    var s := Reached(cfg, log).value;
    assert ConservedFor(s, key);
    forall w | w in s.workers && Carries(At(s, w)) && At(s, w).task.key == key
      ensures Of(s.taken, key) == Of(EndedTasks(s.ended), key) + [At(s, w).task]
    {
      assert Current(s, key) == [At(s, w).task];
    }
  }

  /** No task ends twice, none is tried more than the limit, a success took at least one try, and
      a failure without cancellation used every try. */
  lemma TasksEndOnce(cfg: Config, log: seq<Event>)
    requires cfg.Valid() && Reached(cfg, log).Some?
    ensures var s := Reached(cfg, log).value;
      && (forall i, j | 0 <= i < j < |s.ended| :: s.ended[i].task != s.ended[j].task)
      && (forall i | 0 <= i < |s.ended| :: s.ended[i].task in s.accepted && s.ended[i].task.id !in s.open)
      && (forall id :: Tries(s, id) <= cfg.maxAttempts)
      && (forall i | 0 <= i < |s.ended| && s.ended[i].ok :: 1 <= Tries(s, s.ended[i].task.id))
      && (forall i | 0 <= i < |s.ended| && !s.ended[i].ok && !s.cancelled ::
            Tries(s, s.ended[i].task.id) == cfg.maxAttempts)
  {
    InvAlways(cfg, log);
    var s := Reached(cfg, log).value;
    forall i | 0 <= i < |s.ended| ensures s.ended[i].task in s.accepted && s.ended[i].task.id !in s.open {
      EndedIsClosed(cfg, s, i);
    }
    forall i, j | 0 <= i < j < |s.ended| ensures s.ended[i].task != s.ended[j].task {
      EndedOnce(cfg, s, i, j);
    }
    assert forall i | 0 <= i < |s.ended| :: EndingTried(cfg, s, s.ended[i]);
  }

  lemma EndedIsClosed(cfg: Config, s: State, i: nat)
    requires Inv(cfg, s) && i < |s.ended|
    ensures s.ended[i].task in s.accepted && s.ended[i].task.id !in s.open
  {
    hide Gated, Slotted, Tried;
    var task := s.ended[i].task;
    var key := task.key;
    var ended := Of(EndedTasks(s.ended), key);
    EndedInLine(s, i);
    InLine(cfg, s, key, task);
    LineRises(cfg, s, key);
    assert Line(s, key) == ended + (Current(s, key) + Waiting(s, key));
    RisingApart(ended, task, Current(s, key) + Waiting(s, key));
  }

  lemma RisingApart(before: seq<Task>, task: Task, after: seq<Task>)
    requires Rising(before + after) && task in before
    ensures task !in after
  {
    var all := before + after;
    var i :| 0 <= i < |before| && before[i] == task;
    assert all[i] == task;
    assert forall j | 0 <= j < |after| :: all[|before| + j] == after[j];
  }

  lemma EndedOnce(cfg: Config, s: State, i: nat, j: nat)
    requires Inv(cfg, s) && i < j < |s.ended|
    ensures s.ended[i].task != s.ended[j].task
  {
    var tasks, task := EndedTasks(s.ended), s.ended[i].task;
    if s.ended[j].task == task {
      LineRises(cfg, s, task.key);
      var ended := Of(tasks, task.key);
      assert Line(s, task.key) == ended + (Current(s, task.key) + Waiting(s, task.key));
      assert forall k | 0 <= k < |ended| :: Line(s, task.key)[k] == ended[k];
      TwiceInOf(tasks, task.key, i, j);
    }
  }

  lemma {:induction false} TwiceInOf(tasks: seq<Task>, key: string, i: nat, j: nat)
    requires i < j < |tasks| && tasks[i].key == key && tasks[j] == tasks[i]
    ensures !Rising(Of(tasks, key))
  {
    var n := |tasks| - 1;
    if j < n {
      TwiceInOf(tasks[..n], key, i, j);
      var front := Of(tasks[..n], key);
      assert forall k | 0 <= k < |front| :: Of(tasks, key)[k] == front[k];
    } else {
      assert tasks[..n][i] == tasks[i];
      OfMembers(tasks[..n], key, tasks[i]);
      var front := Of(tasks[..n], key);
      var k :| 0 <= k < |front| && front[k] == tasks[i];
      assert Of(tasks, key)[k] == tasks[i] && Of(tasks, key)[|front|] == tasks[i];
    }
  }
}
