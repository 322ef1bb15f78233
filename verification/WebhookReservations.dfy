/** When exactly a reservation of a webhook's key stays in the table, in every run and whoever else
    holds the key. */
module WebhookReservations {
  import opened Wrappers
  import opened WebhookDedupe
  import opened WebhookService

  /** An entry is as fresh as every reservation or confirmation of its key that still stands. */
  ghost predicate FreshFor(s: State, ttl: nat, job: Job, key: string) {
    Keeps(job, key) ==>
      Until(job, key) <= s.now + ttl && (key in s.seen ==> s.seen[key].expires >= Until(job, key))
  }

  ghost predicate AllFresh(s: State, ttl: nat) {
    forall id, key | id in s.jobs :: FreshFor(s, ttl, s.jobs[id], key)
  }

  /** What any step leaves of a key's entry: gone, unchanged, or written just now. */
  lemma EntryAfter(s: State, ttl: nat, e: Event, key: string)
    requires Enabled(s, e)
    ensures var t := Next(s, ttl, e);
      key in t.seen ==>
        (key in s.seen && t.seen[key] == s.seen[key]) || (t.now == s.now && t.seen[key].expires == s.now + ttl)
  {
    hide JobAfter;
  }

  lemma OwnFresh(s: State, ttl: nat, e: Event, key: string)
    requires Enabled(s, e) && !e.Tick? && !e.Cancel? && DistinctKeys(s)
    requires e.id in s.jobs ==> FreshFor(s, ttl, s.jobs[e.id], key)
    ensures FreshFor(Next(s, ttl, e), ttl, JobAfter(s, ttl, e), key)
  {
    if e.ReserveDelivery? || e.ReserveWorkflow? {
      OwnFreshReserve(s, ttl, e, key);
    } else if e.Confirm? {
      OwnFreshConfirm(s, ttl, e, key);
    } else if e.Drop? {
      OwnFreshDrop(s, ttl, e, key);
    } else {
      hide AfterReserve, AfterConfirm, AfterDrop, Grants, Reserved, Confirmed, Dropped;
    }
  }

  lemma OwnFreshReserve(s: State, ttl: nat, e: Event, key: string)
    requires Enabled(s, e) && (e.ReserveDelivery? || e.ReserveWorkflow?) && DistinctKeys(s)
    requires FreshFor(s, ttl, s.jobs[e.id], key)
    ensures FreshFor(Next(s, ttl, e), ttl, JobAfter(s, ttl, e), key)
  {
    assert s.jobs[e.id].delivery != s.jobs[e.id].workflow;
    hide AfterConfirm, AfterDrop, Confirmed, Dropped, DistinctKeys;
  }

  lemma OwnFreshConfirm(s: State, ttl: nat, e: Event, key: string)
    requires Enabled(s, e) && e.Confirm? && DistinctKeys(s)
    requires FreshFor(s, ttl, s.jobs[e.id], key)
    ensures FreshFor(Next(s, ttl, e), ttl, JobAfter(s, ttl, e), key)
  {
    assert s.jobs[e.id].delivery != s.jobs[e.id].workflow;
    hide AfterReserve, AfterDrop, Reserved, Dropped, DistinctKeys;
  }

  lemma OwnFreshDrop(s: State, ttl: nat, e: Event, key: string)
    requires Enabled(s, e) && e.Drop? && DistinctKeys(s)
    requires FreshFor(s, ttl, s.jobs[e.id], key)
    ensures FreshFor(Next(s, ttl, e), ttl, JobAfter(s, ttl, e), key)
  {
    hide AfterReserve, AfterConfirm, Reserved, Confirmed, DistinctKeys;
  }

  lemma FreshStep(s: State, ttl: nat, e: Event)
    requires Enabled(s, e) && DistinctKeys(s) && AllFresh(s, ttl)
    ensures AllFresh(Next(s, ttl, e), ttl)
  {
    var t := Next(s, ttl, e);
    forall id, key | id in t.jobs ensures FreshFor(t, ttl, t.jobs[id], key) {
      if id in s.jobs {
        assert FreshFor(s, ttl, s.jobs[id], key);
      }
      if !e.Tick? && !e.Cancel? && id == e.id {
        OwnFresh(s, ttl, e, key);
      } else {
        EntryAfter(s, ttl, e, key);
        hide SeenAfter, JobAfter, Keeps, Until, Enabled;
      }
    }
  }

  lemma {:induction false} FreshAlways(ttl: nat, log: seq<Event>)
    requires Reached(ttl, log).Some?
    ensures AllFresh(Reached(ttl, log).value, ttl) && DistinctKeys(Reached(ttl, log).value)
  {
    if log != [] {
      FreshAlways(ttl, log[..|log| - 1]);
      var before, e := Reached(ttl, log[..|log| - 1]).value, log[|log| - 1];
      FreshStep(before, ttl, e);
      SameKeys(before, ttl, e);
      hide AllFresh, DistinctKeys, Next, Enabled;
    }
  }

  /** The job's reservation has neither expired nor ended. */
  predicate Due(s: State, id: nat, key: string) {
    id in s.jobs && Keeps(s.jobs[id], key) && s.now < Until(s.jobs[id], key)
  }

  /** Another webhook, still at work and not completed, holds the key as well. */
  ghost predicate Disputed(s: State, id: nat, key: string) {
    exists a :: a != id && Unfinished(s, a, key)
  }

  predicate Unfinished(s: State, a: nat, key: string) {
    a in s.jobs && Keeps(s.jobs[a], key) && !s.jobs[a].stage.Gone? && !s.jobs[a].complete
  }

  /** A job that drops a key holds it, is at work and has not completed. */
  lemma DropperIsUnfinished(s: State, e: Event)
    requires Enabled(s, e) && e.Drop? && StageTold(s.jobs[e.id], s.cancelled)
    ensures KeyAt(s.jobs[e.id]) == "" || Unfinished(s, e.id, KeyAt(s.jobs[e.id]))
  {
    TouchedKey(s, e);
  }

  /** A job that dropped a key no longer holds it. */
  lemma DroppedIsGivenUp(s: State, ttl: nat, e: Event)
    requires Enabled(s, e) && e.Drop? && s.jobs[e.id].delivery != s.jobs[e.id].workflow && KeyAt(s.jobs[e.id]) != ""
    ensures !Keeps(JobAfter(s, ttl, e), KeyAt(s.jobs[e.id]))
  {
  }

  /** An entry disappears only by expiry or by a drop. */
  lemma EntryGoes(s: State, ttl: nat, e: Event, key: string)
    requires Enabled(s, e) && key in s.seen && s.seen[key].expires > s.now && key !in Next(s, ttl, e).seen
    ensures e.Drop? && KeyAt(s.jobs[e.id]) == key && key != ""
  {
    hide JobAfter;
  }

  lemma DueEntryStays(s: State, ttl: nat, e: Event, b: nat, key: string)
    requires Enabled(s, e) && AllTold(s) && DistinctKeys(s) && AllFresh(s, ttl)
    requires Due(s, b, key) && key in s.seen && !Disputed(s, b, key) && Due(Next(s, ttl, e), b, key)
    ensures key in Next(s, ttl, e).seen
  {
    assert FreshFor(s, ttl, s.jobs[b], key);
    if key !in Next(s, ttl, e).seen {
      EntryGoes(s, ttl, e, key);
      DropperIsUnfinished(s, e);
      if e.id == b {
        DroppedIsGivenUp(s, ttl, e);
      }
    }
  }

  /** Nobody new can come to hold a key whose entry has not expired. */
  lemma NoNewHolder(s: State, ttl: nat, e: Event, a: nat, key: string)
    requires Enabled(s, e) && DistinctKeys(s) && key in s.seen && s.seen[key].expires > s.now
    requires Unfinished(Next(s, ttl, e), a, key)
    ensures Unfinished(s, a, key)
  {
    if !e.Tick? && !e.Cancel? && e.id == a {
      OwnKeys(s, ttl, e, key);
      CompleteStays(s, ttl, e);
      hide JobAfter, Keeps;
    }
  }

  lemma CompleteStays(s: State, ttl: nat, e: Event)
    requires Enabled(s, e) && !e.Tick? && !e.Cancel? && e.id in s.jobs
    ensures s.jobs[e.id].complete ==> JobAfter(s, ttl, e).complete
  {
  }

  lemma UndisputedStays(s: State, ttl: nat, e: Event, b: nat, key: string)
    requires Enabled(s, e) && DistinctKeys(s) && AllFresh(s, ttl)
    requires Due(s, b, key) && key in s.seen && !Disputed(s, b, key)
    ensures !Disputed(Next(s, ttl, e), b, key)
  {
    assert FreshFor(s, ttl, s.jobs[b], key);
    forall a | a != b && Unfinished(Next(s, ttl, e), a, key) ensures false {
      NoNewHolder(s, ttl, e, a, key);
    }
  }

  /** The reservation was due at every moment of the run. */
  ghost predicate DueThroughout(s: State, ttl: nat, more: seq<Event>, id: nat, key: string)
    decreases |more|
  {
    && Due(s, id, key)
    && (more != [] ==> Enabled(s, more[0]) && DueThroughout(Next(s, ttl, more[0]), ttl, more[1..], id, key))
  }

  lemma {:induction false} UndisputedLasts(s: State, ttl: nat, more: seq<Event>, b: nat, key: string)
    requires AllTold(s) && DistinctKeys(s) && AllFresh(s, ttl)
    requires DueThroughout(s, ttl, more, b, key) && key in s.seen && !Disputed(s, b, key)
    ensures RunFrom(s, ttl, more).Some? && key in RunFrom(s, ttl, more).value.seen
    decreases |more|
  {
    if more != [] {
      var e := more[0];
      DueEntryStays(s, ttl, e, b, key);
      UndisputedStays(s, ttl, e, b, key);
      ToldAfter(s, ttl, e);
      FreshStep(s, ttl, e);
      SameKeys(s, ttl, e);
      hide Disputed, Due, AllTold, AllFresh, DistinctKeys, Next, Enabled;
      UndisputedLasts(Next(s, ttl, e), ttl, more[1..], b, key);
    }
  }

  lemma ToldAfter(s: State, ttl: nat, e: Event)
    requires Enabled(s, e) && AllTold(s)
    ensures AllTold(Next(s, ttl, e))
  {
    if !e.Tick? && !e.Cancel? {
      ToldStep(s, ttl, e);
    }
    hide JobAfter, SeenAfter, Enabled;
  }

  /** A webhook's step on its way to freeing its keys without completing. */
  function TowardFreeing(job: Job, id: nat, cancelled: bool): Event {
    match job.stage
    case DeliveryHeld => ReserveWorkflow(id)
    case BothHeld => Admit(id, false)
    case Queued => if cancelled then GiveUp(id) else Start(id)
    case Running => Business(id, false)
    case Returned => GiveUp(id)
    case FinallyFailed => Decide(id)
    case Acking(_, _) => Acknowledge(id, true)
    case AwaitingTimer(_) => Retry(id)
    case _ => Drop(id)
  }

  function Distance(stage: Stage): nat {
    match stage
    case DeliveryHeld => 9
    case BothHeld => 8
    case Queued => 7
    case Running => 6
    case Returned => 5
    case FinallyFailed => 4
    case AwaitingTimer(_) => 4
    case Acking(_, _) => 3
    case Dropping => 2
    case RefusingDelivery => 2
    case AbandoningDelivery => 2
    case ReleasingDelivery => 2
    case _ => 1
  }

  /** The state after further steps, if all of them can be taken. */
  ghost function RunFrom(s: State, ttl: nat, more: seq<Event>): Option<State>
    decreases |more|
  {
    if more == [] then Some(s)
    else if Enabled(s, more[0]) then RunFrom(Next(s, ttl, more[0]), ttl, more[1..]) else None
  }

  lemma FreeingStep(s: State, ttl: nat, id: nat, key: string)
    requires id in s.jobs && !s.jobs[id].complete && StageTold(s.jobs[id], s.cancelled)
    requires Keeps(s.jobs[id], key) && !s.jobs[id].stage.Gone? && s.jobs[id].delivery != s.jobs[id].workflow
    ensures var e := TowardFreeing(s.jobs[id], id, s.cancelled);
      && Enabled(s, e) && !e.Tick? && !e.Cancel? && e.id == id
      && var after := JobAfter(s, ttl, e);
      && !after.complete && (Distance(after.stage) < Distance(s.jobs[id].stage) || key !in Next(s, ttl, e).seen)
      && ((Keeps(after, key) && !after.stage.Gone?) || key !in Next(s, ttl, e).seen)
  {
  }

  /** A step of this job's own. */
  predicate StepOf(e: Event, id: nat) {
    !e.Tick? && !e.Cancel? && !e.Arrive? && e.id == id
  }

  /** A webhook at work that has not completed can take its keys out of the table by its own further
      steps, which leave the clock and every other webhook alone. */
  lemma {:induction false} UnfinishedCanFree(s: State, ttl: nat, a: nat, key: string)
      returns (more: seq<Event>, t: State)
    requires AllTold(s) && DistinctKeys(s) && Unfinished(s, a, key)
    ensures RunFrom(s, ttl, more) == Some(t) && key !in t.seen
    ensures forall i | 0 <= i < |more| :: StepOf(more[i], a)
    decreases Distance(s.jobs[a].stage)
  {
    assert StageTold(s.jobs[a], s.cancelled);
    FreeingStep(s, ttl, a, key);
    var e := TowardFreeing(s.jobs[a], a, s.cancelled);
    var u := Next(s, ttl, e);
    assert RunFrom(u, ttl, []) == Some(u);
    if key !in u.seen {
      more, t := [e], u;
      assert more[1..] == [];
    } else {
      ToldStep(s, ttl, e);
      SameKeys(s, ttl, e);
      hide JobAfter, SeenAfter, StageTold, Keeps, Distance, TowardFreeing, Enabled;
      var rest;
      rest, t := UnfinishedCanFree(u, ttl, a, key);
      more := [e] + rest;
      assert more[1..] == rest;
    }
  }

  lemma {:induction false} OthersStayDue(s: State, ttl: nat, more: seq<Event>, a: nat, b: nat, key: string)
    requires a != b && Due(s, b, key) && RunFrom(s, ttl, more).Some?
    requires forall i | 0 <= i < |more| :: StepOf(more[i], a)
    ensures DueThroughout(s, ttl, more, b, key)
    decreases |more|
  {
    if more != [] {
      hide JobAfter, SeenAfter, Keeps, Until, Enabled;
      assert StepOf(more[0], a);
      OthersStayDue(Next(s, ttl, more[0]), ttl, more[1..], a, b, key);
    }
  }

  /** A live reservation whose key another unfinished webhook holds can be lost before it expires. */
  lemma DisputedReservationCanBeLost(ttl: nat, log: seq<Event>, b: nat, key: string)
      returns (more: seq<Event>, t: State)
    requires Reached(ttl, log).Some?
    requires Due(Reached(ttl, log).value, b, key) && key in Reached(ttl, log).value.seen
    requires Disputed(Reached(ttl, log).value, b, key)
    ensures DueThroughout(Reached(ttl, log).value, ttl, more, b, key)
    ensures RunFrom(Reached(ttl, log).value, ttl, more) == Some(t) && key !in t.seen
  {
    var s := Reached(ttl, log).value;
    ToldAlways(ttl, log);
    FreshAlways(ttl, log);
    var a :| a != b && Unfinished(s, a, key);
    more, t := UnfinishedCanFree(s, ttl, a, key);
    OthersStayDue(s, ttl, more, a, b, key);
  }

  /** A completed webhook that still holds an overdue key never frees another's reservation; all it can
      do to the entry is to mark it succeeded and make it last longer. */
  lemma CompleteOnlyMarks(ttl: nat, log: seq<Event>, e: Event, key: string)
    requires Reached(ttl, log).Some? && Enabled(Reached(ttl, log).value, e)
    requires var s := Reached(ttl, log).value;
      && !e.Tick? && !e.Cancel? && !e.Arrive? && s.jobs[e.id].complete && key in s.seen && s.seen[key].expires > s.now
    ensures var s, t := Reached(ttl, log).value, Next(Reached(ttl, log).value, ttl, e);
      && key in t.seen
      && (t.seen[key] == s.seen[key] || (e.Confirm? && t.seen[key] == Entry(Succeeded, s.now + ttl)))
  {
    var s := Reached(ttl, log).value;
    ToldAlways(ttl, log);
    if key !in Next(s, ttl, e).seen {
      EntryGoes(s, ttl, e, key);
      DropperIsUnfinished(s, e);
    }
    hide JobAfter;
  }

  /** Whatever happens next, the entry is there as long as the reservation is due. */
  ghost predicate Lasts(s: State, ttl: nat, id: nat, key: string) {
    forall more | DueThroughout(s, ttl, more, id, key) ::
      RunFrom(s, ttl, more).Some? && key in RunFrom(s, ttl, more).value.seen
  }

  /** A live reservation stays in the table until it expires or its own webhook is done with it, if and
      only if no other webhook still at work and not completed holds the key. */
  lemma LastsIffUndisputed(ttl: nat, log: seq<Event>, b: nat, key: string)
    requires Reached(ttl, log).Some?
    requires Due(Reached(ttl, log).value, b, key) && key in Reached(ttl, log).value.seen
    ensures Lasts(Reached(ttl, log).value, ttl, b, key) <==> !Disputed(Reached(ttl, log).value, b, key)
  {
    var s := Reached(ttl, log).value;
    ToldAlways(ttl, log);
    FreshAlways(ttl, log);
    if !Disputed(s, b, key) {
      forall more | DueThroughout(s, ttl, more, b, key)
        ensures RunFrom(s, ttl, more).Some? && key in RunFrom(s, ttl, more).value.seen
      {
        UndisputedLasts(s, ttl, more, b, key);
      }
    } else {
      var more, t := DisputedReservationCanBeLost(ttl, log, b, key);
    }
  }

  /** Such a dispute arises: a webhook outlives its reservation, and a redelivery reserves its key. */
  const DisputeRun := [
    Arrive(0, "", "run"), ReserveDelivery(0), ReserveWorkflow(0), Admit(0, true), Tick(1),
    Arrive(1, "", "run"), ReserveDelivery(1), ReserveWorkflow(1)]

  lemma OneMore(log: seq<Event>, s: State, e: Event)
    requires Reached(1, log) == Some(s) && Enabled(s, e)
    ensures Reached(1, log + [e]) == Some(Next(s, 1, e))
  {
    assert (log + [e])[..|log|] == log;
  }

  function Webhook(stage: Stage, deliveryUntil: nat, workflowUntil: nat): Job {
    Job("", "run", stage, false, 0, false, false, deliveryUntil, workflowUntil)
  }

  lemma FirstArrival()
    ensures Reached(1, DisputeRun[..2]) == Some(State(0, false, map[], map[0 := Webhook(DeliveryHeld, 1, 0)]))
  {
    var run := DisputeRun;
    assert run[..1] == [] + [run[0]] && run[..2] == run[..1] + [run[1]];
    var arrived := State(0, false, map[], map[0 := Webhook(Arrived, 0, 0)]);
    assert Next(EMPTY, 1, run[0]) == arrived;
    OneMore([], EMPTY, run[0]);
    hide Reached;
    assert JobAfter(arrived, 1, ReserveDelivery(0)) == Webhook(DeliveryHeld, 1, 0);
    assert Next(arrived, 1, ReserveDelivery(0)) == State(0, false, map[], map[0 := Webhook(DeliveryHeld, 1, 0)]);
    OneMore(run[..1], arrived, run[1]);
  }

  lemma FirstReservation()
    ensures var held := State(0, false, map[], map[0 := Webhook(DeliveryHeld, 1, 0)]);
      Next(held, 1, ReserveWorkflow(0)) ==
        State(0, false, map["run" := Entry(InFlight, 1)], map[0 := Webhook(BothHeld, 1, 1)])
  {
    var held := State(0, false, map[], map[0 := Webhook(DeliveryHeld, 1, 0)]);
    assert JobAfter(held, 1, ReserveWorkflow(0)) == Webhook(BothHeld, 1, 1);
    assert Pruned(map[], 0) == map[];
  }

  lemma FirstHolding()
    ensures Reached(1, DisputeRun[..3]) ==
      Some(State(0, false, map["run" := Entry(InFlight, 1)], map[0 := Webhook(BothHeld, 1, 1)]))
  {
    var run := DisputeRun;
    FirstArrival();
    FirstReservation();
    assert run[..3] == run[..2] + [run[2]];
    hide Reached;
    OneMore(run[..2], State(0, false, map[], map[0 := Webhook(DeliveryHeld, 1, 0)]), run[2]);
  }

  lemma FirstHolder()
    ensures Reached(1, DisputeRun[..5]) ==
      Some(State(1, false, map["run" := Entry(InFlight, 1)], map[0 := Webhook(Queued, 1, 1)]))
  {
    var run := DisputeRun;
    FirstHolding();
    assert run[..4] == run[..3] + [run[3]] && run[..5] == run[..4] + [run[4]];
    hide Reached;
    var held := map["run" := Entry(InFlight, 1)];
    var both := State(0, false, held, map[0 := Webhook(BothHeld, 1, 1)]);
    var queued := State(0, false, held, map[0 := Webhook(Queued, 1, 1)]);
    assert JobAfter(both, 1, run[3]) == Webhook(Queued, 1, 1);
    assert Next(both, 1, run[3]) == queued;
    OneMore(run[..3], both, run[3]);
    OneMore(run[..4], queued, run[4]);
  }

  lemma SecondArrival()
    ensures Reached(1, DisputeRun[..6]) == Some(
      State(1, false, map["run" := Entry(InFlight, 1)], map[0 := Webhook(Queued, 1, 1), 1 := Webhook(Arrived, 0, 0)]))
  {
    var run := DisputeRun;
    FirstHolder();
    assert run[..6] == run[..5] + [run[5]];
    hide Reached;
    OneMore(run[..5], State(1, false, map["run" := Entry(InFlight, 1)], map[0 := Webhook(Queued, 1, 1)]), run[5]);
  }

  lemma SecondDelivery()
    ensures Reached(1, DisputeRun[..7]) == Some(
      State(1, false, map["run" := Entry(InFlight, 1)],
            map[0 := Webhook(Queued, 1, 1), 1 := Webhook(DeliveryHeld, 2, 0)]))
  {
    var run := DisputeRun;
    SecondArrival();
    assert run[..7] == run[..6] + [run[6]];
    hide Reached;
    var held, first := map["run" := Entry(InFlight, 1)], Webhook(Queued, 1, 1);
    var arrived := State(1, false, held, map[0 := first, 1 := Webhook(Arrived, 0, 0)]);
    OneMore(run[..6], arrived, run[6]);
    assert JobAfter(arrived, 1, ReserveDelivery(1)) == Webhook(DeliveryHeld, 2, 0);
    assert Next(arrived, 1, ReserveDelivery(1)).jobs == map[0 := first, 1 := Webhook(DeliveryHeld, 2, 0)];
  }

  lemma DisputeHappens()
    ensures var s := Reached(1, DisputeRun);
      s.Some? && Due(s.value, 1, "run") && "run" in s.value.seen && Unfinished(s.value, 0, "run")
  {
    var run := DisputeRun;
    SecondDelivery();
    assert run == run[..7] + [run[7]];
    hide Reached;
    var jobs := map[0 := Webhook(Queued, 1, 1), 1 := Webhook(DeliveryHeld, 2, 0)];
    OneMore(run[..7], State(1, false, map["run" := Entry(InFlight, 1)], jobs), run[7]);
  }
}
