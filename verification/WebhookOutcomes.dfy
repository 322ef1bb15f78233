/** How a webhook can end: acknowledged as failed exactly if its callback gave up before cancellation,
    and left for the next start, with its keys free, if cancellation came first. */
module WebhookOutcomes {
  import opened Wrappers
  import opened WebhookDedupe
  import opened WebhookService
  import opened WebhookReservations

  /** The state before the last step of a run. */
  ghost predicate Before(ttl: nat, log: seq<Event>, id: nat, cancelled: bool)
    requires log != []
  {
    var before := Reached(ttl, log[..|log| - 1]);
    && before.Some? && id in before.value.jobs
    && !before.value.jobs[id].complete && before.value.cancelled == cancelled
  }

  /** The webhook's callback decided without success, after or before cancellation. */
  ghost predicate GaveUp(ttl: nat, log: seq<Event>, id: nat, cancelled: bool) {
    log != [] &&
    (GaveUp(ttl, log[..|log| - 1], id, cancelled) || (log[|log| - 1] == Decide(id) && Before(ttl, log, id, cancelled)))
  }

  /** After such a decision before cancellation, an acknowledgement went through. */
  ghost predicate FailureRecorded(ttl: nat, log: seq<Event>, id: nat) {
    log != [] &&
    (|| FailureRecorded(ttl, log[..|log| - 1], id)
     || (log[|log| - 1] == Acknowledge(id, true) && GaveUp(ttl, log[..|log| - 1], id, false)))
  }

  /** After such a decision upon cancellation, a step of the webhook's left the key free. */
  ghost predicate Freed(ttl: nat, log: seq<Event>, id: nat, key: string) {
    log != [] &&
    (|| Freed(ttl, log[..|log| - 1], id, key)
     || (log[|log| - 1] == Drop(id) && GaveUp(ttl, log[..|log| - 1], id, true)
         && Reached(ttl, log).Some? && key !in Reached(ttl, log).value.seen))
  }

  /** Stages after a decision before cancellation and without success. */
  predicate Recording(stage: Stage) {
    || Failing(stage)
    || (stage.Acking? && !stage.completed && (stage.origin == Callback || stage.origin == Timer))
    || (stage.AwaitingTimer? && !stage.completed)
  }

  /** What the history of its steps says about where a webhook stands. */
  ghost predicate OutcomeTold(ttl: nat, log: seq<Event>, id: nat, job: Job) {
    && (GaveUp(ttl, log, id, false) <==> Recording(job.stage))
    && (GaveUp(ttl, log, id, true) <==> Abandoning(job.stage))
    && (FailureRecorded(ttl, log, id) <==> job.ackedFailed)
    && (Abandoning(job.stage) && !job.stage.AbandoningDelivery? && job.delivery != "" ==>
          Freed(ttl, log, id, job.delivery))
    && (job.stage == Gone(Abandoned) && job.workflow != "" ==> Freed(ttl, log, id, job.workflow))
  }

  /** What a webhook's own step does to its outcome. */
  lemma OutcomeStep(s: State, ttl: nat, e: Event)
    requires Enabled(s, e) && !e.Tick? && !e.Cancel? && e.id in s.jobs && StageTold(s.jobs[e.id], s.cancelled)
    ensures var job, after := s.jobs[e.id], JobAfter(s, ttl, e);
      && (Recording(after.stage) <==> Recording(job.stage) || (e.Decide? && !job.complete && !s.cancelled))
      && (Abandoning(after.stage) <==> Abandoning(job.stage) || (e.Decide? && !job.complete && s.cancelled))
      && (after.ackedFailed <==> job.ackedFailed || (e == Acknowledge(e.id, true) && Recording(job.stage)))
      && after.delivery == job.delivery && after.workflow == job.workflow
  {
    hide Grants;
  }

  /** An abandoned webhook drops its delivery key, then its workflow key. */
  lemma AbandonStep(s: State, ttl: nat, e: Event)
    requires Enabled(s, e) && !e.Tick? && !e.Cancel? && e.id in s.jobs && Abandoning(s.jobs[e.id].stage)
    ensures var job, after := s.jobs[e.id], JobAfter(s, ttl, e);
      && e == Drop(e.id)
      && after.stage == (if job.stage.AbandoningDelivery? then AbandoningWorkflow else Gone(Abandoned))
      && (job.stage.AbandoningDelivery? ==> job.delivery == "" || job.delivery !in Next(s, ttl, e).seen)
      && (job.stage.AbandoningWorkflow? ==> job.workflow == "" || job.workflow !in Next(s, ttl, e).seen)
  {
  }

  lemma DecidedStage(s: State, ttl: nat, e: Event)
    requires Enabled(s, e) && e.Decide? && Abandoning(JobAfter(s, ttl, e).stage)
    ensures JobAfter(s, ttl, e).stage.AbandoningDelivery?
  {
  }

  lemma OtherStepTold(ttl: nat, log: seq<Event>, id: nat, job: Job)
    requires log != [] && !StepOf(log[|log| - 1], id) && OutcomeTold(ttl, log[..|log| - 1], id, job)
    ensures OutcomeTold(ttl, log, id, job)
  {
  }

  lemma OwnStepTold(ttl: nat, log: seq<Event>, id: nat)
    requires log != [] && Reached(ttl, log).Some? && StepOf(log[|log| - 1], id)
    requires var before := Reached(ttl, log[..|log| - 1]).value;
      id in before.jobs && OutcomeTold(ttl, log[..|log| - 1], id, before.jobs[id])
      && StageTold(before.jobs[id], before.cancelled)
    ensures OutcomeTold(ttl, log, id, Reached(ttl, log).value.jobs[id])
  {
    var front, e := log[..|log| - 1], log[|log| - 1];
    var before := Reached(ttl, front).value;
    var job := before.jobs[id];
    OutcomeStep(before, ttl, e);
    if Abandoning(job.stage) {
      AbandonStep(before, ttl, e);
    } else if e.Decide? && !job.complete && before.cancelled {
      DecidedStage(before, ttl, e);
    }
    assert forall key :: Freed(ttl, front, id, key) ==> Freed(ttl, log, id, key);
    assert e.Drop? && Abandoning(job.stage) ==>
      forall key :: key !in Next(before, ttl, e).seen ==> Freed(ttl, log, id, key);
    hide JobAfter, SeenAfter, Recording, Enabled, StageTold, Freed;
  }

  lemma StartTold(ttl: nat, log: seq<Event>, id: nat)
    requires log != [] && Reached(ttl, log).Some? && log[|log| - 1].Arrive? && log[|log| - 1].id == id
    requires !GaveUp(ttl, log[..|log| - 1], id, false) && !GaveUp(ttl, log[..|log| - 1], id, true)
    requires !FailureRecorded(ttl, log[..|log| - 1], id)
    ensures OutcomeTold(ttl, log, id, Reached(ttl, log).value.jobs[id])
  {
  }

  /** In every run the history of a webhook's steps decides where it stands. */
  lemma {:induction false} OutcomesAlways(ttl: nat, log: seq<Event>, id: nat)
    requires Reached(ttl, log).Some?
    ensures if id in Reached(ttl, log).value.jobs then OutcomeTold(ttl, log, id, Reached(ttl, log).value.jobs[id])
            else !GaveUp(ttl, log, id, false) && !GaveUp(ttl, log, id, true) && !FailureRecorded(ttl, log, id)
  {
    if log != [] {
      var front, e := log[..|log| - 1], log[|log| - 1];
      OutcomesAlways(ttl, front, id);
      ToldAlways(ttl, front);
      var before, s := Reached(ttl, front).value, Reached(ttl, log).value;
      if StepOf(e, id) && id in before.jobs {
        OwnStepTold(ttl, log, id);
      } else if e.Arrive? && e.id == id {
        StartTold(ttl, log, id);
      } else if id in before.jobs {
        assert s.jobs[id] == before.jobs[id];
        OtherStepTold(ttl, log, id, s.jobs[id]);
      }
      hide JobAfter, SeenAfter, OutcomeTold;
    }
  }

  /** A failure is durably recorded exactly if the callback decided before cancellation, without
      success, and an acknowledgement went through since. */
  lemma WhenFailureIsRecorded(ttl: nat, log: seq<Event>, id: nat)
    requires Reached(ttl, log).Some? && id in Reached(ttl, log).value.jobs
    ensures Reached(ttl, log).value.jobs[id].ackedFailed <==> FailureRecorded(ttl, log, id)
  {
    OutcomesAlways(ttl, log, id);
  }

  /** A webhook whose callback decided upon cancellation, without success, is never acknowledged, so
      that the next start finds it; all it still does is to give back its keys, one after the other,
      and once it is done both have been free. */
  lemma CancelledIsLeft(ttl: nat, log: seq<Event>, id: nat)
    requires Reached(ttl, log).Some? && id in Reached(ttl, log).value.jobs && GaveUp(ttl, log, id, true)
    ensures var s := Reached(ttl, log).value; var job := s.jobs[id];
      && !job.ackedCompleted && !job.ackedFailed && !job.complete
      && (job.stage.Gone? ==>
            && job.stage == Gone(Abandoned)
            && (job.delivery == "" || Freed(ttl, log, id, job.delivery))
            && (job.workflow == "" || Freed(ttl, log, id, job.workflow)))
      && (!job.stage.Gone? ==> Enabled(s, Drop(id)))
      && (forall e | Enabled(s, e) && StepOf(e, id) :: e == Drop(id) && !job.stage.Gone?)
  {
    OutcomesAlways(ttl, log, id);
    ToldAlways(ttl, log);
    var s := Reached(ttl, log).value;
    assert StageTold(s.jobs[id], s.cancelled);
    hide Reached, GaveUp, Freed, FailureRecorded;
  }

  /** A webhook that is not done can always take a step of its own: no stage is a dead end. */
  lemma NeverStuck(s: State, id: nat)
    requires id in s.jobs && !s.jobs[id].stage.Gone?
    ensures exists e :: StepOf(e, id) && Enabled(s, e)
  {
    var stage := s.jobs[id].stage;
    var e := match stage
      case Arrived => ReserveDelivery(id)
      case DeliveryHeld => ReserveWorkflow(id)
      case BothHeld => Admit(id, true)
      case Queued => if s.cancelled then GiveUp(id) else Start(id)
      case Running => Business(id, true)
      case Acking(_, _) => Acknowledge(id, true)
      case Returned => GiveUp(id)
      case FinallyFailed => Decide(id)
      case AwaitingTimer(_) => Retry(id)
      case MarkingDelivery => Confirm(id)
      case MarkingWorkflow => Confirm(id)
      case _ => Drop(id);
    assert Enabled(s, e) && StepOf(e, id);
  }

  /** A new webhook may come in: its number is new, and both its keys would be granted. */
  predicate Welcome(s: State, id: nat, delivery: string, workflow: string) {
    && id !in s.jobs && workflow != "" && delivery != workflow
    && Grants(s.seen, delivery, s.now) && Grants(s.seen, workflow, s.now)
  }

  /** The way in: both keys are reserved and the webhook waits for admission. */
  function WayIn(id: nat, delivery: string, workflow: string): seq<Event> {
    [Arrive(id, delivery, workflow), ReserveDelivery(id), ReserveWorkflow(id)]
  }

  lemma RunMore(s: State, ttl: nat, first: seq<Event>, second: seq<Event>)
    ensures RunFrom(s, ttl, first).None? ==> RunFrom(s, ttl, first + second).None?
    ensures RunFrom(s, ttl, first).Some? ==>
      RunFrom(s, ttl, first + second) == RunFrom(RunFrom(s, ttl, first).value, ttl, second)
    decreases |first|
  {
    if first == [] {
      assert first + second == second;
    } else {
      assert (first + second)[1..] == first[1..] + second;
      if Enabled(s, first[0]) {
        RunMore(Next(s, ttl, first[0]), ttl, first[1..], second);
      }
    }
  }

  lemma RunStep(s: State, ttl: nat, first: seq<Event>, e: Event)
    requires RunFrom(s, ttl, first).Some? && Enabled(RunFrom(s, ttl, first).value, e)
    ensures RunFrom(s, ttl, first + [e]) == Some(Next(RunFrom(s, ttl, first).value, ttl, e))
  {
    RunMore(s, ttl, first, [e]);
    assert [e][1..] == [];
  }

  function Look(seen: Table, key: string): Option<Entry> {
    if key != "" && key in seen then Some(seen[key]) else None
  }

  /** Where the webhook stands at the time of s, and what the table says of its keys. */
  ghost predicate Stands(s: State, run: Option<State>, id: nat, job: Job, delivery: Option<Entry>,
                         workflow: Option<Entry>)
  {
    run.Some? &&
    var t := run.value;
    && t.now == s.now && t.cancelled == s.cancelled && id in t.jobs && t.jobs[id] == job
    && Look(t.seen, job.delivery) == delivery && Look(t.seen, job.workflow) == workflow
  }

  function Held(s: State, ttl: nat, key: string): Option<Entry> {
    if key == "" then None else Some(Entry(InFlight, s.now + ttl))
  }

  function Marked(s: State, ttl: nat, key: string): Option<Entry> {
    if key == "" then None else Some(Entry(Succeeded, s.now + ttl))
  }

  /** A step that is no call on the table. */
  lemma QuietStep(s: State, ttl: nat, log: seq<Event>, e: Event, job: Job, after: Job,
                  delivery: Option<Entry>, workflow: Option<Entry>)
    requires !e.Arrive? && !e.Tick? && !e.Cancel? && Stands(s, RunFrom(s, ttl, log), e.id, job, delivery, workflow)
    requires !e.ReserveDelivery? && !e.ReserveWorkflow? && !e.Confirm? && !e.Drop?
    requires Enabled(RunFrom(s, ttl, log).value, e) && JobAfter(RunFrom(s, ttl, log).value, ttl, e) == after
    requires after.delivery == job.delivery && after.workflow == job.workflow
    ensures Stands(s, RunFrom(s, ttl, log + [e]), e.id, after, delivery, workflow)
  {
    RunStep(s, ttl, log, e);
    hide JobAfter, RunFrom;
  }

  lemma ConfirmBoth(s: State, ttl: nat, log: seq<Event>, id: nat, job: Job)
    requires job.stage.MarkingDelivery? && job.delivery != job.workflow && job.workflow != ""
    requires Stands(s, RunFrom(s, ttl, log), id, job, Held(s, ttl, job.delivery), Held(s, ttl, job.workflow))
    requires job.deliveryUntil == job.workflowUntil == s.now + ttl
    ensures Stands(s, RunFrom(s, ttl, log + [Confirm(id)] + [Confirm(id)]), id, job.(stage := Gone(CompletedMarked)),
                   Marked(s, ttl, job.delivery), Marked(s, ttl, job.workflow))
  {
    RunStep(s, ttl, log, Confirm(id));
    RunStep(s, ttl, log + [Confirm(id)], Confirm(id));
    hide RunFrom;
  }

  lemma DropBoth(s: State, ttl: nat, log: seq<Event>, id: nat, job: Job, entries: (Option<Entry>, Option<Entry>))
    requires job.stage.RefusingDelivery? || job.stage.ReleasingDelivery? || job.stage.AbandoningDelivery?
    requires job.delivery != job.workflow
    requires Stands(s, RunFrom(s, ttl, log), id, job, entries.0, entries.1)
    ensures Stands(s, RunFrom(s, ttl, log + [Drop(id)] + [Drop(id)]), id,
                   job.(stage := Gone(if job.stage.RefusingDelivery? then Rejected
                                      else if job.stage.ReleasingDelivery? then FailedDurably else Abandoned)),
                   None, None)
  {
    RunStep(s, ttl, log, Drop(id));
    RunStep(s, ttl, log + [Drop(id)], Drop(id));
    hide RunFrom;
  }

  function Taken(s: State, ttl: nat, delivery: string, workflow: string): Job {
    Job(delivery, workflow, BothHeld, false, 0, false, false, s.now + ttl, s.now + ttl)
  }

  lemma ArrivesFirst(s: State, ttl: nat, id: nat, delivery: string, workflow: string)
    requires Welcome(s, id, delivery, workflow) && ttl > 0
    ensures var e := Arrive(id, delivery, workflow);
      && Enabled(s, e)
      && Next(s, ttl, e) ==
           s.(jobs := s.jobs[id := Job(delivery, workflow, Arrived, false, 0, false, false, 0, 0)])
  {
  }

  lemma ReservesDelivery(s: State, ttl: nat, id: nat, job: Job)
    requires id in s.jobs && s.jobs[id] == job && job.stage.Arrived? && Grants(s.seen, job.delivery, s.now)
    ensures Enabled(s, ReserveDelivery(id))
    ensures Next(s, ttl, ReserveDelivery(id)) ==
      s.(jobs := s.jobs[id := job.(stage := DeliveryHeld, deliveryUntil := s.now + ttl)],
         seen := Reserved(s.seen, job.delivery, s.now, ttl))
  {
  }

  lemma ReservesWorkflow(s: State, ttl: nat, id: nat, job: Job)
    requires id in s.jobs && s.jobs[id] == job && job.stage.DeliveryHeld? && Grants(s.seen, job.workflow, s.now)
    ensures Enabled(s, ReserveWorkflow(id))
    ensures Next(s, ttl, ReserveWorkflow(id)) ==
      s.(jobs := s.jobs[id := job.(stage := BothHeld, workflowUntil := s.now + ttl)],
         seen := Reserved(s.seen, job.workflow, s.now, ttl))
  {
  }

  lemma BothReserved(seen: Table, now: nat, ttl: nat, delivery: string, workflow: string)
    requires workflow != "" && delivery != workflow && ttl > 0
    requires Grants(seen, delivery, now) && Grants(seen, workflow, now)
    ensures var first := Reserved(seen, delivery, now, ttl); var second := Reserved(first, workflow, now, ttl);
      && Grants(first, workflow, now)
      && Look(second, workflow) == Some(Entry(InFlight, now + ttl))
      && Look(second, delivery) == if delivery == "" then None else Some(Entry(InFlight, now + ttl))
  {
  }

  /** A webhook whose keys are granted takes them both. */
  lemma ComesIn(s: State, ttl: nat, id: nat, delivery: string, workflow: string)
    requires Welcome(s, id, delivery, workflow) && ttl > 0
    ensures Stands(s, RunFrom(s, ttl, WayIn(id, delivery, workflow)), id, Taken(s, ttl, delivery, workflow),
                   Held(s, ttl, delivery), Held(s, ttl, workflow))
  {
    var arrive, first, second := Arrive(id, delivery, workflow), ReserveDelivery(id), ReserveWorkflow(id);
    var arrived := Job(delivery, workflow, Arrived, false, 0, false, false, 0, 0);
    BothReserved(s.seen, s.now, ttl, delivery, workflow);
    ArrivesFirst(s, ttl, id, delivery, workflow);
    var s1 := Next(s, ttl, arrive);
    hide Next, Enabled, Reserved, Grants;
    ReservesDelivery(s1, ttl, id, arrived);
    var s2 := Next(s1, ttl, first);
    ReservesWorkflow(s2, ttl, id, s2.jobs[id]);
    assert RunFrom(s, ttl, []) == Some(s);
    hide RunFrom;
    RunStep(s, ttl, [], arrive);
    RunStep(s, ttl, [] + [arrive], first);
    RunStep(s, ttl, [] + [arrive] + [first], second);
    assert [] + [arrive] + [first] + [second] == WayIn(id, delivery, workflow);
  }

  function UntilRunning(id: nat, delivery: string, workflow: string): seq<Event> {
    WayIn(id, delivery, workflow) + [Admit(id, true)] + [Start(id)]
  }

  lemma GetsRunning(s: State, ttl: nat, id: nat, delivery: string, workflow: string)
    requires Welcome(s, id, delivery, workflow) && ttl > 0 && !s.cancelled
    ensures Stands(s, RunFrom(s, ttl, UntilRunning(id, delivery, workflow)), id,
                   Taken(s, ttl, delivery, workflow).(stage := Running), Held(s, ttl, delivery), Held(s, ttl, workflow))
  {
    var run, job := WayIn(id, delivery, workflow), Taken(s, ttl, delivery, workflow);
    var d, w := Held(s, ttl, delivery), Held(s, ttl, workflow);
    ComesIn(s, ttl, id, delivery, workflow);
    hide RunFrom;
    Quiet(s, ttl, run, Admit(id, true), job, job.(stage := Queued), d, w);
    Quiet(s, ttl, run + [Admit(id, true)], Start(id), job.(stage := Queued), job.(stage := Running), d, w);
  }

  function Won(s: State, ttl: nat, delivery: string, workflow: string): Job {
    Taken(s, ttl, delivery, workflow).(stage := Acking(FirstTry, true), complete := true, wins := 1)
  }

  lemma Wins(s: State, ttl: nat, id: nat, delivery: string, workflow: string)
    requires Welcome(s, id, delivery, workflow) && ttl > 0 && !s.cancelled
    ensures Stands(s, RunFrom(s, ttl, UntilRunning(id, delivery, workflow) + [Business(id, true)]), id,
                   Won(s, ttl, delivery, workflow), Held(s, ttl, delivery), Held(s, ttl, workflow))
  {
    GetsRunning(s, ttl, id, delivery, workflow);
    hide RunFrom, UntilRunning;
    Quiet(s, ttl, UntilRunning(id, delivery, workflow), Business(id, true),
          Taken(s, ttl, delivery, workflow).(stage := Running), Won(s, ttl, delivery, workflow),
          Held(s, ttl, delivery), Held(s, ttl, workflow));
  }

  lemma GivesUp(s: State, ttl: nat, id: nat, delivery: string, workflow: string)
    requires Welcome(s, id, delivery, workflow) && ttl > 0 && !s.cancelled
    ensures Stands(s, RunFrom(s, ttl, UntilRunning(id, delivery, workflow) + [Business(id, false)] + [GiveUp(id)]), id,
                   Taken(s, ttl, delivery, workflow).(stage := FinallyFailed),
                   Held(s, ttl, delivery), Held(s, ttl, workflow))
  {
    var run, job := UntilRunning(id, delivery, workflow), Taken(s, ttl, delivery, workflow);
    var d, w := Held(s, ttl, delivery), Held(s, ttl, workflow);
    GetsRunning(s, ttl, id, delivery, workflow);
    hide RunFrom, UntilRunning;
    Quiet(s, ttl, run, Business(id, false), job.(stage := Running), job.(stage := Returned), d, w);
    Quiet(s, ttl, run + [Business(id, false)], GiveUp(id), job.(stage := Returned), job.(stage := FinallyFailed), d, w);
  }

  /** A webhook that comes in, is admitted, runs well and is acknowledged at once ends with both keys
      marked for a full lifetime. */
  lemma EndsWell(s: State, ttl: nat, id: nat, delivery: string, workflow: string)
    requires Welcome(s, id, delivery, workflow) && ttl > 0 && !s.cancelled
    ensures Stands(s, RunFrom(s, ttl, WayIn(id, delivery, workflow) +
                                      [Admit(id, true), Start(id), Business(id, true), Acknowledge(id, true),
                                       Confirm(id), Confirm(id)]),
                   id, Job(delivery, workflow, Gone(CompletedMarked), true, 1, true, false, s.now + ttl, s.now + ttl),
                   Marked(s, ttl, delivery), Marked(s, ttl, workflow))
  {
    var run, job := WayIn(id, delivery, workflow), Taken(s, ttl, delivery, workflow);
    var d, w := Held(s, ttl, delivery), Held(s, ttl, workflow);
    Wins(s, ttl, id, delivery, workflow);
    hide RunFrom;
    var done := UntilRunning(id, delivery, workflow) + [Business(id, true)];
    var acked := Won(s, ttl, delivery, workflow).(stage := MarkingDelivery, ackedCompleted := true);
    Quiet(s, ttl, done, Acknowledge(id, true), Won(s, ttl, delivery, workflow), acked, d, w);
    ConfirmBoth(s, ttl, done + [Acknowledge(id, true)], id, acked);
    assert run + [Admit(id, true), Start(id), Business(id, true), Acknowledge(id, true), Confirm(id), Confirm(id)]
        == done + [Acknowledge(id, true)] + [Confirm(id)] + [Confirm(id)];
  }

  /** A quiet step, told by stages alone. */
  lemma Quiet(s: State, ttl: nat, log: seq<Event>, e: Event, job: Job, after: Job,
              delivery: Option<Entry>, workflow: Option<Entry>)
    requires !e.Arrive? && !e.Tick? && !e.Cancel? && Stands(s, RunFrom(s, ttl, log), e.id, job, delivery, workflow)
    requires !e.ReserveDelivery? && !e.ReserveWorkflow? && !e.Confirm? && !e.Drop?
    requires StageAllows(job.stage, s.cancelled, e)
    requires JobAfter(State(s.now, s.cancelled, map[], map[e.id := job]), ttl, e) == after
    requires after.delivery == job.delivery && after.workflow == job.workflow
    ensures Stands(s, RunFrom(s, ttl, log + [e]), e.id, after, delivery, workflow)
  {
    var t := RunFrom(s, ttl, log).value;
    assert Enabled(t, e) && JobAfter(t, ttl, e) == after;
    QuietStep(s, ttl, log, e, job, after, delivery, workflow);
  }

  /** One whose attempts fail gives both keys back once the failure is recorded. */
  lemma EndsBadly(s: State, ttl: nat, id: nat, delivery: string, workflow: string)
    requires Welcome(s, id, delivery, workflow) && ttl > 0 && !s.cancelled
    ensures Stands(s, RunFrom(s, ttl, WayIn(id, delivery, workflow) +
                                      [Admit(id, true), Start(id), Business(id, false), GiveUp(id), Decide(id),
                                       Acknowledge(id, true), Drop(id), Drop(id)]),
                   id, Job(delivery, workflow, Gone(FailedDurably), false, 0, false, true, s.now + ttl, s.now + ttl),
                   None, None)
  {
    var run, job := WayIn(id, delivery, workflow), Taken(s, ttl, delivery, workflow);
    var d, w := Held(s, ttl, delivery), Held(s, ttl, workflow);
    GivesUp(s, ttl, id, delivery, workflow);
    hide RunFrom;
    var given := UntilRunning(id, delivery, workflow) + [Business(id, false)] + [GiveUp(id)];
    Quiet(s, ttl, given, Decide(id), job.(stage := FinallyFailed), job.(stage := Acking(Callback, false)), d, w);
    var decided := given + [Decide(id)];
    var acked := job.(stage := ReleasingDelivery, ackedFailed := true);
    Quiet(s, ttl, decided, Acknowledge(id, true), job.(stage := Acking(Callback, false)), acked, d, w);
    DropBoth(s, ttl, decided + [Acknowledge(id, true)], id, acked, (d, w));
    assert run + [Admit(id, true), Start(id), Business(id, false), GiveUp(id), Decide(id), Acknowledge(id, true),
                  Drop(id), Drop(id)]
        == decided + [Acknowledge(id, true)] + [Drop(id)] + [Drop(id)];
  }

  /** One that is refused admission gives both keys back and has left no trace. */
  lemma EndsRefused(s: State, ttl: nat, id: nat, delivery: string, workflow: string)
    requires Welcome(s, id, delivery, workflow) && ttl > 0
    ensures Stands(s, RunFrom(s, ttl, WayIn(id, delivery, workflow) + [Admit(id, false), Drop(id), Drop(id)]),
                   id, Job(delivery, workflow, Gone(Rejected), false, 0, false, false, s.now + ttl, s.now + ttl),
                   None, None)
  {
    var run, job := WayIn(id, delivery, workflow), Taken(s, ttl, delivery, workflow);
    var d, w := Held(s, ttl, delivery), Held(s, ttl, workflow);
    ComesIn(s, ttl, id, delivery, workflow);
    hide RunFrom;
    Quiet(s, ttl, run, Admit(id, false), job, job.(stage := RefusingDelivery), d, w);
    DropBoth(s, ttl, run + [Admit(id, false)], id, job.(stage := RefusingDelivery), (d, w));
    assert run + [Admit(id, false), Drop(id), Drop(id)] == run + [Admit(id, false)] + [Drop(id)] + [Drop(id)];
  }

  /** One whose key is taken is turned away, and the taker's entry stays as it is. */
  lemma IsTurnedAway(s: State, ttl: nat, e: Event)
    requires Enabled(s, e) && (e.ReserveDelivery? || e.ReserveWorkflow?)
    requires var key := if e.ReserveDelivery? then s.jobs[e.id].delivery else s.jobs[e.id].workflow;
      key != "" && key in s.seen && s.seen[key].expires > s.now
    ensures var key := if e.ReserveDelivery? then s.jobs[e.id].delivery else s.jobs[e.id].workflow;
      && key in Next(s, ttl, e).seen && Next(s, ttl, e).seen[key] == s.seen[key]
      && Next(s, ttl, e).jobs[e.id] == s.jobs[e.id].(stage := if e.ReserveDelivery? then Gone(Rejected) else Dropping)
  {
  }
}
