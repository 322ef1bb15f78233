/** The way of a webhook through handler, queue and spool, as a state machine: one step for every
    call on the dedupe table, admission, attempt, acknowledgement, callback and timer. The queue
    decides when attempts run; here they may run in any order. */
module WebhookService {
  import opened Wrappers
  import opened WebhookDedupe

  datatype Origin = FirstTry | LaterTry | Callback | Timer

  datatype Outcome = Rejected | Abandoned | CompletedMarked | CompletedSilently | FailedDurably

  /** Where the code that handles a webhook stands. */
  datatype Stage =
    | Arrived
    | DeliveryHeld
    | BothHeld
    | Dropping
    | RefusingDelivery
    | RefusingWorkflow
    | Queued
    | Running
    | Acking(origin: Origin, completed: bool)
    | Returned
    | FinallyFailed
    | AwaitingTimer(completed: bool)
    | AbandoningDelivery
    | AbandoningWorkflow
    | MarkingDelivery
    | MarkingWorkflow
    | ReleasingDelivery
    | ReleasingWorkflow
    | Gone(outcome: Outcome)

  /** wins counts successes of the business step; acked is what the spool durably recorded; the
      two times are when the job's reservations run out. */
  datatype Job = Job(delivery: string, workflow: string, stage: Stage, complete: bool, wins: nat,
                     ackedCompleted: bool, ackedFailed: bool, deliveryUntil: nat, workflowUntil: nat)

  datatype State = State(now: nat, cancelled: bool, seen: Table, jobs: map<nat, Job>)

  datatype Event =
    | Tick(elapsed: nat)
    | Cancel
    | Arrive(id: nat, delivery: string, workflow: string)
    | ReserveDelivery(id: nat)
    | ReserveWorkflow(id: nat)
    | Admit(id: nat, ok: bool)
    | Start(id: nat)
    | Business(id: nat, ok: bool)
    | Acknowledge(id: nat, ok: bool)
    | GiveUp(id: nat)
    | Decide(id: nat)
    | Retry(id: nat)
    | Confirm(id: nat)
    | Drop(id: nat)

  const EMPTY := State(0, false, map[], map[])

  predicate Enabled(s: State, e: Event) {
    if e.Tick? || e.Cancel? then true
    else if e.Arrive? then e.id !in s.jobs && e.workflow != "" && e.delivery != e.workflow
    else e.id in s.jobs && StageAllows(s.jobs[e.id].stage, s.cancelled, e)
  }

  predicate StageAllows(stage: Stage, cancelled: bool, e: Event)
    requires !e.Tick? && !e.Cancel? && !e.Arrive?
  {
    if e.ReserveDelivery? then stage.Arrived?
    else if e.ReserveWorkflow? then stage.DeliveryHeld?
    else if e.Admit? then stage.BothHeld?
    else if e.Start? then (stage.Queued? || stage.Returned?) && !cancelled
    else if e.Business? then stage.Running?
    else if e.Acknowledge? then stage.Acking?
    else if e.GiveUp? then stage.Returned? || (stage.Queued? && cancelled)
    else if e.Decide? then stage.FinallyFailed?
    else if e.Retry? then stage.AwaitingTimer?
    else if e.Confirm? then stage.MarkingDelivery? || stage.MarkingWorkflow?
    else stage.Dropping? || stage.RefusingDelivery? || stage.RefusingWorkflow?
         || stage.AbandoningDelivery? || stage.AbandoningWorkflow?
         || stage.ReleasingDelivery? || stage.ReleasingWorkflow?
  }

  /** Reserving the delivery key, then the workflow key; a refused second one gives back the first. */
  function AfterReserve(s: State, job: Job, ttl: nat, workflow: bool): Job {
    var key := if workflow then job.workflow else job.delivery;
    if Grants(s.seen, key, s.now) then
      if workflow then job.(stage := BothHeld, workflowUntil := s.now + ttl)
      else job.(stage := DeliveryHeld, deliveryUntil := s.now + ttl)
    else job.(stage := if workflow then Dropping else Gone(Rejected))
  }

  /** An attempt acknowledges at once if an earlier one completed the business step. */
  function AfterAck(job: Job, ok: bool): Job
    requires job.stage.Acking?
  {
    var origin, completed := job.stage.origin, job.stage.completed;
    if ok then
      job.(ackedCompleted := job.ackedCompleted || completed, ackedFailed := job.ackedFailed || !completed,
           stage := if origin == LaterTry then Gone(CompletedSilently)
                    else if completed then MarkingDelivery else ReleasingDelivery)
    else job.(stage := if origin == FirstTry || origin == LaterTry then Returned else AwaitingTimer(completed))
  }

  function AfterDrop(job: Job): Job {
    if job.stage.Dropping? then job.(stage := Gone(Rejected))
    else if job.stage.RefusingDelivery? then job.(stage := RefusingWorkflow)
    else if job.stage.RefusingWorkflow? then job.(stage := Gone(Rejected))
    else if job.stage.AbandoningDelivery? then job.(stage := AbandoningWorkflow)
    else if job.stage.AbandoningWorkflow? then job.(stage := Gone(Abandoned))
    else if job.stage.ReleasingDelivery? then job.(stage := ReleasingWorkflow)
    else job.(stage := Gone(FailedDurably))
  }

  /** Which key a dropping or confirming step is about. */
  function KeyAt(job: Job): string {
    if job.stage.RefusingWorkflow? || job.stage.AbandoningWorkflow? || job.stage.ReleasingWorkflow?
       || job.stage.MarkingWorkflow?
    then job.workflow else job.delivery
  }

  function AfterConfirm(s: State, job: Job, ttl: nat): Job {
    var until := s.now + ttl;
    if job.stage.MarkingDelivery? then
      job.(stage := MarkingWorkflow, deliveryUntil := if job.delivery in s.seen then until else job.deliveryUntil)
    else
      job.(stage := Gone(CompletedMarked), workflowUntil := if job.workflow in s.seen then until else job.workflowUntil)
  }

  function JobAfter(s: State, ttl: nat, e: Event): Job
    requires Enabled(s, e) && !e.Tick? && !e.Cancel?
  {
    if e.Arrive? then Job(e.delivery, e.workflow, Arrived, false, 0, false, false, 0, 0)
    else
      var job := s.jobs[e.id];
      if e.ReserveDelivery? then AfterReserve(s, job, ttl, false)
      else if e.ReserveWorkflow? then AfterReserve(s, job, ttl, true)
      else if e.Admit? then job.(stage := if e.ok then Queued else RefusingDelivery)
      else if e.Start? then job.(stage := if job.complete then Acking(LaterTry, true) else Running)
      else if e.Business? then
        if e.ok then job.(stage := Acking(FirstTry, true), complete := true, wins := job.wins + 1)
        else job.(stage := Returned)
      else if e.Acknowledge? then AfterAck(job, e.ok)
      else if e.GiveUp? then job.(stage := FinallyFailed)
      else if e.Decide? then
        job.(stage := if s.cancelled && !job.complete then AbandoningDelivery else Acking(Callback, job.complete))
      else if e.Retry? then job.(stage := Acking(Timer, job.stage.completed))
      else if e.Confirm? then AfterConfirm(s, job, ttl)
      else AfterDrop(job)
  }

  function SeenAfter(s: State, ttl: nat, e: Event): Table
    requires Enabled(s, e)
  {
    if e.ReserveDelivery? then Reserved(s.seen, s.jobs[e.id].delivery, s.now, ttl)
    else if e.ReserveWorkflow? then Reserved(s.seen, s.jobs[e.id].workflow, s.now, ttl)
    else if e.Confirm? then Confirmed(s.seen, KeyAt(s.jobs[e.id]), s.now, ttl)
    else if e.Drop? then Dropped(s.seen, KeyAt(s.jobs[e.id]))
    else s.seen
  }

  function Next(s: State, ttl: nat, e: Event): State
    requires Enabled(s, e)
  {
    if e.Tick? then s.(now := s.now + e.elapsed)
    else if e.Cancel? then s.(cancelled := true)
    else s.(jobs := s.jobs[e.id := JobAfter(s, ttl, e)], seen := SeenAfter(s, ttl, e))
  }

  /** The state a run reaches in one process lifetime, if every step of it could be taken. */
  ghost function Reached(ttl: nat, log: seq<Event>): Option<State> {
    if log == [] then Some(EMPTY)
    else
      var before := Reached(ttl, log[..|log| - 1]);
      if before.Some? && Enabled(before.value, log[|log| - 1])
      then Some(Next(before.value, ttl, log[|log| - 1])) else None
  }

  /** Stages that can only be reached before the business step succeeded. */
  predicate Unstarted(stage: Stage) {
    || stage.Arrived? || stage.DeliveryHeld? || stage.BothHeld? || stage.Dropping? || stage.RefusingDelivery?
    || stage.RefusingWorkflow? || stage.Queued? || stage.Running? || stage == Gone(Rejected)
  }

  predicate Abandoning(stage: Stage) {
    stage.AbandoningDelivery? || stage.AbandoningWorkflow? || stage == Gone(Abandoned)
  }

  predicate Completing(stage: Stage) {
    || stage.MarkingDelivery? || stage.MarkingWorkflow?
    || stage == Gone(CompletedMarked) || stage == Gone(CompletedSilently)
  }

  predicate Failing(stage: Stage) {
    stage.ReleasingDelivery? || stage.ReleasingWorkflow? || stage == Gone(FailedDurably)
  }

  /** What each stage says about the business step and about acknowledgement. */
  predicate StageTold(job: Job, cancelled: bool) {
    && job.wins == (if job.complete then 1 else 0)
    && (Unstarted(job.stage) ==> !job.complete)
    && (job.stage.Acking? ==> job.stage.completed == job.complete)
    && (job.stage.Acking? && (job.stage.origin == FirstTry || job.stage.origin == LaterTry) ==> job.complete)
    && (job.stage.AwaitingTimer? ==> job.stage.completed == job.complete)
    && (Abandoning(job.stage) ==> cancelled && !job.complete)
    && (Completing(job.stage) <==> job.ackedCompleted) && (job.ackedCompleted ==> job.complete)
    && (Failing(job.stage) <==> job.ackedFailed) && (job.ackedFailed ==> !job.complete)
  }

  ghost predicate AllTold(s: State) {
    forall id | id in s.jobs :: StageTold(s.jobs[id], s.cancelled)
  }

  lemma ToldStep(s: State, ttl: nat, e: Event)
    requires Enabled(s, e) && !e.Tick? && !e.Cancel? && (e.id in s.jobs ==> StageTold(s.jobs[e.id], s.cancelled))
    ensures StageTold(JobAfter(s, ttl, e), s.cancelled)
  {
    hide Grants, SeenAfter;
  }

  lemma {:induction false} ToldAlways(ttl: nat, log: seq<Event>)
    requires Reached(ttl, log).Some?
    ensures AllTold(Reached(ttl, log).value)
  {
    if log != [] {
      ToldAlways(ttl, log[..|log| - 1]);
      var before, e := Reached(ttl, log[..|log| - 1]).value, log[|log| - 1];
      if !e.Tick? && !e.Cancel? {
        ToldStep(before, ttl, e);
        hide JobAfter, SeenAfter, StageTold, Enabled;
      }
    }
  }

  /** However often acknowledging fails and is retried, by the queue, the callback or the timer, the
      business step of a webhook succeeds at most once, and it never runs after it has. */
  lemma BusinessAtMostOnce(ttl: nat, log: seq<Event>, id: nat)
    requires Reached(ttl, log).Some? && id in Reached(ttl, log).value.jobs
    ensures var s := Reached(ttl, log).value; var job := s.jobs[id];
      && job.wins <= 1 && (job.stage.Running? ==> job.wins == 0)
      && (job.ackedCompleted ==> job.wins == 1 && !job.ackedFailed)
      && (job.ackedFailed ==> job.wins == 0)
      && (job.stage == Gone(Abandoned) ==> s.cancelled && job.wins == 0 && !job.ackedFailed)
  {
    ToldAlways(ttl, log);
  }

  predicate KeepsDelivery(job: Job) {
    && job.delivery != "" && !job.stage.Arrived? && !job.stage.RefusingWorkflow? && !job.stage.AbandoningWorkflow?
    && !job.stage.ReleasingWorkflow?
    && (job.stage.Gone? ==> job.stage.outcome.CompletedMarked? || job.stage.outcome.CompletedSilently?)
  }

  predicate KeepsWorkflow(job: Job) {
    && job.workflow != "" && !job.stage.Arrived? && !job.stage.DeliveryHeld? && !job.stage.Dropping?
    && (job.stage.Gone? ==> job.stage.outcome.CompletedMarked? || job.stage.outcome.CompletedSilently?)
  }

  /** The job's reservation of the key is to last until it is acknowledged or given up. */
  predicate Keeps(job: Job, key: string) {
    (key == job.delivery && KeepsDelivery(job)) || (key == job.workflow && KeepsWorkflow(job))
  }

  function Until(job: Job, key: string): nat {
    if key == job.delivery then job.deliveryUntil else job.workflowUntil
  }

  /** Only completed jobs whose acknowledgement was not a retried attempt's get their keys marked. */
  function MarkOf(job: Job, key: string): Mark {
    if job.stage == Gone(CompletedMarked) || (job.stage.MarkingWorkflow? && key == job.delivery)
    then Succeeded else InFlight
  }

  ghost predicate KeptFor(s: State, job: Job, key: string) {
    Keeps(job, key) && s.now < Until(job, key) ==>
      key in s.seen && s.seen[key].expires >= Until(job, key) && s.seen[key].mark == MarkOf(job, key)
  }

  /** Unexpired reservations of the key are in the table, in flight or succeeded as the job is. */
  ghost predicate Kept(s: State, key: string) {
    forall id | id in s.jobs :: KeptFor(s, s.jobs[id], key)
  }

  ghost predicate Apart(s: State, a: Job, b: Job, key: string) {
    Keeps(a, key) && !a.stage.Gone? && Keeps(b, key) ==> b.stage.Gone? && s.now >= Until(b, key)
  }

  /** Nobody but an expired, finished job shares the key with a job still at work. */
  ghost predicate Alone(s: State, key: string) {
    forall a, b | a in s.jobs && b in s.jobs && a != b :: Apart(s, s.jobs[a], s.jobs[b], key)
  }

  ghost predicate DistinctKeys(s: State) {
    forall id | id in s.jobs :: s.jobs[id].delivery != s.jobs[id].workflow && s.jobs[id].workflow != ""
  }

  predicate Reserves(s: State, e: Event, key: string)
    requires Enabled(s, e)
  {
    || (e.ReserveDelivery? && s.jobs[e.id].delivery == key)
    || (e.ReserveWorkflow? && s.jobs[e.id].workflow == key)
  }

  /** The condition on a reservation of the key: no other job still at work, then necessarily an
      overdue one, holds it. */
  ghost predicate Undisputed(s: State, e: Event, key: string)
    requires Enabled(s, e)
  {
    Reserves(s, e, key) ==>
      forall id | id in s.jobs && id != e.id && !s.jobs[id].stage.Gone? :: !Keeps(s.jobs[id], key)
  }

  /** In this run the key is never reserved while another job at work holds it. */
  ghost predicate Orderly(ttl: nat, log: seq<Event>, key: string) {
    log != [] ==>
      var before := Reached(ttl, log[..|log| - 1]);
      && Orderly(ttl, log[..|log| - 1], key)
      && before.Some? && Enabled(before.value, log[|log| - 1]) && Undisputed(before.value, log[|log| - 1], key)
  }

  /** One job and perhaps one key's entry change. */
  lemma OthersKept(s: State, ttl: nat, e: Event, id: nat, key: string)
    requires Enabled(s, e) && Undisputed(s, e, key) && !e.Tick? && !e.Cancel?
    requires id in s.jobs && id != e.id && KeptFor(s, s.jobs[id], key)
    requires e.id in s.jobs ==> Apart(s, s.jobs[e.id], s.jobs[id], key) && Apart(s, s.jobs[id], s.jobs[e.id], key)
    ensures KeptFor(Next(s, ttl, e), s.jobs[id], key)
  {
    if e.Confirm? || e.Drop? {
      TouchedKey(s, e);
    }
    hide JobAfter, Until, Keeps, MarkOf;
  }

  /** A job only drops or confirms keys it keeps. */
  lemma TouchedKey(s: State, e: Event)
    requires Enabled(s, e) && (e.Confirm? || e.Drop?)
    ensures var job := s.jobs[e.id]; KeyAt(job) == "" || (Keeps(job, KeyAt(job)) && !job.stage.Gone?)
  {
  }

  lemma OwnReserved(s: State, ttl: nat, e: Event, key: string)
    requires Enabled(s, e) && (e.ReserveDelivery? || e.ReserveWorkflow?)
    requires s.jobs[e.id].delivery != s.jobs[e.id].workflow
    requires KeptFor(s, s.jobs[e.id], key)
    ensures KeptFor(Next(s, ttl, e), JobAfter(s, ttl, e), key)
  {
    hide AfterConfirm, AfterDrop, AfterAck, Confirmed, Dropped;
  }

  lemma OwnConfirmed(s: State, ttl: nat, e: Event, key: string)
    requires Enabled(s, e) && e.Confirm? && s.jobs[e.id].delivery != s.jobs[e.id].workflow
    requires KeptFor(s, s.jobs[e.id], key)
    ensures KeptFor(Next(s, ttl, e), JobAfter(s, ttl, e), key)
  {
    hide AfterReserve, AfterDrop;
  }

  lemma OwnDropped(s: State, ttl: nat, e: Event, key: string)
    requires Enabled(s, e) && e.Drop? && s.jobs[e.id].delivery != s.jobs[e.id].workflow
    requires KeptFor(s, s.jobs[e.id], key)
    ensures KeptFor(Next(s, ttl, e), JobAfter(s, ttl, e), key)
  {
    hide AfterReserve, AfterConfirm;
  }

  lemma OwnKept(s: State, ttl: nat, e: Event, key: string)
    requires Enabled(s, e) && !e.Tick? && !e.Cancel? && DistinctKeys(s)
    requires e.id in s.jobs ==> KeptFor(s, s.jobs[e.id], key)
    ensures KeptFor(Next(s, ttl, e), JobAfter(s, ttl, e), key)
  {
    if e.ReserveDelivery? || e.ReserveWorkflow? {
      OwnReserved(s, ttl, e, key);
    } else if e.Confirm? {
      OwnConfirmed(s, ttl, e, key);
    } else if e.Drop? {
      OwnDropped(s, ttl, e, key);
    } else {
      hide AfterReserve, AfterConfirm, AfterDrop, Grants, Reserved, Confirmed, Dropped;
    }
  }

  /** What a job's step changes about the keys it keeps. */
  lemma OwnKeys(s: State, ttl: nat, e: Event, key: string)
    requires Enabled(s, e) && !e.Tick? && !e.Cancel?
    requires e.id in s.jobs ==> s.jobs[e.id].delivery != s.jobs[e.id].workflow
    ensures var after := JobAfter(s, ttl, e);
      Keeps(after, key) && !(e.id in s.jobs && Keeps(s.jobs[e.id], key)) ==>
        (e.ReserveDelivery? || e.ReserveWorkflow?) && Grants(s.seen, key, s.now)
        && key == (if e.ReserveDelivery? then s.jobs[e.id].delivery else s.jobs[e.id].workflow)
    ensures var after := JobAfter(s, ttl, e);
      e.id in s.jobs && s.jobs[e.id].stage.Gone? ==> after.stage.Gone?
    ensures var after := JobAfter(s, ttl, e);
      && (Keeps(after, key) && !after.stage.Gone? && e.id in s.jobs && Keeps(s.jobs[e.id], key) ==>
            !s.jobs[e.id].stage.Gone?)
  {
  }

  lemma AloneStep(s: State, ttl: nat, e: Event, a: nat, b: nat, key: string)
    requires Enabled(s, e) && !e.Tick? && !e.Cancel?
    requires Undisputed(s, e, key) && Kept(s, key) && Alone(s, key) && DistinctKeys(s)
    requires a != b && a in Next(s, ttl, e).jobs && b in Next(s, ttl, e).jobs
    ensures Apart(Next(s, ttl, e), Next(s, ttl, e).jobs[a], Next(s, ttl, e).jobs[b], key)
  {
    OwnKeys(s, ttl, e, key);
    if a in s.jobs && b in s.jobs {
      assert Apart(s, s.jobs[a], s.jobs[b], key) && Apart(s, s.jobs[b], s.jobs[a], key);
      assert KeptFor(s, s.jobs[a], key) && KeptFor(s, s.jobs[b], key);
    }
    hide JobAfter, SeenAfter, Enabled, Keeps, Until, MarkOf;
  }

  lemma KeptStep(s: State, ttl: nat, e: Event, key: string)
    requires Enabled(s, e) && Undisputed(s, e, key) && Kept(s, key) && Alone(s, key) && DistinctKeys(s)
    ensures Kept(Next(s, ttl, e), key) && Alone(Next(s, ttl, e), key) && DistinctKeys(Next(s, ttl, e))
  {
    var t := Next(s, ttl, e);
    if e.Tick? || e.Cancel? {
      forall id | id in t.jobs ensures KeptFor(t, t.jobs[id], key) {
        assert KeptFor(s, s.jobs[id], key);
      }
      forall a, b | a in t.jobs && b in t.jobs && a != b ensures Apart(t, t.jobs[a], t.jobs[b], key) {
        assert Apart(s, s.jobs[a], s.jobs[b], key);
      }
    } else {
      StepKeepsKept(s, ttl, e, key);
      forall a, b | a in t.jobs && b in t.jobs && a != b ensures Apart(t, t.jobs[a], t.jobs[b], key) {
        AloneStep(s, ttl, e, a, b, key);
      }
      SameKeys(s, ttl, e);
    }
  }

  lemma StepKeepsKept(s: State, ttl: nat, e: Event, key: string)
    requires Enabled(s, e) && !e.Tick? && !e.Cancel?
    requires Undisputed(s, e, key) && Kept(s, key) && Alone(s, key) && DistinctKeys(s)
    ensures Kept(Next(s, ttl, e), key)
  {
    var t := Next(s, ttl, e);
    hide JobAfter, SeenAfter, Undisputed, KeptFor, Apart, Enabled;
    forall id | id in t.jobs ensures KeptFor(t, t.jobs[id], key) {
      if id == e.id {
        OwnKept(s, ttl, e, key);
      } else {
        OthersKept(s, ttl, e, id, key);
      }
    }
  }

  lemma SameKeys(s: State, ttl: nat, e: Event)
    requires Enabled(s, e) && DistinctKeys(s)
    ensures DistinctKeys(Next(s, ttl, e))
  {
    if !e.Tick? && !e.Cancel? {
      SameJobKeys(s, ttl, e);
    }
    hide SeenAfter, Grants, JobAfter;
  }

  lemma SameJobKeys(s: State, ttl: nat, e: Event)
    requires Enabled(s, e) && !e.Tick? && !e.Cancel?
    ensures e.id in s.jobs ==>
      JobAfter(s, ttl, e).delivery == s.jobs[e.id].delivery && JobAfter(s, ttl, e).workflow == s.jobs[e.id].workflow
    ensures e.id !in s.jobs ==>
      JobAfter(s, ttl, e).delivery != JobAfter(s, ttl, e).workflow && JobAfter(s, ttl, e).workflow != ""
  {
    hide SeenAfter, Grants;
  }

  /** If a key is never reserved while an overdue job still holds it, then every reservation of it
      stays in the table from the moment it is granted until it expires or its job is acknowledged or
      given up, whatever happens to other keys; it is in flight till then, succeeded once a marked
      completion is recorded, and still in flight if the acknowledgement that succeeded was a
      repeated attempt's. */
  lemma {:induction false} ReservationsLast(ttl: nat, log: seq<Event>, key: string)
    requires Orderly(ttl, log, key)
    ensures Reached(ttl, log).Some?
    ensures var s := Reached(ttl, log).value; Kept(s, key) && Alone(s, key) && DistinctKeys(s)
  {
    if log != [] {
      ReservationsLast(ttl, log[..|log| - 1], key);
      KeptStep(Reached(ttl, log[..|log| - 1]).value, ttl, log[|log| - 1], key);
    }
  }

  /** Whoever takes a key out of the table before it expired was refused admission, recorded a failure,
      or gave up after cancellation: a completed webhook never frees its keys. */
  lemma OnlyTheUnfinishedFree(ttl: nat, log: seq<Event>, e: Event)
    requires Reached(ttl, log).Some? && Enabled(Reached(ttl, log).value, e)
    requires var s := Reached(ttl, log).value;
      exists key :: key in s.seen && s.seen[key].expires > s.now && key !in Next(s, ttl, e).seen
    ensures var s := Reached(ttl, log).value;
      && e.Drop? && e.id in s.jobs && !s.jobs[e.id].complete && !s.jobs[e.id].ackedCompleted
      && (s.jobs[e.id].ackedFailed || s.cancelled || Unstarted(s.jobs[e.id].stage))
  {
    ToldAlways(ttl, log);
    var s := Reached(ttl, log).value;
    assert e.Tick? || e.Cancel? || e.Arrive? || StageTold(s.jobs[e.id], s.cancelled);
  }
}
