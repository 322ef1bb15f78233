/** Which durable completions mark their webhook's keys as succeeded, and which leave them in flight. */
module WebhookMarks {
  import opened Wrappers
  import opened WebhookDedupe
  import opened WebhookService
  import opened WebhookReservations

  /** The webhook's last step before the i-th was the start of an attempt that found the business step
      already complete, the guard at which an attempt goes straight to its acknowledgement. */
  ghost predicate FoundComplete(ttl: nat, log: seq<Event>, i: nat, id: nat) {
    exists j ::
      && 0 <= j < i <= |log| && log[j] == Start(id) && (forall k | j < k < i :: !StepOf(log[k], id))
      && Reached(ttl, log[..j]).Some? && id in Reached(ttl, log[..j]).value.jobs
      && Reached(ttl, log[..j]).value.jobs[id].complete
  }

  lemma {:induction false} ReachedPrefix(ttl: nat, log: seq<Event>, k: nat)
    requires Reached(ttl, log).Some? && k <= |log|
    ensures Reached(ttl, log[..k]).Some?
    ensures k < |log| ==>
      && Enabled(Reached(ttl, log[..k]).value, log[k])
      && Reached(ttl, log[..k + 1]) == Some(Next(Reached(ttl, log[..k]).value, ttl, log[k]))
  {
    if k < |log| {
      var n := |log| - 1;
      ReachedPrefix(ttl, log[..n], k);
      assert log[..n][..k] == log[..k];
      if k < n {
        assert log[..n][..k + 1] == log[..k + 1];
      } else {
        assert log[..k + 1] == log;
      }
    } else {
      assert log[..k] == log;
    }
  }

  /** A job changes only by its own steps. */
  lemma OwnStepsOnly(s: State, ttl: nat, e: Event, id: nat)
    requires Enabled(s, e) && id in s.jobs && !StepOf(e, id)
    ensures id in Next(s, ttl, e).jobs && Next(s, ttl, e).jobs[id] == s.jobs[id]
  {
    hide JobAfter, SeenAfter;
  }

  /** Going straight to the acknowledgement is what a start does that finds the business step complete,
      and nothing else does it. */
  lemma StraightToAck(s: State, ttl: nat, e: Event)
    requires Enabled(s, e) && !e.Tick? && !e.Cancel?
    ensures JobAfter(s, ttl, e).stage == Acking(LaterTry, true) <==> e.Start? && s.jobs[e.id].complete
  {
  }

  lemma {:induction false} JobsStay(ttl: nat, log: seq<Event>, j: nat, i: nat, id: nat)
    requires Reached(ttl, log).Some? && j <= i <= |log|
    ensures Reached(ttl, log[..j]).Some? && Reached(ttl, log[..i]).Some?
    ensures id in Reached(ttl, log[..j]).value.jobs ==> id in Reached(ttl, log[..i]).value.jobs
  {
    ReachedPrefix(ttl, log, j);
    if j < i {
      JobsStay(ttl, log, j, i - 1, id);
      ReachedPrefix(ttl, log, i - 1);
      hide Reached, JobAfter, SeenAfter, Enabled;
    }
  }

  lemma FoundByOwnStep(ttl: nat, log: seq<Event>, i: nat, id: nat)
    requires 0 < i <= |log| && StepOf(log[i - 1], id)
    ensures FoundComplete(ttl, log, i, id) <==>
      && log[i - 1] == Start(id) && Reached(ttl, log[..i - 1]).Some? && id in Reached(ttl, log[..i - 1]).value.jobs
      && Reached(ttl, log[..i - 1]).value.jobs[id].complete
  {
    hide Reached;
  }

  lemma FoundByOtherStep(ttl: nat, log: seq<Event>, i: nat, id: nat)
    requires 0 < i <= |log| && !StepOf(log[i - 1], id)
    ensures FoundComplete(ttl, log, i, id) <==> FoundComplete(ttl, log, i - 1, id)
  {
    hide Reached;
    if FoundComplete(ttl, log, i - 1, id) {
      var j :| 0 <= j < i - 1 && log[j] == Start(id) && (forall k | j < k < i - 1 :: !StepOf(log[k], id))
        && Reached(ttl, log[..j]).Some? && id in Reached(ttl, log[..j]).value.jobs
        && Reached(ttl, log[..j]).value.jobs[id].complete;
      assert forall k | j < k < i :: !StepOf(log[k], id);
    }
  }

  lemma NotFoundBeforeArrival(ttl: nat, log: seq<Event>, i: nat, id: nat)
    requires Reached(ttl, log).Some? && i <= |log| && Reached(ttl, log[..i]).Some?
    requires id !in Reached(ttl, log[..i]).value.jobs
    ensures !FoundComplete(ttl, log, i, id)
  {
    forall j | 0 <= j < i && Reached(ttl, log[..j]).Some? ensures id !in Reached(ttl, log[..j]).value.jobs {
      JobsStay(ttl, log, j, i, id);
    }
  }

  /** A webhook goes straight to its acknowledgement exactly when its attempt found it complete. */
  lemma {:induction false} LaterTryFoundComplete(ttl: nat, log: seq<Event>, i: nat, id: nat)
    requires Reached(ttl, log).Some? && i <= |log|
    requires Reached(ttl, log[..i]).Some? && id in Reached(ttl, log[..i]).value.jobs
    ensures Reached(ttl, log[..i]).value.jobs[id].stage == Acking(LaterTry, true) <==> FoundComplete(ttl, log, i, id)
  {
    if i > 0 {
      ReachedPrefix(ttl, log, i - 1);
      var before, e := Reached(ttl, log[..i - 1]).value, log[i - 1];
      hide Reached, FoundComplete;
      if StepOf(e, id) {
        StraightToAck(before, ttl, e);
        FoundByOwnStep(ttl, log, i, id);
        hide JobAfter, SeenAfter;
      } else {
        FoundByOtherStep(ttl, log, i, id);
        if id in before.jobs {
          OwnStepsOnly(before, ttl, e, id);
          LaterTryFoundComplete(ttl, log, i - 1, id);
        } else {
          NotFoundBeforeArrival(ttl, log, i - 1, id);
        }
      }
    }
  }

  /** Where a durably completed webhook can stand, by how it was acknowledged. */
  predicate Onward(silent: bool, stage: Stage) {
    if silent then stage == Gone(CompletedSilently)
    else stage.MarkingDelivery? || stage.MarkingWorkflow? || stage == Gone(CompletedMarked)
  }

  lemma OnwardStep(s: State, ttl: nat, e: Event, silent: bool)
    requires Enabled(s, e) && !e.Tick? && !e.Cancel? && e.id in s.jobs
    requires Onward(silent, s.jobs[e.id].stage)
         || (e.Acknowledge? && e.ok && s.jobs[e.id].stage.completed
             && (silent <==> s.jobs[e.id].stage.origin == LaterTry))
    ensures Onward(silent, JobAfter(s, ttl, e).stage)
  {
  }

  lemma {:induction false} AckDecides(ttl: nat, log: seq<Event>, i: nat, k: nat, id: nat)
    requires Reached(ttl, log).Some? && i < k <= |log| && log[i] == Acknowledge(id, true)
    requires Reached(ttl, log[..i]).Some? && id in Reached(ttl, log[..i]).value.jobs
    requires var stage := Reached(ttl, log[..i]).value.jobs[id].stage; stage.Acking? && stage.completed
    ensures Reached(ttl, log[..k]).Some? && id in Reached(ttl, log[..k]).value.jobs
    ensures Onward(Reached(ttl, log[..i]).value.jobs[id].stage.origin == LaterTry,
                   Reached(ttl, log[..k]).value.jobs[id].stage)
  {
    ReachedPrefix(ttl, log, k - 1);
    var before, e := Reached(ttl, log[..k - 1]).value, log[k - 1];
    var silent := Reached(ttl, log[..i]).value.jobs[id].stage.origin == LaterTry;
    if i < k - 1 {
      AckDecides(ttl, log, i, k - 1, id);
    }
    hide Reached;
    if StepOf(e, id) {
      OnwardStep(before, ttl, e, silent);
      hide JobAfter, SeenAfter, Onward;
    } else {
      OwnStepsOnly(before, ttl, e, id);
    }
  }

  /** While its reservation lasts, and if its key was never reserved while another webhook at work held
      it, a durably completed webhook's key is marked succeeded if and only if the attempt that got it
      acknowledged had not found the business step already complete. */
  lemma WhenCompletionIsMarked(ttl: nat, log: seq<Event>, i: nat, id: nat, key: string)
    requires Orderly(ttl, log, key) && i < |log| && log[i] == Acknowledge(id, true)
    requires var before := Reached(ttl, log[..i]);
      before.Some? && id in before.value.jobs && before.value.jobs[id].complete
    requires var s := Reached(ttl, log);
      && s.Some? && id in s.value.jobs && s.value.jobs[id].stage.Gone? && s.value.now < Until(s.value.jobs[id], key)
      && (key == s.value.jobs[id].workflow || (key == s.value.jobs[id].delivery && key != ""))
    ensures var s := Reached(ttl, log).value;
      key in s.seen && (s.seen[key].mark.Succeeded? <==> !FoundComplete(ttl, log, i, id))
  {
    var s := Reached(ttl, log).value;
    ReachedPrefix(ttl, log, i);
    ToldAlways(ttl, log[..i]);
    assert StageTold(Reached(ttl, log[..i]).value.jobs[id], Reached(ttl, log[..i]).value.cancelled);
    LaterTryFoundComplete(ttl, log, i, id);
    AckDecides(ttl, log, i, |log|, id);
    assert log[..|log|] == log;
    ReservationsLast(ttl, log, key);
    assert KeptFor(s, s.jobs[id], key);
    hide FoundComplete, Reached, Orderly;
  }

  /** A run whose second attempt, finding the business step complete, gets it acknowledged: the webhook
      is done, and its key is left in flight. */
  const SilentRun := [
    Arrive(0, "", "run"), ReserveDelivery(0), ReserveWorkflow(0), Admit(0, true), Start(0), Business(0, true),
    Acknowledge(0, false), Start(0), Acknowledge(0, true)]

  function Completed(stage: Stage, acked: bool): Job {
    Job("", "run", stage, true, 1, acked, false, 1, 1)
  }

  lemma OrderlyMore(log: seq<Event>, s: State, e: Event)
    requires Orderly(1, log, "run") && Reached(1, log) == Some(s) && Enabled(s, e)
    requires forall id | id in s.jobs :: id == 0
    requires e.ReserveDelivery? || e.ReserveWorkflow? ==> e.id == 0
    ensures Orderly(1, log + [e], "run") && Reached(1, log + [e]) == Some(Next(s, 1, e))
  {
    OneMore(log, s, e);
    assert (log + [e])[..|log|] == log;
    assert Undisputed(s, e, "run");
  }

  lemma SilentArrival()
    ensures Orderly(1, SilentRun[..3], "run")
    ensures Reached(1, SilentRun[..3]) ==
      Some(State(0, false, map["run" := Entry(InFlight, 1)], map[0 := Webhook(BothHeld, 1, 1)]))
  {
    var run := SilentRun;
    assert run[..1] == [] + [run[0]] && run[..2] == run[..1] + [run[1]] && run[..3] == run[..2] + [run[2]];
    var arrived := State(0, false, map[], map[0 := Webhook(Arrived, 0, 0)]);
    assert Next(EMPTY, 1, run[0]) == arrived;
    OrderlyMore([], EMPTY, run[0]);
    hide Reached, Orderly;
    assert JobAfter(arrived, 1, ReserveDelivery(0)) == Webhook(DeliveryHeld, 1, 0);
    assert Next(arrived, 1, ReserveDelivery(0)) == State(0, false, map[], map[0 := Webhook(DeliveryHeld, 1, 0)]);
    OrderlyMore(run[..1], arrived, run[1]);
    FirstReservation();
    OrderlyMore(run[..2], State(0, false, map[], map[0 := Webhook(DeliveryHeld, 1, 0)]), run[2]);
  }

  function Silent(job: Job): State {
    State(0, false, map["run" := Entry(InFlight, 1)], map[0 := job])
  }

  lemma SilentStep(log: seq<Event>, before: Job, after: Job, e: Event)
    requires Orderly(1, log, "run") && Reached(1, log) == Some(Silent(before))
    requires Enabled(Silent(before), e) && !e.Tick? && !e.Cancel? && e.id == 0
    requires !e.ReserveDelivery? && !e.ReserveWorkflow? && !e.Confirm? && !e.Drop?
    requires JobAfter(Silent(before), 1, e) == after
    ensures Orderly(1, log + [e], "run") && Reached(1, log + [e]) == Some(Silent(after))
  {
    OrderlyMore(log, Silent(before), e);
    assert Silent(before).jobs[0 := after] == map[0 := after];
    hide JobAfter;
  }

  lemma SilentAdmission()
    ensures Orderly(1, SilentRun[..4], "run")
    ensures Reached(1, SilentRun[..4]) == Some(Silent(Webhook(Queued, 1, 1)))
  {
    var run := SilentRun;
    SilentArrival();
    assert run[..4] == run[..3] + [run[3]];
    hide Reached, Orderly;
    SilentStep(run[..3], Webhook(BothHeld, 1, 1), Webhook(Queued, 1, 1), run[3]);
  }

  lemma SilentFirstTry()
    ensures Orderly(1, SilentRun[..6], "run")
    ensures Reached(1, SilentRun[..6]) == Some(Silent(Completed(Acking(FirstTry, true), false)))
  {
    var run := SilentRun;
    SilentAdmission();
    assert run[..5] == run[..4] + [run[4]] && run[..6] == run[..5] + [run[5]];
    hide Reached, Orderly;
    SilentStep(run[..4], Webhook(Queued, 1, 1), Webhook(Running, 1, 1), run[4]);
    SilentStep(run[..5], Webhook(Running, 1, 1), Completed(Acking(FirstTry, true), false), run[5]);
  }

  lemma SilentCompletionHappens()
    ensures Orderly(1, SilentRun, "run") && Reached(1, SilentRun).Some?
    ensures var s := Reached(1, SilentRun).value;
      && 0 in s.jobs && s.jobs[0].ackedCompleted && s.jobs[0].stage.Gone? && s.now < Until(s.jobs[0], "run")
      && "run" in s.seen && s.seen["run"].mark.InFlight?
  {
    var run := SilentRun;
    SilentFirstTry();
    assert run[..7] == run[..6] + [run[6]] && run[..8] == run[..7] + [run[7]] && run == run[..8] + [run[8]];
    hide Reached, Orderly;
    SilentStep(run[..6], Completed(Acking(FirstTry, true), false), Completed(Returned, false), run[6]);
    SilentStep(run[..7], Completed(Returned, false), Completed(Acking(LaterTry, true), false), run[7]);
    SilentStep(run[..8], Completed(Acking(LaterTry, true), false), Completed(Gone(CompletedSilently), true), run[8]);
  }
}
