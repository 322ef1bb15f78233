/** Draining the spool into the queue during one process lifetime: records enter the queue, and
    start for each key, in the order of their admission. */
module SpoolDrain {
  import opened Wrappers
  import opened CrashDisk
  import opened QueueInvariant
  import opened QueueHistory
  import QueueMachine
  import QueueGuarantees
  import QueueAttempts

  /** numbers tells for each accepted task which record it carries out; a retried acknowledgement
      carries out none. */
  datatype State = State(
    pending: map<Sequence, string>,
    next: nat,
    claimed: set<Sequence>,
    held: Option<Sequence>,
    queue: QueueMachine.State,
    queueLog: seq<QueueMachine.Event>,
    enqueued: seq<Sequence>,
    numbers: seq<Option<Sequence>>)

  datatype Event =
    | Admit(number: Sequence, key: string)
    | Retire(number: Sequence)
    | Claim
    | Offer
    | Unclaim(number: Sequence)
    | RetryAck(key: string)
    | InQueue(step: QueueMachine.Event)

  /** A process starts with what the disk holds and an empty queue. */
  ghost predicate Fresh(s: State) {
    && s.claimed == {} && s.held == None && s.queue == QueueMachine.EMPTY && s.queueLog == []
    && s.enqueued == [] && s.numbers == [] && (forall n | n in s.pending :: n < s.next)
  }

  ghost predicate Waits(s: State, n: Sequence) {
    n in s.pending && n !in s.claimed
  }

  /** The next record to claim: the first in the order of their names. */
  ghost predicate IsNext(s: State, n: Sequence) {
    Waits(s, n) && forall m | Waits(s, m) :: n <= m
  }

  ghost predicate Enabled(cfg: QueueMachine.Config, s: State, e: Event) {
    match e
    case Admit(n, _) => s.next <= n
    case Retire(n) => s.held != Some(n)
    case Claim => s.held == None && exists n :: IsNext(s, n)
    case Offer => s.held.Some? && s.held.value in s.pending
    case Unclaim(n) => s.queue.cancelled && s.held != Some(n)
    case RetryAck(_) => true
    case InQueue(step) => !step.Enqueue? && QueueMachine.Enabled(cfg, s.queue, step)
  }

  function Stepped(cfg: QueueMachine.Config, s: State, step: QueueMachine.Event): State
    requires QueueMachine.Enabled(cfg, s.queue, step)
  {
    s.(queue := QueueMachine.Next(cfg, s.queue, step), queueLog := s.queueLog + [step])
  }

  /** A refused record goes back unclaimed and ends the drain; an accepted one is in the queue. */
  function Offered(cfg: QueueMachine.Config, s: State, n: Sequence): State
    requires n in s.pending
  {
    if QueueMachine.Rejects(cfg, s.queue) then s.(held := None, claimed := s.claimed - {n})
    else Stepped(cfg, s, QueueMachine.Enqueue(s.pending[n])).(
      held := None, enqueued := s.enqueued + [n], numbers := s.numbers + [Some(n)])
  }

  ghost function Next(cfg: QueueMachine.Config, s: State, e: Event): State
    requires Enabled(cfg, s, e)
  {
    if e.Admit? then s.(pending := s.pending[e.number := e.key], next := e.number + 1)
    else if e.Retire? then s.(pending := s.pending - {e.number}, claimed := s.claimed - {e.number})
    else if e.Claim? then
      var n :| IsNext(s, n);
      s.(held := Some(n), claimed := s.claimed + {n})
    else if e.Offer? then Offered(cfg, s, s.held.value)
    else if e.Unclaim? then s.(claimed := s.claimed - {e.number})
    else if e.RetryAck? then
      var after := Stepped(cfg, s, QueueMachine.Enqueue(e.key));
      if QueueMachine.Rejects(cfg, s.queue) then after else after.(numbers := s.numbers + [None])
    else Stepped(cfg, s, e.step)
  }

  /** The state a run reaches from a start, if every step of it could be taken. */
  ghost function Reached(cfg: QueueMachine.Config, start: State, log: seq<Event>): Option<State> {
    if log == [] then Some(start)
    else
      var before := Reached(cfg, start, log[..|log| - 1]);
      if before.Some? && Enabled(cfg, before.value, log[|log| - 1])
      then Some(Next(cfg, before.value, log[|log| - 1])) else None
  }

  /** While the queue accepts, every record still to come is later than all that went in. */
  ghost predicate Later(s: State, n: Sequence) {
    forall i | 0 <= i < |s.enqueued| :: s.enqueued[i] < n
  }

  ghost predicate InOrder(s: State) {
    && Ascending(s.enqueued)
    && (forall n | n in s.pending :: n < s.next) && (forall i | 0 <= i < |s.enqueued| :: s.enqueued[i] < s.next)
    && (s.held.Some? ==> s.held.value in s.claimed && s.held.value < s.next)
    && (!s.queue.cancelled ==>
          && (forall n | Waits(s, n) :: Later(s, n))
          && (s.held.Some? ==> Later(s, s.held.value) && forall m | Waits(s, m) :: s.held.value < m))
  }

  /** Accepted tasks carry out the records in the order of the records' numbers. */
  ghost predicate Numbered(s: State) {
    && |s.numbers| == |s.queue.accepted|
    && (forall i | 0 <= i < |s.numbers| && s.numbers[i].Some? :: s.numbers[i].value in s.enqueued)
    && (forall i, j | 0 <= i < j < |s.numbers| && s.numbers[i].Some? && s.numbers[j].Some? ::
          s.numbers[i].value < s.numbers[j].value)
  }

  lemma StaysCancelled(cfg: QueueMachine.Config, q: QueueMachine.State, step: QueueMachine.Event)
    requires QueueMachine.Enabled(cfg, q, step)
    ensures q.cancelled ==> QueueMachine.Next(cfg, q, step).cancelled
    ensures step.Enqueue? ==> QueueMachine.Next(cfg, q, step).cancelled == q.cancelled
    ensures QueueMachine.Next(cfg, q, step).accepted == q.accepted +
      if step.Enqueue? && !QueueMachine.Rejects(cfg, q) then [QueueMachine.Task(|q.accepted|, step.key)] else []
  {
    hide QueueMachine.Advance, QueueMachine.GatesAfter, QueueMachine.RepositoriesAfter;
  }

  lemma OfferInOrder(cfg: QueueMachine.Config, s: State)
    requires InOrder(s) && Enabled(cfg, s, Offer)
    ensures InOrder(Next(cfg, s, Offer))
  {
    var n, t := s.held.value, Next(cfg, s, Offer);
    StaysCancelled(cfg, s.queue, QueueMachine.Enqueue(s.pending[n]));
    hide QueueMachine.Next;
    if QueueMachine.Rejects(cfg, s.queue) {
      assert forall m :: Waits(t, m) ==> Waits(s, m) || m == n;
      assert forall m :: Later(t, m) == Later(s, m);
    } else {
      assert !s.queue.cancelled;
      assert forall m :: Waits(t, m) == Waits(s, m);
      assert t.enqueued == s.enqueued + [n];
      assert forall m :: Later(s, m) && n < m ==> Later(t, m);
    }
  }

  lemma AdmitInOrder(cfg: QueueMachine.Config, s: State, e: Event)
    requires InOrder(s) && Enabled(cfg, s, e) && e.Admit?
    ensures InOrder(Next(cfg, s, e))
  {
    var t := Next(cfg, s, e);
    assert forall m :: Waits(t, m) ==> Waits(s, m) || m == e.number;
    assert forall m :: Later(t, m) == Later(s, m);
  }

  lemma ClaimInOrder(cfg: QueueMachine.Config, s: State)
    requires InOrder(s) && Enabled(cfg, s, Claim)
    ensures InOrder(Next(cfg, s, Claim))
  {
    var t := Next(cfg, s, Claim);
    var n := t.held.value;
    assert IsNext(s, n);
    assert forall m :: Waits(t, m) <==> Waits(s, m) && m != n;
    assert forall m :: Later(t, m) == Later(s, m);
  }

  lemma BackInOrder(cfg: QueueMachine.Config, s: State, e: Event)
    requires InOrder(s) && Enabled(cfg, s, e) && (e.Retire? || e.Unclaim?)
    ensures InOrder(Next(cfg, s, e))
  {
    var t := Next(cfg, s, e);
    assert e.Retire? ==> forall m :: Waits(t, m) ==> Waits(s, m);
    assert forall m :: Later(t, m) == Later(s, m);
  }

  lemma QueueInOrder(cfg: QueueMachine.Config, s: State, e: Event)
    requires InOrder(s) && Enabled(cfg, s, e) && (e.InQueue? || e.RetryAck?)
    ensures InOrder(Next(cfg, s, e))
  {
    StaysCancelled(cfg, s.queue, if e.InQueue? then e.step else QueueMachine.Enqueue(e.key));
    hide QueueMachine.Next, QueueMachine.Enabled;
    assert forall n :: Waits(Next(cfg, s, e), n) == Waits(s, n) && Later(Next(cfg, s, e), n) == Later(s, n);
  }

  lemma InOrderKept(cfg: QueueMachine.Config, s: State, e: Event)
    requires InOrder(s) && Enabled(cfg, s, e)
    ensures InOrder(Next(cfg, s, e))
  {
    hide QueueMachine.Enabled, InOrder, Next;
    if e.InQueue? || e.RetryAck? {
      QueueInOrder(cfg, s, e);
    } else if e.Offer? {
      OfferInOrder(cfg, s);
    } else if e.Claim? {
      ClaimInOrder(cfg, s);
    } else if e.Admit? {
      AdmitInOrder(cfg, s, e);
    } else {
      BackInOrder(cfg, s, e);
    }
  }

  lemma NumberedKept(cfg: QueueMachine.Config, s: State, e: Event)
    requires InOrder(s) && Numbered(s) && Enabled(cfg, s, e)
    ensures Numbered(Next(cfg, s, e))
  {
    if e.InQueue? {
      StaysCancelled(cfg, s.queue, e.step);
    } else if e.RetryAck? {
      StaysCancelled(cfg, s.queue, QueueMachine.Enqueue(e.key));
    } else if e.Offer? {
      StaysCancelled(cfg, s.queue, QueueMachine.Enqueue(s.pending[s.held.value]));
    }
    hide QueueMachine.Next, QueueMachine.Enabled, Waits;
  }

  /** The queue inside is a queue that runs as the queue's own machine does. */
  lemma QueueRuns(cfg: QueueMachine.Config, s: State, e: Event)
    requires QueueMachine.Reached(cfg, s.queueLog) == Some(s.queue) && Enabled(cfg, s, e)
    ensures QueueMachine.Reached(cfg, Next(cfg, s, e).queueLog) == Some(Next(cfg, s, e).queue)
  {
    hide QueueMachine.Next, QueueMachine.Reached;
    if e.InQueue? {
      QueueStep(cfg, s.queueLog, s.queue, e.step);
    } else if e.RetryAck? {
      QueueStep(cfg, s.queueLog, s.queue, QueueMachine.Enqueue(e.key));
    } else if e.Offer? {
      QueueStep(cfg, s.queueLog, s.queue, QueueMachine.Enqueue(s.pending[s.held.value]));
    }
  }

  lemma QueueStep(cfg: QueueMachine.Config, log: seq<QueueMachine.Event>, q: QueueMachine.State, e: QueueMachine.Event)
    requires QueueMachine.Reached(cfg, log) == Some(q) && QueueMachine.Enabled(cfg, q, e)
    ensures QueueMachine.Reached(cfg, log + [e]) == Some(QueueMachine.Next(cfg, q, e))
  {
    assert (log + [e])[..|log|] == log;
    hide QueueMachine.Next, QueueMachine.Enabled;
  }

  lemma {:induction false} DrainAlways(cfg: QueueMachine.Config, start: State, log: seq<Event>)
    requires Fresh(start) && Reached(cfg, start, log).Some?
    ensures var s := Reached(cfg, start, log).value;
      InOrder(s) && Numbered(s) && QueueMachine.Reached(cfg, s.queueLog) == Some(s.queue)
  {
    if log != [] {
      DrainAlways(cfg, start, log[..|log| - 1]);
      var before, e := Reached(cfg, start, log[..|log| - 1]).value, log[|log| - 1];
      InOrderKept(cfg, before, e);
      NumberedKept(cfg, before, e);
      QueueRuns(cfg, before, e);
    }
  }

  /** Records enter the queue in strictly increasing order, whatever refusals, retries and
      cancellation happen in between. */
  lemma EnqueuedInOrder(cfg: QueueMachine.Config, start: State, log: seq<Event>)
    requires Fresh(start) && Reached(cfg, start, log).Some?
    ensures Ascending(Reached(cfg, start, log).value.enqueued)
  {
    DrainAlways(cfg, start, log);
  }

  lemma {:induction false} OrderWithinKey(tasks: seq<QueueMachine.Task>, key: string, i: nat, j: nat)
    requires i < j < |tasks| && tasks[i].key == key && tasks[j].key == key && Rising(Of(tasks, key))
    ensures tasks[i].id < tasks[j].id
  {
    var n := |tasks| - 1;
    var front := Of(tasks[..n], key);
    assert forall k | 0 <= k < |front| :: Of(tasks, key)[k] == front[k];
    if j < n {
      OrderWithinKey(tasks[..n], key, i, j);
    } else {
      OfMembers(tasks[..n], key, tasks[i]);
      assert tasks[..n][i] == tasks[i];
      var k :| 0 <= k < |front| && front[k] == tasks[i];
      assert Of(tasks, key)[|front|] == tasks[j];
    }
  }

  lemma TakenInOrder(cfg: QueueMachine.Config, log: seq<QueueMachine.Event>, i: nat, j: nat)
    requires cfg.Valid() && QueueMachine.Reached(cfg, log).Some?
    requires i < j < |QueueMachine.Reached(cfg, log).value.taken|
    requires var taken := QueueMachine.Reached(cfg, log).value.taken; taken[i].key == taken[j].key
    ensures var q := QueueMachine.Reached(cfg, log).value;
      q.taken[i].id < q.taken[j].id < |q.accepted| && q.accepted[q.taken[i].id] == q.taken[i]
      && q.accepted[q.taken[j].id] == q.taken[j]
  {
    var q := QueueMachine.Reached(cfg, log).value;
    var key := q.taken[i].key;
    QueueGuarantees.KeysRunInOrder(cfg, log, key);
    QueueAttempts.InvAlways(cfg, log);
    assert Counted(cfg, q);
    OfRises(q.accepted, key);
    assert Rising(Of(q.taken, key));
    OrderWithinKey(q.taken, key, i, j);
    TakenWasAccepted(q, i);
    TakenWasAccepted(q, j);
  }

  lemma TakenWasAccepted(q: QueueMachine.State, i: nat)
    requires i < |q.taken| && Of(q.taken, q.taken[i].key) <= Of(q.accepted, q.taken[i].key)
    requires forall k | 0 <= k < |q.accepted| :: q.accepted[k].id == k
    ensures q.taken[i].id < |q.accepted| && q.accepted[q.taken[i].id] == q.taken[i]
  {
    var task, key := q.taken[i], q.taken[i].key;
    OfMembers(q.taken, key, task);
    OfMembers(q.accepted, key, task);
    assert task in Of(q.accepted, key);
  }

  /** Of two records of one queue key, the earlier admitted one is started first, also when both were
      left over from an earlier process; and the later one is not started before the earlier one
      has ended. */
  lemma StartedInAdmissionOrder(cfg: QueueMachine.Config, start: State, log: seq<Event>, i: nat, j: nat)
    requires cfg.Valid() && Fresh(start) && Reached(cfg, start, log).Some?
    requires var s := Reached(cfg, start, log).value;
      && i < j < |s.queue.taken| && s.queue.taken[i].key == s.queue.taken[j].key
    ensures var s := Reached(cfg, start, log).value;
      var a, b := s.queue.taken[i], s.queue.taken[j];
      && a.id < |s.numbers| && b.id < |s.numbers|
      && (s.numbers[a.id].Some? && s.numbers[b.id].Some? ==> s.numbers[a.id].value < s.numbers[b.id].value)
      && a in EndedTasks(s.queue.ended)
  {
    DrainAlways(cfg, start, log);
    var s := Reached(cfg, start, log).value;
    TakenInOrder(cfg, s.queueLog, i, j);
    EndedBefore(cfg, s.queueLog, i, j);
  }

  /** Of a line of which all but the last member ended, an earlier member ended. */
  lemma EarlierEnded(line: seq<QueueMachine.Task>, ended: seq<QueueMachine.Task>, a: QueueMachine.Task,
                     b: QueueMachine.Task)
    requires Rising(line) && ended <= line && |line| <= |ended| + 1 && a in line && b in line && a.id < b.id
    ensures a in ended
  {
    var x :| 0 <= x < |line| && line[x] == a;
    var y :| 0 <= y < |line| && line[y] == b;
    assert x < y;
    assert ended[x] == a;
  }

  lemma EndedBefore(cfg: QueueMachine.Config, log: seq<QueueMachine.Event>, i: nat, j: nat)
    requires cfg.Valid() && QueueMachine.Reached(cfg, log).Some?
    requires i < j < |QueueMachine.Reached(cfg, log).value.taken|
    requires var taken := QueueMachine.Reached(cfg, log).value.taken; taken[i].key == taken[j].key
    ensures var q := QueueMachine.Reached(cfg, log).value; q.taken[i] in EndedTasks(q.ended)
  {
    hide Of, EndedTasks, QueueMachine.Reached, Paired, OwnTasks, Gated, Slotted, Conserved, Tried;
    var q := QueueMachine.Reached(cfg, log).value;
    var task, key := q.taken[i], q.taken[i].key;
    TakenInOrder(cfg, log, i, j);
    QueueGuarantees.KeysRunInOrder(cfg, log, key);
    QueueAttempts.InvAlways(cfg, log);
    OfRises(q.accepted, key);
    OfMembers(q.taken, key, task);
    OfMembers(q.taken, key, q.taken[j]);
    OfMembers(EndedTasks(q.ended), key, task);
    EarlierEnded(Of(q.taken, key), Of(EndedTasks(q.ended), key), task, q.taken[j]);
  }
}
