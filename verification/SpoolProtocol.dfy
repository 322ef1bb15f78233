/** The discipline under which the webhook spool may touch its directory, and what that
    discipline guarantees over every run: no admitted record is lost before it is
    acknowledged, and no acknowledged record is replayed. */
module SpoolProtocol {
  import opened Wrappers
  import opened CrashDisk

  /** The disk together with what has been promised about it.
      homes:   the sequence number each admission ticket was written under
      kept:    records whose admission succeeded and whose acknowledgement has not begun
      settled: tickets whose terminal outcome is durable
      maxBody: the payload limit, the same across restarts */
  datatype World = World(
    disk: Disk,
    homes: map<nat, Sequence>,
    kept: map<Sequence, File>,
    settled: set<nat>,
    maxBody: nat)

  datatype Event =
    | Altered(change: Change)
    | SyncSucceeded
    | SyncFailed
    | Minted(ticket: nat, number: Sequence)
    | Promised(number: Sequence)
    | Released(number: Sequence)
    | Settled(number: Sequence)
    | Crashed(survivors: Directory)

  const MAX_KEY_BYTES := 2048
  const MAX_DELIVERY_BYTES := 256

  /** Room for base64 and object syntax around a payload. */
  function RecordLimit(maxBody: nat): nat {
    maxBody + maxBody / 2 + 4096
  }

  predicate SafeKey(key: string, maxBytes: nat) {
    0 < |key| <= maxBytes && forall c | c in key :: c != '\0' && c != '\r' && c != '\n'
  }

  predicate ValidJob(job: Job, maxBody: nat) {
    && (job.deliveryKey == "" || ("delivery:" <= job.deliveryKey && SafeKey(job.deliveryKey, MAX_DELIVERY_BYTES)))
    && SafeKey(job.workflowKey, MAX_KEY_BYTES) && "workflow_run:" <= job.workflowKey
    && SafeKey(job.queueKey, MAX_KEY_BYTES)
    && 0 < |job.payload| <= maxBody
  }

  /** A record file that reading accepts. */
  predicate Readable(file: File, maxBody: nat) {
    file.Regular? && file.content.Work? && 0 < file.size <= RecordLimit(maxBody) &&
    ValidJob(file.content.job, maxBody)
  }

  predicate Begins(s: string, prefix: string, rest: string) {
    s == prefix + rest
  }

  /** Neither empty nor too long, and of plain characters only. */
  predicate Bounded(s: string, most: nat) {
    1 <= |s| <= most && forall i | 0 <= i < |s| :: Plain(s[i])
  }

  /** Not NUL, and not a character that breaks lines. */
  predicate Plain(c: char) {
    c as int !in {0, 10, 13}
  }

  /** What a job must look like to be admitted and to be read back. */
  lemma ValidByText(job: Job, maxBody: nat)
    ensures ValidJob(job, maxBody) <==>
      && (job.deliveryKey == "" ||
          (Bounded(job.deliveryKey, 256) && exists rest :: Begins(job.deliveryKey, "delivery:", rest)))
      && Bounded(job.workflowKey, 2048) && (exists rest :: Begins(job.workflowKey, "workflow_run:", rest))
      && Bounded(job.queueKey, 2048)
      && 1 <= |job.payload| <= maxBody
  {
    PrefixByText(job.deliveryKey, "delivery:");
    PrefixByText(job.workflowKey, "workflow_run:");
    SafeByText(job.deliveryKey, 256);
    SafeByText(job.workflowKey, 2048);
    SafeByText(job.queueKey, 2048);
    hide SafeKey, Bounded, Begins;
  }

  lemma PrefixByText(s: string, prefix: string)
    ensures prefix <= s <==> exists rest :: Begins(s, prefix, rest)
  {
    if prefix <= s {
      assert Begins(s, prefix, s[|prefix|..]);
    }
  }

  lemma SafeByText(s: string, most: nat)
    ensures SafeKey(s, most) <==> Bounded(s, most)
  {
    assert forall c: char :: c != '\0' && c != '\r' && c != '\n' <==> Plain(c);
    assert forall i | 0 <= i < |s| :: s[i] in s;
  }

  /** A record is readable, and a marker a verdict, exactly if it is not empty, at most half as long
      again as a body and 4096 bytes more, and holds a valid job, or a verdict. */
  lemma ReadByText(file: File, maxBody: nat)
    ensures Readable(file, maxBody) <==>
      match file
      case Regular(size, Work(_, job)) => 1 <= size && 2 * (size - 4096) <= 3 * maxBody && ValidJob(job, maxBody)
      case _ => false
    ensures IsVerdict(Some(file), maxBody) <==>
      match file
      case Regular(size, Verdict(_)) => 1 <= size && 2 * (size - 4096) <= 3 * maxBody
      case _ => false
    ensures !IsVerdict(None, maxBody)
  {
    hide ValidJob;
  }

  predicate Holds(look: Option<File>, ticket: nat) {
    look.Some? && look.value.Regular? && look.value.content.Work? && look.value.content.ticket == ticket
  }

  /** A marker that recovery accepts as proof of a terminal outcome. */
  predicate IsVerdict(look: Option<File>, maxBody: nat) {
    look.Some? && look.value.Regular? && look.value.content.Verdict? && 0 < look.value.size <= RecordLimit(maxBody)
  }

  /** A record is offered for execution unless a regular marker file stands beside it. */
  predicate Offered(dir: Directory, number: Sequence, maxBody: nat) {
    && Record(number) in dir && Readable(dir[Record(number)], maxBody)
    && !(Marker(number) in dir && dir[Marker(number)].Regular?)
  }

  /** The ticket's record cannot come back: its marker is certain, or the record is gone. */
  ghost predicate Suppressed(disk: Disk, number: Sequence, ticket: nat, maxBody: nat) {
    || (forall v | v in Possible(disk, Marker(number)) :: IsVerdict(v, maxBody))
    || Absent(disk, number, ticket)
  }

  ghost predicate Absent(disk: Disk, number: Sequence, ticket: nat) {
    forall v | v in Possible(disk, Record(number)) :: !Holds(v, ticket)
  }

  ghost predicate Certain(disk: Disk, number: Sequence, file: File) {
    && Possible(disk, Record(number)) == {Some(file)}
    && Possible(disk, Marker(number)) == {None}
  }

  /** A record or temporary record under a number carries a ticket minted for that number. */
  predicate AtHome(look: Option<File>, homes: map<nat, Sequence>, number: Sequence) {
    look.Some? && look.value.Regular? && look.value.content.Work? ==>
      look.value.content.ticket in homes && homes[look.value.content.ticket] == number
  }

  ghost predicate AllAtHome(disk: Disk, homes: map<nat, Sequence>, number: Sequence) {
    && (forall v | v in Possible(disk, Record(number)) :: AtHome(v, homes, number))
    && (forall v | v in Possible(disk, TempRecord(number)) :: AtHome(v, homes, number))
  }

  ghost predicate Safe(w: World) {
    && w.disk.WellFormed()
    && (forall n: Sequence :: AllAtHome(w.disk, w.homes, n))
    && (forall n | n in w.kept :: Readable(w.kept[n], w.maxBody) && Certain(w.disk, n, w.kept[n]))
    && (forall t | t in w.settled :: t in w.homes && Suppressed(w.disk, w.homes[t], t, w.maxBody))
  }

  /** Every ticket ever minted for a number. */
  function Residents(homes: map<nat, Sequence>, number: Sequence): set<nat> {
    set t | t in homes && homes[t] == number
  }

  function Next(w: World, e: Event): World {
    match e
    case Altered(change) => w.(disk := w.disk.Change(change))
    case SyncSucceeded => w.(disk := w.disk.Synced())
    case SyncFailed => w
    case Minted(ticket, number) => w.(homes := w.homes[ticket := number])
    case Promised(number) =>
      if Record(number) in w.disk.live then w.(kept := w.kept[number := w.disk.live[Record(number)]]) else w
    case Released(number) => w.(kept := w.kept - {number})
    case Settled(number) => w.(settled := w.settled + Residents(w.homes, number))
    case Crashed(survivors) => w.(disk := Disk(survivors, survivors, []))
  }

  /** Directory changes the spool may make while promises are outstanding. */
  ghost predicate MayAlter(w: World, change: Change) {
    forall n: Sequence :: MayAlterAt(w, change, n)
  }

  ghost predicate MayAlterAt(w: World, change: Change, n: Sequence) {
    && (Touches(change, Record(n)) ==>
          && n !in w.kept && AtHome(Outcome(change, Record(n)), w.homes, n)
          && forall t | t in w.settled :: !Holds(Outcome(change, Record(n)), t))
    && (Touches(change, TempRecord(n)) ==> AtHome(Outcome(change, TempRecord(n)), w.homes, n))
    && (Touches(change, Marker(n)) ==>
          n !in w.kept && (IsVerdict(Outcome(change, Marker(n)), w.maxBody) ||
            forall t | t in w.settled && t in w.homes && w.homes[t] == n :: Absent(w.disk, n, t)))
  }

  ghost predicate Allowed(w: World, e: Event) {
    match e
    case Altered(change) => MayAlter(w, change)
    case SyncSucceeded => true
    case SyncFailed => true
    case Minted(ticket, number) => ticket !in w.homes
    case Promised(number) =>
      && Record(number) in w.disk.live && Readable(w.disk.live[Record(number)], w.maxBody)
      && Certain(w.disk, number, w.disk.live[Record(number)])
    case Released(number) => true
    case Settled(number) =>
      forall t | t in Residents(w.homes, number) :: Suppressed(w.disk, number, t, w.maxBody)
    case Crashed(survivors) => w.disk.CanCrashTo(survivors)
  }

  function Run(w: World, log: seq<Event>): World {
    if log == [] then w else Next(Run(w, log[..|log| - 1]), log[|log| - 1])
  }

  ghost predicate Disciplined(w: World, log: seq<Event>) {
    log == [] ||
    (Disciplined(w, log[..|log| - 1]) && Allowed(Run(w, log[..|log| - 1]), log[|log| - 1]))
  }

  lemma AlteringKeepsHome(w: World, change: Change, n: Sequence)
    requires Safe(w) && MayAlter(w, change)
    ensures AllAtHome(w.disk.Change(change), w.homes, n)
  {
    assert MayAlterAt(w, change, n) && AllAtHome(w.disk, w.homes, n);
    PossibleAfterChange(w.disk, change, Record(n));
    PossibleAfterChange(w.disk, change, TempRecord(n));
  }

  lemma AlteringKeepsCertain(w: World, change: Change, n: Sequence)
    requires Safe(w) && MayAlter(w, change) && n in w.kept
    ensures Certain(w.disk.Change(change), n, w.kept[n])
  {
    assert MayAlterAt(w, change, n);
    PossibleAfterChange(w.disk, change, Record(n));
    PossibleAfterChange(w.disk, change, Marker(n));
  }

  lemma AlteringKeepsSuppressed(w: World, change: Change, t: nat)
    requires Safe(w) && MayAlter(w, change) && t in w.settled
    ensures Suppressed(w.disk.Change(change), w.homes[t], t, w.maxBody)
  {
    var n := w.homes[t];
    assert MayAlterAt(w, change, n);
    PossibleAfterChange(w.disk, change, Record(n));
    PossibleAfterChange(w.disk, change, Marker(n));
  }

  lemma AlteringKeepsSafe(w: World, change: Change)
    requires Safe(w) && MayAlter(w, change)
    ensures Safe(Next(w, Altered(change)))
  {
    WellFormedAfterChange(w.disk, change);
    forall n: Sequence ensures AllAtHome(w.disk.Change(change), w.homes, n) {
      AlteringKeepsHome(w, change, n);
    }
    forall n | n in w.kept ensures Certain(w.disk.Change(change), n, w.kept[n]) {
      AlteringKeepsCertain(w, change, n);
    }
    forall t | t in w.settled ensures Suppressed(w.disk.Change(change), w.homes[t], t, w.maxBody) {
      AlteringKeepsSuppressed(w, change, t);
    }
  }

  /** Resolving the uncertainty of every name to one of its possible values keeps the promises. */
  ghost predicate Narrows(before: Disk, after: Disk) {
    after.WellFormed() &&
    forall name: Name :: Possible(after, name) <= Possible(before, name)
  }

  lemma NarrowingKeepsCertain(w: World, after: Disk, n: Sequence)
    requires Safe(w) && Narrows(w.disk, after) && n in w.kept
    ensures Certain(after, n, w.kept[n])
  {
    assert Certain(w.disk, n, w.kept[n]);
    LiveIsPossible(after, Record(n));
    LiveIsPossible(after, Marker(n));
  }

  lemma NarrowingKeepsSuppressed(w: World, after: Disk, t: nat)
    requires Safe(w) && Narrows(w.disk, after) && t in w.settled
    ensures Suppressed(after, w.homes[t], t, w.maxBody)
  {
    var n := w.homes[t];
    assert Suppressed(w.disk, n, t, w.maxBody);
    assert Possible(after, Marker(n)) <= Possible(w.disk, Marker(n));
    assert Possible(after, Record(n)) <= Possible(w.disk, Record(n));
  }

  lemma NarrowingKeepsHome(w: World, after: Disk, n: Sequence)
    requires Safe(w) && Narrows(w.disk, after)
    ensures AllAtHome(after, w.homes, n)
  {
    assert AllAtHome(w.disk, w.homes, n);
    assert Possible(after, Record(n)) <= Possible(w.disk, Record(n));
    assert Possible(after, TempRecord(n)) <= Possible(w.disk, TempRecord(n));
  }

  lemma NarrowingKeepsSafe(w: World, after: Disk)
    requires Safe(w) && Narrows(w.disk, after)
    ensures Safe(w.(disk := after))
  {
    hide Certain, Suppressed, AllAtHome, Possible;
    forall n: Sequence ensures AllAtHome(after, w.homes, n) {
      NarrowingKeepsHome(w, after, n);
    }
    forall n | n in w.kept ensures Certain(after, n, w.kept[n]) {
      NarrowingKeepsCertain(w, after, n);
    }
    forall t | t in w.settled ensures Suppressed(after, w.homes[t], t, w.maxBody) {
      NarrowingKeepsSuppressed(w, after, t);
    }
  }

  lemma SyncingKeepsSafe(w: World)
    requires Safe(w)
    ensures Safe(Next(w, SyncSucceeded))
  {
    forall name: Name ensures Possible(w.disk.Synced(), name) <= Possible(w.disk, name) {
      LiveIsPossible(w.disk, name);
      PossibleAfterSync(w.disk, name);
    }
    NarrowingKeepsSafe(w, w.disk.Synced());
  }

  lemma CrashingKeepsSafe(w: World, survivors: Directory)
    requires Safe(w) && w.disk.CanCrashTo(survivors)
    ensures Safe(Next(w, Crashed(survivors)))
  {
    var after := Disk(survivors, survivors, []);
    forall name: Name ensures Possible(after, name) <= Possible(w.disk, name) {
      PossibleIsExact(w.disk, name, Look(survivors, name));
      assert Possible(after, name) == {Look(survivors, name)};
    }
    NarrowingKeepsSafe(w, after);
  }

  lemma AllowedKeepsSafe(w: World, e: Event)
    requires Safe(w) && Allowed(w, e)
    ensures Safe(Next(w, e))
  {
    match e
    case Altered(change) => AlteringKeepsSafe(w, change);
    case SyncSucceeded => SyncingKeepsSafe(w);
    case Crashed(survivors) => CrashingKeepsSafe(w, survivors);
    case Minted(ticket, number) =>
      forall n: Sequence ensures AllAtHome(w.disk, Next(w, e).homes, n) {
        assert AllAtHome(w.disk, w.homes, n);
      }
    case _ =>
  }

  /** Every disciplined run keeps the promises, whatever syncs fail and wherever it crashes. */
  lemma {:induction false} DisciplinedRunIsSafe(w: World, log: seq<Event>)
    requires Safe(w) && Disciplined(w, log)
    ensures Safe(Run(w, log))
  {
    if log != [] {
      DisciplinedRunIsSafe(w, log[..|log| - 1]);
      AllowedKeepsSafe(Run(w, log[..|log| - 1]), log[|log| - 1]);
    }
  }

  lemma {:induction false} DisciplinedPrefix(w: World, log: seq<Event>, k: nat)
    requires Disciplined(w, log) && k <= |log|
    ensures Disciplined(w, log[..k])
  {
    if k < |log| {
      assert log[..|log| - 1][..k] == log[..k];
      DisciplinedPrefix(w, log[..|log| - 1], k);
    } else {
      assert log[..k] == log;
    }
  }

  /** The later log records everything the earlier one does, in the same order. */
  ghost predicate Extends(earlier: seq<Event>, later: seq<Event>) {
    earlier <= later
  }

  lemma ExtensionsChain()
    ensures forall a, b, c {:trigger Extends(a, b), Extends(b, c)} :: Extends(a, b) && Extends(b, c) ==> Extends(a, c)
    ensures forall a {:trigger Extends(a, a)} :: Extends(a, a)
  {
  }

  lemma {:induction false} RunComposes(w: World, first: seq<Event>, second: seq<Event>)
    ensures Run(w, first + second) == Run(Run(w, first), second)
    ensures Disciplined(w, first) && Disciplined(Run(w, first), second) ==> Disciplined(w, first + second)
  {
    if second == [] {
      assert first + second == first;
    } else {
      RunComposes(w, first, second[..|second| - 1]);
      assert (first + second)[..|first + second| - 1] == first + second[..|second| - 1];
    }
  }

  lemma RunSnoc(w: World, log: seq<Event>, e: Event)
    ensures Run(w, log + [e]) == Next(Run(w, log), e)
  {
    assert (log + [e])[..|log|] == log;
  }

  /** A directory honours the promises: every kept record is offered byte for byte, and no
      record whose ticket is settled is offered. */
  ghost predicate Honoured(w: World, dir: Directory) {
    && (forall n | n in w.kept :: Offered(dir, n, w.maxBody) && dir[Record(n)] == w.kept[n])
    && (forall n: Sequence, t | t in w.settled && Holds(Look(dir, Record(n)), t) :: !Offered(dir, n, w.maxBody))
  }

  /** No loss and no replay: interrupt a disciplined run after any number of events and crash.
      Whatever subset of the unsynced changes survived, the directory honours the promises. */
  lemma NoLossNoReplay(w: World, log: seq<Event>, k: nat, survivors: Directory)
    requires Safe(w) && Disciplined(w, log) && k <= |log|
    requires Run(w, log[..k]).disk.CanCrashTo(survivors)
    ensures Honoured(Run(w, log[..k]), survivors)
  {
    DisciplinedPrefix(w, log, k);
    var after := log[..k] + [Crashed(survivors)];
    RunComposes(w, log[..k], [Crashed(survivors)]);
    assert Run(Run(w, log[..k]), [Crashed(survivors)]) == Next(Run(w, log[..k]), Crashed(survivors));
    assert after[..|after| - 1] == log[..k];
    DisciplinedRunIsSafe(w, after);
    VisibleNow(Run(w, after));
  }

  /** The same guarantees read off the visible directory, without a crash. */
  lemma VisibleNow(w: World)
    requires Safe(w)
    ensures Honoured(w, w.disk.live)
  {
    forall n | n in w.kept
      ensures Offered(w.disk.live, n, w.maxBody) && w.disk.live[Record(n)] == w.kept[n]
    {
      LiveIsPossible(w.disk, Record(n));
      LiveIsPossible(w.disk, Marker(n));
    }
    forall n: Sequence, t | t in w.settled && Holds(Look(w.disk.live, Record(n)), t)
      ensures !Offered(w.disk.live, n, w.maxBody)
    {
      LiveIsPossible(w.disk, Record(n));
      LiveIsPossible(w.disk, Marker(n));
      assert AllAtHome(w.disk, w.homes, n);
    }
  }

  ghost predicate Indexes(homes: map<nat, Sequence>, dir: Directory) {
    forall n: Sequence :: AtHome(Look(dir, Record(n)), homes, n) && AtHome(Look(dir, TempRecord(n)), homes, n)
  }

  predicate HoldsJobs(name: Name) {
    name.Record? || name.TempRecord?
  }

  function Reticketed(file: File, ticket: nat): File {
    if file.Regular? && file.content.Work? then Regular(file.size, Work(ticket, file.content.job)) else file
  }

  /** The directory with every job's ticket, which is no part of its bytes, told by its number. */
  function Numbered(dir: Directory): Directory {
    map name | name in dir :: if HoldsJobs(name) then Reticketed(dir[name], name.number) else dir[name]
  }

  ghost function Homes(dir: Directory): map<nat, Sequence> {
    map name | name in dir && HoldsJobs(name) :: name.number := name.number
  }

  /** Whatever the directory holds when the spool first opens it, it is a safe start. */
  lemma AnyDirectoryIsSafe(dir: Directory, maxBody: nat)
    ensures Safe(World(Disk(Numbered(dir), Numbered(dir), []), Homes(dir), map[], {}, maxBody))
    ensures Numbered(dir).Keys == dir.Keys
    ensures forall name | name in dir :: exists ticket :: Numbered(dir)[name] == Reticketed(dir[name], ticket)
  {
    var told, homes := Numbered(dir), Homes(dir);
    forall n: Sequence ensures AtHome(Look(told, Record(n)), homes, n) && AtHome(Look(told, TempRecord(n)), homes, n) {
      assert Record(n) in dir ==> HoldsJobs(Record(n)) && n in homes;
      assert TempRecord(n) in dir ==> HoldsJobs(TempRecord(n)) && n in homes;
    }
    FirstOpenIsSafe(told, homes, maxBody);
    forall name | name in dir ensures exists ticket :: told[name] == Reticketed(dir[name], ticket) {
      var ticket := if HoldsJobs(name) then name.number
                    else if dir[name].Regular? && dir[name].content.Work? then dir[name].content.ticket else 0;
      assert told[name] == Reticketed(dir[name], ticket);
    }
  }

  /** A durable directory whose tickets each stand under one number is a safe start. */
  lemma FirstOpenIsSafe(dir: Directory, homes: map<nat, Sequence>, maxBody: nat)
    requires Indexes(homes, dir)
    ensures Safe(World(Disk(dir, dir, []), homes, map[], {}, maxBody))
  {
    var w := World(Disk(dir, dir, []), homes, map[], {}, maxBody);
    forall n: Sequence ensures AllAtHome(w.disk, homes, n) {
      assert AtHome(Look(dir, Record(n)), homes, n) && AtHome(Look(dir, TempRecord(n)), homes, n);
    }
  }

  /** A refused admission whose rename was rolled back can come back after a crash exactly
      when the second directory sync failed too. */
  lemma RefusedAdmissionMayReturn(w: World, number: Sequence, file: File, secondSync: bool)
    requires Look(w.disk.live, Record(number)) == None
    requires Some(file) !in Possible(w.disk, Record(number))
    ensures var refusal := [Altered(Rename(TempRecord(number), Record(number), file)), SyncFailed,
                            Altered(Unlink(Record(number))), if secondSync then SyncSucceeded else SyncFailed];
      (exists dir :: Run(w, refusal).disk.CanCrashTo(dir) && Look(dir, Record(number)) == Some(file))
      <==> !secondSync
  {
    var rename, remove := Rename(TempRecord(number), Record(number), file), Unlink(Record(number));
    var last := if secondSync then SyncSucceeded else SyncFailed;
    var w1 := Next(w, Altered(rename));
    var w3 := Next(w1, Altered(remove));
    var one := [] + [Altered(rename)];
    var two := one + [SyncFailed];
    var three := two + [Altered(remove)];
    assert [Altered(rename), SyncFailed, Altered(remove), last] == three + [last];
    RunSnoc(w, [], Altered(rename));
    RunSnoc(w, one, SyncFailed);
    RunSnoc(w, two, Altered(remove));
    RunSnoc(w, three, last);
    hide Run;
    PossibleAfterChange(w.disk, rename, Record(number));
    PossibleAfterChange(w1.disk, remove, Record(number));
    PossibleAfterSync(w3.disk, Record(number));
    PossibleIsExact(Run(w, three + [last]).disk, Record(number), Some(file));
  }
}
