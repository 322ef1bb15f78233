/** The file-backed webhook spool. Every change to its directory goes through `Do`, whose
    precondition is the crash discipline, so no method can break a promise at any instant. */
module WebhookSpool {
  import opened Wrappers
  import opened CrashDisk
  import opened SpoolProtocol
  import opened SpoolAccounts

  const MAX_RECORDS: nat := 4096
  const MAX_QUARANTINE_COPIES: nat := 100

  /** The outcome of one admission attempt.
      NotWritten: the temporary file could not be created, written or renamed.
      RolledBack: the directory sync failed and the record was removed again; resynced says
      whether the second sync succeeded.
      Stuck: the sync failed and so did the removal. */
  datatype Admission =
    | Admitted(number: Sequence, ticket: nat)
    | Invalid
    | TooLarge
    | SpoolClosed
    | Full
    | CleanupFailed
    | Exhausted
    | NotWritten(number: Sequence)
    | RolledBack(number: Sequence, file: File, resynced: bool)
    | Stuck(number: Sequence)

  /** What a marker's bytes are. */
  function VerdictText(status: Status): string {
    "{\"version\":1,\"status\":\"" + (match status case Completed => "completed" case Failed => "failed") + "\"}"
  }

  function MarkerFile(status: Status): (file: File)
    ensures file.Regular? && file.content == Verdict(status) && file.size == |VerdictText(status)| <= 4096
  {
    Regular(if status.Completed? then 34 else 31, Verdict(status))
  }

  ghost predicate NoJunk(dir: Directory, maxBody: nat) {
    forall n: Sequence | Record(n) in dir :: dir[Record(n)].Special? || Readable(dir[Record(n)], maxBody)
  }

  /** The spool's counters agree with the directory: `records` records of `bytes - artifactBytes`
      bytes in all, every regular record file readable, and the markers among the artifacts. */
  ghost predicate Balanced(dir: Directory, maxBody: nat, bytes: int, artifactBytes: int, records: nat) {
    && NoJunk(dir, maxBody)
    && records == Total(dir, RecordCount(maxBody))
    && bytes - artifactBytes == Total(dir, RecordBytes(maxBody))
    && artifactBytes >= Total(dir, Markers)
  }

  ghost predicate Within(small: Directory, large: Directory) {
    forall name: Name | name in small :: name in large
  }

  lemma WithinChain(a: Directory, b: Directory, c: Directory)
    requires Within(a, b) && Within(b, c)
    ensures Within(a, c)
  {
  }

  lemma SameAsBefore(dir: Directory, changed: set<Name>)
    ensures SameBut(dir, dir, changed)
  {
  }

  /** The directories agree everywhere but at the named entries. */
  ghost predicate SameBut(a: Directory, b: Directory, changed: set<Name>) {
    forall name: Name | name !in changed :: Look(a, name) == Look(b, name)
  }

  /** A bad record moved aside to a free quarantine name. */
  ghost predicate MovedAside(before: World, after: World, n: Sequence, copy: nat) {
    && Record(n) in before.disk.live && Quarantine(n, copy) !in before.disk.live
    && after == Next(before, Altered(Rename(Record(n), Quarantine(n, copy), before.disk.live[Record(n)])))
  }

  /** The promises are the same; only the disk and the log moved on. */
  ghost predicate SamePromises(before: World, after: World) {
    before.homes == after.homes && before.kept == after.kept && before.maxBody == after.maxBody
  }

  lemma TotalSame(a: Directory, b: Directory, m: Measure, changed: set<Name>)
    requires SameBut(a, b, changed)
    requires forall name | name in changed :: MeasuredAt(m, a, name) == MeasuredAt(m, b, name)
    ensures Total(a, m) == Total(b, m)
  {
    forall name: Name ensures MeasuredAt(m, a, name) == MeasuredAt(m, b, name) {
      if name !in changed {
        assert Look(a, name) == Look(b, name);
      }
    }
    TotalCongruence(a, b, m);
  }

  lemma TotalChanged(a: Directory, b: Directory, m: Measure, changed: set<Name>, name: Name)
    requires SameBut(a, b, changed)
    requires forall other | other in changed && other != name :: MeasuredAt(m, a, other) == MeasuredAt(m, b, other)
    ensures Total(a, m) - MeasuredAt(m, a, name) == Total(b, m) - MeasuredAt(m, b, name)
  {
    forall other: Name ensures other != name ==> MeasuredAt(m, a, other) == MeasuredAt(m, b, other) {
      if other !in changed {
        assert Look(a, other) == Look(b, other);
      }
    }
    TotalDiffers(a, b, m, name);
  }

  /** Writing or removing the marker of `n` leaves the record accounts alone. */
  lemma MarkerAccounts(a: Directory, b: Directory, n: Sequence, maxBody: nat)
    requires SameBut(a, b, {Marker(n), TempMarker(n)})
    ensures Total(a, RecordBytes(maxBody)) == Total(b, RecordBytes(maxBody))
    ensures Total(a, RecordCount(maxBody)) == Total(b, RecordCount(maxBody))
    ensures Total(b, Markers)
         == Total(a, Markers) - MeasuredAt(Markers, a, Marker(n)) + MeasuredAt(Markers, b, Marker(n))
    ensures NoJunk(a, maxBody) ==> NoJunk(b, maxBody)
  {
    TotalSame(a, b, RecordBytes(maxBody), {Marker(n), TempMarker(n)});
    TotalSame(a, b, RecordCount(maxBody), {Marker(n), TempMarker(n)});
    TotalChanged(a, b, Markers, {Marker(n), TempMarker(n)}, Marker(n));
    assert forall m: Sequence :: Look(a, Record(m)) == Look(b, Record(m));
  }

  /** Removing a readable record takes exactly its bytes and one record off the accounts. */
  lemma RecordAccounts(a: Directory, b: Directory, n: Sequence, maxBody: nat)
    requires SameBut(a, b, {Record(n)})
    ensures Total(b, RecordBytes(maxBody)) == Total(a, RecordBytes(maxBody))
      - MeasuredAt(RecordBytes(maxBody), a, Record(n)) + MeasuredAt(RecordBytes(maxBody), b, Record(n))
    ensures Total(b, RecordCount(maxBody)) == Total(a, RecordCount(maxBody))
      - MeasuredAt(RecordCount(maxBody), a, Record(n)) + MeasuredAt(RecordCount(maxBody), b, Record(n))
    ensures Total(a, Markers) == Total(b, Markers)
  {
    TotalChanged(a, b, RecordBytes(maxBody), {Record(n)}, Record(n));
    TotalChanged(a, b, RecordCount(maxBody), {Record(n)}, Record(n));
    TotalSame(a, b, Markers, {Record(n)});
  }

  /** A record with a marker beside it has been released, so its promise is over. */
  lemma MarkedIsNotKept(w: World, n: Sequence)
    requires Safe(w) && Marker(n) in w.disk.live
    ensures n !in w.kept
  {
    LiveIsPossible(w.disk, Marker(n));
  }

  lemma GoneIsInvisible(w: World, n: Sequence)
    requires Safe(w) && Possible(w.disk, Record(n)) == {None}
    ensures Record(n) !in w.disk.live
  {
    LiveIsPossible(w.disk, Record(n));
  }

  lemma SyncedAbsence(disk: Disk, n: Sequence)
    requires Record(n) !in disk.live
    ensures Possible(disk.Synced(), Record(n)) == {None}
  {
    PossibleAfterSync(disk, Record(n));
  }

  lemma RetiredSame(a: Directory, b: Directory, c: Directory, n: Sequence)
    requires b == a - {Record(n)} || b == a
    requires SameBut(b, c, {Marker(n), TempMarker(n)})
    ensures Record(n) !in b ==> Record(n) !in c
    ensures Look(c, TempMarker(n)) == Look(b, TempMarker(n)) ==> SameBut(a, c, {Record(n), Marker(n)})
  {
    assert Look(b, Record(n)) == Look(c, Record(n));
    if Look(c, TempMarker(n)) == Look(b, TempMarker(n)) {
      forall name: Name | name !in {Record(n), Marker(n)} ensures Look(a, name) == Look(c, name) {
        assert Look(a, name) == Look(b, name);
        assert name != TempMarker(n) ==> Look(b, name) == Look(c, name);
      }
    }
  }

  /** The balance survives a marker change as long as both counters move alike and far enough. */
  lemma MarkerBalances(a: Directory, b: Directory, n: Sequence, maxBody: nat, bytes: int, artifactBytes: int,
                       records: nat, shift: int)
    requires SameBut(a, b, {Marker(n), TempMarker(n)})
    requires Balanced(a, maxBody, bytes, artifactBytes, records)
    requires shift >= MeasuredAt(Markers, b, Marker(n)) - MeasuredAt(Markers, a, Marker(n))
    ensures Balanced(b, maxBody, bytes + shift, artifactBytes + shift, records)
    ensures MeasuredAt(Markers, a, Marker(n)) <= artifactBytes <= bytes
  {
    MarkerAccounts(a, b, n, maxBody);
    MeasureIsPartOfTotal(a, Markers, Marker(n));
  }

  lemma RecordBalances(a: Directory, n: Sequence, maxBody: nat, bytes: int, artifactBytes: int, records: nat)
    requires Record(n) in a && a[Record(n)].Regular?
    requires Balanced(a, maxBody, bytes, artifactBytes, records)
    ensures records > 0 && bytes >= a[Record(n)].size
    ensures Balanced(a - {Record(n)}, maxBody, bytes - a[Record(n)].size, artifactBytes, records - 1)
  {
    RecordAccounts(a, a - {Record(n)}, n, maxBody);
    MeasureIsPartOfTotal(a, RecordCount(maxBody), Record(n));
    MeasureIsPartOfTotal(a, RecordBytes(maxBody), Record(n));
  }

  /** The outcome of a number is out of the spool's hands: settled, or gone with its marker standing. */
  ghost predicate Resolved(w: World, n: Sequence) {
    || Residents(w.homes, n) <= w.settled
    || (Record(n) !in w.disk.live && IsVerdict(Look(w.disk.live, Marker(n)), w.maxBody))
  }

  lemma NoVerdict(dir: Directory, n: Sequence, maxBody: nat)
    ensures Marker(n) !in dir ==> !IsVerdict(Look(dir, Marker(n)), maxBody)
  {
  }

  lemma OtherMarkersSame(a: Directory, b: Directory, n: Sequence)
    requires SameBut(a, b, {Marker(n), TempMarker(n)})
    ensures forall m: Sequence | m != n :: Look(a, Marker(m)) == Look(b, Marker(m))
    ensures forall m: Sequence :: Look(a, Record(m)) == Look(b, Record(m))
  {
  }

  lemma SameButChain(a: Directory, b: Directory, c: Directory, changed: set<Name>)
    requires SameBut(a, b, changed) && (SameBut(b, c, changed) || b == c)
    ensures SameBut(a, c, changed)
  {
    forall name: Name | name !in changed ensures Look(a, name) == Look(c, name) {
      assert Look(a, name) == Look(b, name);
    }
  }

  lemma SameButWider(a: Directory, b: Directory, n: Sequence)
    requires SameBut(a, b, {Marker(n), TempMarker(n)})
    ensures SameBut(a, b, {Record(n), Marker(n), TempMarker(n)})
    ensures Look(a, Record(n)) == Look(b, Record(n))
  {
  }

  lemma SameButOne(a: Directory, b: Directory, n: Sequence)
    requires b == a || b == a - {Record(n)} || b == a - {Marker(n)}
    ensures SameBut(a, b, {Record(n), Marker(n), TempMarker(n)})
  {
  }

  lemma BadMarkerMayGo(w: World, n: Sequence)
    requires Safe(w) && Marker(n) in w.disk.live && !IsVerdict(Look(w.disk.live, Marker(n)), w.maxBody)
    ensures MayAlter(w, Unlink(Marker(n)))
  {
    LiveIsPossible(w.disk, Marker(n));
    MarkedIsNotKept(w, n);
    forall m: Sequence ensures MayAlterAt(w, Unlink(Marker(n)), m) {
    }
  }

  /** A marker that was not there before its failed write may be removed again: any settled
      ticket of that record is already certainly absent. */
  lemma RollbackIsAllowed(before: World, w: World, n: Sequence, file: File)
    requires Safe(w) && n !in w.kept && Safe(before)
    requires !IsVerdict(Look(before.disk.live, Marker(n)), w.maxBody)
    requires w.disk == before.disk.Change(Link(TempMarker(n), Regular(0, Junk)))
                             .Change(Link(TempMarker(n), file)).Change(Rename(TempMarker(n), Marker(n), file))
    ensures MayAlter(w, Unlink(Marker(n)))
  {
    var first := Link(TempMarker(n), Regular(0, Junk));
    var second := Link(TempMarker(n), file);
    LiveIsPossible(before.disk, Marker(n));
    PossibleAfterChange(before.disk, first, Marker(n));
    PossibleAfterChange(before.disk.Change(first), second, Marker(n));
    PossibleAfterChange(before.disk.Change(first).Change(second), Rename(TempMarker(n), Marker(n), file), Marker(n));
    forall m: Sequence ensures MayAlterAt(w, Unlink(Marker(n)), m) {
    }
  }

  /** Temporary files may come and go as long as they hold no one else's ticket. */
  lemma TempMayChange(w: World, name: Name)
    requires name.TempRecord? || name.TempMarker?
    ensures MayAlter(w, Link(name, Regular(0, Junk))) && MayAlter(w, Unlink(name))
  {
    forall m: Sequence
      ensures MayAlterAt(w, Link(name, Regular(0, Junk)), m) && MayAlterAt(w, Unlink(name), m)
    {
    }
  }

  lemma MarkerMayBeWritten(w: World, n: Sequence, file: File)
    requires n !in w.kept && IsVerdict(Some(file), w.maxBody)
    ensures MayAlter(w, Link(TempMarker(n), file)) && MayAlter(w, Rename(TempMarker(n), Marker(n), file))
  {
    forall m: Sequence
      ensures MayAlterAt(w, Link(TempMarker(n), file), m)
      ensures MayAlterAt(w, Rename(TempMarker(n), Marker(n), file), m)
    {
    }
  }

  /** Once a record is durably gone, its marker may go too. */
  lemma SpentMarkerMayGo(w: World, n: Sequence)
    requires n !in w.kept && Possible(w.disk, Record(n)) == {None}
    ensures MayAlter(w, Unlink(Marker(n)))
  {
    forall m: Sequence ensures MayAlterAt(w, Unlink(Marker(n)), m) {
    }
  }

  lemma MayStillWrite(before: World, after: World, name: Name, file: File)
    requires MayAlter(before, Link(name, file)) && (name.TempRecord? || name.TempMarker?)
    requires after == Next(before, Altered(Link(name, Regular(0, Junk))))
    ensures MayAlter(after, Link(name, file))
  {
    forall m: Sequence ensures MayAlterAt(after, Link(name, file), m) {
      assert MayAlterAt(before, Link(name, file), m);
    }
  }

  /** What reconciliation has made of one number once the markers in `done` are handled: a valid
      verdict takes its record along, any other marker just goes. */
  ghost predicate Reconciled(start: Directory, now: Directory, done: set<Name>, maxBody: nat, n: Sequence) {
    && Look(now, Marker(n)) == (if Marker(n) in done then None else Look(start, Marker(n)))
    && Look(now, Record(n)) == if Marker(n) in done && IsVerdict(Look(start, Marker(n)), maxBody)
                               then None else Look(start, Record(n))
  }

  ghost predicate AllReconciled(start: Directory, now: Directory, done: set<Name>, maxBody: nat) {
    forall n: Sequence :: Reconciled(start, now, done, maxBody, n)
  }

  lemma MarkerAsListed(start: Directory, now: Directory, done: set<Name>, name: Name, maxBody: nat)
    requires AllReconciled(start, now, done, maxBody) && name !in done
    ensures name.Marker? ==> Look(now, name) == Look(start, name)
  {
    if name.Marker? {
      assert Reconciled(start, now, done, maxBody, name.number);
    }
  }

  /** One loop step of reconciliation. */
  lemma ReconciledStep(start: Directory, before: Directory, now: Directory, done: set<Name>, name: Name, maxBody: nat)
    requires AllReconciled(start, before, done, maxBody)
    requires !(name.Marker? && name in before) ==> now == before
    requires name.Marker? && name in before ==>
      var n := name.number;
      && SameBut(before, now, {Record(n), Marker(n)}) && Marker(n) !in now
      && Look(now, Record(n)) == if IsVerdict(Look(before, Marker(n)), maxBody) then None else Look(before, Record(n))
    ensures AllReconciled(start, now, done + {name}, maxBody)
  {
    forall n: Sequence ensures Reconciled(start, now, done + {name}, maxBody, n) {
      assert Reconciled(start, before, done, maxBody, n);
      if name != Marker(n) {
        assert Look(now, Marker(n)) == Look(before, Marker(n));
        assert Look(now, Record(n)) == Look(before, Record(n));
      }
    }
  }

  lemma OnlyShrinks(before: Directory, now: Directory, n: Sequence, maxBody: nat)
    requires SameBut(before, now, {Record(n), Marker(n)}) && Marker(n) !in now
    requires Look(now, Record(n)) in {None, Look(before, Record(n))}
    ensures Within(now, before)
  {
    forall name: Name | name in now ensures name in before {
      if name != Record(n) {
        assert Look(before, name) == Look(now, name);
      }
    }
  }

  /** Scanning keeps every readable record and may only move unreadable ones aside. */
  ghost predicate KeepsReadable(before: Directory, now: Directory, maxBody: nat) {
    && (forall n: Sequence | Record(n) in before && Readable(before[Record(n)], maxBody) ::
          Look(now, Record(n)) == Look(before, Record(n)))
    && (forall n: Sequence | Record(n) in now :: Look(before, Record(n)) == Look(now, Record(n)))
    && (forall n: Sequence :: Look(now, Marker(n)) == Look(before, Marker(n)))
  }

  lemma ReadableTotals(before: Directory, now: Directory, maxBody: nat)
    requires KeepsReadable(before, now, maxBody)
    ensures Total(before, RecordBytes(maxBody)) == Total(now, RecordBytes(maxBody))
    ensures Total(before, RecordCount(maxBody)) == Total(now, RecordCount(maxBody))
    ensures Total(before, Markers) == Total(now, Markers)
  {
    forall name: Name
      ensures MeasuredAt(RecordBytes(maxBody), before, name) == MeasuredAt(RecordBytes(maxBody), now, name)
      ensures MeasuredAt(RecordCount(maxBody), before, name) == MeasuredAt(RecordCount(maxBody), now, name)
      ensures MeasuredAt(Markers, before, name) == MeasuredAt(Markers, now, name)
    {
      if name.Marker? {
        assert Look(now, Marker(name.number)) == Look(before, Marker(name.number));
      }
    }
    TotalCongruence(before, now, RecordBytes(maxBody));
    TotalCongruence(before, now, RecordCount(maxBody));
    TotalCongruence(before, now, Markers);
  }

  lemma AsideKeepsReadable(start: Directory, before: World, after: World, n: Sequence, copy: nat)
    requires KeepsReadable(start, before.disk.live, before.maxBody) && MovedAside(before, after, n, copy)
    requires !Readable(before.disk.live[Record(n)], before.maxBody)
    ensures KeepsReadable(start, after.disk.live, before.maxBody)
    ensures forall m: Sequence | m != n :: Look(after.disk.live, Record(m)) == Look(before.disk.live, Record(m))
  {
  }

  /** What startup recovery offers again. */
  predicate SurvivesRecovery(dir: Directory, n: Sequence, maxBody: nat) {
    && Record(n) in dir && Readable(dir[Record(n)], maxBody)
    && !IsVerdict(Look(dir, Marker(n)), maxBody)
  }

  ghost function Sum(dir: Directory, numbers: seq<Sequence>, m: Measure): nat {
    if numbers == [] then 0
    else Sum(dir, numbers[..|numbers| - 1], m) + MeasuredAt(m, dir, Record(numbers[|numbers| - 1]))
  }

  lemma SumSnoc(dir: Directory, numbers: seq<Sequence>, i: nat, m: Measure)
    requires i < |numbers|
    ensures Sum(dir, numbers[..i + 1], m) == Sum(dir, numbers[..i], m) + MeasuredAt(m, dir, Record(numbers[i]))
  {
    assert numbers[..i + 1][..i] == numbers[..i];
  }

  /** Adding up the records by ascending number gives the directory's total. */
  lemma {:induction false} SumIsTotal(dir: Directory, numbers: seq<Sequence>, m: Measure)
    requires m.RecordBytes? || m.RecordCount?
    requires Ascending(numbers) && forall n: Sequence :: n in numbers <==> Record(n) in dir
    ensures Sum(dir, numbers, m) == Total(dir, m)
  {
    if numbers == [] {
      TotalZero(dir, m);
    } else {
      hide MeasuredAt;
      var init, last := numbers[..|numbers| - 1], numbers[|numbers| - 1];
      assert numbers == init + [last];
      var smaller := dir - {Record(last)};
      SumIsTotal(smaller, init, m);
      SumElsewhere(dir, smaller, init, m);
      TotalWithout(dir, m, Record(last));
    }
  }

  lemma {:induction false} SumElsewhere(a: Directory, b: Directory, numbers: seq<Sequence>, m: Measure)
    requires forall n | n in numbers :: Look(a, Record(n)) == Look(b, Record(n))
    ensures Sum(a, numbers, m) == Sum(b, numbers, m)
  {
    if numbers != [] {
      SumElsewhere(a, b, numbers[..|numbers| - 1], m);
      assert numbers[|numbers| - 1] in numbers;
    }
  }

  /** Removing a quarantined file only lowers the artifact and quarantine totals. */
  lemma QuarantineAccounts(a: Directory, b: Directory, name: Name, maxBody: nat)
    requires name.Quarantine? && b == a - {name}
    ensures Total(a, RecordBytes(maxBody)) == Total(b, RecordBytes(maxBody))
    ensures Total(a, RecordCount(maxBody)) == Total(b, RecordCount(maxBody))
    ensures Total(a, Markers) == Total(b, Markers)
    ensures Total(b, Quarantines) == Total(a, Quarantines) - MeasuredAt(Quarantines, a, name)
    ensures Total(b, Artifacts) == Total(a, Artifacts) - MeasuredAt(Quarantines, a, name)
  {
    TotalWithout(a, RecordBytes(maxBody), name);
    TotalWithout(a, RecordCount(maxBody), name);
    TotalWithout(a, Markers, name);
    TotalWithout(a, Quarantines, name);
    TotalWithout(a, Artifacts, name);
  }

  /** Files went missing from quarantine only, and `bytes` fell by exactly their sizes. */
  ghost predicate PaidFor(before: Directory, now: Directory, paid: int, maxBody: nat) {
    && LostQuarantines(before, now)
    && Total(now, RecordBytes(maxBody)) == Total(before, RecordBytes(maxBody))
    && Total(now, RecordCount(maxBody)) == Total(before, RecordCount(maxBody))
    && Total(now, Markers) == Total(before, Markers)
    && Total(before, Artifacts) - Total(now, Artifacts) == paid
    && Total(before, Quarantines) - Total(now, Quarantines) == paid
  }

  /** Every quarantined entry is a regular file, or has no size: removing one from the byte counter,
      which never counted special entries, then takes off what was counted. */
  ghost predicate PlainQuarantines(dir: Directory) {
    forall name: Name | name in dir && name.Quarantine? :: dir[name].Special? ==> dir[name].bytes == 0
  }

  lemma NotPlain(before: Directory, now: Directory, name: Name, paid: int, maxBody: nat)
    requires PaidFor(before, now, paid, maxBody) && name.Quarantine? && name in now
    ensures now[name].Special? && now[name].bytes > 0 ==> !PlainQuarantines(before)
    ensures MeasuredAt(Quarantines, map[name := now[name]], name) == MeasuredAt(Quarantines, now, name)
    ensures name in before && before[name] == now[name]
  {
    assert Look(now, name) == Look(before, name);
  }

  /** No file went that did not have to: before the last one that did, there was too little room. */
  ghost predicate Needed(before: Directory, now: Directory, bytes: int, limit: int) {
    now == before
    || exists name: Name :: name in before && name.Quarantine? && name !in now && bytes + SizeOf(before[name]) > limit
  }

  lemma NothingNeeded(dir: Directory, bytes: int, limit: int)
    ensures Needed(dir, dir, bytes, limit)
  {
  }

  lemma OneMoreNeeded(start: Directory, before: Directory, now: Directory, name: Name, bytes0: int, bytes: int,
                      limit: int)
    requires Needed(start, before, bytes0, limit) && bytes0 > limit && name.Quarantine? && name in before
    requires (now == before && bytes == bytes0)
          || (now == before - {name} && name in start && bytes + SizeOf(start[name]) >= bytes0)
    ensures Needed(start, now, bytes, limit)
  {
  }

  lemma LostNames(before: Directory, now: Directory)
    requires LostQuarantines(before, now)
    ensures forall n: Sequence :: Look(now, Record(n)) == Look(before, Record(n))
    ensures forall n: Sequence :: Look(now, Marker(n)) == Look(before, Marker(n))
  {
  }

  lemma KeptAsIs(dir: Directory, log: seq<Event>)
    ensures LostQuarantines(dir, dir) && Extends(log, log)
  {
  }

  /** What a cleanup leaves of the accounts. */
  ghost predicate CleanOutcome(before: Directory, now: Directory, maxBody: nat, ok: bool, was: bool, exact: bool,
                               bytes: int, artifactBytes: int, records: nat)
  {
    && (exact ==> was && Balanced(now, maxBody, bytes, artifactBytes, records))
    && (ok && exact ==> artifactBytes == Total(now, Artifacts))
    && (PlainQuarantines(before) ==>
          && exact == (was && (ok || Total(now, Quarantines) == Total(before, Quarantines)))
          && (!ok && was ==>
                (bytes - artifactBytes
                  == Total(now, RecordBytes(maxBody)) - (Total(before, Quarantines) - Total(now, Quarantines)))))
  }

  lemma Cleaned(before: Directory, now: Directory, maxBody: nat, ok: bool, was: bool, odd: bool, paid: int,
                bytes0: int, artifactBytes0: int, records: nat, exact: bool, bytes: int, artifactBytes: int)
    requires PaidFor(before, now, paid, maxBody) && (odd ==> !PlainQuarantines(before))
    requires was ==> Balanced(before, maxBody, bytes0, artifactBytes0, records)
    requires was ==> artifactBytes0 == Total(before, Artifacts)
    requires !odd && bytes0 >= Total(before, Artifacts) ==> bytes == bytes0 - paid
    requires artifactBytes == if ok then Total(now, Artifacts) else artifactBytes0
    requires exact == (was && !odd && (ok || paid == 0))
    ensures CleanOutcome(before, now, maxBody, ok, was, exact, bytes, artifactBytes, records)
  {
    LostNames(before, now);
    MarkersAreArtifacts(now);
    hide Total, LostQuarantines, PlainQuarantines;
  }

  lemma ArtifactsWithin(dir: Directory, maxBody: nat, bytes: int, artifactBytes: int, records: nat)
    requires Balanced(dir, maxBody, bytes, artifactBytes, records)
    ensures bytes >= artifactBytes
  {
  }

  /** Of the artifacts only quarantined bytes went, and records stayed as they were. */
  ghost predicate EvictedFor(before: Directory, now: Directory, maxBody: nat) {
    && Total(now, RecordBytes(maxBody)) == Total(before, RecordBytes(maxBody))
    && Total(now, RecordCount(maxBody)) == Total(before, RecordCount(maxBody))
    && Total(before, Artifacts) - Total(now, Artifacts) == Total(before, Quarantines) - Total(now, Quarantines)
  }

  lemma Evicted(before: Directory, now: Directory, paid: int, maxBody: nat)
    ensures PaidFor(before, now, paid, maxBody) ==> EvictedFor(before, now, maxBody)
    ensures now == before ==> EvictedFor(before, now, maxBody)
  {
    hide Total, LostQuarantines;
  }

  lemma PaidForOneMore(before: Directory, now: Directory, name: Name, paid: int, maxBody: nat)
    requires PaidFor(before, now, paid, maxBody) && name.Quarantine?
    ensures PaidFor(before, now - {name}, paid + MeasuredAt(Quarantines, now, name), maxBody)
    ensures paid + MeasuredAt(Quarantines, now, name) <= Total(before, Quarantines) <= Total(before, Artifacts)
  {
    QuarantineAccounts(now, now - {name}, name, maxBody);
    TotalOrdered(before, Quarantines, Artifacts);
  }

  lemma MarkersAreArtifacts(dir: Directory)
    ensures Total(dir, Markers) <= Total(dir, Artifacts)
  {
    TotalOrdered(dir, Markers, Artifacts);
  }

  lemma QuarantineMayGo(w: World, name: Name)
    requires name.Quarantine?
    ensures MayAlter(w, Unlink(name))
  {
    forall m: Sequence ensures MayAlterAt(w, Unlink(name), m) {
    }
  }

  /** The directory lost quarantined files only. */
  ghost predicate LostQuarantines(before: Directory, now: Directory) {
    forall name: Name | !name.Quarantine? || name in now :: Look(now, name) == Look(before, name)
  }

  lemma RecordMayBeWritten(w: World, n: Sequence, file: File, ticket: nat)
    requires n !in w.kept && Holds(Some(file), ticket)
    requires ticket in w.homes && w.homes[ticket] == n && ticket !in w.settled
    ensures MayAlter(w, Link(TempRecord(n), file)) && MayAlter(w, Rename(TempRecord(n), Record(n), file))
  {
    forall m: Sequence
      ensures MayAlterAt(w, Link(TempRecord(n), file), m)
      ensures MayAlterAt(w, Rename(TempRecord(n), Record(n), file), m)
    {
    }
  }

  lemma FreshNumberIsFree(w: World, n: Sequence)
    requires Safe(w) && Record(n) !in w.disk.live
    ensures n !in w.kept
  {
    VisibleNow(w);
  }

  lemma FreshTicketIsUnsettled(w: World, ticket: nat)
    requires Safe(w) && ticket !in w.homes
    ensures ticket !in w.settled
  {
  }

  /** What an admission attempt under `n` does to the accounts. */
  lemma WriteAccounts(a: Directory, b: Directory, n: Sequence, maxBody: nat, bytes: int, artifactBytes: int,
                      records: nat)
    requires SameBut(a, b, {Record(n), TempRecord(n)}) && Record(n) !in a
    requires Record(n) in b ==> Readable(b[Record(n)], maxBody)
    requires Balanced(a, maxBody, bytes, artifactBytes, records)
    ensures Record(n) in b ==> Balanced(b, maxBody, bytes + b[Record(n)].size, artifactBytes, records + 1)
    ensures Record(n) !in b ==> Balanced(b, maxBody, bytes, artifactBytes, records)
    ensures TempRecord(n) !in a && TempRecord(n) !in b ==> Total(b, Artifacts) == Total(a, Artifacts)
  {
    var changed := {Record(n), TempRecord(n)};
    TotalChanged(a, b, RecordBytes(maxBody), changed, Record(n));
    TotalChanged(a, b, RecordCount(maxBody), changed, Record(n));
    TotalSame(a, b, Markers, changed);
    if TempRecord(n) !in a && TempRecord(n) !in b {
      TotalSame(a, b, Artifacts, changed);
    }
    assert forall m: Sequence | m != n :: Look(a, Record(m)) == Look(b, Record(m));
  }

  /** Records and markers are the same except for the records of the listed numbers. */
  ghost predicate SameRecords(a: Directory, b: Directory, changed: set<Sequence>) {
    && (forall n: Sequence | n !in changed :: Look(a, Record(n)) == Look(b, Record(n)))
    && (forall n: Sequence :: Look(a, Marker(n)) == Look(b, Marker(n)))
  }

  lemma WriteTouchesOne(a: Directory, b: Directory, n: Sequence)
    requires SameBut(a, b, {Record(n), TempRecord(n)})
    ensures SameRecords(a, b, {n})
    ensures Look(a, Record(n)) == Look(b, Record(n)) ==> SameRecords(a, b, {})
  {
  }

  lemma QuarantinesThenRecords(a: Directory, b: Directory, c: Directory, changed: set<Sequence>)
    requires LostQuarantines(a, b) && (SameRecords(b, c, changed) || b == c)
    ensures SameRecords(a, c, changed)
  {
    assert forall n: Sequence :: Look(a, Record(n)) == Look(b, Record(n));
    assert forall n: Sequence :: Look(a, Marker(n)) == Look(b, Marker(n));
  }

  /** Recounting the artifacts shifts both counters alike. */
  lemma RefreshBalances(dir: Directory, maxBody: nat, bytes: int, artifactBytes: int, records: nat)
    requires Balanced(dir, maxBody, bytes, artifactBytes, records)
    ensures Balanced(dir, maxBody, bytes + Total(dir, Artifacts) - artifactBytes, Total(dir, Artifacts), records)
  {
    MarkersAreArtifacts(dir);
  }

  /** What one admission attempt did to the promises. A record rolled back can come back after a
      crash exactly when the second sync failed. */
  ghost predicate AdmissionOutcome(before: World, after: World, from: Sequence, to: Sequence, job: Job,
                                   size: nat, r: Admission)
  {
    && before.settled == after.settled && before.maxBody == after.maxBody
    && (if r.Admitted? || r.NotWritten? || r.RolledBack? || r.Stuck? then r.number == from && to == from + 1
        else to == from)
    && (r.Admitted? ==>
          && r.ticket !in before.homes
          && after.homes == before.homes[r.ticket := r.number]
          && after.kept == before.kept[r.number := Regular(size, Work(r.ticket, job))])
    && (!r.Admitted? ==> after.kept == before.kept)
    && (r.RolledBack? ==> (Some(r.file) in Possible(after.disk, Record(r.number)) <==> !r.resynced))
  }

  lemma AdmissionAfterCleanup(before: World, mid: World, after: World, from: Sequence, to: Sequence, job: Job,
                              size: nat, r: Admission)
    requires SamePromises(before, mid) && before.settled == mid.settled
    requires AdmissionOutcome(mid, after, from, to, job, size, r)
    ensures AdmissionOutcome(before, after, from, to, job, size, r)
  {
  }

  lemma NothingPromised(before: World, after: World, from: Sequence, to: Sequence, job: Job, size: nat, r: Admission)
    requires SamePromises(before, after) && before.settled == after.settled && (r.Full? || r.CleanupFailed?)
    requires from == to
    ensures AdmissionOutcome(before, after, from, to, job, size, r)
  {
  }

  lemma BalancedTotals(dir: Directory, maxBody: nat, bytes: int, artifactBytes: int, records: nat)
    requires Balanced(dir, maxBody, bytes, artifactBytes, records)
    ensures records == Total(dir, RecordCount(maxBody)) && bytes - artifactBytes == Total(dir, RecordBytes(maxBody))
  {
  }

  lemma AscendingSnoc(entries: seq<Sequence>, numbers: seq<Sequence>, i: nat)
    requires Ascending(entries) && Ascending(numbers) && i < |numbers|
    requires forall n | n in entries :: n in numbers[..i]
    ensures Ascending(entries + [numbers[i]])
  {
    forall n | n in entries ensures n < numbers[i] {
      var j :| 0 <= j < i && numbers[..i][j] == n;
    }
    assert forall k | 0 <= k < |entries| :: entries[k] in entries;
  }

  lemma ReadableMeasures(dir: Directory, n: Sequence, maxBody: nat)
    requires Record(n) in dir && Readable(dir[Record(n)], maxBody)
    ensures MeasuredAt(RecordBytes(maxBody), dir, Record(n)) == dir[Record(n)].size
    ensures MeasuredAt(RecordCount(maxBody), dir, Record(n)) == 1 <= Total(dir, RecordCount(maxBody))
  {
    MeasureIsPartOfTotal(dir, RecordCount(maxBody), Record(n));
  }

  /** Moving a readable record aside takes it off the record accounts. */
  lemma AsideAccounts(before: World, after: World, n: Sequence, copy: nat, bytes: int, artifactBytes: int, records: nat)
    requires MovedAside(before, after, n, copy) && before.disk.live[Record(n)].Regular?
    requires Balanced(before.disk.live, before.maxBody, bytes, artifactBytes, records)
    ensures records > 0
    ensures Balanced(after.disk.live, before.maxBody, bytes,
                     artifactBytes + before.disk.live[Record(n)].size, records - 1)
  {
    var a, b := before.disk.live, after.disk.live;
    var changed := {Record(n), Quarantine(n, copy)};
    ReadableMeasures(a, n, before.maxBody);
    TotalChanged(a, b, RecordBytes(before.maxBody), changed, Record(n));
    TotalChanged(a, b, RecordCount(before.maxBody), changed, Record(n));
    TotalSame(a, b, Markers, changed);
  }

  /** The listed temporary files are gone and nothing else changed. */
  ghost predicate LostTemps(before: Directory, now: Directory, done: set<Name>) {
    && (forall name: Name | !IsTemp(name) :: Look(now, name) == Look(before, name))
    && (forall name: Name | name in now :: name in before)
    && (forall name: Name | name in done && IsTemp(name) :: name !in now)
  }

  lemma LostOneTemp(before: Directory, now: Directory, done: set<Name>, name: Name)
    requires LostTemps(before, now, done)
    ensures IsTemp(name) ==> LostTemps(before, now - {name}, done + {name})
    ensures !IsTemp(name) || name !in now ==> LostTemps(before, now, done + {name})
  {
  }

  lemma LostFewer(before: Directory, now: Directory, done: set<Name>)
    requires LostTemps(before, now, done)
    ensures LostTemps(before, now, {})
  {
  }

  lemma AllRecovered(start: Directory, unmarked: Directory, now: Directory, maxBody: nat)
    requires AllReconciled(start, unmarked, start.Keys, maxBody) && Within(unmarked, start)
    requires LostTemps(unmarked, now, start.Keys)
    ensures forall n: Sequence :: Recovered(start, now, maxBody, n)
  {
    forall n: Sequence ensures Recovered(start, now, maxBody, n) {
      assert Reconciled(start, unmarked, start.Keys, maxBody, n);
      assert Look(now, Marker(n)) == Look(unmarked, Marker(n)) && Look(now, Record(n)) == Look(unmarked, Record(n));
    }
  }

  ghost predicate Unscanned(start: Directory, now: Directory, numbers: seq<Sequence>, i: nat) {
    forall j | i <= j < |numbers| :: Look(now, Record(numbers[j])) == Look(start, Record(numbers[j]))
  }

  lemma UnscannedHere(start: Directory, now: Directory, numbers: seq<Sequence>, i: nat)
    requires Unscanned(start, now, numbers, i) && i < |numbers|
    ensures Look(now, Record(numbers[i])) == Look(start, Record(numbers[i]))
  {
  }

  lemma UnscannedStep(start: Directory, before: Directory, now: Directory, numbers: seq<Sequence>, i: nat)
    requires Unscanned(start, before, numbers, i) && i < |numbers| && Ascending(numbers)
    requires OnlyAside(before, now, numbers[i])
    ensures Unscanned(start, now, numbers, i + 1)
  {
  }

  /** Every record is readable or cannot be moved aside. */
  ghost predicate TidyAt(dir: Directory, n: Sequence, maxBody: nat) {
    Record(n) in dir ==> Readable(dir[Record(n)], maxBody) || Immovable(dir, n)
  }

  ghost predicate Tidied(dir: Directory, numbers: seq<Sequence>, i: nat, maxBody: nat) {
    i <= |numbers| && forall j | 0 <= j < i :: TidyAt(dir, numbers[j], maxBody)
  }

  /** Nothing went but perhaps the record itself, and the other records are as they were. */
  ghost predicate OnlyAside(before: Directory, now: Directory, n: Sequence) {
    && (forall m: Sequence | m != n :: Look(now, Record(m)) == Look(before, Record(m)))
    && (forall m: Sequence, copy :: Quarantine(m, copy) in before ==> Quarantine(m, copy) in now)
  }

  lemma TidiedMore(before: Directory, now: Directory, numbers: seq<Sequence>, i: nat, maxBody: nat)
    requires Tidied(before, numbers, i, maxBody) && i < |numbers| && Ascending(numbers)
    requires OnlyAside(before, now, numbers[i]) && TidyAt(now, numbers[i], maxBody)
    ensures Tidied(now, numbers, i + 1, maxBody)
  {
    forall j | 0 <= j < i ensures TidyAt(now, numbers[j], maxBody) {
      assert TidyAt(before, numbers[j], maxBody);
      assert Look(now, Record(numbers[j])) == Look(before, Record(numbers[j]));
    }
  }

  lemma AllTidied(start: Directory, now: Directory, numbers: seq<Sequence>, maxBody: nat)
    requires Tidied(now, numbers, |numbers|, maxBody)
    requires forall n: Sequence :: Record(n) in now ==> n in numbers
    ensures forall n: Sequence :: TidyAt(now, n, maxBody)
  {
    forall n: Sequence ensures TidyAt(now, n, maxBody) {
      if n in numbers {
        var j :| 0 <= j < |numbers| && numbers[j] == n;
      }
    }
  }

  lemma AsideOnly(before: World, after: World, n: Sequence, copy: nat)
    requires MovedAside(before, after, n, copy)
    ensures OnlyAside(before.disk.live, after.disk.live, n) && Record(n) !in after.disk.live
  {
  }

  /** The number to go on with is the least above every record that recovery keeps or moves aside. */
  ghost predicate NextFree(dir: Directory, next: Sequence, maxBody: nat) {
    && (forall n: Sequence | Stands(dir, n, maxBody) :: n < next)
    && (next == 0 || Stands(dir, next - 1, maxBody))
  }

  /** A record that no valid verdict has ended. */
  ghost predicate Stands(dir: Directory, n: Sequence, maxBody: nat) {
    Record(n) in dir && !IsVerdict(Look(dir, Marker(n)), maxBody)
  }

  lemma RecordsStay(before: Directory, now: Directory, free: Sequence, maxBody: nat)
    requires KeepsReadable(before, now, maxBody) && forall n: Sequence :: Marker(n) !in before
    requires forall n: Sequence | Record(n) in before :: n < free
    ensures forall n: Sequence | Record(n) in now :: n < free
    ensures forall n: Sequence :: Marker(n) !in now
  {
    hide Readable;
    forall n: Sequence ensures (Record(n) in now ==> n < free) && Marker(n) !in now {
      assert Look(now, Marker(n)) == Look(before, Marker(n));
    }
  }

  lemma NextAfterRecovery(start: Directory, recovered: Directory, next: Sequence, maxBody: nat)
    requires forall n: Sequence :: Recovered(start, recovered, maxBody, n)
    requires forall n: Sequence :: Record(n) in recovered ==> n < next
    requires next == 0 || Record(next - 1) in recovered
    ensures NextFree(start, next, maxBody)
  {
    hide IsVerdict;
    forall n: Sequence ensures Stands(start, n, maxBody) <==> Record(n) in recovered {
      assert Recovered(start, recovered, maxBody, n);
    }
  }

  /** The first i records have been read and summed up, and none of the others touched. */
  ghost predicate ScannedTo(start: Directory, now: Directory, numbers: seq<Sequence>, i: nat, used: nat, count: nat,
                            maxBody: nat)
  {
    && i <= |numbers| && KeepsReadable(start, now, maxBody) && Unscanned(start, now, numbers, i)
    && used == Sum(start, numbers[..i], RecordBytes(maxBody))
    && count == Sum(start, numbers[..i], RecordCount(maxBody))
  }

  lemma NothingScanned(start: Directory, numbers: seq<Sequence>, maxBody: nat)
    ensures ScannedTo(start, start, numbers, 0, 0, 0, maxBody)
  {
  }

  lemma ScannedKeeps(start: Directory, now: Directory, numbers: seq<Sequence>, i: nat, used: nat, count: nat,
                     maxBody: nat)
    requires ScannedTo(start, now, numbers, i, used, count, maxBody)
    ensures KeepsReadable(start, now, maxBody)
  {
  }

  lemma AllScanned(start: Directory, now: Directory, numbers: seq<Sequence>, used: nat, count: nat, maxBody: nat)
    requires ScannedTo(start, now, numbers, |numbers|, used, count, maxBody)
    requires Ascending(numbers) && forall n: Sequence :: n in numbers <==> Record(n) in start
    ensures KeepsReadable(start, now, maxBody)
    ensures used == Total(now, RecordBytes(maxBody)) && count == Total(now, RecordCount(maxBody))
    ensures forall n: Sequence :: Record(n) in now ==> Record(n) in start
  {
    assert numbers[..|numbers|] == numbers;
    SumIsTotal(start, numbers, RecordBytes(maxBody));
    SumIsTotal(start, numbers, RecordCount(maxBody));
    ReadableTotals(start, now, maxBody);
    hide Sum, Total, MeasuredAt, Readable;
  }

  ghost predicate Below(numbers: seq<Sequence>, i: nat, free: Sequence) {
    && i <= |numbers| && (forall j | 0 <= j < i :: numbers[j] < free)
    && (free == 0 || free - 1 in numbers[..i])
  }

  lemma AllBelow(numbers: seq<Sequence>, free: Sequence)
    requires Below(numbers, |numbers|, free)
    ensures forall n | n in numbers :: n < free
    ensures free == 0 || free - 1 in numbers
  {
    assert numbers[..|numbers|] == numbers;
  }

  lemma NothingTidied(dir: Directory, numbers: seq<Sequence>, maxBody: nat)
    ensures Tidied(dir, numbers, 0, maxBody)
  {
  }

  lemma BelowNext(numbers: seq<Sequence>, i: nat, free: Sequence)
    requires Below(numbers, i, free) && i < |numbers|
    ensures free > numbers[i] ==> Below(numbers, i + 1, free)
    ensures free <= numbers[i] < MAX_UINT64 ==> Below(numbers, i + 1, numbers[i] + 1)
  {
    assert numbers[..i + 1] == numbers[..i] + [numbers[i]];
  }

  predicate IsTemp(name: Name) {
    name.TempRecord? || name.TempMarker?
  }

  /** What reconciliation leaves under one number: no marker, no temporary file, and the record
      unless a valid verdict stood beside it. */
  ghost predicate Recovered(start: Directory, now: Directory, maxBody: nat, n: Sequence) {
    && Marker(n) !in now && TempMarker(n) !in now && TempRecord(n) !in now
    && Look(now, Record(n)) == if IsVerdict(Look(start, Marker(n)), maxBody) then None else Look(start, Record(n))
  }

  /** Every listed marker that is a valid verdict has its number's tickets settled. */
  ghost predicate VerdictsSettled(start: Directory, done: set<Name>, w: World) {
    forall n: Sequence | Marker(n) in done && IsVerdict(Look(start, Marker(n)), w.maxBody) ::
      Residents(w.homes, n) <= w.settled
  }

  lemma StaySettled(start: Directory, done: set<Name>, before: World, after: World)
    requires VerdictsSettled(start, done, before) && SamePromises(before, after) && before.settled <= after.settled
    ensures VerdictsSettled(start, done, after)
  {
    hide IsVerdict;
  }

  lemma VerdictSettled(start: Directory, done: set<Name>, before: World, after: World, name: Name)
    requires VerdictsSettled(start, done, before) && SamePromises(before, after) && before.settled <= after.settled
    requires name.Marker? && IsVerdict(Look(start, name), after.maxBody) ==>
               Residents(after.homes, name.number) <= after.settled
    ensures VerdictsSettled(start, done + {name}, after)
  {
    hide IsVerdict, Residents;
  }

  lemma RecordMayGo(w: World, n: Sequence)
    requires n !in w.kept
    ensures MayAlter(w, Unlink(Record(n)))
  {
    forall m: Sequence ensures MayAlterAt(w, Unlink(Record(n)), m) {
    }
  }

  /** The record numbers present, in ascending order. */
  method SortedNumbers(dir: Directory) returns (numbers: seq<Sequence>)
    ensures Ascending(numbers)
    ensures forall n: Sequence :: n in numbers <==> Record(n) in dir
  {
    var rest := dir.Keys;
    numbers := [];
    while rest != {}
      invariant Ascending(numbers)
      invariant forall n: Sequence :: n in numbers <==> Record(n) in dir && Record(n) !in rest
      invariant rest <= dir.Keys
      decreases rest
    {
      var name :| name in rest;
      if name.Record? {
        numbers := Insert(numbers, name.number);
      }
      rest := rest - {name};
    }
  }

  method Insert(numbers: seq<Sequence>, n: Sequence) returns (r: seq<Sequence>)
    requires Ascending(numbers) && n !in numbers
    ensures Ascending(r)
    ensures forall m: Sequence :: m in r <==> m in numbers || m == n
  {
    var i := 0;
    while i < |numbers| && numbers[i] < n
      invariant i <= |numbers|
      invariant forall j | 0 <= j < i :: numbers[j] < n
    {
      i := i + 1;
    }
    InsertedAscends(numbers, n, i);
    InsertedMembers(numbers, n, i);
    r := numbers[..i] + [n] + numbers[i..];
  }

  lemma InsertedAscends(numbers: seq<Sequence>, n: Sequence, i: nat)
    requires Ascending(numbers) && n !in numbers && i <= |numbers|
    requires forall j | 0 <= j < i :: numbers[j] < n
    requires i < |numbers| ==> n <= numbers[i]
    ensures Ascending(numbers[..i] + [n] + numbers[i..])
  {
    var r := numbers[..i] + [n] + numbers[i..];
    forall j, k | 0 <= j < k < |r| ensures r[j] < r[k] {
      assert i < |numbers| ==> numbers[i] in numbers;
      var before_j, before_k := if j < i then j else j - 1, if k < i then k else k - 1;
      if j != i && k != i {
        assert r[j] == numbers[before_j] && r[k] == numbers[before_k];
      } else if k == i {
        assert r[j] == numbers[j];
      } else {
        assert r[k] == numbers[before_k] && numbers[i] <= numbers[before_k];
      }
    }
  }

  lemma InsertedMembers(numbers: seq<Sequence>, n: Sequence, i: nat)
    requires i <= |numbers|
    ensures forall m: Sequence :: m in numbers[..i] + [n] + numbers[i..] <==> m in numbers || m == n
  {
    assert numbers == numbers[..i] + numbers[i..];
  }

  method FreshTicket(homes: map<nat, Sequence>) returns (ticket: nat)
    ensures ticket !in homes
  {
    var rest := homes.Keys;
    ticket := 0;
    while rest != {}
      invariant forall t | t in homes && t !in rest :: t < ticket
      decreases rest
    {
      var t :| t in rest;
      rest := rest - {t};
      ticket := if t < ticket then ticket else t + 1;
    }
  }

  /** Startup gives up on a record with the last number, unless its verdict removes it. */
  ghost predicate NumbersExhausted(dir: Directory, maxBody: nat) {
    Record(MAX_UINT64) in dir && !IsVerdict(Look(dir, Marker(MAX_UINT64)), maxBody)
  }

  /** What is on disk and cannot be cleaned away leaves room for one more record of the size. */
  ghost predicate HasRoom(dir: Directory, maxBody: nat, maxBytes: nat, maxRecords: nat, size: nat) {
    && Total(dir, RecordCount(maxBody)) < maxRecords
    && Total(dir, RecordBytes(maxBody)) + Total(dir, Artifacts) - Total(dir, Quarantines) + size <= maxBytes
  }

  /** Nothing but lack of room can refuse a job, and its number is there to be taken. */
  ghost predicate MayTake(dir: Directory, next: Sequence, maxBody: nat, maxBytes: nat, maxRecords: nat, size: nat) {
    next != MAX_UINT64 && TempRecord(next) !in dir && HasRoom(dir, maxBody, maxBytes, maxRecords, size)
  }

  /** A cleanup that ran to its end made the room asked for, or there is nothing more to clean. */
  ghost predicate CleanedOut(before: Directory, maxBytes: nat, required: nat, bytes0: int, bytes: int) {
    bytes <= maxBytes - required || bytes <= bytes0 - Total(before, Quarantines)
  }

  lemma TempsStay(before: Directory, now: Directory, n: Sequence)
    requires LostQuarantines(before, now)
    ensures TempRecord(n) in now <==> TempRecord(n) in before
  {
    assert Look(now, TempRecord(n)) == Look(before, TempRecord(n));
  }

  lemma RoomIsMade(before: Directory, now: Directory, maxBody: nat, maxBytes: nat, maxRecords: nat, size: nat,
                   bytes0: int, bytes: int, records: nat)
    requires Balanced(before, maxBody, bytes0, Total(before, Artifacts), records)
    requires CleanedOut(before, maxBytes, size, bytes0, bytes) && HasRoom(before, maxBody, maxBytes, maxRecords, size)
    ensures records < maxRecords && bytes <= maxBytes - size
  {
  }

  lemma RoomWasThere(before: Directory, now: Directory, maxBody: nat, maxBytes: nat, maxRecords: nat,
                     size: nat, bytes: int, records: nat)
    requires EvictedFor(before, now, maxBody)
    requires Balanced(now, maxBody, bytes, Total(now, Artifacts), records)
    requires records < maxRecords && bytes <= maxBytes - size
    ensures HasRoom(before, maxBody, maxBytes, maxRecords, size)
  {
  }

  lemma AllCleaned(before: Directory, now: Directory, paid: int, maxBody: nat)
    requires PaidFor(before, now, paid, maxBody) && forall name: Name | name in now :: !name.Quarantine?
    ensures paid == Total(before, Quarantines)
  {
    TotalZero(now, Quarantines);
    hide Total;
  }

  /** Without faults an admission that got as far as writing succeeds, unless a left-over temporary
      file is in the way; and numbers run out only at the last one. */
  ghost predicate Excused(dir: Directory, next: Sequence, faulty: bool, r: Admission) {
    && (r.Exhausted? ==> next == MAX_UINT64)
    && (!faulty ==>
          !r.CleanupFailed? && !r.RolledBack? && !r.Stuck? && (r.NotWritten? ==> TempRecord(next) in dir))
  }

  lemma ExcusedAfterCleanup(before: Directory, cleaned: Directory, next: Sequence, faulty: bool, r: Admission)
    requires LostQuarantines(before, cleaned) && Excused(cleaned, next, faulty, r)
    ensures Excused(before, next, faulty, r)
  {
    assert Look(cleaned, TempRecord(next)) == Look(before, TempRecord(next));
  }

  lemma ExcusedEarly(dir: Directory, next: Sequence, faulty: bool, r: Admission)
    requires r.Invalid? || r.TooLarge? || r.SpoolClosed? || r.Full? || (r.CleanupFailed? && faulty)
    ensures Excused(dir, next, faulty, r)
  {
  }

  lemma ExtendsItself(log: seq<Event>)
    ensures Extends(log, log)
  {
  }

  predicate AllCopiesTaken(dir: Directory, n: Sequence) {
    forall copy: nat | copy < MAX_QUARANTINE_COPIES :: Quarantine(n, copy) in dir
  }

  /** A record that the scan does not move aside. */
  predicate Immovable(dir: Directory, n: Sequence) {
    Record(n) !in dir || dir[Record(n)].Special? || AllCopiesTaken(dir, n)
  }

  /** A live record can be acknowledged unless it is no regular file, or its verdict has yet to be
      written and a left-over temporary file is in the way. */
  predicate MayAck(dir: Directory, n: Sequence, marked: bool) {
    Record(n) in dir && dir[Record(n)].Regular? && (marked || TempMarker(n) !in dir)
  }

  lemma ExhaustedAfterRecovery(start: Directory, recovered: Directory, maxBody: nat)
    requires forall n: Sequence :: Recovered(start, recovered, maxBody, n)
    ensures NumbersExhausted(start, maxBody) <==> Record(MAX_UINT64) in recovered
    ensures forall n: Sequence :: Marker(n) !in recovered
  {
    assert Recovered(start, recovered, maxBody, MAX_UINT64);
    hide IsVerdict;
    forall n: Sequence ensures Marker(n) !in recovered {
      assert Recovered(start, recovered, maxBody, n);
    }
  }

  lemma OfferedAfterRecovery(start: Directory, recovered: Directory, now: Directory, maxBody: nat)
    requires forall n: Sequence :: Recovered(start, recovered, maxBody, n)
    requires KeepsReadable(recovered, now, maxBody)
    ensures forall n: Sequence :: Offered(now, n, maxBody) <==> SurvivesRecovery(start, n, maxBody)
    ensures forall n: Sequence | Offered(now, n, maxBody) :: Look(now, Record(n)) == Look(start, Record(n))
  {
    hide IsVerdict, Readable;
    forall n: Sequence
      ensures Offered(now, n, maxBody) <==> SurvivesRecovery(start, n, maxBody)
      ensures Offered(now, n, maxBody) ==> Look(now, Record(n)) == Look(start, Record(n))
    {
      assert Recovered(start, recovered, maxBody, n);
    }
  }

  /** One record less, but never below none. */
  function FewerRecords(records: nat): (fewer: nat)
    ensures records > 0 ==> fewer + 1 == records
    ensures records == 0 ==> fewer == 0
  {
    if records > 0 then records - 1 else 0
  }

  class Spool {
    const maxBytes: nat
    const maxRecords: nat
    ghost const origin: World
    ghost var log: seq<Event>
    ghost var exact: bool
    ghost var faulty: bool
    var world: World
    var bytes: int
    var artifactBytes: int
    var records: nat
    var next: Sequence
    var claimed: set<Sequence>
    var closed: bool

    function Live(): Directory
      reads this`world
    {
      world.disk.live
    }

    ghost predicate Sound()
      reads this`world, this`log
    {
      Safe(origin) && Disciplined(origin, log) && Run(origin, log) == world && Safe(world)
    }

    ghost predicate Accounted()
      reads this`world, this`bytes, this`artifactBytes, this`records
    {
      Balanced(Live(), world.maxBody, bytes, artifactBytes, records)
    }

    /** The counters are what is on disk, readable or not. */
    ghost predicate Counted()
      reads this`world, this`bytes, this`artifactBytes, this`records
    {
      && records == Total(Live(), RecordCount(world.maxBody)) && artifactBytes == Total(Live(), Artifacts)
      && bytes == Total(Live(), RecordBytes(world.maxBody)) + Total(Live(), Artifacts)
    }

    ghost predicate Ordered()
      reads this`world, this`next
    {
      && (forall n: Sequence | Record(n) in Live() :: n < next)
      && (forall n: Sequence | next <= n :: Marker(n) !in Live())
    }

    ghost predicate Ready()
      reads this`world, this`log, this`exact, this`bytes, this`artifactBytes, this`records, this`next
    {
      Sound() && Ordered() && (exact ==> Accounted())
    }

    /** A process opens the directory left by earlier processes and crashes. */
    constructor Open(w: World, maxBytes: nat)
      requires Safe(w)
      ensures Sound() && world == w && log == [] && origin == w
      ensures this.maxBytes == maxBytes && maxRecords == MAX_RECORDS && claimed == {} && !closed && !faulty
      ensures bytes == artifactBytes == records == next == 0 && !exact
    {
      origin, world, log := w, w, [];
      this.maxBytes, maxRecords := maxBytes, MAX_RECORDS;
      bytes, artifactBytes, records, next, claimed, closed := 0, 0, 0, 0, {}, false;
      exact, faulty := false, false;
    }

    method Do(e: Event)
      requires Sound() && Allowed(world, e)
      modifies this`world, this`log
      ensures Sound() && world == Next(old(world), e) && log == old(log) + [e] && Extends(old(log), log)
    {
      AllowedKeepsSafe(world, e);
      world := Next(world, e);
      log := log + [e];
      assert log[..|log| - 1] == old(log);
    }

    /** The operating system decides whether a directory sync succeeds. */
    method SyncDirectory() returns (ok: bool)
      requires Sound()
      modifies this`world, this`log, this`faulty
      ensures faulty == (old(faulty) || !ok)
      ensures Sound() && world == Next(old(world), if ok then SyncSucceeded else SyncFailed)
      ensures Live() == old(Live()) && SamePromises(old(world), world) && world.settled == old(world.settled)
      ensures Extends(old(log), log) && (ok ==> world.disk == world.disk.Synced())
    {
      ExtensionsChain();
      hide Extends;
      ok := *;
      faulty := faulty || !ok;
      Do(if ok then SyncSucceeded else SyncFailed);
    }

    /** Removing an existing entry may fail, leaving everything as it was. */
    method Remove(name: Name) returns (ok: bool)
      requires Sound() && MayAlter(world, Unlink(name))
      modifies this`world, this`log, this`faulty
      ensures faulty == (old(faulty) || !ok)
      ensures Sound() && Extends(old(log), log)
      ensures world == if ok then Next(old(world), Altered(Unlink(name))) else old(world)
    {
      ExtensionsChain();
      hide Extends;
      ok := *;
      faulty := faulty || !ok;
      if ok {
        Do(Altered(Unlink(name)));
      }
    }

    /** Moves a bad record aside under the first free of a hundred names. */
    method QuarantineRecord(n: Sequence) returns (moved: bool, copy: nat)
      requires Sound() && Record(n) in Live() && n !in world.kept
      modifies this`world, this`log, this`faulty
      ensures (old(faulty) ==> faulty) && (!faulty && !moved ==> AllCopiesTaken(old(Live()), n))
      ensures Sound() && Extends(old(log), log)
      ensures if moved then MovedAside(old(world), world, n, copy) else world == old(world)
    {
      ExtensionsChain();
      hide Extends;
      copy := 0;
      while copy < MAX_QUARANTINE_COPIES && Quarantine(n, copy) in Live()
        invariant copy <= MAX_QUARANTINE_COPIES && forall k | 0 <= k < copy :: Quarantine(n, k) in Live()
      {
        copy := copy + 1;
      }
      if copy == MAX_QUARANTINE_COPIES {
        return false, copy;
      }
      moved := *;
      faulty := faulty || !moved;
      if moved {
        Do(Altered(Rename(Record(n), Quarantine(n, copy), Live()[Record(n)])));
      }
    }

    /** Reads one record; regular files that do not hold a valid job are quarantined. */
    method ReadRecord(n: Sequence) returns (valid: bool, moved: bool)
      requires Sound()
      modifies this`world, this`log, this`faulty
      ensures (old(faulty) ==> faulty) && (!faulty && !valid && !moved ==> Immovable(old(Live()), n))
      ensures Sound() && Extends(old(log), log)
      ensures valid <==> Record(n) in old(Live()) && Readable(old(Live())[Record(n)], world.maxBody)
      ensures moved ==> !valid && Record(n) in old(Live()) && old(Live())[Record(n)].Regular?
      ensures moved ==> exists copy :: MovedAside(old(world), world, n, copy)
      ensures !moved ==> world == old(world)
    {
      ExtensionsChain();
      hide Extends;
      moved := false;
      if Record(n) !in Live() || Live()[Record(n)].Special? {
        return false, false;
      }
      valid := Readable(Live()[Record(n)], world.maxBody);
      if !valid {
        assert n !in world.kept by { VisibleNow(world); }
        var copy: nat;
        moved, copy := QuarantineRecord(n);
        assert moved ==> MovedAside(old(world), world, n, copy);
      }
    }

    /** Creates a temporary file exclusively, writes it and syncs its contents. */
    method WriteTemp(name: Name, file: File) returns (ok: bool)
      requires Sound() && (name.TempRecord? || name.TempMarker?)
      requires MayAlter(world, Link(name, file))
      modifies this`world, this`log, this`faulty
      ensures (old(faulty) ==> faulty) && (!faulty ==> (ok <==> name !in old(Live())))
      ensures Sound() && Extends(old(log), log) && world == old(world).(disk := world.disk)
      ensures SameBut(old(Live()), Live(), {name})
      ensures ok ==> name !in old(Live())
      ensures ok ==> world.disk == old(world).disk.Change(Link(name, Regular(0, Junk))).Change(Link(name, file))
    {
      ExtensionsChain();
      hide Extends;
      hide Safe, MayAlter, Disciplined, Run;
      var failed: bool := *;
      faulty := faulty || failed;
      if failed || name in Live() {
        return false;
      }
      TempMayChange(world, name);
      Do(Altered(Link(name, Regular(0, Junk))));
      TempMayChange(world, name);
      failed := *;
      faulty := faulty || failed;
      if !failed {
        MayStillWrite(old(world), world, name, file);
        Do(Altered(Link(name, file)));
        return true;
      }
      var _ := Remove(name);
      return false;
    }

    /** Writes and syncs the terminal marker of a record. stuck reports a marker that is
        visible although its sync failed and its rollback failed too. */
    method WriteTerminalMarker(n: Sequence, file: File, rollback: bool) returns (ok: bool, stuck: bool)
      requires Sound() && n !in world.kept && IsVerdict(Some(file), world.maxBody)
      requires rollback ==> !IsVerdict(Look(Live(), Marker(n)), world.maxBody)
      modifies this`world, this`log, this`faulty
      ensures (old(faulty) ==> faulty) && (!faulty ==> (ok <==> TempMarker(n) !in old(Live())))
      ensures Sound() && Extends(old(log), log) && SamePromises(old(world), world)
      ensures SameBut(old(Live()), Live(), {Marker(n), TempMarker(n)})
      ensures world.settled == old(world.settled) + if ok then Residents(world.homes, n) else {}
      ensures ok ==> Look(Live(), Marker(n)) == Some(file) && world.disk == world.disk.Synced()
      ensures stuck ==> !ok && rollback && Look(Live(), Marker(n)) == Some(file)
      ensures !ok && !stuck ==>
        Look(Live(), Marker(n)) in {Look(old(Live()), Marker(n)), if rollback then None else Some(file)}
    {
      ExtensionsChain();
      hide Extends;
      hide Safe, MayAlter, Disciplined, Run;
      stuck := false;
      MarkerMayBeWritten(world, n, file);
      ok := WriteTemp(TempMarker(n), file);
      if !ok {
        return;
      }
      var failed: bool := *;
      faulty := faulty || failed;
      if failed {
        TempMayChange(world, TempMarker(n));
        var _ := Remove(TempMarker(n));
        return false, false;
      }
      MarkerMayBeWritten(world, n, file);
      Do(Altered(Rename(TempMarker(n), Marker(n), file)));
      ok := SyncDirectory();
      if ok {
        PossibleAfterSync(world.disk, Marker(n));
        Do(Settled(n));
      } else if rollback {
        RollbackIsAllowed(old(world), world, n, file);
        var removed := RemoveMarker(n);
        stuck := !removed;
      }
    }

    /** Takes a marker back whose sync failed, and makes that durable if it can. */
    method RemoveMarker(n: Sequence) returns (removed: bool)
      requires Sound() && MayAlter(world, Unlink(Marker(n)))
      modifies this`world, this`log, this`faulty
      ensures (old(faulty) ==> faulty) && (!faulty ==> removed && world.disk == world.disk.Synced())
      ensures Sound() && Extends(old(log), log) && SamePromises(old(world), world)
      ensures world.settled == old(world.settled)
      ensures Live() == if removed then old(Live()) - {Marker(n)} else old(Live())
    {
      ExtensionsChain();
      hide Extends, Sound, MayAlter;
      removed := Remove(Marker(n));
      if removed {
        var _ := SyncDirectory();
      }
    }

    /** Removes the marker once the record's absence is durable; a failed sync restores it. */
    method RemoveTerminalMarker(n: Sequence, file: File) returns (ok: bool)
      requires Sound() && n !in world.kept && IsVerdict(Some(file), world.maxBody)
      requires Possible(world.disk, Record(n)) == {None} && Residents(world.homes, n) <= world.settled
      modifies this`world, this`log, this`faulty
      ensures (old(faulty) ==> faulty) && (!faulty ==> ok)
      ensures Sound() && Extends(old(log), log) && SamePromises(old(world), world)
      ensures world.settled == old(world.settled)
      ensures SameBut(old(Live()), Live(), {Marker(n), TempMarker(n)})
      ensures ok ==> Marker(n) !in Live() && Look(Live(), TempMarker(n)) == Look(old(Live()), TempMarker(n))
      ensures !ok ==> Look(Live(), Marker(n)) in {Look(old(Live()), Marker(n)), None, Some(file)}
    {
      ExtensionsChain();
      hide Extends;
      hide Safe, MayAlter, Disciplined, Run;
      if Marker(n) !in Live() {
        return true;
      }
      GoneIsInvisible(world, n);
      SpentMarkerMayGo(world, n);
      ok := Remove(Marker(n));
      if ok {
        ok := SyncDirectory();
        if !ok {
          var _, _ := WriteTerminalMarker(n, file, false);
        }
      }
    }

    /** The last two steps of retiring a record that has been removed: make its absence durable,
        then drop the marker. The record's tickets are settled in between. */
    method FinishAck(n: Sequence, file: File) returns (ok: bool)
      requires Sound() && n !in world.kept && Record(n) !in Live()
      requires Look(Live(), Marker(n)) == Some(file) && IsVerdict(Some(file), world.maxBody)
      modifies this`world, this`log, this`faulty
      ensures (old(faulty) ==> faulty) && (!faulty ==> ok)
      ensures Sound() && Extends(old(log), log) && SamePromises(old(world), world)
      ensures SameBut(old(Live()), Live(), {Marker(n), TempMarker(n)})
      ensures ok ==> Marker(n) !in Live() && Look(Live(), TempMarker(n)) == Look(old(Live()), TempMarker(n))
      ensures Look(Live(), Marker(n)) in {None, Some(file)}
      ensures world.settled == old(world.settled)
           || world.settled == old(world.settled) + Residents(world.homes, n)
      ensures ok || Marker(n) !in Live() ==> Residents(world.homes, n) <= world.settled
    {
      ExtensionsChain();
      hide Extends;
      hide Safe, MayAlter, Disciplined, Run, SameBut, Possible;
      SyncedAbsence(world.disk, n);
      ok := SyncDirectory();
      if ok {
        Do(Settled(n));
        ok := RemoveTerminalMarker(n, file);
      } else {
        SameAsBefore(Live(), {Marker(n), TempMarker(n)});
      }
    }

    /** Recovery of one valid marker: drop the record, make that durable, drop the marker. */
    method RetireMarked(n: Sequence, file: File) returns (ok: bool)
      requires Sound() && Look(Live(), Marker(n)) == Some(file) && IsVerdict(Some(file), world.maxBody)
      modifies this`world, this`log, this`faulty
      ensures ok ==> Residents(world.homes, n) <= world.settled
      ensures (old(faulty) ==> faulty) && (!faulty ==> ok)
      ensures Sound() && Extends(old(log), log) && SamePromises(old(world), world)
      ensures old(world.settled) <= world.settled
      ensures ok ==> SameBut(old(Live()), Live(), {Record(n), Marker(n)})
                     && Record(n) !in Live() && Marker(n) !in Live()
    {
      ExtensionsChain();
      hide Extends;
      MarkedIsNotKept(world, n);
      hide Safe, MayAlter, Disciplined, Run, SameBut;
      if Record(n) in Live() {
        RecordMayGo(world, n);
        ok := Remove(Record(n));
        if !ok {
          return;
        }
      }
      ghost var bare := Live();
      ok := FinishAck(n, file);
      if ok {
        RetiredSame(old(Live()), bare, Live(), n);
      }
    }

    /** Recovery of one marker, valid or not. */
    method ReconcileMarker(n: Sequence) returns (ok: bool)
      requires Sound() && Marker(n) in Live()
      modifies this`world, this`log, this`faulty
      ensures ok && IsVerdict(Look(old(Live()), Marker(n)), world.maxBody) ==>
        Residents(world.homes, n) <= world.settled
      ensures (old(faulty) ==> faulty) && (!faulty ==> ok)
      ensures Sound() && Extends(old(log), log) && SamePromises(old(world), world)
      ensures old(world.settled) <= world.settled
      ensures ok ==> SameBut(old(Live()), Live(), {Record(n), Marker(n)}) && Marker(n) !in Live()
      ensures ok ==> Look(Live(), Record(n)) == if IsVerdict(Look(old(Live()), Marker(n)), world.maxBody)
                                                then None else Look(old(Live()), Record(n))
    {
      ExtensionsChain();
      hide Extends;
      var file := Live()[Marker(n)];
      if IsVerdict(Some(file), world.maxBody) {
        ok := RetireMarked(n, file);
      } else {
        BadMarkerMayGo(world, n);
        hide Safe, MayAlter, Disciplined, Run;
        ok := Remove(Marker(n));
      }
    }

    /** Every marker left by earlier processes is handled, in whatever order the directory lists them. */
    method ReconcileMarkers() returns (ok: bool, changed: bool)
      requires Sound()
      modifies this`world, this`log, this`faulty
      ensures ok ==> VerdictsSettled(old(Live()), old(Live()).Keys, world)
      ensures (old(faulty) ==> faulty) && (!faulty ==> ok)
      ensures Sound() && Extends(old(log), log) && SamePromises(old(world), world)
      ensures old(world.settled) <= world.settled
      ensures ok ==> AllReconciled(old(Live()), Live(), old(Live()).Keys, world.maxBody)
      ensures ok ==> Within(Live(), old(Live()))
      ensures !changed ==> Live() == old(Live())
    {
      ExtensionsChain();
      hide Extends;
      changed := false;
      var entries := Live().Keys;
      var rest := entries;
      ghost var done: set<Name> := {};
      while rest != {}
        invariant done == entries - rest && rest <= entries
        invariant Sound() && Extends(old(log), log) && SamePromises(old(world), world)
        invariant old(world.settled) <= world.settled
        invariant AllReconciled(old(Live()), Live(), done, world.maxBody) && VerdictsSettled(old(Live()), done, world)
        invariant Within(Live(), old(Live()))
        invariant (!changed ==> Live() == old(Live())) && (old(faulty) ==> faulty)
        decreases rest
      {
        hide Sound, AllReconciled, IsVerdict, SameBut, Within, VerdictsSettled, Residents;
        var name :| name in rest;
        rest := rest - {name};
        ghost var before, earlier := Live(), world;
        if name.Marker? && name in Live() {
          ok := ReconcileMarker(name.number);
          changed := true;
          if !ok {
            return;
          }
          OnlyShrinks(before, Live(), name.number, world.maxBody);
          WithinChain(Live(), before, old(Live()));
        }
        MarkerAsListed(old(Live()), before, done, name, world.maxBody);
        VerdictSettled(old(Live()), done, earlier, world, name);
        ReconciledStep(old(Live()), before, Live(), done, name, world.maxBody);
        done := done + {name};
      }
      assert done == entries;
      ok := true;
    }

    /** Temporary files are never queue items; those listed at startup are removed. */
    method RemoveTemps(entries: set<Name>) returns (ok: bool, changed: bool)
      requires Sound()
      modifies this`world, this`log, this`faulty
      ensures (old(faulty) ==> faulty) && (!faulty ==> ok)
      ensures Sound() && Extends(old(log), log) && SamePromises(old(world), world)
      ensures old(world.settled) <= world.settled
      ensures LostTemps(old(Live()), Live(), if ok then entries else {})
      ensures !changed ==> Live() == old(Live())
    {
      ExtensionsChain();
      hide Extends;
      changed := false;
      var rest := entries;
      ghost var done: set<Name> := {};
      while rest != {}
        invariant done == entries - rest && rest <= entries
        invariant Sound() && Extends(old(log), log) && SamePromises(old(world), world)
        invariant old(world.settled) <= world.settled
        invariant LostTemps(old(Live()), Live(), done)
        invariant (!changed ==> Live() == old(Live())) && (old(faulty) ==> faulty)
        decreases rest
      {
        hide Sound, MayAlter, LostTemps;
        var name :| name in rest;
        rest := rest - {name};
        LostOneTemp(old(Live()), Live(), done, name);
        if IsTemp(name) && name in Live() {
          TempMayChange(world, name);
          ok := Remove(name);
          if !ok {
            LostFewer(old(Live()), Live(), done);
            return;
          }
          changed := true;
        }
        done := done + {name};
      }
      assert done == entries;
      ok := true;
    }

    /** Recovery step one: the markers first, then the temporary files. */
    method ReconcileTerminal() returns (ok: bool, changed: bool)
      requires Sound()
      modifies this`world, this`log, this`faulty
      ensures ok ==> VerdictsSettled(old(Live()), old(Live()).Keys, world)
      ensures (old(faulty) ==> faulty) && (!faulty ==> ok)
      ensures Sound() && Extends(old(log), log) && SamePromises(old(world), world)
      ensures old(world.settled) <= world.settled
      ensures ok ==> forall n: Sequence :: Recovered(old(Live()), Live(), world.maxBody, n)
      ensures ok && !changed ==> Live() == old(Live())
    {
      ExtensionsChain();
      hide Extends, Sound, AllReconciled, LostTemps, Within, VerdictsSettled;
      var entries := Live().Keys;
      ok, changed := ReconcileMarkers();
      if ok {
        ghost var unmarked, earlier := Live(), world;
        var swept: bool;
        ok, swept := RemoveTemps(entries);
        StaySettled(old(Live()), entries, earlier, world);
        changed := changed || swept;
        if ok {
          AllRecovered(old(Live()), unmarked, Live(), world.maxBody);
        }
      }
    }

    /** Reads one record of the scan. */
    method ScanRecord(n: Sequence, ghost start: Directory) returns (valid: bool, size: nat)
      requires Sound() && KeepsReadable(start, Live(), world.maxBody)
      requires Look(Live(), Record(n)) == Look(start, Record(n))
      modifies this`world, this`log, this`faulty
      ensures old(faulty) ==> faulty
      ensures Sound() && Extends(old(log), log) && SamePromises(old(world), world)
      ensures world.settled == old(world.settled)
      ensures KeepsReadable(start, Live(), world.maxBody)
      ensures OnlyAside(old(Live()), Live(), n) && (valid ==> Live() == old(Live()))
      ensures !faulty ==> TidyAt(Live(), n, world.maxBody)
      ensures size == MeasuredAt(RecordBytes(world.maxBody), start, Record(n))
      ensures (if valid then 1 else 0) == MeasuredAt(RecordCount(world.maxBody), start, Record(n))
    {
      ExtensionsChain();
      hide Extends;
      hide Safe, Disciplined, Run, KeepsReadable;
      var moved: bool;
      valid, moved := ReadRecord(n);
      size := if valid then Live()[Record(n)].size else 0;
      if moved {
        ghost var copy :| MovedAside(old(world), world, n, copy);
        AsideKeepsReadable(start, old(world), world, n, copy);
        AsideOnly(old(world), world, n, copy);
      }
    }

    /** Reads the next record of the scan and adds it to the sums. */
    method ScanNext(numbers: seq<Sequence>, i: nat, ghost start: Directory, used: nat, count: nat)
      returns (valid: bool, used': nat, count': nat)
      requires Sound() && i < |numbers| && Ascending(numbers)
      requires ScannedTo(start, Live(), numbers, i, used, count, world.maxBody)
      modifies this`world, this`log, this`faulty
      ensures old(faulty) ==> faulty
      ensures Sound() && Extends(old(log), log) && SamePromises(old(world), world)
      ensures world.settled == old(world.settled)
      ensures ScannedTo(start, Live(), numbers, i + 1, used', count', world.maxBody)
      ensures valid ==> Live() == old(Live())
      ensures !faulty && Tidied(old(Live()), numbers, i, world.maxBody) ==>
        Tidied(Live(), numbers, i + 1, world.maxBody)
    {
      hide Extends, Sound, KeepsReadable, MeasuredAt, Sum, Readable, Unscanned, Ascending, Tidied, TidyAt;
      UnscannedHere(start, Live(), numbers, i);
      ghost var before := Live();
      var size: nat;
      valid, size := ScanRecord(numbers[i], start);
      UnscannedStep(start, before, Live(), numbers, i);
      if !faulty && Tidied(before, numbers, i, world.maxBody) {
        TidiedMore(before, Live(), numbers, i, world.maxBody);
      }
      SumSnoc(start, numbers, i, RecordBytes(world.maxBody));
      SumSnoc(start, numbers, i, RecordCount(world.maxBody));
      used', count' := used + size, if valid then count + 1 else count;
    }

    /** Recovery step two: read every record in order, adding up sizes and the next free number. */
    method ScanRecords(numbers: seq<Sequence>)
      returns (ok: bool, used: nat, count: nat, free: Sequence, changed: bool)
      requires Sound() && Ascending(numbers) && forall n: Sequence :: n in numbers <==> Record(n) in Live()
      modifies this`world, this`log, this`faulty
      ensures (old(faulty) ==> faulty) && (ok <==> MAX_UINT64 !in numbers)
      ensures Sound() && Extends(old(log), log) && SamePromises(old(world), world)
      ensures world.settled == old(world.settled)
      ensures KeepsReadable(old(Live()), Live(), world.maxBody)
      ensures ok ==>
        used == Total(Live(), RecordBytes(world.maxBody)) && count == Total(Live(), RecordCount(world.maxBody))
      ensures ok ==> forall n: Sequence | Record(n) in old(Live()) :: n < free
      ensures ok ==> free == 0 || Record(free - 1) in old(Live())
      ensures !changed ==> Live() == old(Live())
      ensures ok && !faulty ==> forall n: Sequence :: TidyAt(Live(), n, world.maxBody)
    {
      ExtensionsChain();
      hide Extends, Sound, Readable, MeasuredAt, Total, Tidied;
      NothingTidied(Live(), numbers, world.maxBody);
      used, count, free, changed := 0, 0, 0, false;
      NothingScanned(Live(), numbers, world.maxBody);
      var i := 0;
      while i < |numbers|
        invariant i <= |numbers|
        invariant Sound() && Extends(old(log), log) && SamePromises(old(world), world)
        invariant world.settled == old(world.settled)
        invariant ScannedTo(old(Live()), Live(), numbers, i, used, count, world.maxBody)
        invariant Below(numbers, i, free) && (old(faulty) ==> faulty)
        invariant forall k | 0 <= k < i :: numbers[k] != MAX_UINT64
        invariant !changed ==> Live() == old(Live())
        invariant !faulty ==> Tidied(Live(), numbers, i, world.maxBody)
      {
        hide ScannedTo, Below, Ascending;
        BelowNext(numbers, i, free);
        var n := numbers[i];
        if free <= n {
          if n == MAX_UINT64 {
            ScannedKeeps(old(Live()), Live(), numbers, i, used, count, world.maxBody);
            return false, used, count, free, changed;
          }
          free := n + 1;
        }
        var valid: bool;
        valid, used, count := ScanNext(numbers, i, old(Live()), used, count);
        changed := changed || !valid;
        i := i + 1;
      }
      AllScanned(old(Live()), Live(), numbers, used, count, world.maxBody);
      AllBelow(numbers, free);
      if !faulty {
        AllTidied(old(Live()), Live(), numbers, world.maxBody);
      }
      hide ScannedTo, Below, TidyAt;
      assert forall n: Sequence | Record(n) in old(Live()) :: n in numbers;
      ok := true;
    }

    /** Startup recovery. On success every record that is readable and has no valid verdict is
        offered exactly as it was, everything else is gone or aside, and the accounts are exact
        unless a bad record could not be moved aside. */
    method Recount() returns (ok: bool)
      requires Sound()
      modifies this`world, this`log, this`faulty, this`bytes, this`artifactBytes, this`records, this`next, this`exact
      ensures ok ==> VerdictsSettled(old(Live()), old(Live()).Keys, world)
      ensures (old(faulty) ==> faulty) && (!faulty ==> (ok <==> !NumbersExhausted(old(Live()), world.maxBody)))
      ensures Sound() && Extends(old(log), log) && SamePromises(old(world), world)
      ensures old(world.settled) <= world.settled
      ensures ok ==> Ready() && (exact <==> NoJunk(Live(), world.maxBody))
      ensures ok ==> forall n: Sequence ::
        Offered(Live(), n, world.maxBody) <==> SurvivesRecovery(old(Live()), n, world.maxBody)
      ensures ok ==> forall n: Sequence | Offered(Live(), n, world.maxBody) ::
        Look(Live(), Record(n)) == Look(old(Live()), Record(n))
      ensures ok ==> Counted() && NextFree(old(Live()), next, world.maxBody)
      ensures ok ==> Live() == old(Live()) || world.disk == world.disk.Synced()
      ensures ok && !faulty ==> forall n: Sequence :: TidyAt(Live(), n, world.maxBody)
    {
      ExtensionsChain();
      hide Extends, Sound, Ordered, Balanced, Recovered, VerdictsSettled, NumbersExhausted, KeepsReadable;
      hide TidyAt, NextFree, Counted;
      var changed: bool;
      ok, changed := ReconcileTerminal();
      if !ok {
        return;
      }
      ghost var recovered, earlier := Live(), world;
      ExhaustedAfterRecovery(old(Live()), recovered, world.maxBody);
      ok := TakeStock(changed);
      StaySettled(old(Live()), old(Live()).Keys, earlier, world);
      if ok {
        OfferedAfterRecovery(old(Live()), recovered, Live(), world.maxBody);
        NextAfterRecovery(old(Live()), recovered, next, world.maxBody);
      }
    }

    /** Recovery step two as a whole: reads what recovery left, and sets the counters. */
    method TakeStock(changed: bool) returns (ok: bool)
      requires Sound() && forall n: Sequence :: Marker(n) !in Live()
      modifies this`world, this`log, this`faulty, this`bytes, this`artifactBytes, this`records, this`next, this`exact
      ensures (old(faulty) ==> faulty) && (!faulty ==> (ok <==> Record(MAX_UINT64) !in old(Live())))
      ensures Sound() && Extends(old(log), log) && SamePromises(old(world), world)
      ensures world.settled == old(world.settled)
      ensures KeepsReadable(old(Live()), Live(), world.maxBody)
      ensures ok ==> Ready() && (exact <==> NoJunk(Live(), world.maxBody))
      ensures ok ==> Counted()
      ensures ok ==> forall n: Sequence | Record(n) in old(Live()) :: n < next
      ensures ok ==> next == 0 || Record(next - 1) in old(Live())
      ensures ok ==> (!changed && Live() == old(Live())) || world.disk == world.disk.Synced()
      ensures ok && !faulty ==> forall n: Sequence :: TidyAt(Live(), n, world.maxBody)
    {
      hide Extends, Sound, Total, TidyAt, Readable;
      var used, artifacts, count, free;
      ok, used, artifacts, count, free := ScanDurably(changed);
      if !ok {
        return;
      }
      RecordsStay(old(Live()), Live(), free, world.maxBody);
      MarkersAreArtifacts(Live());
      hide KeepsReadable;
      bytes, artifactBytes, records, next := used + artifacts, artifacts, count, free;
      exact := NoJunk(Live(), world.maxBody);
      hide NoJunk;
    }

    /** Scans records and artifacts, and makes what recovery changed durable. */
    method ScanDurably(changed: bool)
      returns (ok: bool, used: nat, artifacts: nat, count: nat, free: Sequence)
      requires Sound() && forall n: Sequence :: Marker(n) !in Live()
      modifies this`world, this`log, this`faulty
      ensures (old(faulty) ==> faulty) && (!faulty ==> (ok <==> Record(MAX_UINT64) !in old(Live())))
      ensures Sound() && Extends(old(log), log) && SamePromises(old(world), world)
      ensures world.settled == old(world.settled)
      ensures KeepsReadable(old(Live()), Live(), world.maxBody)
      ensures ok ==>
        used == Total(Live(), RecordBytes(world.maxBody)) && count == Total(Live(), RecordCount(world.maxBody))
      ensures ok ==> artifacts == Total(Live(), Artifacts)
      ensures ok ==> forall n: Sequence | Record(n) in old(Live()) :: n < free
      ensures ok ==> free == 0 || Record(free - 1) in old(Live())
      ensures ok ==> (!changed && Live() == old(Live())) || world.disk == world.disk.Synced()
      ensures ok && !faulty ==> forall n: Sequence :: TidyAt(Live(), n, world.maxBody)
    {
      ExtensionsChain();
      hide Extends, Sound, Total, TidyAt, Readable, KeepsReadable, Next;
      var numbers := SortedNumbers(Live());
      var moved;
      artifacts := 0;
      ok, used, count, free, moved := ScanRecords(numbers);
      if !ok {
        return;
      }
      artifacts := CountArtifacts(Live());
      if changed || moved {
        ok := SyncDirectory();
      }
    }

    /** Drops quarantined files, in directory order, until the required bytes fit. */
    method DropQuarantines(required: nat) returns (ok: bool, ghost paid: int, ghost odd: bool)
      requires Sound()
      modifies this`world, this`log, this`faulty, this`bytes
      ensures (old(faulty) ==> faulty) && (!faulty ==> ok)
      ensures Sound() && Extends(old(log), log) && SamePromises(old(world), world)
      ensures world.settled == old(world.settled)
      ensures LostQuarantines(old(Live()), Live()) && PaidFor(old(Live()), Live(), paid, world.maxBody)
      ensures odd ==> !PlainQuarantines(old(Live()))
      ensures !odd && old(bytes) >= Total(old(Live()), Artifacts) ==> bytes == old(bytes) - paid
      ensures ok && old(bytes) >= Total(old(Live()), Artifacts) ==>
        CleanedOut(old(Live()), maxBytes, required, old(bytes), bytes)
      ensures Needed(old(Live()), Live(), bytes, maxBytes - required)
    {
      ExtensionsChain();
      hide Extends, Sound, PlainQuarantines, Total;
      var entries := Live().Keys;
      ok, paid, odd := true, 0, false;
      assert PaidFor(old(Live()), Live(), paid, world.maxBody);
      hide Needed;
      NothingNeeded(Live(), bytes, maxBytes - required);
      while entries != {} && ok && bytes > maxBytes - required
        invariant Sound() && Extends(old(log), log) && SamePromises(old(world), world)
        invariant world.settled == old(world.settled)
        invariant PaidFor(old(Live()), Live(), paid, world.maxBody)
        invariant odd ==> !PlainQuarantines(old(Live()))
        invariant !odd && old(bytes) >= Total(old(Live()), Artifacts) ==> bytes == old(bytes) - paid
        invariant old(bytes) >= Total(old(Live()), Artifacts) ==> bytes <= old(bytes) - paid
        invariant Needed(old(Live()), Live(), bytes, maxBytes - required)
        invariant ok ==> forall name: Name | name in Live() && name.Quarantine? :: name in entries
        invariant (old(faulty) ==> faulty) && (!faulty ==> ok)
        decreases entries
      {
        hide PaidFor;
        var name :| name in entries;
        entries := entries - {name};
        if name.Quarantine? && name in Live() {
          ghost var share, special, before, bytes0 := 0, false, Live(), bytes;
          ok, share, special := DropQuarantine(name, old(Live()), paid);
          OneMoreNeeded(old(Live()), before, Live(), name, bytes0, bytes, maxBytes - required);
          paid, odd := paid + share, odd || special;
        }
      }
      if ok && bytes > maxBytes - required {
        AllCleaned(old(Live()), Live(), paid, world.maxBody);
      }
    }

    /** Drops one quarantined file and takes its size off the byte counter. */
    method DropQuarantine(name: Name, ghost start: Directory, ghost paid: int)
      returns (ok: bool, ghost share: int, ghost special: bool)
      requires Sound() && name.Quarantine? && name in Live()
      requires PaidFor(start, Live(), paid, world.maxBody)
      modifies this`world, this`log, this`faulty, this`bytes
      ensures (old(faulty) ==> faulty) && (!faulty ==> ok)
      ensures Sound() && Extends(old(log), log) && SamePromises(old(world), world)
      ensures world.settled == old(world.settled)
      ensures PaidFor(start, Live(), paid + share, world.maxBody)
      ensures special ==> !PlainQuarantines(start)
      ensures !special && old(bytes) >= Total(start, Artifacts) - paid ==> bytes == old(bytes) - share
      ensures (bytes <= old(bytes) - share || bytes == 0) && (ok ==> paid + share <= Total(start, Artifacts))
      ensures Live() == if ok then old(Live()) - {name} else old(Live())
      ensures if ok then bytes + SizeOf(start[name]) >= old(bytes) && name in start else bytes == old(bytes)
    {
      hide Sound, MayAlter, PaidFor, PlainQuarantines;
      var file := Live()[name];
      var size := SizeOf(file);
      NotPlain(start, Live(), name, paid, world.maxBody);
      QuarantineMayGo(world, name);
      PaidForOneMore(start, Live(), name, paid, world.maxBody);
      ok := Remove(name);
      share, special := 0, false;
      if ok {
        bytes := if bytes < size then 0 else bytes - size;
        share, special := MeasuredAt(Quarantines, map[name := file], name), file.Special? && file.bytes > 0;
      }
    }

    /** Makes room by dropping quarantined files. The accounts stay exact unless files went and
        a later removal or the sync then failed: in that case they are off by exactly the bytes
        of the files that went. */
    method CleanupQuarantine(required: nat) returns (ok: bool)
      requires Ready() && (exact ==> artifactBytes == Total(Live(), Artifacts))
      modifies this`world, this`log, this`faulty, this`bytes, this`artifactBytes, this`exact
      ensures (old(faulty) ==> faulty) && (!faulty ==> ok)
      ensures Ready() && Extends(old(log), log) && SamePromises(old(world), world)
      ensures world.settled == old(world.settled)
      ensures LostQuarantines(old(Live()), Live())
      ensures Needed(old(Live()), Live(), bytes, maxBytes - required)
      ensures ok ==> Live() == old(Live()) || world.disk == world.disk.Synced()
      ensures ok && old(exact) ==> CleanedOut(old(Live()), maxBytes, required, old(bytes), bytes)
      ensures ok && exact && old(exact) ==> EvictedFor(old(Live()), Live(), world.maxBody)
      ensures (exact ==> old(exact)) && (ok && exact ==> artifactBytes == Total(Live(), Artifacts))
      ensures ok && PlainQuarantines(old(Live())) ==> exact == old(exact)
      ensures !ok && PlainQuarantines(old(Live())) ==>
        exact == (old(exact) && Total(Live(), Quarantines) == Total(old(Live()), Quarantines))
      ensures !ok && old(exact) && PlainQuarantines(old(Live())) ==>
        bytes - artifactBytes
          == Total(Live(), RecordBytes(world.maxBody)) - (Total(old(Live()), Quarantines) - Total(Live(), Quarantines))
    {
      if bytes <= maxBytes - required {
        KeptAsIs(Live(), log);
        NothingNeeded(Live(), bytes, maxBytes - required);
        Evicted(Live(), Live(), 0, world.maxBody);
        hide Needed, EvictedFor;
        hide Sound, Ordered, Accounted, Extends, LostQuarantines, PlainQuarantines, Total;
        return true;
      }
      hide Sound, Ordered, Balanced, Extends, LostQuarantines, PlainQuarantines, Total, Needed, CleanedOut, EvictedFor;
      ok := MakeRoom(required);
    }

    method MakeRoom(required: nat) returns (ok: bool)
      requires Ready() && (exact ==> artifactBytes == Total(Live(), Artifacts))
      modifies this`world, this`log, this`faulty, this`bytes, this`artifactBytes, this`exact
      ensures (old(faulty) ==> faulty) && (!faulty ==> ok)
      ensures Sound() && Ordered() && LostQuarantines(old(Live()), Live())
      ensures Extends(old(log), log) && SamePromises(old(world), world) && world.settled == old(world.settled)
      ensures Needed(old(Live()), Live(), bytes, maxBytes - required)
      ensures ok ==> world.disk == world.disk.Synced()
      ensures ok && old(exact) ==> CleanedOut(old(Live()), maxBytes, required, old(bytes), bytes)
      ensures EvictedFor(old(Live()), Live(), world.maxBody)
      ensures CleanOutcome(old(Live()), Live(), world.maxBody, ok, old(exact), exact, bytes, artifactBytes, records)
    {
      if exact {
        ArtifactsWithin(Live(), world.maxBody, bytes, artifactBytes, records);
      }
      hide Extends, Sound, Ordered, Total, Balanced, PlainQuarantines, LostQuarantines, PaidFor;
      hide CleanOutcome, CleanedOut, Needed, EvictedFor;
      ghost var paid, odd;
      ok, paid, odd := DropDurably(required);
      Evicted(old(Live()), Live(), paid, world.maxBody);
      if ok {
        artifactBytes := CountArtifacts(Live());
      }
      exact := exact && !odd && (ok || paid == 0);
      Cleaned(old(Live()), Live(), world.maxBody, ok, old(exact), odd, paid, old(bytes), old(artifactBytes), records,
              exact, bytes, artifactBytes);
    }

    /** Drops quarantined files and makes that durable. */
    method DropDurably(required: nat) returns (ok: bool, ghost paid: int, ghost odd: bool)
      requires Sound() && Ordered()
      modifies this`world, this`log, this`faulty, this`bytes
      ensures (old(faulty) ==> faulty) && (!faulty ==> ok)
      ensures Sound() && Ordered() && LostQuarantines(old(Live()), Live())
      ensures Extends(old(log), log) && SamePromises(old(world), world) && world.settled == old(world.settled)
      ensures PaidFor(old(Live()), Live(), paid, world.maxBody) && (odd ==> !PlainQuarantines(old(Live())))
      ensures !odd && old(bytes) >= Total(old(Live()), Artifacts) ==> bytes == old(bytes) - paid
      ensures ok && old(bytes) >= Total(old(Live()), Artifacts) ==>
        CleanedOut(old(Live()), maxBytes, required, old(bytes), bytes)
      ensures Needed(old(Live()), Live(), bytes, maxBytes - required)
      ensures ok ==> world.disk == world.disk.Synced()
    {
      ExtensionsChain();
      hide Extends, Sound, Total, PlainQuarantines, LostQuarantines, PaidFor, CleanedOut, Needed, Next;
      ok, paid, odd := DropQuarantines(required);
      LostNames(old(Live()), Live());
      if ok {
        ok := SyncDirectory();
      }
    }

    /** Renames a fully written temporary record into place and makes the entry durable. A failed
        directory sync is rolled back; the refused record can come back after a crash exactly
        when the second sync failed as well. */
    method CommitRecord(n: Sequence, file: File, ticket: nat) returns (r: Admission)
      requires Sound() && Record(n) !in Live() && Marker(n) !in Live() && n !in world.kept
      requires Holds(Some(file), ticket) && Readable(file, world.maxBody)
      requires ticket in world.homes && world.homes[ticket] == n && ticket !in world.settled
      modifies this`world, this`log, this`faulty
      ensures (old(faulty) ==> faulty) && (!faulty ==> r.Admitted?)
      ensures Sound() && Extends(old(log), log)
      ensures world == old(world).(disk := world.disk, kept := world.kept)
      ensures SameBut(old(Live()), Live(), {Record(n), TempRecord(n)}) && TempRecord(n) !in Live()
      ensures r == Admitted(n, ticket) || r == Stuck(n) || (r.RolledBack? && r.number == n)
      ensures r.Admitted? ==> world.kept == old(world.kept)[n := file] && Look(Live(), Record(n)) == Some(file)
      ensures !r.Admitted? ==> world.kept == old(world.kept)
      ensures r.RolledBack? ==>
        Record(n) !in Live() && (Some(r.file) in Possible(world.disk, Record(n)) <==> !r.resynced)
    {
      ExtensionsChain();
      hide Extends;
      hide Safe, MayAlter, Disciplined, Run, Readable;
      RecordMayBeWritten(world, n, file, ticket);
      PossibleAfterChange(world.disk, Rename(TempRecord(n), Record(n), file), Record(n));
      Do(Altered(Rename(TempRecord(n), Record(n), file)));
      var ok := SyncDirectory();
      if ok {
        PossibleAfterSync(world.disk, Record(n));
        Do(Promised(n));
        return Admitted(n, ticket);
      }
      RecordMayGo(world, n);
      PossibleAfterChange(world.disk, Unlink(Record(n)), Record(n));
      ok := Remove(Record(n));
      if !ok {
        return Stuck(n);
      }
      var resynced := SyncDirectory();
      return RolledBack(n, file, resynced);
    }

    /** Writes one record under a free number: exclusive temporary file, content sync, commit. */
    method WriteRecord(n: Sequence, job: Job, size: nat) returns (r: Admission)
      requires Sound() && Record(n) !in Live() && Marker(n) !in Live()
      requires Readable(Regular(size, Work(0, job)), world.maxBody)
      modifies this`world, this`log, this`faulty
      ensures (old(faulty) ==> faulty) && (!faulty ==> (r.Admitted? <==> TempRecord(n) !in old(Live())))
      ensures Sound() && Extends(old(log), log) && world.settled == old(world.settled)
      ensures world.maxBody == old(world.maxBody)
      ensures SameBut(old(Live()), Live(), {Record(n), TempRecord(n)})
      ensures r.Admitted? || r.NotWritten? || r.RolledBack? || r.Stuck?
      ensures !faulty ==> r.Admitted? || r.NotWritten?
      ensures r.Admitted? ==>
        var file := Regular(size, Work(r.ticket, job));
        && r.number == n && r.ticket !in old(world.homes) && world.homes == old(world.homes)[r.ticket := n]
        && world.kept == old(world.kept)[n := file] && Look(Live(), Record(n)) == Some(file)
        && TempRecord(n) !in Live() && TempRecord(n) !in old(Live())
      ensures !r.Admitted? ==> world.kept == old(world.kept) && r.number == n
      ensures r.NotWritten? || r.RolledBack? ==> Record(n) !in Live()
      ensures r.RolledBack? ==> (Some(r.file) in Possible(world.disk, Record(n)) <==> !r.resynced)
    {
      ExtensionsChain();
      hide Extends;
      FreshNumberIsFree(world, n);
      hide Safe, MayAlter, Disciplined, Run;
      var ticket := FreshTicket(world.homes);
      FreshTicketIsUnsettled(world, ticket);
      var file := Regular(size, Work(ticket, job));
      Do(Minted(ticket, n));
      RecordMayBeWritten(world, n, file, ticket);
      var ok := WriteTemp(TempRecord(n), file);
      assert Look(Live(), Record(n)) == None && Look(Live(), Marker(n)) == None;
      if !ok {
        return NotWritten(n);
      }
      var failed: bool := *;
      faulty := faulty || failed;
      if failed {
        TempMayChange(world, TempRecord(n));
        var _ := Remove(TempRecord(n));
        return NotWritten(n);
      }
      r := CommitRecord(n, file, ticket);
    }

    /** Admits one job. Success promises the record across crashes and leaves at most maxBytes and
        maxRecords on disk; failure promises nothing. */
    method Admit(job: Job, size: nat) returns (r: Admission)
      requires Ready() && size > 0
      modifies this`world, this`log, this`faulty, this`bytes, this`artifactBytes, this`records, this`next, this`exact
      ensures old(faulty) ==> faulty
      ensures r.Invalid? <==> !ValidJob(job, world.maxBody)
      ensures Excused(old(Live()), old(next), faulty, r)
      ensures Ready() && Extends(old(log), log)
      ensures AdmissionOutcome(old(world), world, old(next), next, job, size, r)
      ensures (exact ==> old(exact)) && (r.Admitted? && PlainQuarantines(old(Live())) ==> exact == old(exact))
      ensures r.Admitted? && exact ==>
        && Total(Live(), RecordBytes(world.maxBody)) + Total(Live(), Artifacts) <= maxBytes
        && Total(Live(), RecordCount(world.maxBody)) <= maxRecords
      ensures old(exact) && PlainQuarantines(old(Live())) && !r.CleanupFailed? && !r.Stuck? ==> exact
      ensures r.Full? && exact ==>
        records >= maxRecords
        || Total(Live(), RecordBytes(world.maxBody)) + Total(Live(), Artifacts) + size > maxBytes
      ensures r.TooLarge? <==> ValidJob(job, world.maxBody) && size > RecordLimit(world.maxBody)
      ensures r.SpoolClosed? <==> ValidJob(job, world.maxBody) && size <= RecordLimit(world.maxBody) && closed
      ensures !faulty && old(exact) && ValidJob(job, world.maxBody) && size <= RecordLimit(world.maxBody) && !closed ==>
        MayTake(old(Live()), old(next), world.maxBody, maxBytes, maxRecords, size) ==> r.Admitted?
      ensures r.Admitted? && exact ==> MayTake(old(Live()), old(next), world.maxBody, maxBytes, maxRecords, size)
      ensures SameRecords(old(Live()), Live(), if r.Admitted? || r.Stuck? then {r.number} else {})
    {
      ExtensionsChain();
      hide Extends;
      if !ValidJob(job, world.maxBody) {
        return Invalid;
      }
      if size > RecordLimit(world.maxBody) {
        return TooLarge;
      }
      if closed {
        return SpoolClosed;
      }
      hide Sound, Ordered, Balanced, ValidJob, RecordLimit, SameRecords, AdmissionOutcome, Excused;
      r := AdmitValid(job, size);
    }

    /** Makes room for a valid job, and writes it if there is room. */
    method AdmitValid(job: Job, size: nat) returns (r: Admission)
      requires Ready() && 0 < size <= RecordLimit(world.maxBody) && ValidJob(job, world.maxBody)
      modifies this`world, this`log, this`faulty, this`bytes, this`artifactBytes, this`records, this`next, this`exact
      ensures old(faulty) ==> faulty
      ensures !r.Invalid? && !r.TooLarge?
      ensures Excused(old(Live()), old(next), faulty, r)
      ensures Ready() && Extends(old(log), log)
      ensures AdmissionOutcome(old(world), world, old(next), next, job, size, r)
      ensures (exact ==> old(exact)) && (r.Admitted? && PlainQuarantines(old(Live())) ==> exact == old(exact))
      ensures r.Admitted? && exact ==>
        && Total(Live(), RecordBytes(world.maxBody)) + Total(Live(), Artifacts) <= maxBytes
        && Total(Live(), RecordCount(world.maxBody)) <= maxRecords
      ensures old(exact) && PlainQuarantines(old(Live())) && !r.CleanupFailed? && !r.Stuck? ==> exact
      ensures r.Full? && exact ==>
        records >= maxRecords
        || Total(Live(), RecordBytes(world.maxBody)) + Total(Live(), Artifacts) + size > maxBytes
      ensures !r.SpoolClosed?
      ensures !faulty && old(exact) && MayTake(old(Live()), old(next), world.maxBody, maxBytes, maxRecords, size) ==>
        r.Admitted?
      ensures r.Admitted? && exact ==> MayTake(old(Live()), old(next), world.maxBody, maxBytes, maxRecords, size)
      ensures SameRecords(old(Live()), Live(), if r.Admitted? || r.Stuck? then {r.number} else {})
    {
      ExtensionsChain();
      hide Extends;
      hide Sound, Ordered, Balanced, ValidJob, RecordLimit, SameRecords, LostQuarantines, AdmissionOutcome, Excused;
      hide HasRoom, CleanedOut, Needed, EvictedFor;
      var current := CountArtifacts(Live());
      if exact {
        RefreshBalances(Live(), world.maxBody, bytes, artifactBytes, records);
      }
      bytes := bytes + current - artifactBytes;
      artifactBytes := current;
      ghost var asked := bytes;
      var ok := CleanupQuarantine(size);
      ghost var cleaned := world;
      QuarantinesThenRecords(old(Live()), Live(), Live(), {});
      if old(exact) && ok && HasRoom(old(Live()), world.maxBody, maxBytes, maxRecords, size) {
        RoomIsMade(old(Live()), Live(), world.maxBody, maxBytes, maxRecords, size, asked, bytes, records);
      }
      if !ok {
        ExcusedEarly(old(Live()), old(next), faulty, CleanupFailed);
        NothingPromised(old(world), world, old(next), next, job, size, CleanupFailed);
        return CleanupFailed;
      }
      ExcusedEarly(old(Live()), old(next), faulty, Full);
      NothingPromised(old(world), world, old(next), next, job, size, Full);
      if records >= maxRecords || bytes > maxBytes - size {
        if exact {
          BalancedTotals(Live(), world.maxBody, bytes, artifactBytes, records);
        }
        return Full;
      }
      ghost var next0 := next;
      if exact {
        RoomWasThere(old(Live()), Live(), world.maxBody, maxBytes, maxRecords, size, bytes, records);
      }
      TempsStay(old(Live()), Live(), next);
      r := AdmitRecord(job, size);
      ExcusedAfterCleanup(old(Live()), cleaned.disk.live, next0, faulty, r);
      AdmissionAfterCleanup(old(world), cleaned, world, old(next), next, job, size, r);
      QuarantinesThenRecords(old(Live()), cleaned.disk.live, Live(),
                             if r.Admitted? || r.Stuck? then {r.number} else {});
    }

    /** Takes the next number and writes the job there. No record can have that number already,
        so the search for a free one ends at its first probe. */
    method AdmitRecord(job: Job, size: nat) returns (r: Admission)
      requires Ready() && Readable(Regular(size, Work(0, job)), world.maxBody)
      requires exact ==> artifactBytes == Total(Live(), Artifacts) && records < maxRecords && bytes + size <= maxBytes
      modifies this`world, this`log, this`faulty, this`bytes, this`records, this`next, this`exact
      ensures (old(faulty) ==> faulty) && Excused(old(Live()), old(next), faulty, r)
      ensures Ready() && Extends(old(log), log)
      ensures r.Admitted? || r.NotWritten? || r.RolledBack? || r.Stuck? || r.Exhausted?
      ensures AdmissionOutcome(old(world), world, old(next), next, job, size, r)
      ensures (exact ==> old(exact)) && (r.Admitted? ==> exact == old(exact))
      ensures r.Admitted? && exact ==>
        && Total(Live(), RecordBytes(world.maxBody)) + Total(Live(), Artifacts) <= maxBytes
        && Total(Live(), RecordCount(world.maxBody)) <= maxRecords
      ensures old(exact) && !r.Stuck? ==> exact
      ensures !faulty ==> (r.Admitted? <==> old(next) != MAX_UINT64 && TempRecord(old(next)) !in old(Live()))
      ensures r.Admitted? ==> old(next) != MAX_UINT64 && TempRecord(old(next)) !in old(Live())
      ensures SameRecords(old(Live()), Live(), if r.Admitted? || r.Stuck? then {r.number} else {})
    {
      ExtensionsChain();
      hide Extends;
      hide Safe, Disciplined, Run, Balanced, ValidJob, RecordLimit, SameBut, Holds;
      if next == MAX_UINT64 {
        return Exhausted;
      }
      var n := next;
      next := next + 1;
      r := WriteRecord(n, job, size);
      WriteTouchesOne(old(Live()), Live(), n);
      if r.Stuck? {
        exact := false;
      } else {
        if exact {
          WriteAccounts(old(Live()), Live(), n, world.maxBody, bytes, artifactBytes, records);
        }
        if r.Admitted? {
          bytes := bytes + size;
          records := records + 1;
          if exact {
            BalancedTotals(Live(), world.maxBody, bytes, artifactBytes, records);
          }
        }
      }
    }

    /** Reads one record for the backlog. With exact accounts there is nothing to move aside. */
    method PendingRecord(n: Sequence, ghost start: Directory) returns (valid: bool)
      requires Ready() && KeepsReadable(start, Live(), world.maxBody)
      requires Record(n) in Live() && Look(Live(), Record(n)) == Look(start, Record(n))
      modifies this`world, this`log, this`faulty, this`artifactBytes, this`records
      ensures old(faulty) ==> faulty
      ensures Ready() && Extends(old(log), log) && SamePromises(old(world), world)
      ensures world.settled == old(world.settled)
      ensures KeepsReadable(start, Live(), world.maxBody)
      ensures forall m: Sequence | m != n :: Look(Live(), Record(m)) == Look(old(Live()), Record(m))
      ensures valid <==> Readable(start[Record(n)], world.maxBody)
      ensures if !valid && start[Record(n)].Regular?
        then artifactBytes == old(artifactBytes) + start[Record(n)].size && records == FewerRecords(old(records))
        else artifactBytes == old(artifactBytes) && records == old(records)
      ensures exact ==> Live() == old(Live()) && artifactBytes == old(artifactBytes) && records == old(records)
    {
      ExtensionsChain();
      hide Extends;
      hide Safe, Disciplined, Run, Total, Measured, Readable, KeepsReadable;
      var file := Live()[Record(n)];
      var moved: bool;
      valid, moved := ReadRecord(n);
      if moved {
        ghost var copy :| MovedAside(old(world), world, n, copy);
        AsideKeepsReadable(start, old(world), world, n, copy);
      }
      if !valid && file.Regular? {
        artifactBytes := artifactBytes + file.size;
        records := FewerRecords(records);
      }
    }

    /** The offered records nobody has claimed, in ascending order. */
    method Pending() returns (entries: seq<Sequence>)
      requires Ready()
      modifies this`world, this`log, this`faulty, this`artifactBytes, this`records, this`exact
      ensures old(faulty) ==> faulty
      ensures Ready() && Extends(old(log), log) && SamePromises(old(world), world)
      ensures world.settled == old(world.settled)
      ensures Ascending(entries)
      ensures forall n: Sequence :: n in entries <==> n !in claimed && Offered(old(Live()), n, world.maxBody)
      ensures KeepsReadable(old(Live()), Live(), world.maxBody)
      ensures old(exact) ==>
        exact && Live() == old(Live()) && artifactBytes == old(artifactBytes) && records == old(records)
    {
      ExtensionsChain();
      hide Extends;
      hide Safe, Disciplined, Run, Total, Measured, Readable;
      var numbers := SortedNumbers(Live());
      entries := [];
      var i := 0;
      while i < |numbers|
        invariant i <= |numbers| && (old(faulty) ==> faulty)
        invariant Ready() && Extends(old(log), log) && SamePromises(old(world), world)
        invariant world.settled == old(world.settled)
        invariant KeepsReadable(old(Live()), Live(), world.maxBody)
        invariant forall j | i <= j < |numbers| ::
          Look(Live(), Record(numbers[j])) == Look(old(Live()), Record(numbers[j]))
        invariant Ascending(entries)
        invariant forall n: Sequence :: n in entries <==>
          n in numbers[..i] && n !in claimed && Offered(old(Live()), n, world.maxBody)
        invariant old(exact) ==>
          exact && Live() == old(Live()) && artifactBytes == old(artifactBytes) && records == old(records)
      {
        hide Sound, KeepsReadable, Accounted;
        var n := numbers[i];
        if !(n in claimed || (Marker(n) in Live() && Live()[Marker(n)].Regular?)) {
          var valid := PendingRecord(n, old(Live()));
          if valid {
            AscendingSnoc(entries, numbers, i);
            entries := entries + [n];
          }
        }
        i := i + 1;
      }
    }

    /** Claims the first offered record that nobody has claimed. */
    method ClaimNext() returns (entry: Option<Sequence>)
      requires Ready()
      modifies this`world, this`log, this`faulty, this`artifactBytes, this`records, this`exact, this`claimed
      ensures old(faulty) ==> faulty
      ensures Ready() && Extends(old(log), log) && SamePromises(old(world), world)
      ensures world.settled == old(world.settled)
      ensures KeepsReadable(old(Live()), Live(), world.maxBody)
      ensures entry.Some? ==>
        && entry.value !in old(claimed) && claimed == old(claimed) + {entry.value}
        && Offered(old(Live()), entry.value, world.maxBody)
        && forall n: Sequence | n !in old(claimed) && Offered(old(Live()), n, world.maxBody) :: entry.value <= n
      ensures entry == None ==>
        && claimed == old(claimed)
        && forall n: Sequence | Offered(old(Live()), n, world.maxBody) :: n in claimed
      ensures old(exact) ==> exact
    {
      ExtensionsChain();
      hide Extends;
      hide Safe, Disciplined, Run, Total, Measured, Readable;
      var entries := Pending();
      if entries == [] {
        return None;
      }
      assert entries[0] in entries;
      claimed := claimed + {entries[0]};
      return Some(entries[0]);
    }

    method Unclaim(n: Sequence)
      modifies this`claimed
      ensures claimed == old(claimed) - {n}
    {
      claimed := claimed - {n};
    }

    /** Moves a semantically invalid record aside; its promise ends here, and whatever it was, its size
        is counted as an artifact's. */
    method Discard(n: Sequence)
      requires Ready()
      modifies this`world, this`log, this`faulty, this`artifactBytes, this`records, this`exact
      ensures (old(faulty) ==> faulty) && (!faulty && Record(n) in Live() ==> AllCopiesTaken(old(Live()), n))
      ensures Ready() && Extends(old(log), log)
      ensures world.kept == old(world.kept) - if Record(n) in old(Live()) then {n} else {}
      ensures world.homes == old(world.homes) && world.settled == old(world.settled)
      ensures world.maxBody == old(world.maxBody)
      ensures forall m: Sequence | m != n :: Look(Live(), Record(m)) == Look(old(Live()), Record(m))
      ensures forall m: Sequence :: Look(Live(), Marker(m)) == Look(old(Live()), Marker(m))
      ensures records == if Record(n) in old(Live()) then FewerRecords(old(records)) else old(records)
      ensures artifactBytes ==
        old(artifactBytes) + if Record(n) in old(Live()) then SizeOf(old(Live())[Record(n)]) else 0
      ensures old(exact) && Record(n) !in Live() ==>
        exact || (Record(n) in old(Live()) && old(Live())[Record(n)].Special?)
    {
      ExtensionsChain();
      hide Extends;
      hide Safe, Disciplined, Run, Balanced, AllCopiesTaken;
      if Record(n) !in Live() {
        return;
      }
      var file := Live()[Record(n)];
      Do(Released(n));
      ghost var released := world;
      var moved, copy := QuarantineRecord(n);
      exact := exact && moved && file.Regular?;
      if exact {
        AsideAccounts(released, world, n, copy, bytes, artifactBytes, records);
      }
      records := FewerRecords(records);
      artifactBytes := artifactBytes + SizeOf(file);
    }

    /** Drops a marker file that proves nothing; failure is ignored. */
    method DropBadMarker(n: Sequence)
      requires Ready() && Marker(n) in Live() && !IsVerdict(Look(Live(), Marker(n)), world.maxBody)
      modifies this`world, this`log, this`faulty
      ensures old(faulty) ==> faulty
      ensures Ready() && Extends(old(log), log) && SamePromises(old(world), world)
      ensures world.settled == old(world.settled)
      ensures Live() == old(Live()) || Live() == old(Live()) - {Marker(n)}
      ensures !faulty ==> Marker(n) !in Live()
    {
      ExtensionsChain();
      hide Extends;
      BadMarkerMayGo(world, n);
      hide Safe, MayAlter, Disciplined, Run, Balanced;
      var ok := Remove(Marker(n));
      if ok && exact {
        MarkerBalances(old(Live()), Live(), n, world.maxBody, bytes, artifactBytes, records, 0);
      }
    }

    /** Writes the marker of a live record and counts it as an artifact. */
    method CreateMarker(n: Sequence, file: File) returns (ok: bool)
      requires Ready() && n !in world.kept && n < next && IsVerdict(Some(file), world.maxBody)
      requires !IsVerdict(Look(Live(), Marker(n)), world.maxBody)
      modifies this`world, this`log, this`faulty, this`bytes, this`artifactBytes, this`exact
      ensures (old(faulty) ==> faulty) && (!faulty ==> (ok <==> TempMarker(n) !in old(Live())))
      ensures Ready() && Extends(old(log), log) && SamePromises(old(world), world)
      ensures SameBut(old(Live()), Live(), {Marker(n), TempMarker(n)})
      ensures world.settled == old(world.settled) + if ok then Residents(world.homes, n) else {}
      ensures ok ==> Look(Live(), Marker(n)) == Some(file) && exact == old(exact)
      ensures old(exact) && !exact ==> Look(Live(), Marker(n)) == Some(file)
      ensures bytes - old(bytes) == artifactBytes - old(artifactBytes) == if ok then file.size else 0
    {
      ExtensionsChain();
      hide Extends;
      hide Safe, MayAlter, Disciplined, Run, Balanced;
      var stuck: bool;
      ok, stuck := WriteTerminalMarker(n, file, true);
      OtherMarkersSame(old(Live()), Live(), n);
      exact := exact && !stuck;
      if exact {
        MarkerBalances(old(Live()), Live(), n, world.maxBody, bytes, artifactBytes, records,
                       if ok then file.size else 0);
      }
      if ok {
        artifactBytes, bytes := artifactBytes + file.size, bytes + file.size;
      }
    }

    /** Removes a released record from the backlog and from the accounts. */
    method RemoveRecord(n: Sequence) returns (ok: bool)
      requires Ready() && Record(n) in Live() && Live()[Record(n)].Regular? && n !in world.kept
      modifies this`world, this`log, this`faulty, this`bytes, this`records, this`claimed
      ensures (old(faulty) ==> faulty) && (!faulty ==> ok)
      ensures Ready() && Extends(old(log), log) && SamePromises(old(world), world)
      ensures world.settled == old(world.settled)
      ensures Live() == if ok then old(Live()) - {Record(n)} else old(Live())
      ensures claimed == if ok then old(claimed) - {n} else old(claimed)
      ensures records == if ok then FewerRecords(old(records)) else old(records)
      ensures var size := old(Live())[Record(n)].size;
        if !ok then bytes == old(bytes) else if old(bytes) >= size then bytes + size == old(bytes) else bytes == 0
    {
      ExtensionsChain();
      hide Extends;
      hide Safe, MayAlter, Disciplined, Run, Balanced;
      var size := Live()[Record(n)].size;
      RecordMayGo(world, n);
      ok := Remove(Record(n));
      if ok {
        if exact {
          RecordBalances(old(Live()), n, world.maxBody, bytes, artifactBytes, records);
        }
        claimed := claimed - {n};
        records := FewerRecords(records);
        bytes := if bytes >= size then bytes - size else 0;
      }
    }

    /** Finishes an acknowledgement whose record is gone and takes the marker off the accounts. */
    method CloseOut(n: Sequence, file: File) returns (ok: bool)
      requires Ready() && n !in world.kept && Record(n) !in Live()
      requires Look(Live(), Marker(n)) == Some(file) && IsVerdict(Some(file), world.maxBody)
      modifies this`world, this`log, this`faulty, this`bytes, this`artifactBytes, this`claimed
      ensures (old(faulty) ==> faulty) && (!faulty ==> ok)
      ensures Ready() && Extends(old(log), log) && SamePromises(old(world), world)
      ensures SameBut(old(Live()), Live(), {Marker(n), TempMarker(n)})
      ensures Look(Live(), Marker(n)) in {None, Some(file)}
      ensures world.settled == old(world.settled)
           || world.settled == old(world.settled) + Residents(world.homes, n)
      ensures ok || Marker(n) !in Live() ==> Residents(world.homes, n) <= world.settled
      ensures claimed == if ok then old(claimed) - {n} else old(claimed)
      ensures artifactBytes == old(artifactBytes) - if ok && old(artifactBytes) >= file.size then file.size else 0
      ensures bytes == old(bytes) - if ok && old(bytes) >= file.size then file.size else 0
    {
      ExtensionsChain();
      hide Extends;
      hide Safe, MayAlter, Disciplined, Run, Balanced;
      ok := FinishAck(n, file);
      OtherMarkersSame(old(Live()), Live(), n);
      var shift: int := if ok then -(file.size as int) else 0;
      if exact {
        MarkerBalances(old(Live()), Live(), n, world.maxBody, bytes, artifactBytes, records, shift);
      }
      if ok {
        claimed := claimed - {n};
        if artifactBytes >= file.size {
          artifactBytes := artifactBytes - file.size;
        }
        if bytes >= file.size {
          bytes := bytes - file.size;
        }
      }
    }

    /** Acknowledges a record that is still there: marker first, then the record, then the rest. */
    method AckLive(n: Sequence, file: File, marked: bool) returns (ok: bool)
      requires Ready() && Record(n) in Live() && n !in world.kept && IsVerdict(Some(file), world.maxBody)
      requires marked == IsVerdict(Look(Live(), Marker(n)), world.maxBody)
      requires marked ==> Look(Live(), Marker(n)) == Some(file)
      modifies this`world, this`log, this`faulty, this`bytes, this`artifactBytes, this`records, this`claimed, this`exact
      ensures (old(faulty) ==> faulty) && (!faulty ==> (ok <==> MayAck(old(Live()), n, marked)))
      ensures Ready() && Extends(old(log), log) && SamePromises(old(world), world)
      ensures world.settled == old(world.settled) || world.settled == old(world.settled) + Residents(world.homes, n)
      ensures SameBut(old(Live()), Live(), {Record(n), Marker(n), TempMarker(n)})
      ensures Look(Live(), Record(n)) in {None, Look(old(Live()), Record(n))}
      ensures Record(n) !in Live() ==> Resolved(world, n)
      ensures ok ==> Record(n) !in Live() && Residents(world.homes, n) <= world.settled
      ensures claimed == if Record(n) in Live() then old(claimed) else old(claimed) - {n}
      ensures old(exact) && !exact ==> !ok && Record(n) in Live() && Marker(n) in Live()
    {
      ExtensionsChain();
      hide Extends;
      hide Safe, MayAlter, Disciplined, Run, Balanced, SameBut;
      SameAsBefore(Live(), {Record(n), Marker(n), TempMarker(n)});
      if Live()[Record(n)].Special? {
        return false;
      }
      if !marked {
        ok := CreateMarker(n, file);
        SameButWider(old(Live()), Live(), n);
        if !ok {
          return;
        }
      }
      ghost var before := Live();
      ok := RemoveRecord(n);
      if ok {
        SameButOne(before, Live(), n);
        ghost var bare := Live();
        ok := CloseOut(n, file);
        SameButWider(bare, Live(), n);
        SameButChain(before, bare, Live(), {Record(n), Marker(n), TempMarker(n)});
      }
      SameButChain(old(Live()), before, Live(), {Record(n), Marker(n), TempMarker(n)});
    }

    /** Acknowledges a record whose promise has ended. */
    method AckReleased(n: Sequence, file: File, marked: bool) returns (ok: bool)
      requires Ready() && n !in world.kept && IsVerdict(Some(file), world.maxBody)
      requires marked == IsVerdict(Look(Live(), Marker(n)), world.maxBody)
      requires marked ==> Look(Live(), Marker(n)) == Some(file)
      modifies this`world, this`log, this`faulty, this`bytes, this`artifactBytes, this`records, this`claimed, this`exact
      ensures old(faulty) ==> faulty
      ensures !faulty ==> (ok <==> Record(n) !in old(Live()) || MayAck(old(Live()), n, marked))
      ensures Ready() && Extends(old(log), log) && SamePromises(old(world), world)
      ensures world.settled == old(world.settled) || world.settled == old(world.settled) + Residents(world.homes, n)
      ensures SameBut(old(Live()), Live(), {Record(n), Marker(n), TempMarker(n)})
      ensures Look(Live(), Record(n)) in {None, Look(old(Live()), Record(n))}
      ensures Resolved(old(world), n) || (Record(n) in old(Live()) && Record(n) !in Live()) ==> Resolved(world, n)
      ensures ok ==> Record(n) !in Live()
      ensures ok && (Record(n) in old(Live()) || Resolved(old(world), n)) ==> Residents(world.homes, n) <= world.settled
      ensures claimed == old(claimed) || claimed == old(claimed) - {n}
      ensures n in old(claimed) ==> (n in claimed ==> !ok) && (n !in claimed ==> Record(n) !in Live())
      ensures old(exact) && !exact ==> !ok && Record(n) in Live() && Marker(n) in Live()
    {
      hide Safe, MayAlter, Disciplined, Run, Balanced, SameBut, Extends, Residents;
      if Record(n) in Live() {
        ok := AckLive(n, file, marked);
      } else if marked {
        ok := CloseOut(n, file);
        SameButWider(old(Live()), Live(), n);
      } else {
        claimed := claimed - {n};
        ok := true;
        SameAsBefore(Live(), {Record(n), Marker(n), TempMarker(n)});
        ExtendsItself(log);
      }
    }

    /** Records a terminal outcome before removing the record. Whatever fails on the way, the
        record is still there, or its outcome is settled, or the marker stands; success settles
        every ticket of the number. */
    method AckTerminal(n: Sequence, status: Status) returns (ok: bool)
      requires Ready()
      modifies this`world, this`log, this`faulty, this`bytes, this`artifactBytes, this`records, this`claimed, this`exact
      ensures old(faulty) ==> faulty
      ensures !faulty ==>
        (ok <==>
           || Record(n) !in old(Live())
           || MayAck(old(Live()), n, IsVerdict(Look(old(Live()), Marker(n)), world.maxBody)))
      ensures Ready() && Extends(old(log), log)
      ensures world.kept == old(world.kept) - {n} && world.homes == old(world.homes)
      ensures world.maxBody == old(world.maxBody)
      ensures world.settled == old(world.settled) || world.settled == old(world.settled) + Residents(world.homes, n)
      ensures SameBut(old(Live()), Live(), {Record(n), Marker(n), TempMarker(n)})
      ensures Look(Live(), Record(n)) in {None, Look(old(Live()), Record(n))}
      ensures Resolved(old(world), n) || (Record(n) in old(Live()) && Record(n) !in Live()) ==> Resolved(world, n)
      ensures ok ==> Record(n) !in Live()
      ensures ok && (Record(n) in old(Live()) || Resolved(old(world), n)) ==> Residents(world.homes, n) <= world.settled
      ensures claimed == old(claimed) || claimed == old(claimed) - {n}
      ensures n in old(claimed) ==> (n in claimed ==> !ok) && (n !in claimed ==> Record(n) !in Live())
      ensures old(exact) && !exact ==> !ok && Record(n) in Live() && Marker(n) in Live()
    {
      ExtensionsChain();
      hide Extends, Sound, Ordered, Accounted, Residents;
      assert IsVerdict(Some(MarkerFile(status)), world.maxBody);
      hide IsVerdict;
      var marked := EndPromise(n);
      SameButOne(old(Live()), Live(), n);
      var file := if marked then Live()[Marker(n)] else MarkerFile(status);
      ghost var before := Live();
      hide SameBut;
      ok := AckReleased(n, file, marked);
      SameButChain(old(Live()), before, Live(), {Record(n), Marker(n), TempMarker(n)});
    }

    /** Ends the promise of a record and clears away a marker that proves nothing; says whether a
        valid verdict stands. */
    method EndPromise(n: Sequence) returns (marked: bool)
      requires Ready()
      modifies this`world, this`log, this`faulty
      ensures (old(faulty) ==> faulty) && Ready() && Extends(old(log), log)
      ensures world == old(world).(disk := world.disk, kept := old(world.kept) - {n})
      ensures marked == IsVerdict(Look(old(Live()), Marker(n)), world.maxBody)
      ensures marked == IsVerdict(Look(Live(), Marker(n)), world.maxBody) && (marked ==> Marker(n) in Live())
      ensures Live() == old(Live()) || (!marked && Live() == old(Live()) - {Marker(n)})
      ensures !faulty ==> marked || Marker(n) !in Live()
    {
      ExtensionsChain();
      hide Extends;
      Do(Released(n));
      hide Safe, MayAlter, Disciplined, Run, Balanced, IsVerdict;
      marked := IsVerdict(Look(Live(), Marker(n)), world.maxBody);
      if !marked && Marker(n) in Live() {
        DropBadMarker(n);
      }
      NoVerdict(Live(), n, world.maxBody);
    }
  }
}
