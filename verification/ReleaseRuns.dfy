/** What holds over whole runs of release steps, crashes included: a crash is the end of a prefix. */
module ReleaseRuns {
  import opened Wrappers
  import opened ReleaseWorld

  predicate Doable(w: World, e: Event) {
    Sited(w) && (!e.Snapshot? ==> w.journal.Some?)
  }

  ghost function Run(w: World, log: seq<Event>): World {
    if log == [] then w
    else
      var before := Run(w, log[..|log| - 1]);
      if Doable(before, log[|log| - 1]) then Next(before, log[|log| - 1]) else before
  }

  /** Every step of the log was allowed where it was taken. */
  ghost predicate Disciplined(w: World, log: seq<Event>) {
    log != [] ==>
      var n := |log| - 1;
      Disciplined(w, log[..n]) && Allowed(Run(w, log[..n]), log[n])
  }

  lemma RunOne(w: World, log: seq<Event>, e: Event)
    ensures Doable(Run(w, log), e) ==> Run(w, log + [e]) == Next(Run(w, log), e)
    ensures Disciplined(w, log + [e]) <==> Disciplined(w, log) && Allowed(Run(w, log), e)
  {
    assert (log + [e])[..|log|] == log;
  }

  lemma {:induction false} DisciplinedPrefix(w: World, log: seq<Event>, k: nat)
    requires k <= |log| && Disciplined(w, log)
    ensures Disciplined(w, log[..k])
    ensures k < |log| ==> Allowed(Run(w, log[..k]), log[k]) && Run(w, log[..k + 1]) == Next(Run(w, log[..k]), log[k])
  {
    if k < |log| {
      DisciplinedPrefix(w, log[..|log| - 1], k);
      assert log[..|log| - 1][..k] == log[..k];
      if k < |log| - 1 {
        assert log[..|log| - 1][..k + 1] == log[..k + 1];
      } else {
        assert log[..k + 1] == log;
      }
    } else {
      assert log[..k] == log;
    }
  }

  /** Wherever a disciplined run is cut off, the repository can be recovered or resumed. */
  lemma {:induction false} EveryCrashIsSafe(w: World, log: seq<Event>, k: nat)
    requires Safe(w) && Disciplined(w, log) && k <= |log|
    ensures Safe(Run(w, log[..k]))
  {
    if k > 0 {
      EveryCrashIsSafe(w, log, k - 1);
      DisciplinedPrefix(w, log, k - 1);
      AllowedKeepsSafe(Run(w, log[..k - 1]), log[k - 1]);
    }
  }

  predicate NoSnapshot(log: seq<Event>, from: nat, to: nat) {
    forall n | from <= n < to && n < |log| :: !log[n].Snapshot?
  }

  /** Until the next snapshot a transaction keeps its origin, and what it changed remotely stays. */
  lemma {:induction false} TransactionGoesOn(w: World, log: seq<Event>, i: nat, k: nat)
    requires Disciplined(w, log) && i <= k <= |log| && NoSnapshot(log, i, k)
    ensures Run(w, log[..k]).origin == Run(w, log[..i]).origin
    ensures Run(w, log[..i]).reached ==> Run(w, log[..k]).reached
    ensures Run(w, log[..i]).journal == None ==> Run(w, log[..k]).journal == None
    ensures Run(w, log[..k]).journal.Some? ==>
      && Run(w, log[..i]).journal.Some?
      && SameTransaction(Run(w, log[..i]).journal.value, Run(w, log[..k]).journal.value)
  {
    if i < k {
      TransactionGoesOn(w, log, i, k - 1);
      DisciplinedPrefix(w, log, k - 1);
      StepGoesOn(Run(w, log[..k - 1]), log[k - 1]);
    }
  }

  predicate SameTransaction(a: Journal, b: Journal) {
    a.plan == b.plan && a.files == b.files && a.tags == b.tags && a.index == b.index
  }

  lemma StepGoesOn(w: World, e: Event)
    requires Allowed(w, e) && !e.Snapshot?
    ensures Next(w, e).origin == w.origin && (w.reached ==> Next(w, e).reached)
    ensures w.journal.Some?
    ensures Next(w, e).journal.Some? ==> SameTransaction(w.journal.value, Next(w, e).journal.value)
  {
    NextGoesOn(w, e);
    hide MayDo, Next;
  }

  lemma NextGoesOn(w: World, e: Event)
    requires Sited(w) && w.journal.Some? && !e.Snapshot?
    ensures Next(w, e).origin == w.origin && (w.reached ==> Next(w, e).reached)
    ensures Next(w, e).journal.Some? ==> SameTransaction(w.journal.value, Next(w, e).journal.value)
  {
  }

  /** Write-ahead safety: once a remote ref moved or a release was announced, nothing is undone
      any more until another transaction begins. */
  lemma NothingPublishedIsUndone(w: World, log: seq<Event>, i: nat, k: nat)
    requires Safe(w) && Disciplined(w, log) && i < k < |log| && log[i].Publish? && Undoes(log[k])
    ensures exists n :: i < n < k && log[n].Snapshot?
  {
    hide Allowed, Undoes, Run;
    if NoSnapshot(log, i + 1, k) {
      DisciplinedPrefix(w, log, i);
      assert Run(w, log[..i + 1]).reached;
      TransactionGoesOn(w, log, i + 1, k);
      DisciplinedPrefix(w, log, k);
      EveryCrashIsSafe(w, log, k);
      hide Safe;
      UndoIsLocal(Run(w, log[..k]), log[k]);
    }
  }

  lemma UndoIsLocal(w: World, e: Event)
    requires Safe(w) && Allowed(w, e) && Undoes(e)
    ensures !w.reached
  {
  }

  /** At every instant after a remote effect the journal on disk says external or published, or
      is gone. */
  lemma RemoteEffectsAreJournaled(w: World, log: seq<Event>, k: nat)
    requires Safe(w) && Disciplined(w, log) && k <= |log| && Run(w, log[..k]).reached
    ensures var now := Run(w, log[..k]); now.journal.Some? ==> !Local(now.journal.value.phase)
  {
    EveryCrashIsSafe(w, log, k);
  }

  /** A journal that goes away before publication leaves HEAD, the planned tags, the snapshotted
      paths and the index as they were when it was first written; without planned tags, at least
      HEAD is where it was. */
  lemma GoneMeansRestored(w: World, log: seq<Event>, i: nat, k: nat)
    requires Safe(w) && Disciplined(w, log) && i < k < |log|
    requires log[i].Snapshot? && NoSnapshot(log, i + 1, k) && log[k].Forget?
    ensures var start, now, done := Run(w, log[..i]), Run(w, log[..k]), Run(w, log[..k + 1]);
      && now.journal.Some? && done.journal == None
      && (now.journal.value.phase.Published? || BackAt(start, done, log[i].journal)
          || (log[i].journal.plan.tags == [] && Sited(start) && Sited(done) && Head(done) == Head(start)))
  {
    var start, now := Run(w, log[..i]), Run(w, log[..k]);
    DisciplinedPrefix(w, log, i);
    DisciplinedPrefix(w, log, k);
    TransactionGoesOn(w, log, i + 1, k);
    assert now.origin == OriginOf(start);
  }

  /** Every path that was tracked or snapshotted is back, with HEAD, planned tags and index. */
  ghost predicate BackAt(start: World, done: World, j: Journal) {
    && Sited(start) && Sited(done) && Head(done) == Head(start)
    && (forall t | t in j.plan.tags :: Look(done.tags, t) == Look(start.tags, t))
    && (forall p | p in j.files || p in start.index :: Look(done.files, p) == Look(start.files, p))
    && done.index == start.index
  }

  /** A regular file is not restored through a link that took its place. */
  predicate Blocked(w: World, j: Journal, p: Path) {
    p in j.files && j.files[p].Some? && j.files[p].value.Regular? && p in w.files && w.files[p].Link?
  }

  ghost predicate Obstructed(w: World, j: Journal) {
    exists p :: Blocked(w, j, p)
  }

  /** A local transaction whose tags mark the source itself, because the release commit found
      nothing to commit, cannot be rolled back; nor one where a hook put a link in a file's place. */
  ghost predicate CanRollBack(w: World, j: Journal) {
    && Safe(w) && w.journal == Some(j) && Local(j.phase)
    && (Head(w) != j.plan.source || TagsKept(w, j)) && !Obstructed(w, j)
  }

  ghost function FilesAfter(w: World, j: Journal): Tree
    requires Sited(w)
  {
    map p | p in w.files.Keys + j.files.Keys && (if p in j.files then j.files[p].Some? else p !in Created(w, j))
      :: if p in j.files then j.files[p].value else w.files[p]
  }

  ghost function TagsAfter(tags: map<Tag, TagRef>, j: Journal): map<Tag, TagRef> {
    map t | t in tags && (t in j.tags ==> Some(tags[t]) == j.tags[t]) :: tags[t]
  }

  /** The repository after a complete rollback. */
  ghost function RolledBack(w: World, j: Journal): World
    requires Sited(w)
  {
    w.(tags := TagsAfter(w.tags, j),
       heads := w.heads[w.ref := j.plan.source],
       files := FilesAfter(w, j),
       index := j.index,
       journal := None)
  }

  /** A complete rollback restores HEAD, planned tags, snapshotted paths and index, and touches no
      file but those it snapshotted and those created since. */
  lemma RollbackRestores(w: World, j: Journal)
    requires CanRollBack(w, j)
    ensures Restored(RolledBack(w, j), j) && RolledBack(w, j).journal == None
    ensures forall p | p !in j.files && p !in Created(w, j) :: Look(RolledBack(w, j).files, p) == Look(w.files, p)
    ensures forall p | p in Created(w, j) :: p !in RolledBack(w, j).files
  {
    hide Changed;
  }

  /** Of the files that stood when the journal was first written, a rollback removes at most those that
      were ignored and that the release committed all the same. */
  lemma OlderFilesStay(w: World, j: Journal, p: Path)
    requires CanRollBack(w, j) && p in w.files && p in w.origin.files
    ensures p !in RolledBack(w, j).files <==>
      && p !in j.files && p in w.ignored && Head(w) != j.plan.source
      && Look(TreeOf(w, Head(w)), p) != Look(TreeOf(w, j.plan.source), p)
  {
    if p !in j.files {
      WhatRollbackRemoves(w, j, p);
    }
    hide Changed, Created;
  }

  /** A file with no snapshot goes exactly if it was not there untracked before, and it is untracked now
      or told differently by the release commit than by its source. */
  lemma WhatRollbackRemoves(w: World, j: Journal, p: Path)
    requires CanRollBack(w, j) && p in w.files && p !in j.files
    ensures p !in RolledBack(w, j).files <==>
      && !(p in w.origin.files && p !in w.origin.index && p !in w.ignored)
      && (|| (p !in w.index && p !in w.ignored)
          || (Head(w) != j.plan.source && Look(TreeOf(w, Head(w)), p) != Look(TreeOf(w, j.plan.source), p)))
  {
    ChangedByText(w, j.plan.source, Head(w), p);
    hide Changed;
  }

  lemma ChangedByText(w: World, a: Sha, b: Sha, p: Path)
    ensures p in Changed(w, a, b) <==> Look(TreeOf(w, a), p) != Look(TreeOf(w, b), p)
  {
  }

  /** A second rollback from b brings back what one from a would have. */
  ghost predicate SameOutcome(a: World, b: World, j: Journal)
    requires Sited(a) && Sited(b)
  {
    var x, y := RolledBack(a, j), RolledBack(b, j);
    && x.heads == y.heads && x.tags == y.tags && x.index == y.index && x.journal == y.journal
    && x.commits == y.commits && x.remote == y.remote && x.origin == y.origin
    && (forall p | p in j.files || p in Created(a, j) :: Look(x.files, p) == Look(y.files, p))
  }

  ghost predicate Undoing(w: World, e: Event, j: Journal) {
    CanRollBack(w, j) && Allowed(w, e) && Undoes(e)
  }

  lemma CreatedGoes(w: World, e: Event, j: Journal)
    requires Undoing(w, e, j)
    ensures Sited(Next(w, e))
    ensures forall p | p in Created(w, j) :: p in Created(Next(w, e), j) || p !in Next(w, e).files
  {
  }

  ghost predicate NoneAdded(w: World, w': World, j: Journal) {
    forall p | p in w'.files && p !in j.files :: p in w.files
  }

  lemma OutcomeChain(a: World, b: World, c: World, j: Journal)
    requires Sited(a) && Sited(b) && Sited(c) && SameOutcome(a, b, j) && SameOutcome(b, c, j)
    requires Safe(a) && a.journal == Some(j) && Local(j.phase) && NoneAdded(b, c, j)
    ensures SameOutcome(a, c, j)
  {
    hide Changed, Safe;
    forall p | p in j.files || p in Created(a, j)
      ensures Look(RolledBack(a, j).files, p) == Look(RolledBack(c, j).files, p)
    {
      if p !in j.files {
        assert p !in RolledBack(a, j).files && p !in RolledBack(b, j).files;
      }
    }
  }

  lemma NothingNewCreated(w: World, e: Event, j: Journal)
    requires Undoing(w, e, j)
    ensures !Obstructed(Next(w, e), j) && Next(w, e).journal == w.journal
    ensures NoneAdded(w, Next(w, e), j)
  {
    hide Created, Safe, TagsKept;
    assert forall p | p in Next(w, e).files && p in j.files ::
        (p in w.files && Next(w, e).files[p] == w.files[p]) || Look(Next(w, e).files, p) == j.files[p];
    assert forall p :: Blocked(Next(w, e), j, p) ==> Blocked(w, j, p);
  }

  lemma UndoneTags(w: World, e: Event, j: Journal)
    requires Undoing(w, e, j)
    ensures TagsAfter(Next(w, e).tags, j) == TagsAfter(w.tags, j)
  {
    hide Created, Safe, Obstructed, TagsKept;
    if e.DeleteTag? {
      DeletedTag(w.tags, j, e.tag);
    } else {
      hide TagsAfter;
      assert Next(w, e).tags == w.tags;
    }
  }

  lemma DeletedTag(tags: map<Tag, TagRef>, j: Journal, t: Tag)
    requires t in j.tags && j.tags[t] == None
    ensures TagsAfter(tags - {t}, j) == TagsAfter(tags, j)
  {
  }

  lemma WhenUndoing(w: World, e: Event, j: Journal)
    requires Undoing(w, e, j)
    ensures Sited(Next(w, e)) && Sited(w)
    ensures e.DeleteTag? ==> Head(w) != j.plan.source && Head(Next(w, e)) == Head(w)
    ensures e.Rewind? ==> TagsKept(w, j)
    ensures !e.DeleteTag? ==> Next(w, e).tags == w.tags
    ensures !e.Rewind? ==> Head(Next(w, e)) == Head(w)
  {
    hide Created, Obstructed, TagsKept;
  }

  lemma TagsAtSource(w: World, e: Event, j: Journal)
    requires Undoing(w, e, j)
    ensures Sited(Next(w, e))
    ensures Head(Next(w, e)) != j.plan.source || TagsKept(Next(w, e), j)
  {
    WhenUndoing(w, e, j);
    assert Head(w) != j.plan.source || TagsKept(w, j);
    hide Undoing, CanRollBack, Next, Safe, TagKept;
    if !e.DeleteTag? {
      TagsAlike(w, Next(w, e), j);
    }
  }

  lemma TagsAlike(w: World, w': World, j: Journal)
    requires w'.tags == w.tags
    ensures forall t :: TagKept(w', j, t) == TagKept(w, j, t)
  {
  }

  /** A step of a rollback changes nothing about where the rollback ends. */
  lemma UndoStep(w: World, e: Event, j: Journal)
    requires Undoing(w, e, j)
    ensures CanRollBack(Next(w, e), j)
    ensures SameOutcome(w, Next(w, e), j) && NoneAdded(w, Next(w, e), j)
  {
    AllowedKeepsSafe(w, e);
    NothingNewCreated(w, e, j);
    UndoneTags(w, e, j);
    TagsAtSource(w, e, j);
    UndoneFiles(w, e, j);
    UndoneRest(w, e, j);
    hide Created, Obstructed, Safe, TagsKept, FilesAfter, TagsAfter, Next, Allowed, Undoes;
  }

  lemma UndoneRest(w: World, e: Event, j: Journal)
    requires Sited(w) && w.journal == Some(j) && Undoes(e)
    ensures var next := Next(w, e);
      && next.heads[next.ref := j.plan.source] == w.heads[w.ref := j.plan.source] && next.ref == w.ref
      && next.commits == w.commits && next.remote == w.remote && next.origin == w.origin
  {
    UndoneHeads(w, e, j);
    assert Next(w, e).heads == w.heads || Next(w, e).heads == w.heads[w.ref := j.plan.source];
    hide Sited;
  }

  lemma UndoneHeads(w: World, e: Event, j: Journal)
    requires Sited(w) && w.journal == Some(j) && Undoes(e)
    ensures Next(w, e).heads == w.heads || Next(w, e).heads == w.heads[w.ref := j.plan.source]
  {
  }

  lemma UndoneFiles(w: World, e: Event, j: Journal)
    requires Undoing(w, e, j)
    ensures Sited(Next(w, e))
    ensures forall p | p in j.files || p in Created(w, j) ::
      Look(FilesAfter(w, j), p) == Look(FilesAfter(Next(w, e), j), p)
  {
    CreatedGoes(w, e, j);
    assert forall p | p in Created(w, j) :: p !in j.files;
    hide Created, Obstructed, Safe, TagsKept, Allowed;
  }

  /** A rollback interrupted after any of its steps, any number of times, and then carried out,
      brings back what the first one would have. */
  lemma {:induction false} InterruptedRollback(w: World, log: seq<Event>)
    requires w.journal.Some? && CanRollBack(w, w.journal.value) && Disciplined(w, log)
    requires forall i | 0 <= i < |log| :: Undoes(log[i])
    ensures CanRollBack(Run(w, log), w.journal.value)
    ensures SameOutcome(w, Run(w, log), w.journal.value)
    ensures Restored(RolledBack(Run(w, log), w.journal.value), w.journal.value)
  {
    if log != [] {
      var n := |log| - 1;
      InterruptedRollback(w, log[..n]);
      var before, j := Run(w, log[..n]), w.journal.value;
      UndoStep(before, log[n], j);
      OutcomeChain(w, before, Next(before, log[n]), j);
    }
    RollbackRestores(Run(w, log), w.journal.value);
  }

  const EmptyPlan := Plan(1, "chore(release): app 1.0.0", ["v1.0.0"])
  const EmptyJournal := Journal(Prepared, EmptyPlan, "main", None, map[], {}, map["v1.0.0" := None], map[])
  const EmptyRepository := World("main", map["main" := 1], map[1 := Commit(0, "initial", map[])], map[], map[], map[],
                                 {}, None, [], false, Origin(1, map[], map[], map[]))
  const Unstaged := EmptyRepository.(journal := Some(EmptyJournal.(phase := Committing)))
  const Untagged := EmptyRepository.(journal := Some(EmptyJournal.(phase := Tagging)))
  const EmptyRun := [Snapshot(EmptyJournal), Advance(Mutating, None), Advance(Committing, None), Stage,
                     Advance(Tagging, None), MakeTag("v1.0.0", 2)]

  lemma OneMore(w: World, log: seq<Event>, at: World, e: Event)
    requires Disciplined(w, log) && Run(w, log) == at && Allowed(at, e)
    ensures Disciplined(w, log + [e]) && Run(w, log + [e]) == Next(at, e)
  {
    RunOne(w, log, e);
  }

  lemma EmptyUntilCommit()
    ensures Safe(EmptyRepository) && Disciplined(EmptyRepository, EmptyRun[..3])
    ensures Run(EmptyRepository, EmptyRun[..3]) == Unstaged
  {
    var w0, j := EmptyRepository, EmptyJournal;
    var w1, w2 := w0.(journal := Some(j)), w0.(journal := Some(j.(phase := Mutating)));
    assert EmptyRun[..1] == [] + [EmptyRun[0]];
    assert EmptyRun[..2] == EmptyRun[..1] + [EmptyRun[1]];
    assert EmptyRun[..3] == EmptyRun[..2] + [EmptyRun[2]];
    assert FreshJournal(w0, j) && Next(w0, EmptyRun[0]) == w1;
    OneMore(w0, [], w0, EmptyRun[0]);
    hide Run, Disciplined;
    OneMore(w0, EmptyRun[..1], w1, EmptyRun[1]);
    OneMore(w0, EmptyRun[..2], w2, EmptyRun[2]);
  }

  lemma EmptyUntilTag()
    ensures Safe(EmptyRepository) && Disciplined(EmptyRepository, EmptyRun[..5])
    ensures Run(EmptyRepository, EmptyRun[..5]) == Untagged
  {
    EmptyUntilCommit();
    assert EmptyRun[..4] == EmptyRun[..3] + [EmptyRun[3]];
    assert EmptyRun[..5] == EmptyRun[..4] + [EmptyRun[4]];
    hide Run, Disciplined, Safe;
    assert Next(Unstaged, Stage) == Unstaged;
    OneMore(EmptyRepository, EmptyRun[..3], Unstaged, EmptyRun[3]);
    OneMore(EmptyRepository, EmptyRun[..4], Unstaged, EmptyRun[4]);
  }

  /** The run of a release whose commit step finds nothing to commit: the tag then marks the
      source, and the journal it leaves behind can never be rolled back. */
  lemma NothingToCommitIsStuck()
    ensures Safe(EmptyRepository) && Disciplined(EmptyRepository, EmptyRun)
    ensures var now := Run(EmptyRepository, EmptyRun);
      && now.journal.Some? && Local(now.journal.value.phase) && !Obstructed(now, now.journal.value)
      && !CanRollBack(now, now.journal.value)
  {
    EmptyUntilTag();
    assert EmptyRun == EmptyRun[..5] + [EmptyRun[5]];
    hide Run, Disciplined;
    OneMore(EmptyRepository, EmptyRun[..5], Untagged, EmptyRun[5]);
    assert !TagKept(Next(Untagged, EmptyRun[5]), Untagged.journal.value, "v1.0.0");
  }

  const Manifest := Regular(1, 0)
  const Tracking: Tree := map["a" := Manifest]
  const Swapped: Tree := map["a" := Link("b")]
  const TrackedJournal := EmptyJournal.(files := map["a" := Some(Manifest)], index := Tracking)
  const Tracked := EmptyRepository.(files := Tracking, index := Tracking,
                                    origin := Origin(1, map[], Tracking, Tracking))
  const Mutated := Tracked.(journal := Some(TrackedJournal.(phase := Mutating)))
  const HookRun := [Snapshot(TrackedJournal), Advance(Mutating, None), Hook(Swapped, Tracking)]

  lemma TrackedUntilHook()
    ensures Safe(Tracked) && Disciplined(Tracked, HookRun[..2])
    ensures Run(Tracked, HookRun[..2]) == Mutated
  {
    var w0, j := Tracked, TrackedJournal;
    var w1 := w0.(journal := Some(j));
    assert HookRun[..1] == [] + [HookRun[0]];
    assert HookRun[..2] == HookRun[..1] + [HookRun[1]];
    assert FreshJournal(w0, j) && Next(w0, HookRun[0]) == w1;
    OneMore(w0, [], w0, HookRun[0]);
    hide Run, Disciplined;
    OneMore(w0, HookRun[..1], w1, HookRun[1]);
  }

  /** The run of a release whose hook puts a link in place of a tracked file: the journal it leaves
      behind cannot be rolled back, although no tag was made. */
  lemma LinkInPlaceIsStuck()
    ensures Safe(Tracked) && Disciplined(Tracked, HookRun)
    ensures var now := Run(Tracked, HookRun);
      && now.journal.Some? && Local(now.journal.value.phase) && TagsKept(now, now.journal.value)
      && !CanRollBack(now, now.journal.value)
  {
    TrackedUntilHook();
    assert HookRun == HookRun[..2] + [HookRun[2]];
    hide Run, Disciplined, Safe;
    OneMore(Tracked, HookRun[..2], Mutated, HookRun[2]);
    var now := Next(Mutated, HookRun[2]);
    assert Blocked(now, now.journal.value, "a");
  }
}
