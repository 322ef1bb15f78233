/** The release transaction: its journal in memory and on disk, rollback, recovery, and the program
    that drives it. Every change to the repository goes through `Do`. */
module ReleaseTransaction {
  import opened Wrappers
  import opened ReleaseWorld
  import opened ReleaseRuns

  datatype Recovery = Resumed | WasRolledBack | Refused

  datatype Result = Failed | Done(published: bool, plan: Plan)

  /** The in-memory state is the journal on disk, or a step ahead of it in phase and release head. */
  ghost predicate Ahead(w: World, state: Journal) {
    && Sited(w) && w.journal.Some?
    && var j := w.journal.value;
    && state == j.(phase := state.phase, releaseHead := state.releaseHead)
    && (Local(state.phase) ==> Local(j.phase))
    && (j.releaseHead.Some? ==> state.releaseHead == j.releaseHead)
    && HeadTold(w, state)
    && (state.releaseHead.Some? && Head(w) == state.plan.source ==> TagsKept(w, state))
  }

  /** The disk's journal with the fields of the in-memory one decides rollback alike. */
  lemma AheadCreated(w: World, state: Journal)
    requires Ahead(w, state)
    ensures Created(w, state) == Created(w, w.journal.value)
    ensures TagsKept(w, state) == TagsKept(w, w.journal.value)
    ensures RolledBack(w, state) == RolledBack(w, w.journal.value)
    ensures Obstructed(w, state) == Obstructed(w, w.journal.value)
  {
    assert forall t :: TagKept(w, state, t) == TagKept(w, w.journal.value, t);
    assert forall p :: Blocked(w, state, p) == Blocked(w, w.journal.value, p);
    assert Created(w, state) == Created(w, w.journal.value);
    assert RolledBack(w, state).tags == RolledBack(w, w.journal.value).tags;
    assert RolledBack(w, state).files == RolledBack(w, w.journal.value).files;
  }

  /** The tags done so far are as they were found, by deleting some that were not there. */
  ghost predicate TagsRestored(before: World, now: World, j: Journal, done: set<Tag>) {
    && Sited(now) && now == before.(tags := now.tags)
    && (forall t | t in done && t in j.tags :: TagKept(now, j, t))
    && (forall t | t in now.tags :: t in before.tags && now.tags[t] == before.tags[t])
    && (forall t | t in before.tags && t !in now.tags :: t in j.tags && !TagKept(before, j, t))
    && (Head(now) == j.plan.source ==> now.tags == before.tags)
  }

  /** The paths done so far are as the snapshot has them, the others as before. */
  ghost predicate FilesRestored(before: World, now: World, j: Journal, done: set<Path>) {
    && now == before.(files := now.files)
    && (forall p | p in done && p in j.files :: Look(now.files, p) == j.files[p])
    && (forall p | p !in done || p !in j.files :: Look(now.files, p) == Look(before.files, p))
  }

  /** All but the rest is restored, and nothing stood in the way. */
  ghost predicate Cleared(before: World, now: World, j: Journal, rest: set<Path>) {
    && FilesRestored(before, now, j, j.files.Keys - rest)
    && (forall p | p in j.files && p !in rest :: !Blocked(before, j, p))
  }

  lemma NothingCleared(w: World, j: Journal, log: seq<Event>)
    ensures Cleared(w, w, j, j.files.Keys) && Undone(log, log)
  {
  }

  lemma AllCleared(before: World, now: World, j: Journal)
    requires Cleared(before, now, j, {})
    ensures FilesRestored(before, now, j, j.files.Keys) && !Obstructed(before, j)
  {
    assert j.files.Keys - {} == j.files.Keys;
  }

  lemma ClearedMore(start: World, before: World, now: World, j: Journal, rest: set<Path>, p: Path, ok: bool)
    requires Cleared(start, before, j, rest) && p in rest && p in j.files
    requires ok ==> FilesRestored(before, now, j, {p}) && !Blocked(before, j, p)
    ensures ok ==> Cleared(start, now, j, rest - {p})
    ensures Blocked(before, j, p) ==> Obstructed(start, j)
  {
    assert Look(before.files, p) == Look(start.files, p);
    assert Blocked(start, j, p) == Blocked(before, j, p);
    if ok {
      FilesRestoredMore(start, before, now, j, j.files.Keys - rest, p);
      assert j.files.Keys - rest + {p} == j.files.Keys - (rest - {p});
    }
  }

  lemma FilesRestoredMore(start: World, before: World, now: World, j: Journal, done: set<Path>, p: Path)
    requires FilesRestored(start, before, j, done) && FilesRestored(before, now, j, {p})
    ensures FilesRestored(start, now, j, done + {p})
  {
  }

  lemma FileMayBePut(w: World, state: Journal, p: Path, e: Event)
    requires Safe(w) && Ahead(w, state) && Local(state.phase) && TagsKept(w, state) && Created(w, state) == {}
    requires p in state.files && (e == Restore(p) || e == Unlink(p))
    ensures Allowed(w, e) && Next(w, e) == w.(files := Put(w.files, p, if e.Restore? then state.files[p] else None))
    ensures Ahead(Next(w, e), state) && TagsKept(Next(w, e), state) && Created(Next(w, e), state) == {}
  {
    AheadCreated(w, state);
    WriteAhead(w, state, Next(w, e).files, w.index);
    SnapshottedIsNotCreated(w, Next(w, e), state, p);
    hide Created, Safe, TagKept;
    assert forall t | t in state.tags :: TagKept(Next(w, e), state, t) == TagKept(w, state, t) by {
      TagsSame(w, Next(w, e), state);
    }
  }

  lemma TagsSame(w: World, w': World, j: Journal)
    requires w'.tags == w.tags
    ensures forall t :: TagKept(w', j, t) == TagKept(w, j, t)
  {
  }

  lemma SnapshottedIsNotCreated(w: World, w': World, j: Journal, p: Path)
    requires Sited(w) && p in j.files && w' == w.(files := w'.files) && Created(w, j) == {}
    requires forall q | q in w'.files && q != p :: q in w.files
    ensures Created(w', j) == {}
  {
    forall q | q in w'.files && q !in j.files && q !in j.untracked
      ensures q !in Created(w', j)
    {
      assert q !in Created(w, j);
    }
  }

  /** Tags, created files and snapshotted files are as a complete rollback leaves them. */
  ghost predicate FilesUndone(before: World, now: World, j: Journal) {
    && Sited(before) && Sited(now) && now == before.(tags := now.tags, files := now.files)
    && now.tags == RolledBack(before, j).tags && now.files == RolledBack(before, j).files
    && TagsKept(now, j) && Created(now, j) == {}
  }

  lemma CreatedSameTags(w: World, w': World, j: Journal)
    requires Sited(w) && w' == w.(tags := w'.tags)
    ensures Created(w', j) == Created(w, j)
  {
    assert Untracked(w') == Untracked(w);
    assert forall a, b :: Changed(w', a, b) == Changed(w, a, b);
    hide Untracked, Changed;
    assert Created(w', j) == Created(w, j);
  }

  lemma TreeUndone(w0: World, w1: World, w2: World, j: Journal)
    requires Sited(w0) && Sited(w2) && w1 == w0.(tags := RolledBack(w0, j).tags)
    requires Removed(w1, w2, j, Created(w2, j)) && Created(w2, j) == {}
    ensures Created(w1, j) == Created(w0, j) && FilesWithout(w1, w2, Created(w1, j))
    ensures Obstructed(w2, j) == Obstructed(w0, j)
    ensures Head(w2) == Head(w0)
  {
    hide TagKept;
    CreatedSameTags(w0, w1, j);
    hide Changed, Untracked;
    assert forall p | p in j.files :: p !in Created(w0, j);
    hide Created;
    assert forall p | p in j.files :: Look(w2.files, p) == Look(w0.files, p);
    assert forall p :: Blocked(w2, j, p) == Blocked(w0, j, p);
    hide Blocked;
  }

  lemma TreeRestored(w0: World, w1: World, w2: World, w3: World, j: Journal)
    requires Sited(w0) && Sited(w2) && Sited(w3) && w1 == w0.(tags := RolledBack(w0, j).tags)
    requires Created(w1, j) == Created(w0, j) && TagsKept(w3, j)
    requires FilesWithout(w1, w2, Created(w1, j)) && Created(w3, j) == {}
    requires FilesRestored(w2, w3, j, j.files.Keys)
    ensures FilesUndone(w0, w3, j)
  {
    hide Changed, Untracked;
    assert forall p :: Look(w3.files, p) == Look(RolledBack(w0, j).files, p);
    SameTree(w3.files, RolledBack(w0, j).files);
  }

  lemma SameTree(a: Tree, b: Tree)
    requires forall p :: Look(a, p) == Look(b, p)
    ensures a == b
  {
    assert forall p | p in a :: Look(a, p).Some?;
    assert forall p | p in b :: Look(b, p).Some?;
  }

  /** What is left after the working tree: HEAD, the index and the journal. */
  lemma RefsUndone(w0: World, w: World, j: Journal)
    requires FilesUndone(w0, w, j)
    ensures RolledBack(w0, j) == w.(heads := w.heads[w.ref := j.plan.source], index := j.index, journal := None)
    ensures TagsKept(w, j) && Created(w, j) == {}
    ensures Head(w) == j.plan.source ==> w.heads[w.ref := j.plan.source] == w.heads
  {
    hide Created, TagsKept, FilesAfter;
  }

  lemma RollbackTold(w: World, state: Journal)
    requires Safe(w) && Ahead(w, state) && Local(state.phase)
    ensures RolledBack(w, state) == RolledBack(w, w.journal.value)
    ensures CanRollBack(w, w.journal.value) <==>
      (Head(w) != state.plan.source || TagsKept(w, state)) && !Obstructed(w, state)
  {
    AheadCreated(w, state);
    hide Created, RolledBack, Obstructed, TagsKept, JournalSafe;
  }

  lemma AdvanceAhead(w: World, state: Journal, phase: Phase)
    requires Safe(w) && Ahead(w, state) && MayAdvance(w, w.journal.value, phase, state.releaseHead)
    ensures Ahead(w, state.(phase := phase))
    ensures Ahead(Next(w, Advance(phase, state.releaseHead)), state.(phase := phase))
    ensures Allowed(w, Advance(phase, state.releaseHead))
  {
    var after, next := Next(w, Advance(phase, state.releaseHead)), state.(phase := phase);
    assert forall t :: TagKept(after, next, t) == TagKept(w, state, t) && TagKept(w, next, t) == TagKept(w, state, t);
    assert TagsKept(after, next) == TagsKept(w, state) && TagsKept(w, next) == TagsKept(w, state);
    assert forall sha :: IsRelease(after, sha, next.plan) == IsRelease(w, sha, state.plan);
    hide TagsKept, TagKept, IsRelease;
  }

  /** HEAD is the release commit the journal records. */
  ghost predicate Resuming(w: World, state: Journal) {
    Sited(w) && state.releaseHead == Some(Head(w)) && IsRelease(w, Head(w), state.plan) && !Local(state.phase)
  }

  lemma WriteAhead(w: World, state: Journal, files: Tree, index: Tree)
    requires Ahead(w, state)
    ensures Ahead(w.(files := files, index := index), state)
  {
    var after := w.(files := files, index := index);
    assert forall t :: TagKept(after, state, t) == TagKept(w, state, t);
    assert TagsKept(after, state) == TagsKept(w, state);
    hide TagsKept, TagKept;
  }

  lemma CommitMayBe(w: World, state: Journal, sha: Sha)
    requires Safe(w) && Ahead(w, state) && w.journal == Some(state) && state.phase.Committing?
    requires state.releaseHead == None && Head(w) == state.plan.source && sha !in w.commits
    ensures Allowed(w, MakeCommit(sha)) && Ahead(Next(w, MakeCommit(sha)), state)
    ensures IsRelease(Next(w, MakeCommit(sha)), sha, state.plan) && sha != state.plan.source
  {
    CommitAhead(w, state, sha);
  }

  lemma CommitAhead(w: World, state: Journal, sha: Sha)
    requires Ahead(w, state) && w.journal == Some(state) && state.phase.Committing? && state.releaseHead == None
    requires Head(w) == state.plan.source && sha !in w.commits
    ensures Allowed(w, MakeCommit(sha)) && Ahead(Next(w, MakeCommit(sha)), state)
    ensures IsRelease(Next(w, MakeCommit(sha)), sha, state.plan)
  {
    SaysItself(state.plan);
    hide SaysRelease;
  }

  /** The journal of a new transaction: every tracked or managed path, the planned tags and the index
      as they are; external from the start if HEAD is already the release commit. */
  function JournalFor(w: World, plan: Plan, managed: set<Path>): Journal
    requires Sited(w)
  {
    Journal(if Head(w) == plan.source then Prepared else External, plan, w.ref,
            if Head(w) == plan.source then None else Some(Head(w)),
            map p | p in managed + w.index.Keys :: Look(w.files, p),
            Untracked(w),
            map t | t in plan.tags :: Look(w.tags, t),
            w.index)
  }

  lemma JournalIsFresh(w: World, plan: Plan, managed: set<Path>)
    requires Sited(w) && (Head(w) == plan.source || IsRelease(w, Head(w), plan))
    ensures var j := JournalFor(w, plan, managed);
      && FreshJournal(w, j) && Ahead(w.(journal := Some(j), reached := false, origin := OriginOf(w)), j)
      && j.plan == plan && managed <= j.files.Keys
      && (Head(w) == plan.source ==> j.phase.Prepared? && j.releaseHead == None)
      && (Head(w) != plan.source ==> Resuming(w.(journal := Some(j), reached := false, origin := OriginOf(w)), j))
  {
    SnapshotIsFresh(w, JournalFor(w, plan, managed));
    hide FreshJournal, Ahead, Untracked;
  }

  lemma SnapshotIsFresh(w: World, j: Journal)
    requires Sited(w) && j.ref == w.ref && (Head(w) == j.plan.source || IsRelease(w, Head(w), j.plan))
    requires j.phase == if Head(w) == j.plan.source then Prepared else External
    requires j.releaseHead == if Head(w) == j.plan.source then None else Some(Head(w))
    requires forall p | p in j.files :: j.files[p] == Look(w.files, p)
    requires forall p | p in w.index :: p in j.files
    requires j.tags == map t | t in j.plan.tags :: Look(w.tags, t)
    requires j.index == w.index && j.untracked == Untracked(w)
    ensures FreshJournal(w, j)
    ensures Ahead(w.(journal := Some(j), reached := false, origin := OriginOf(w)), j)
  {
    assert forall t | t in j.tags :: TagKept(w, j, t);
  }

  /** Every planned tag marks HEAD, which is the release commit, or the source if there was
      nothing to commit; the journal says so. */
  ghost predicate ReadyToPublish(w: World, state: Journal) {
    && Sited(w) && w.journal == Some(state) && (state.phase.Tagging? || !Local(state.phase))
    && state.releaseHead == (if Head(w) == state.plan.source then None else Some(Head(w)))
    && (Head(w) == state.plan.source || IsRelease(w, Head(w), state.plan))
    && (forall t | t in state.plan.tags :: t in w.tags && w.tags[t].target == Head(w))
  }

  /** HEAD, tags and commits stay, and remote effects are only added. */
  ghost predicate Onward(before: World, now: World) {
    && Sited(before) && Sited(now) && now.heads == before.heads && now.ref == before.ref
    && now.tags == before.tags && now.commits == before.commits && before.remote <= now.remote
  }

  function Announcements(tags: seq<Tag>): seq<Effect> {
    seq(|tags|, i requires 0 <= i < |tags| => Announced(tags[i]))
  }

  /** What is asked for: one push of the branch with all tags, then every tag's announcement in order. */
  function Asked(head: Sha, tags: seq<Tag>, push: bool, publish: bool): seq<Effect> {
    (if push then [Pushed(head, tags)] else []) + (if publish then Announcements(tags) else [])
  }

  /** These and no other remote effects came about since, in this order. */
  ghost predicate Added(before: World, now: World, effects: seq<Effect>) {
    now.remote == before.remote + effects
  }

  /** Of these effects a first part, perhaps none or all, came about since, and nothing else. */
  ghost predicate AddedSome(before: World, now: World, effects: seq<Effect>) {
    before.remote <= now.remote && now.remote[|before.remote|..] <= effects
  }

  lemma AddedChain(a: World, b: World, c: World, first: seq<Effect>, second: seq<Effect>)
    requires Added(a, b, first)
    ensures Added(b, c, second) ==> Added(a, c, first + second)
    ensures AddedSome(b, c, second) ==> AddedSome(a, c, first + second)
  {
    if AddedSome(b, c, second) {
      assert c.remote[|a.remote|..] == first + c.remote[|b.remote|..];
    }
  }

  lemma AddedIsSome(a: World, b: World, effects: seq<Effect>, more: seq<Effect>)
    ensures Added(a, b, effects) ==> AddedSome(a, b, effects + more)
    ensures AddedSome(a, b, effects) ==> AddedSome(a, b, effects + more)
  {
  }

  lemma NothingAdded(w: World, effects: seq<Effect>)
    ensures Added(w, w, []) && AddedSome(w, w, effects)
  {
  }

  lemma SameRemote(a: World, b: World, c: World, effects: seq<Effect>)
    requires b.remote == c.remote
    ensures Added(a, b, effects) ==> Added(a, c, effects)
    ensures AddedSome(a, b, effects) ==> AddedSome(a, c, effects)
  {
  }

  /** Nothing that was not asked for was pushed or announced since. */
  ghost predicate NothingUnasked(before: World, now: World, plan: Plan, push: bool, publish: bool) {
    && before.remote <= now.remote
    && forall e: Effect | e in now.remote[|before.remote|..] ::
         match e
         case Pushed(_, tags) => push && tags == plan.tags
         case Announced(tag) => publish && tag in plan.tags
  }

  lemma SomeAsIsAsked(before: World, now: World, head: Sha, plan: Plan, push: bool, publish: bool)
    requires AddedSome(before, now, Asked(head, plan.tags, push, publish))
    ensures NothingUnasked(before, now, plan, push, publish)
  {
    var newer, asked := now.remote[|before.remote|..], Asked(head, plan.tags, push, publish);
    forall e: Effect | e in newer ensures e in asked {
      var i :| 0 <= i < |newer| && newer[i] == e;
      assert asked[i] == e;
    }
  }

  lemma NothingUnaskedYet(w: World, plan: Plan, push: bool, publish: bool)
    ensures forall now: World | now.remote == w.remote :: NothingUnasked(w, now, plan, push, publish)
  {
  }

  lemma UnaskedSince(start: World, ready: World, now: World, plan: Plan, push: bool, publish: bool)
    requires start.remote == ready.remote
    ensures NothingUnasked(ready, now, plan, push, publish) ==> NothingUnasked(start, now, plan, push, publish)
  {
  }

  lemma UnaskedStill(start: World, now: World, after: World, plan: Plan, push: bool, publish: bool)
    requires NothingUnasked(start, now, plan, push, publish) && after.remote == now.remote
    ensures NothingUnasked(start, after, plan, push, publish)
  {
  }

  lemma OnwardChain()
    ensures forall w | Sited(w) :: Onward(w, w)
    ensures forall a, b, c | Onward(a, b) && Onward(b, c) :: Onward(a, c) && Head(c) == Head(a)
  {
  }

  /** HEAD holds every file of the working tree that is not ignored, as it is there, and of ignored files
      at most some; it holds no file that is gone. */
  ghost predicate Committed(w: World)
    requires Sited(w)
  {
    var tree := TreeOf(w, Head(w));
    && (forall p | p in w.files && p !in w.ignored :: p in tree)
    && (forall p | p in tree :: p in w.files && tree[p] == w.files[p])
  }

  lemma CommitHolds(w: World, sha: Sha)
    requires Sited(w) && w.journal.Some?
    requires (forall p | p in w.files && p !in w.ignored :: p in w.index)
    requires forall p | p in w.index :: p in w.files && w.index[p] == w.files[p]
    ensures Committed(Next(w, MakeCommit(sha)))
  {
  }

  /** HEAD and working tree are the same. */
  ghost predicate SameCheckout(w: World, w': World) {
    && w'.ref == w.ref && w'.heads == w.heads && w'.commits == w.commits && w'.files == w.files
    && w'.ignored == w.ignored
  }

  lemma NewTagsStay(w: World, plan: Plan)
    ensures forall w': World :: w'.tags == w.tags && NewTags(w, plan) ==> NewTags(w', plan)
  {
  }

  lemma CommittedStays(w: World, w': World)
    requires Sited(w) && Committed(w) && SameCheckout(w, w')
    ensures Committed(w')
  {
  }

  lemma MayLeave(w: World, state: Journal, phase: Phase)
    requires Ahead(w, state) && w.journal == Some(state) && !Local(phase)
    requires state.releaseHead == if Head(w) == state.plan.source then None else Some(Head(w))
    ensures MayAdvance(w, state, phase, state.releaseHead)
  {
  }

  lemma MayStillAdvance(w: World, w': World, state: Journal, phase: Phase)
    requires Sited(w) && Sited(w') && Head(w') == Head(w) && MayAdvance(w, state, phase, state.releaseHead)
    ensures MayAdvance(w', state, phase, state.releaseHead)
  {
  }

  lemma MayTag(w: World, state: Journal)
    requires Ahead(w, state) && w.journal.Some? && w.journal.value.phase.Committing?
    requires w.journal.value.releaseHead == None
    requires state.releaseHead == if Head(w) == state.plan.source then None else Some(Head(w))
    ensures MayAdvance(w, w.journal.value, Tagging, state.releaseHead)
  {
  }

  lemma SameIsAhead(w: World, state: Journal)
    requires Ahead(w, state) && w.journal == Some(state) && state.phase.Prepared? && Head(w) == state.plan.source
    ensures MayAdvance(w, state, Mutating, state.releaseHead)
    ensures MayAdvance(w, state.(phase := Mutating), Committing, state.releaseHead)
  {
  }

  lemma TaggedIsReady(w: World, state: Journal, ok: bool)
    requires Ahead(w, state) && w.journal == Some(state) && state.phase.Tagging?
    requires state.releaseHead == if Head(w) == state.plan.source then None else Some(Head(w))
    requires ok ==> forall t | t in state.plan.tags :: t in w.tags && w.tags[t].target == Head(w)
    ensures ok ==> ReadyToPublish(w, state)
  {
  }

  lemma SentAhead(w: World, state: Journal, effect: Effect)
    requires Ahead(w, state) && w.journal == Some(state) && state.phase.External?
    ensures Allowed(w, Publish(effect)) && Ahead(Next(w, Publish(effect)), state)
  {
    var after := Next(w, Publish(effect));
    assert forall t :: TagKept(after, state, t) == TagKept(w, state, t);
    assert TagsKept(after, state) == TagsKept(w, state);
    hide TagsKept, TagKept;
  }

  /** HEAD is the plan's release commit and no planned tag contradicts it. */
  predicate IsResumable(w: World, plan: Plan)
    requires Sited(w)
  {
    && plan.tags != [] && IsRelease(w, Head(w), plan)
    && (forall t | t in plan.tags && t in w.tags :: w.tags[t].target == Head(w))
  }

  predicate DistinctTags(plan: Plan) {
    forall i, j | 0 <= i < j < |plan.tags| :: plan.tags[i] != plan.tags[j]
  }

  predicate NoneTagged(w: World, plan: Plan) {
    forall t | t in plan.tags :: t !in w.tags
  }

  predicate NewTags(w: World, plan: Plan) {
    DistinctTags(plan) && NoneTagged(w, plan)
  }

  /** A plan can be started afresh on its source, or resumed on its release commit. */
  predicate Startable(w: World, plan: Plan) {
    Sited(w) && DistinctTags(plan) && (IsResumable(w, plan) || (Head(w) == plan.source && NoneTagged(w, plan)))
  }

  /** An earlier transaction is in the way unless it can be rolled back, or its release commit is there. */
  ghost predicate CanSettle(w: World) {
    Sited(w) && (w.journal.Some? ==>
                   var j := w.journal.value;
                   if Local(j.phase) then CanRollBack(w, j) else Head(w) != j.plan.source)
  }

  ghost function SettledWorld(w: World): World {
    if Sited(w) && w.journal.Some? && Local(w.journal.value.phase) then RolledBack(w, w.journal.value) else w
  }

  /** An external journal's own plan; else the derived plan; else the plan made for what is there. */
  function SettledPlan(w: World, planned: Plan, replanned: Plan, derived: Option<Plan>): Plan {
    if w.journal.Some? && !Local(w.journal.value.phase) then w.journal.value.plan
    else if derived.Some? then derived.value
    else if w.journal.Some? then replanned else planned
  }

  lemma RolledBackRemote(w: World, j: Journal)
    requires Sited(w)
    ensures RolledBack(w, j).remote == w.remote
  {
    hide Created;
  }

  /** No transaction of its own was begun: an earlier one is in the way, or nothing but the journal of
      the new one was written. */
  ghost predicate Unbegun(before: World, now: World) {
    || now.journal == before.journal
    || now == SettledWorld(before)
    || (Sited(SettledWorld(before)) && now == SettledWorld(before).(journal := now.journal, reached := false,
                                                                    origin := OriginOf(SettledWorld(before))))
  }

  /** What is left of a transaction that was given up: all of it, once something may have left the
      machine; else it is rolled back, if it could be and no further fault came in between. */
  ghost predicate GaveUp(at: World, now: World, phase: Phase, clean: bool) {
    && at.journal.Some?
    && (!Local(phase) ==> now == at)
    && (Local(phase) && clean && CanRollBack(at, at.journal.value) ==> now == RolledBack(at, at.journal.value))
  }

  lemma AheadOfJournal(w: World, state: Journal)
    requires Ahead(w, state)
    ensures w.journal.Some?
  {
  }

  lemma SettledRemote(w: World)
    ensures SettledWorld(w).remote == w.remote
  {
    hide Created;
  }

  /** The release is out: every planned tag marks HEAD, which is the release commit unless there
      was nothing to commit, and what was asked for, and nothing else, was pushed and announced. */
  ghost predicate Released(before: World, now: World, plan: Plan, push: bool, publish: bool) {
    && Sited(now) && (Head(now) == plan.source || IsRelease(now, Head(now), plan))
    && (forall t | t in plan.tags :: t in now.tags && now.tags[t].target == Head(now))
    && Added(before, now, Asked(Head(now), plan.tags, push, publish))
  }

  lemma ReleasedFrom(start: World, ready: World, now: World, plan: Plan, push: bool, publish: bool)
    requires Onward(ready, now) && start.remote == ready.remote
    requires Head(ready) == plan.source || IsRelease(ready, Head(ready), plan)
    requires forall t | t in plan.tags :: t in ready.tags && ready.tags[t].target == Head(ready)
    requires Added(ready, now, Asked(Head(now), plan.tags, push, publish))
    ensures Released(start, now, plan, push, publish)
  {
  }

  lemma SinceRemote(start: World, start': World)
    requires start.remote == start'.remote
    ensures forall now, plan, push, publish ::
      Released(start', now, plan, push, publish) ==> Released(start, now, plan, push, publish)
    ensures forall now, plan, push, publish ::
      NothingUnasked(start', now, plan, push, publish) ==> NothingUnasked(start, now, plan, push, publish)
  {
  }

  lemma LoadedIsAhead(w: World, j: Journal)
    requires Safe(w) && w.journal == Some(j)
    ensures Ahead(w, j)
  {
    hide JournalTrue, TagsFine;
  }

  lemma ReadyFacts(w: World, state: Journal)
    requires ReadyToPublish(w, state)
    ensures Sited(w) && (Head(w) == state.plan.source || IsRelease(w, Head(w), state.plan))
    ensures forall t | t in state.plan.tags :: t in w.tags && w.tags[t].target == Head(w)
  {
  }

  lemma ResumedIsReady(w: World, state: Journal, ok: bool)
    requires w.journal == Some(state) && Resuming(w, state)
    requires ok ==> forall t | t in state.plan.tags :: t in w.tags && w.tags[t].target == Head(w)
    ensures ok ==> ReadyToPublish(w, state)
  {
  }

  lemma PreparedOrigin(w: World, state: Journal)
    requires Safe(w) && w.journal == Some(state) && state.phase.Prepared?
    ensures Head(w) == w.origin.head
  {
  }

  lemma MayForget(w0: World, files: World, w: World, j: Journal)
    requires FilesUndone(w0, files, j) && Safe(w) && Ahead(w, j) && Local(j.phase)
    requires w == files.(heads := files.heads[w.ref := j.plan.source], index := j.index)
    ensures Allowed(w, Forget)
  {
    hide Created, Changed, Untracked;
    assert forall t | t in j.tags :: TagKept(files, j, t);
    assert forall p | p in j.files :: Look(w.files, p) == j.files[p];
    assert Restored(w, w.journal.value);
  }

  /** What rollback looks at for removal: untracked paths and those the release commit changed. */
  function Candidates(w: World, j: Journal): set<Path>
    requires Sited(w)
  {
    Untracked(w) + if Head(w) == j.plan.source then {} else Changed(w, j.plan.source, Head(w))
  }

  lemma CreatedAreCandidates(w: World, j: Journal)
    requires Sited(w)
    ensures Created(w, j) == set p | p in Candidates(w, j) && p in w.files && p !in j.files && p !in j.untracked
  {
    hide Untracked, Changed;
  }

  /** The rest of the candidates still covers every file to remove, and only those. */
  ghost predicate StillToRemove(w: World, j: Journal, rest: set<Path>) {
    && Sited(w) && Created(w, j) <= rest
    && (forall p | p in rest && p in w.files && p !in j.files && p !in j.untracked :: p in Created(w, j))
  }

  lemma StillToRemoveLess(before: World, now: World, j: Journal, rest: set<Path>, p: Path)
    requires StillToRemove(before, j, rest) && Sited(now) && Created(now, j) == Created(before, j) - {p}
    requires FilesWithout(before, now, Created(before, j) * {p})
    ensures StillToRemove(now, j, rest - {p})
  {
    hide Created;
  }

  ghost predicate FilesWithout(before: World, now: World, removed: set<Path>) {
    now == before.(files := before.files - removed)
  }

  lemma FilesWithoutMore(start: World, before: World, now: World, a: set<Path>, b: set<Path>)
    requires FilesWithout(start, before, a)
    requires FilesWithout(before, now, b - a) && a <= b
    ensures FilesWithout(start, now, b)
  {
    assert start.files - a - (b - a) == start.files - b;
  }

  /** Of what was created since the snapshot, all but the rest is gone, and nothing else is. */
  ghost predicate Removed(start: World, now: World, j: Journal, rest: set<Path>) {
    Sited(start) && rest <= Created(start, j) && FilesWithout(start, now, Created(start, j) - rest)
  }

  lemma NothingRemoved(w: World, j: Journal, log: seq<Event>)
    requires Sited(w)
    ensures Removed(w, w, j, Created(w, j)) && StillToRemove(w, j, Candidates(w, j)) && Undone(log, log)
  {
    CreatedAreCandidates(w, j);
    hide Created, Candidates;
  }

  lemma NoneLeft(w: World, j: Journal)
    requires StillToRemove(w, j, {})
    ensures Created(w, j) == {}
  {
    hide Created;
  }

  lemma RemovedMore(start: World, before: World, now: World, j: Journal, p: Path)
    requires Sited(before) && Sited(now) && Removed(start, before, j, Created(before, j))
    requires Created(now, j) == Created(before, j) - {p} && FilesWithout(before, now, Created(before, j) * {p})
    ensures Removed(start, now, j, Created(now, j))
  {
    hide Created;
    var a, b := Created(start, j) - Created(before, j), Created(start, j) - Created(now, j);
    assert b - a == Created(before, j) * {p};
    FilesWithoutMore(start, before, now, a, b);
  }

  lemma CreatedWithout(w: World, w': World, j: Journal, removed: set<Path>)
    requires Sited(w) && w' == w.(files := w.files - removed)
    ensures Created(w', j) == Created(w, j) - removed
  {
    assert Untracked(w') == Untracked(w) - removed;
    assert forall a, b :: Changed(w', a, b) == Changed(w, a, b);
    hide Untracked, Changed;
    assert Created(w', j) == Created(w, j) - removed;
  }

  lemma AllTagsRestored(before: World, now: World, j: Journal)
    requires Sited(before) && TagsRestored(before, now, j, j.tags.Keys)
    ensures TagsKept(now, j) && now == before.(tags := RolledBack(before, j).tags)
    ensures Head(before) != j.plan.source || TagsKept(before, j)
  {
    assert Head(now) == j.plan.source ==> forall t :: TagKept(before, j, t) == TagKept(now, j, t);
  }

  ghost predicate TagsCleared(before: World, now: World, j: Journal, rest: set<Tag>) {
    TagsRestored(before, now, j, j.tags.Keys - rest)
  }

  lemma NoTagsCleared(w: World, j: Journal)
    requires Sited(w)
    ensures TagsCleared(w, w, j, j.tags.Keys)
  {
  }

  lemma AllTagsCleared(before: World, now: World, j: Journal)
    requires Sited(before) && TagsCleared(before, now, j, {})
    ensures TagsKept(now, j) && now == before.(tags := RolledBack(before, j).tags)
    ensures Head(before) != j.plan.source || TagsKept(before, j)
  {
    assert j.tags.Keys - {} == j.tags.Keys;
    hide RolledBack, TagsRestored, TagsKept;
    AllTagsRestored(before, now, j);
  }

  lemma TagLost(start: World, now: World, j: Journal, done: set<Tag>, tag: Tag)
    requires TagsRestored(start, now, j, done) && tag in j.tags
    requires Head(now) == j.plan.source && !TagKept(now, j, tag)
    ensures Sited(start) && Head(start) == j.plan.source && !TagsKept(start, j)
  {
    assert TagKept(start, j, tag) == TagKept(now, j, tag);
  }

  lemma TagsRestoredStep(before: World, now: World, next: World, j: Journal, done: set<Tag>, tag: Tag)
    requires TagsRestored(before, now, j, done) && next == now.(tags := next.tags) && tag in j.tags
    requires next == now || (Head(now) != j.plan.source && next.tags == now.tags - {tag})
    requires TagKept(next, j, tag) && (TagKept(now, j, tag) ==> next == now)
    ensures TagsRestored(before, next, j, done + {tag})
  {
    assert forall t | t in j.tags && t != tag :: TagKept(next, j, t) == TagKept(now, j, t);
  }

  /** Whatever the log gained undoes the transaction. */
  ghost predicate Undone(before: seq<Event>, after: seq<Event>) {
    before <= after && forall i | |before| <= i < |after| :: Undoes(after[i])
  }

  lemma {:induction false} UndoneKeepsRemote(start: World, before: seq<Event>, after: seq<Event>)
    requires Undone(before, after)
    ensures Run(start, after).remote == Run(start, before).remote
    ensures Run(start, after).journal == Run(start, before).journal
    decreases |after|
  {
    hide Run, Undoes;
    if |before| < |after| {
      var front, e := after[..|after| - 1], after[|after| - 1];
      assert after == front + [e] && Undone(before, front) && Undoes(e);
      hide Undone;
      UndoneKeepsRemote(start, before, front);
      UndoKeepsRemote(start, front, e);
    } else {
      assert before == after;
    }
  }

  lemma UndoKeepsRemote(start: World, log: seq<Event>, e: Event)
    requires Undoes(e)
    ensures Run(start, log + [e]).remote == Run(start, log).remote
    ensures Run(start, log + [e]).journal == Run(start, log).journal
  {
    assert (log + [e])[..|log|] == log;
    var w := Run(start, log);
    assert Doable(w, e) ==> Next(w, e).remote == w.remote && Next(w, e).journal == w.journal;
  }

  lemma UndoneSame(log: seq<Event>)
    ensures Undone(log, log)
  {
  }

  lemma UndoneOne(log: seq<Event>, e: Event)
    requires Undoes(e)
    ensures forall before | Undone(before, log) :: Undone(before, log + [e])
    ensures Undone(log, log + [e])
  {
  }

  lemma UndoneAfter(a: seq<Event>, b: seq<Event>, c: seq<Event>)
    requires Undone(a, b) && Undone(b, c)
    ensures Undone(a, c)
  {
  }

  lemma UndoneChain()
    ensures forall a, b, c | Undone(a, b) && Undone(b, c) :: Undone(a, c)
  {
  }

  class Transaction {
    var world: World
    var state: Journal
    ghost var start: World
    ghost var log: seq<Event>
    ghost var faulty: bool

    ghost predicate Sound()
      reads this`world, this`start, this`log
    {
      Sited(world) && Safe(world) && Safe(start) && Disciplined(start, log) && world == Run(start, log)
    }

    constructor (repository: World, unloaded: Journal)
      requires Safe(repository)
      ensures Sound() && world == start == repository && log == [] && !faulty
    {
      world, start, state := repository, repository, unloaded;
      log, faulty := [], false;
    }

    method Do(e: Event)
      requires Sound() && Allowed(world, e)
      modifies this`world, this`log
      ensures Sound() && world == Next(old(world), e) && log == old(log) + [e]
    {
      AllowedKeepsSafe(world, e);
      RunOne(start, log, e);
      world := Next(world, e);
      log := log + [e];
    }

    /** Whether the environment makes the next operation fail. */
    method Fails() returns (failed: bool)
      modifies this`faulty
      ensures faulty == (old(faulty) || failed)
      ensures old(RollingBack()) ==> RollingBack()
      ensures old(Clearing()) ==> Clearing()
    {
      failed := *;
      faulty := faulty || failed;
    }

    /** Recognises the release commit: HEAD is the source, or its exact release commit, whose
        identity is remembered. */
    method ReleaseHead() returns (ok: bool)
      requires Sound() && Ahead(world, state)
      modifies this`state, this`faulty
      ensures Ahead(world, state) && (!faulty ==> ok) && (old(faulty) ==> faulty)
      ensures state == old(state).(releaseHead := state.releaseHead)
      ensures ok ==>
        state.releaseHead == if Head(world) == state.plan.source then old(state.releaseHead) else Some(Head(world))
      ensures !ok ==> state == old(state)
    {
      hide Run, Disciplined;
      var failed := Fails();
      if failed {
        return false;
      }
      var head := Head(world);
      if head == state.plan.source {
        return true;
      }
      var commit := world.commits[head];
      if commit.parent != state.plan.source || !SaysRelease(commit.message, state.plan) {
        return false;
      }
      if state.releaseHead.Some? && state.releaseHead.value != head {
        return false;
      }
      state := state.(releaseHead := Some(head));
      return true;
    }

    ghost predicate RollingBack()
      reads this
    {
      Sited(world) && Sound() && Ahead(world, state) && Local(state.phase)
    }

    /** HEAD is the source or the remembered release commit. */
    ghost predicate Recognised()
      reads this
    {
      RollingBack() && (Head(world) != state.plan.source ==> state.releaseHead == Some(Head(world)))
    }

    /** Tags and created files are dealt with; the snapshotted files come next. */
    ghost predicate Clearing()
      reads this
    {
      RollingBack() && TagsKept(world, state) && Created(world, state) == {}
    }

    /** Deletes the tags this release made, by compare-and-swap, and refuses any other drift. */
    method RestoreTags() returns (ok: bool)
      requires Recognised()
      modifies this`world, this`log, this`faulty
      ensures RollingBack() && Undone(old(log), log) && (old(faulty) ==> faulty)
      ensures ok ==> TagsKept(world, state)
      ensures ok ==> world == old(world).(tags := RolledBack(old(world), state).tags)
      ensures ok ==> Head(old(world)) != state.plan.source || TagsKept(old(world), state)
      ensures !faulty ==> (ok <==> Head(old(world)) != state.plan.source || TagsKept(old(world), state))
    {
      UndoneSame(log);
      NoTagsCleared(world, state);
      hide Run, Disciplined, Created, Undone, Safe, Ahead, TagKept, TagsKept, TagsCleared;
      hide Sound, RolledBack, Recognised;
      var rest := state.tags.Keys;
      while rest != {}
        invariant rest <= state.tags.Keys && (old(faulty) ==> faulty)
        invariant Recognised() && Undone(old(log), log) && TagsCleared(old(world), world, state, rest)
        decreases |rest|
      {
        var tag :| tag in rest;
        ok := RestoreNextTag(old(world), old(log), rest, tag);
        if !ok {
          return false;
        }
        rest := rest - {tag};
      }
      AllTagsCleared(old(world), world, state);
      return true;
    }

    method RestoreNextTag(ghost start: World, ghost begun: seq<Event>, ghost rest: set<Tag>, tag: Tag)
      returns (ok: bool)
      requires Recognised() && Undone(begun, log) && TagsCleared(start, world, state, rest) && tag in rest
      requires tag in state.tags
      modifies this`world, this`log, this`faulty
      ensures Recognised() && Undone(begun, log) && (old(faulty) ==> faulty)
      ensures ok ==> TagsCleared(start, world, state, rest - {tag})
      ensures !faulty && !ok ==> Sited(start) && Head(start) == state.plan.source && !TagsKept(start, state)
    {
      hide Run, Disciplined, Created, Undone, Safe, Ahead, TagKept, Sound;
      ok := RestoreTag(tag);
      UndoneAfter(begun, old(log), log);
      if ok {
        TagsRestoredStep(start, old(world), world, state, state.tags.Keys - rest, tag);
        assert state.tags.Keys - rest + {tag} == state.tags.Keys - (rest - {tag});
      } else if !faulty {
        TagLost(start, world, state, state.tags.Keys - rest, tag);
      }
    }

    method RestoreTag(tag: Tag) returns (ok: bool)
      requires Recognised() && tag in state.tags
      modifies this`world, this`log, this`faulty
      ensures Recognised() && Undone(old(log), log) && (old(faulty) ==> faulty)
      ensures world == old(world).(tags := world.tags)
      ensures world == old(world) || (ok && Head(world) != state.plan.source && world.tags == old(world).tags - {tag})
      ensures ok ==> TagKept(world, state, tag) && (TagKept(old(world), state, tag) ==> world == old(world))
      ensures !faulty && !ok ==> Head(world) == state.plan.source && !TagKept(old(world), state, tag)
    {
      UndoneSame(log);
      hide Run, Disciplined, Created, Undone;
      var original := state.tags[tag];
      var failed := Fails();
      if failed {
        return false;
      }
      assert TagFine(world, world.journal.value, tag);
      if tag !in world.tags {
        return original == None;
      }
      if original.Some? && world.tags[tag].raw == original.value.raw {
        return true;
      }
      if original.Some? || world.tags[tag].target != Head(world) || state.releaseHead == None {
        return false;
      }
      DeleteOne(tag);
      return true;
    }

    method DeleteOne(tag: Tag)
      requires RollingBack() && tag in state.tags && state.tags[tag] == None && tag in world.tags
      requires Head(world) != state.plan.source
      modifies this`world, this`log
      ensures RollingBack() && Undone(old(log), log)
      ensures world == old(world).(tags := old(world).tags - {tag})
    {
      hide Run, Disciplined, Created, Safe;
      UndoneOne(log, DeleteTag(tag));
      Do(DeleteTag(tag));
    }

    /** Removes the files created since the snapshot: untracked ones and the release commit's. */
    method RemoveCreatedFiles() returns (ok: bool)
      requires RollingBack() && TagsKept(world, state)
      modifies this`world, this`log, this`faulty
      ensures RollingBack() && Undone(old(log), log) && (old(faulty) ==> faulty) && (!faulty ==> ok)
      ensures TagsKept(world, state)
      ensures Removed(old(world), world, state, Created(world, state))
      ensures ok ==> Created(world, state) == {}
    {
      NothingRemoved(world, state, log);
      hide Run, Disciplined, Undone, Safe, Ahead, TagsKept, Created, Candidates, StillToRemove, Removed, Sound;
      var rest := Candidates(world, state);
      while rest != {}
        invariant RollingBack() && TagsKept(world, state) && Undone(old(log), log) && (old(faulty) ==> faulty)
        invariant StillToRemove(world, state, rest) && Removed(old(world), world, state, Created(world, state))
        decreases |rest|
      {
        var p :| p in rest;
        ok := RemoveNext(old(world), old(log), rest, p);
        if !ok {
          return false;
        }
        rest := rest - {p};
      }
      NoneLeft(world, state);
      return true;
    }

    method RemoveNext(ghost start: World, ghost begun: seq<Event>, ghost rest: set<Path>, p: Path) returns (ok: bool)
      requires RollingBack() && TagsKept(world, state) && Undone(begun, log) && p in rest
      requires StillToRemove(world, state, rest) && Removed(start, world, state, Created(world, state))
      modifies this`world, this`log, this`faulty
      ensures RollingBack() && TagsKept(world, state) && Undone(begun, log) && (old(faulty) ==> faulty)
      ensures !faulty ==> ok
      ensures Removed(start, world, state, Created(world, state))
      ensures ok ==> StillToRemove(world, state, rest - {p})
    {
      hide Run, Disciplined, Undone, Safe, Ahead, TagsKept, Created, FilesWithout, Removed, Sound;
      ok := RemoveCandidate(p);
      UndoneAfter(begun, old(log), log);
      if ok {
        StillToRemoveLess(old(world), world, state, rest, p);
        RemovedMore(start, old(world), world, state, p);
      }
    }

    method RemoveCandidate(p: Path) returns (ok: bool)
      requires RollingBack() && TagsKept(world, state)
      requires p in world.files && p !in state.files && p !in state.untracked ==> p in Created(world, state)
      modifies this`world, this`log, this`faulty
      ensures RollingBack() && TagsKept(world, state) && Undone(old(log), log) && (old(faulty) ==> faulty)
      ensures !faulty ==> ok
      ensures !ok ==> world == old(world)
      ensures ok ==> Created(world, state) == Created(old(world), state) - {p}
      ensures ok ==> FilesWithout(old(world), world, Created(old(world), state) * {p})
    {
      UndoneSame(log);
      CreatedWithout(world, world.(files := world.files - {p}), state, {p});
      hide Run, Disciplined, Undone, Safe, Ahead, TagsKept, Candidates;
      if p in state.files || p in state.untracked || p !in world.files {
        return true;
      }
      hide Created;
      var failed := Fails();
      if failed {
        return false;
      }
      RemoveOne(p);
      return true;
    }

    method RemoveOne(p: Path)
      requires RollingBack() && TagsKept(world, state) && p in Created(world, state)
      modifies this`world, this`log
      ensures RollingBack() && Undone(old(log), log) && TagsKept(world, state)
      ensures world == old(world).(files := old(world).files - {p})
    {
      AheadCreated(world, state);
      hide Run, Disciplined, Created, Safe;
      UndoneOne(log, RemoveCreated(p));
      Do(RemoveCreated(p));
    }

    /** Brings every snapshotted path back to its recorded contents or absence. */
    method RestoreFiles() returns (ok: bool)
      requires Clearing()
      modifies this`world, this`log, this`faulty
      ensures Clearing() && Undone(old(log), log) && (old(faulty) ==> faulty)
      ensures ok ==> FilesRestored(old(world), world, state, state.files.Keys) && !Obstructed(old(world), state)
      ensures !faulty ==> (ok <==> !Obstructed(old(world), state))
    {
      NothingCleared(world, state, log);
      hide Run, Disciplined, Undone, Safe, Ahead, TagsKept, Created, Sound, Obstructed, Clearing, Cleared;
      var rest := state.files.Keys;
      while rest != {}
        invariant rest <= state.files.Keys && (old(faulty) ==> faulty)
        invariant Clearing() && Undone(old(log), log) && Cleared(old(world), world, state, rest)
        decreases |rest|
      {
        var p :| p in rest;
        ok := RestoreNext(old(world), old(log), rest, p);
        if !ok {
          return false;
        }
        rest := rest - {p};
      }
      AllCleared(old(world), world, state);
      return true;
    }

    method RestoreNext(ghost start: World, ghost begun: seq<Event>, ghost rest: set<Path>, p: Path) returns (ok: bool)
      requires Clearing() && Undone(begun, log) && Cleared(start, world, state, rest) && p in rest && p in state.files
      modifies this`world, this`log, this`faulty
      ensures Clearing() && Undone(begun, log) && (old(faulty) ==> faulty)
      ensures ok ==> Cleared(start, world, state, rest - {p})
      ensures !faulty && !ok ==> Obstructed(start, state)
    {
      hide Run, Disciplined, Undone, Safe, Ahead, TagsKept, Created, Sound, Obstructed, Clearing;
      hide FilesRestored, Blocked;
      ok := RestorePath(p);
      UndoneAfter(begun, old(log), log);
      ClearedMore(start, old(world), world, state, rest, p, ok);
    }

    method RestorePath(p: Path) returns (ok: bool)
      requires Clearing() && p in state.files
      modifies this`world, this`log, this`faulty
      ensures Clearing() && Undone(old(log), log) && (old(faulty) ==> faulty)
      ensures ok ==> FilesRestored(old(world), world, state, {p}) && !Blocked(old(world), state, p)
      ensures !faulty ==> (ok <==> !Blocked(old(world), state, p))
      ensures state.files[p].Some? && state.files[p].value.Regular? ==>
        log == old(log) || log == old(log) + [Restore(p)]
    {
      UndoneSame(log);
      UndoneChain();
      hide Run, Disciplined, Undone, Safe, Ahead, TagsKept, Created, Sound, RollingBack;
      var before := state.files[p];
      var failed := Fails();
      if failed || Blocked(world, state, p) {
        return false;
      }
      if before.Some? && before.value.Regular? {
        FileStep(p, Restore(p));
        return true;
      }
      FileStep(p, Unlink(p));
      if before.Some? {
        failed := Fails();
        if failed {
          return false;
        }
        FileStep(p, Restore(p));
      }
      return true;
    }

    method FileStep(p: Path, e: Event)
      requires Clearing() && p in state.files
      requires e == Restore(p) || e == Unlink(p)
      modifies this`world, this`log
      ensures Clearing() && Undone(old(log), log) && log == old(log) + [e]
      ensures world == old(world).(files := Put(old(world).files, p, if e.Restore? then state.files[p] else None))
    {
      FileMayBePut(world, state, p, e);
      UndoneOne(log, e);
      hide Run, Disciplined, Safe, Allowed, Ahead, TagsKept, Created, Undone;
      Do(e);
    }

    /** Undoes everything in the order that lets a second rollback finish an interrupted one: tags
        while HEAD still shows which commit they may mark, files, HEAD, index, and the journal. */
    method Rollback() returns (ok: bool)
      requires RollingBack()
      modifies this`world, this`state, this`log, this`faulty
      ensures Sound() && (old(faulty) ==> faulty)
      ensures ok ==> CanRollBack(old(world), old(world).journal.value)
      ensures ok ==> world == RolledBack(old(world), old(world).journal.value)
      ensures ok ==> log != [] && log[|log| - 1] == Forget && Undone(old(log), log[..|log| - 1])
      ensures !ok ==> RollingBack() && Undone(old(log), log)
      ensures !faulty ==> (ok <==> CanRollBack(old(world), old(world).journal.value))
      ensures world.remote == old(world).remote && (!ok ==> world.journal == old(world).journal)
      ensures state.phase == old(state).phase
    {
      ok := UndoTransaction();
      RolledBackRemote(old(world), old(world).journal.value);
      hide Undone, Run, Disciplined, RolledBack, CanRollBack, Created, Ahead, Safe;
      if !ok {
        UndoneKeepsRemote(start, old(log), log);
      }
    }

    method UndoTransaction() returns (ok: bool)
      requires RollingBack()
      modifies this`world, this`state, this`log, this`faulty
      ensures state.phase == old(state).phase
      ensures Sound() && (old(faulty) ==> faulty)
      ensures ok ==> CanRollBack(old(world), old(world).journal.value)
      ensures ok ==> world == RolledBack(old(world), old(world).journal.value)
      ensures ok ==> log != [] && log[|log| - 1] == Forget && Undone(old(log), log[..|log| - 1])
      ensures !ok ==> RollingBack() && Undone(old(log), log)
      ensures !faulty ==> (ok <==> CanRollBack(old(world), old(world).journal.value))
    {
      UndoneSame(log);
      UndoneChain();
      hide Run, Disciplined, Undone, TagsKept, Created, FilesUndone, Obstructed, RolledBack, CanRollBack, Sound, Ahead;
      hide Safe;
      ok := Recognise();
      if !ok {
        return false;
      }
      ghost var before := world;
      ok := UndoWorkingTree();
      if !ok {
        return false;
      }
      ok := UndoHeadAndIndex(before);
    }

    /** Refuses a changed branch or a HEAD that is neither the source nor the release commit. */
    method Recognise() returns (ok: bool)
      requires RollingBack()
      modifies this`state, this`faulty
      ensures RollingBack() && (old(faulty) ==> faulty) && (!faulty ==> ok)
      ensures state.phase == old(state).phase
      ensures ok ==> Recognised()
      ensures RolledBack(world, state) == RolledBack(world, world.journal.value)
      ensures CanRollBack(world, world.journal.value) <==>
        (Head(world) != state.plan.source || TagsKept(world, state)) && !Obstructed(world, state)
    {
      RollbackTold(world, state);
      hide Run, Disciplined, TagsKept, Created, Obstructed, RolledBack, CanRollBack;
      var failed := Fails();
      if failed || world.ref != state.ref {
        return false;
      }
      hide Safe;
      ok := ReleaseHead();
      RollbackTold(world, state);
    }

    method UndoWorkingTree() returns (ok: bool)
      requires Recognised()
      modifies this`world, this`log, this`faulty
      ensures Sited(world) && RollingBack() && Undone(old(log), log) && (old(faulty) ==> faulty)
      ensures ok ==> FilesUndone(old(world), world, state)
      ensures ok ==>
        (Head(old(world)) != state.plan.source || TagsKept(old(world), state)) && !Obstructed(old(world), state)
      ensures !faulty ==> (ok <==> (Head(old(world)) != state.plan.source || TagsKept(old(world), state))
                                   && !Obstructed(old(world), state))
    {
      UndoneSame(log);
      UndoneChain();
      hide Run, Disciplined, Undone, Safe, Ahead, TagsKept, Created, FilesRestored, Obstructed, RolledBack, Sound;
      hide FilesWithout;
      ok := RestoreTags();
      ghost var tagsDone := world;
      if !ok {
        return false;
      }
      ok := RemoveCreatedFiles();
      ghost var createdGone := world;
      if !ok {
        return false;
      }
      TreeUndone(old(world), tagsDone, createdGone, state);
      ok := RestoreFiles();
      if ok {
        TreeRestored(old(world), tagsDone, createdGone, world, state);
      }
    }

    method UndoHeadAndIndex(ghost before: World) returns (ok: bool)
      requires RollingBack() && FilesUndone(before, world, state)
      modifies this`world, this`log, this`faulty
      ensures Sound() && (old(faulty) ==> faulty) && (!faulty ==> ok)
      ensures ok ==> world == RolledBack(before, state)
      ensures ok ==> log != [] && log[|log| - 1] == Forget && Undone(old(log), log[..|log| - 1])
      ensures !ok ==> RollingBack() && Undone(old(log), log)
    {
      ghost var files := world;
      RefsUndone(before, world, state);
      hide Run, Disciplined, Undone, Safe, TagsKept, Created, RolledBack, FilesUndone, Sound, Ahead, Allowed;
      ok := UndoRefs();
      if !ok {
        return false;
      }
      MayForget(before, files, world, state);
      ForgetJournal();
    }

    method UndoRefs() returns (ok: bool)
      requires RollingBack() && TagsKept(world, state) && Created(world, state) == {}
      requires Head(world) == state.plan.source ==> world.heads[world.ref := state.plan.source] == world.heads
      modifies this`world, this`log, this`faulty
      ensures RollingBack() && Undone(old(log), log) && (old(faulty) ==> faulty) && (!faulty ==> ok)
      ensures ok ==>
        world == old(world).(heads := old(world).heads[world.ref := state.plan.source], index := state.index)
    {
      UndoneSame(log);
      hide Run, Disciplined, Undone, Safe, TagsKept, Created, Sound, Ahead, Allowed;
      var failed: bool;
      if Head(world) != state.plan.source {
        failed := Fails();
        if failed {
          return false;
        }
        RefStep(Rewind);
      }
      ghost var rewound := log;
      failed := Fails();
      if failed {
        return false;
      }
      RefStep(RestoreIndex);
      UndoneAfter(old(log), rewound, log);
      failed := Fails();
      return !failed;
    }

    method ForgetJournal()
      requires Sound() && Allowed(world, Forget)
      modifies this`world, this`log
      ensures Sound() && world == old(world).(journal := None)
      ensures log != [] && log[|log| - 1] == Forget && log[..|log| - 1] == old(log)
    {
      hide Run, Disciplined, Safe;
      Do(Forget);
    }

    method RefStep(e: Event)
      requires RollingBack() && TagsKept(world, state) && Created(world, state) == {}
      requires e == Rewind || (e == RestoreIndex && Head(world) == state.plan.source)
      modifies this`world, this`log
      ensures RollingBack() && Undone(old(log), log)
      ensures world == if e == Rewind then old(world).(heads := old(world).heads[world.ref := state.plan.source])
                       else old(world).(index := state.index)
      ensures e == Rewind ==> TagsKept(world, state) && Created(world, state) == {}
    {
      AheadCreated(world, state);
      UndoneOne(log, e);
      hide Run, Disciplined;
      Do(e);
    }

    /** What a start finds: a local transaction is rolled back, an external one is resumed on its
        recorded release commit or refused, and then nothing is touched. */
    method Recover() returns (outcome: Recovery)
      requires Sound() && world.journal == Some(state)
      modifies this`world, this`state, this`log, this`faulty
      ensures Sound() && (old(faulty) ==> faulty) && world.remote == old(world).remote
      ensures outcome.Refused? ==> world.journal == old(world).journal
      ensures Local(old(state).phase) ==>
        && !outcome.Resumed?
        && (outcome.WasRolledBack? ==> CanRollBack(old(world), old(state)))
        && (outcome.WasRolledBack? ==> world == RolledBack(old(world), old(state)))
        && (!faulty ==> (outcome.WasRolledBack? <==> CanRollBack(old(world), old(state))))
      ensures !Local(old(state).phase) ==>
        && !outcome.WasRolledBack? && world == old(world) && log == old(log)
        && (outcome.Resumed? ==> Resuming(world, state) && state == old(state))
        && (!faulty ==> (outcome.Resumed? <==> Head(world) != old(state).plan.source))
    {
      hide Run, Disciplined, RolledBack, CanRollBack, Created, TagsKept;
      var failed := Fails();
      if failed {
        return Refused;
      }
      if Local(state.phase) {
        var ok := Rollback();
        return if ok then WasRolledBack else Refused;
      }
      var ok := ReleaseHead();
      if !ok || state.releaseHead == None || Head(world) != state.releaseHead.value {
        return Refused;
      }
      return Resumed;
    }

    /** Keeps an external or published journal for a retry, and rolls a local one back. Says whether no
        further fault came in between. */
    method Abort() returns (ghost clean: bool)
      requires Sound() && Ahead(world, state)
      modifies this`world, this`state, this`log, this`faulty
      ensures Sound() && (old(faulty) ==> faulty) && world.remote == old(world).remote && (!faulty ==> clean)
      ensures state.phase == old(state).phase
      ensures !Local(old(state).phase) ==> world == old(world) && log == old(log)
      ensures Local(old(state).phase) ==>
        && (world == RolledBack(old(world), old(world).journal.value) || Undone(old(log), log))
        && (clean && CanRollBack(old(world), old(world).journal.value) ==>
              world == RolledBack(old(world), old(world).journal.value))
    {
      hide Run, Disciplined, RolledBack, CanRollBack, Created, Ahead, Undone;
      clean := true;
      if !Local(state.phase) {
        return;
      }
      ghost var earlier := faulty;
      faulty := false;
      var ok := Rollback();
      clean := !faulty;
      faulty := faulty || earlier;
    }

    /** Records a further phase; a failed save may or may not have reached the disk. */
    method AdvanceTo(phase: Phase) returns (ok: bool)
      requires Sound() && Ahead(world, state) && MayAdvance(world, world.journal.value, phase, state.releaseHead)
      modifies this`world, this`state, this`log, this`faulty
      ensures (old(faulty) ==> faulty) && (!faulty ==> ok)
      ensures Sound() && Ahead(world, state) && state == old(state).(phase := phase)
      ensures world == old(world).(journal := world.journal)
      ensures ok ==> world.journal == Some(state)
      ensures log == (if ok || log != old(log) then old(log) + [Advance(phase, old(state).releaseHead)] else old(log))
    {
      AdvanceAhead(world, state, phase);
      hide Run, Disciplined, TagsKept, HeadTold, Safe;
      state := state.(phase := phase);
      var failed := Fails();
      var written := *;
      if !failed || written {
        Do(Advance(phase, state.releaseHead));
      }
      return !failed;
    }

    /** Journals HEAD, index, tags and every tracked or managed path before anything is changed. A
        release commit found at HEAD is never rolled back, so its journal starts as external. */
    method TakeSnapshot(plan: Plan, managed: set<Path>) returns (ok: bool)
      requires Sound() && world.journal == None
      requires Head(world) == plan.source || IsRelease(world, Head(world), plan)
      modifies this`world, this`state, this`log, this`faulty
      ensures (old(faulty) ==> faulty) && (!faulty ==> ok)
      ensures Sound() && state.plan == plan && managed <= state.files.Keys && world.remote == old(world).remote
      ensures ok ==> Ahead(world, state) && Head(world) == old(Head(world)) && world.tags == old(world).tags
      ensures ok ==> world == old(world).(journal := Some(state), reached := false, origin := OriginOf(old(world)))
      ensures ok ==> if Head(world) == plan.source then state.phase.Prepared? && state.releaseHead == None
                     else Resuming(world, state)
      ensures !ok ==>
        || world == old(world)
        || world == old(world).(journal := Some(state), reached := false, origin := OriginOf(old(world)))
    {
      hide Run, Disciplined, Created, Changed, JournalFor, FreshJournal, Ahead, Safe, IsRelease, Resuming;
      state := JournalFor(world, plan, managed);
      JournalIsFresh(world, plan, managed);
      var failed := Fails();
      var written := *;
      if !failed || written {
        Do(Snapshot(state));
      }
      return !failed;
    }

    /** Hooks, version and changelog updates and output files: any changes to working tree and
        index, and perhaps a failure after some of them. */
    method Write() returns (ok: bool)
      requires Sound() && Ahead(world, state)
      modifies this`world, this`log, this`faulty
      ensures (old(faulty) ==> faulty) && (!faulty ==> ok)
      ensures Sound() && Ahead(world, state)
      ensures world == old(world).(files := world.files, index := world.index)
      ensures |log| == |old(log)| + 1 && log[..|old(log)|] == old(log) && log[|old(log)|].Hook?
    {
      hide Run, Disciplined, Safe, Created;
      var files: Tree := *;
      var index: Tree := *;
      WriteAhead(world, state, files, index);
      Do(Hook(files, index));
      var failed := Fails();
      return !failed;
    }

    /** Stages everything and commits it; with nothing to commit there is no release commit. */
    method CreateReleaseCommit() returns (ok: bool)
      requires Sound() && Ahead(world, state) && world.journal == Some(state) && state.phase.Committing?
      requires Head(world) == state.plan.source && state.releaseHead == None
      modifies this`world, this`log, this`faulty
      ensures (old(faulty) ==> faulty) && (!faulty ==> ok)
      ensures Sound() && Ahead(world, state) && world.journal == Some(state) && world.tags == old(world).tags
      ensures world.remote == old(world).remote
      ensures Head(world) == state.plan.source || IsRelease(world, Head(world), state.plan)
      ensures ok && Head(world) == state.plan.source ==> world.index == TreeOf(world, state.plan.source)
      ensures ok ==> Committed(world) && world.files == old(world).files
    {
      hide Run, Disciplined, Created, Untracked;
      var failed := Fails();
      if failed {
        return false;
      }
      StageAll();
      hide Committed, IsRelease;
      if world.index == TreeOf(world, Head(world)) {
        return true;
      }
      ok := CommitStaged();
    }

    method StageAll()
      requires Sound() && Ahead(world, state) && world.journal == Some(state)
      modifies this`world, this`log
      ensures Sound() && Ahead(world, state) && world == old(world).(index := world.index)
      ensures forall p | p in world.files && p !in world.ignored :: p in world.index
      ensures forall p | p in world.index :: p in world.files && world.index[p] == world.files[p]
      ensures world.index == TreeOf(world, Head(world)) ==> Committed(world)
    {
      hide Run, Disciplined, Created, Untracked, Safe;
      WriteAhead(world, state, world.files, Next(world, Stage).index);
      Do(Stage);
    }

    /** Commits the index as it is; a failure may come before the commit or after it. */
    method CommitStaged() returns (ok: bool)
      requires Sound() && Ahead(world, state) && world.journal == Some(state) && state.phase.Committing?
      requires Head(world) == state.plan.source && state.releaseHead == None
      requires forall p | p in world.files && p !in world.ignored :: p in world.index
      requires forall p | p in world.index :: p in world.files && world.index[p] == world.files[p]
      modifies this`world, this`log, this`faulty
      ensures (old(faulty) ==> faulty) && (!faulty ==> ok)
      ensures Sound() && Ahead(world, state) && world.journal == Some(state) && world.tags == old(world).tags
      ensures world.remote == old(world).remote && world.files == old(world).files
      ensures Head(world) == state.plan.source || IsRelease(world, Head(world), state.plan)
      ensures ok ==> Committed(world) && Head(world) != state.plan.source
    {
      hide Run, Disciplined, Created, Untracked, Safe, Ahead, Committed;
      var sha: Sha := *;
      var failed := Fails();
      if failed || sha in world.commits {
        faulty := true;
        return false;
      }
      CommitMayBe(world, state, sha);
      CommitHolds(world, sha);
      Do(MakeCommit(sha));
      var refused := Fails();
      return !refused;
    }

    /** Tags HEAD with every planned tag; only a resumed release may find some of them there. */
    method CreateTags(resumable: bool) returns (ok: bool)
      requires Sound() && Ahead(world, state) && world.journal == Some(state)
      requires state.phase.Tagging? || !Local(state.phase)
      requires state.releaseHead == if Head(world) == state.plan.source then None else Some(Head(world))
      requires resumable ==> forall t | t in state.plan.tags && t in world.tags :: world.tags[t].target == Head(world)
      requires !resumable ==> NewTags(world, state.plan)
      modifies this`world, this`log, this`faulty
      ensures (old(faulty) ==> faulty) && (!faulty ==> ok)
      ensures Sound() && Ahead(world, state) && world.journal == Some(state)
      ensures world == old(world).(tags := world.tags)
      ensures ok ==> forall t | t in state.plan.tags :: t in world.tags && world.tags[t].target == Head(world)
    {
      hide Run, Disciplined, Created, Safe, Ahead;
      var i := 0;
      while i < |state.plan.tags|
        invariant 0 <= i <= |state.plan.tags|
        invariant Sound() && Ahead(world, state) && world == old(world).(tags := world.tags)
        invariant forall k | 0 <= k < i :: state.plan.tags[k] in world.tags
        invariant forall k | 0 <= k < i :: world.tags[state.plan.tags[k]].target == Head(world)
        invariant resumable ==>
          forall t | t in state.plan.tags && t in world.tags :: world.tags[t].target == Head(world)
        invariant !resumable ==> forall k | i <= k < |state.plan.tags| :: state.plan.tags[k] !in world.tags
        invariant old(faulty) ==> faulty
      {
        var tag := state.plan.tags[i];
        var failed := Fails();
        if failed || (!resumable && tag in world.tags) {
          return false;
        }
        if tag !in world.tags {
          CreateTag(tag);
        }
        i := i + 1;
      }
      return true;
    }

    method CreateTag(tag: Tag)
      requires Sound() && Ahead(world, state) && world.journal == Some(state)
      requires state.phase.Tagging? || !Local(state.phase)
      requires state.releaseHead == if Head(world) == state.plan.source then None else Some(Head(world))
      requires tag in state.plan.tags && tag !in world.tags
      modifies this`world, this`log
      ensures Sound() && Ahead(world, state)
      ensures world == old(world).(tags := world.tags)
      ensures tag in world.tags && world.tags == old(world).tags[tag := world.tags[tag]]
      ensures world.tags[tag].target == Head(world)
    {
      hide Run, Disciplined, Created, Safe;
      var raw: Sha := *;
      Do(MakeTag(tag, raw));
    }

    /** From a fresh local journal to the tagged release commit. */
    method Prepare() returns (ok: bool)
      requires Sound() && Ahead(world, state) && world.journal == Some(state) && state.phase.Prepared?
      requires Head(world) == state.plan.source && state.releaseHead == None
      requires NewTags(world, state.plan)
      modifies this`world, this`state, this`log, this`faulty
      ensures (old(faulty) ==> faulty) && (!faulty ==> ok)
      ensures Sound() && Ahead(world, state) && SameTransaction(old(state), state)
      ensures world.remote == old(world).remote
      ensures ok ==> ReadyToPublish(world, state) && Committed(world)
    {
      hide Run, Disciplined, Created, Safe, Ahead, Untracked, ReadyToPublish, Sound, Committed;
      ok := Mutate();
      if !ok {
        return false;
      }
      ok := CommitAndTag();
    }

    method Mutate() returns (ok: bool)
      requires Sound() && Ahead(world, state) && world.journal == Some(state) && state.phase.Prepared?
      requires Head(world) == state.plan.source && state.releaseHead == None
      requires NewTags(world, state.plan)
      modifies this`world, this`state, this`log, this`faulty
      ensures (old(faulty) ==> faulty) && (!faulty ==> ok)
      ensures Sound() && Ahead(world, state) && SameTransaction(old(state), state)
      ensures world.remote == old(world).remote && Head(world) == old(Head(world))
      ensures world.tags == old(world).tags
      ensures ok ==> world.journal == Some(state) && state.phase.Committing? && state.releaseHead == None
      ensures old(log) < log ==> log[|old(log)|] == Advance(Mutating, None)
      ensures ok ==> old(log) < log && log[|log| - 1] == Advance(Committing, None)
    {
      SameIsAhead(world, state);
      hide Run, Disciplined, Created, Safe, Ahead, Untracked;
      ok := AdvanceTo(Mutating);
      if ok {
        ok := WriteAll();
      }
    }

    /** Hooks, versions and changelogs, and hooks again; then the phase in which the commit is made. */
    method WriteAll() returns (ok: bool)
      requires Sound() && Ahead(world, state) && world.journal == Some(state) && state.phase.Mutating?
      requires Head(world) == state.plan.source && state.releaseHead == None
      requires MayAdvance(world, state, Committing, state.releaseHead)
      modifies this`world, this`state, this`log, this`faulty
      ensures (old(faulty) ==> faulty) && (!faulty ==> ok)
      ensures Sound() && Ahead(world, state) && SameTransaction(old(state), state)
      ensures world == old(world).(files := world.files, index := world.index, journal := world.journal)
      ensures ok ==> world.journal == Some(state) && state.phase.Committing? && state.releaseHead == None
      ensures old(log) <= log && (ok ==> old(log) < log && log[|log| - 1] == Advance(Committing, None))
    {
      ok := WriteTwice();
      if !ok || Head(world) != state.plan.source {
        return false;
      }
      MayStillAdvance(old(world), world, state, Committing);
      hide Run, Disciplined, Created, Safe, Ahead, Untracked, MayAdvance;
      ok := AdvanceTo(Committing);
    }

    method WriteTwice() returns (ok: bool)
      requires Sound() && Ahead(world, state) && Head(world) == state.plan.source
      modifies this`world, this`log, this`faulty
      ensures (old(faulty) ==> faulty) && (!faulty ==> ok)
      ensures Sound() && Ahead(world, state)
      ensures world == old(world).(files := world.files, index := world.index)
      ensures old(log) < log
    {
      hide Run, Disciplined, Created, Safe, Ahead, Untracked;
      ok := Write();
      if !ok || Head(world) != state.plan.source {
        return false;
      }
      ok := Write();
    }

    method CommitAndTag() returns (ok: bool)
      requires Sound() && Ahead(world, state) && world.journal == Some(state) && state.phase.Committing?
      requires Head(world) == state.plan.source && state.releaseHead == None
      requires NewTags(world, state.plan)
      modifies this`world, this`state, this`log, this`faulty
      ensures (old(faulty) ==> faulty) && (!faulty ==> ok)
      ensures Sound() && Ahead(world, state) && SameTransaction(old(state), state)
      ensures world.remote == old(world).remote
      ensures ok ==> ReadyToPublish(world, state) && Committed(world)
    {
      hide Run, Disciplined, Created, Safe, Ahead, Untracked, ReadyToPublish, Committed, IsRelease, NewTags;
      NewTagsStay(world, state.plan);
      ok := CreateReleaseCommit();
      ghost var committed := world;
      if !ok {
        return false;
      }
      ok := ReleaseHead();
      if !ok {
        return false;
      }
      ok := TagHead();
      if ok {
        CommittedStays(committed, world);
      }
    }

    /** Tags HEAD, once it is remembered. */
    method TagHead() returns (ok: bool)
      requires Sound() && Ahead(world, state) && world.journal.value.phase.Committing?
      requires world.journal.value.releaseHead == None && NewTags(world, state.plan)
      requires state.releaseHead == if Head(world) == state.plan.source then None else Some(Head(world))
      modifies this`world, this`state, this`log, this`faulty
      ensures (old(faulty) ==> faulty) && (!faulty ==> ok)
      ensures Sound() && Ahead(world, state) && SameTransaction(old(state), state)
      ensures SameCheckout(old(world), world) && world.remote == old(world).remote
      ensures ok ==> ReadyToPublish(world, state)
    {
      hide Run, Disciplined, Created, Safe, Ahead, Untracked, ReadyToPublish, IsRelease;
      ok := EnterTagging();
      if ok {
        ok := CreateTags(false);
        TaggedIsReady(world, state, ok);
      }
    }

    method EnterTagging() returns (ok: bool)
      requires Sound() && Ahead(world, state) && world.journal.value.phase.Committing?
      requires world.journal.value.releaseHead == None
      requires state.releaseHead == if Head(world) == state.plan.source then None else Some(Head(world))
      modifies this`world, this`state, this`log, this`faulty
      ensures (old(faulty) ==> faulty) && (!faulty ==> ok)
      ensures Sound() && Ahead(world, state) && state == old(state).(phase := Tagging)
      ensures world == old(world).(journal := world.journal)
      ensures ok ==> world.journal == Some(state)
    {
      MayTag(world, state);
      hide MayAdvance;
      ok := AdvanceTo(Tagging);
    }

    /** Pushes, announces and finishes: the journal says external before anything leaves, and is
        removed only after it says published. Nothing is sent that was not asked for. */
    method PublishAll(push: bool, publish: bool) returns (ok: bool)
      requires Sound() && Ahead(world, state) && ReadyToPublish(world, state)
      modifies this`world, this`state, this`log, this`faulty
      ensures (old(faulty) ==> faulty) && (!faulty ==> ok)
      ensures Sound() && SameTransaction(old(state), state) && (!ok ==> Ahead(world, state))
      ensures Onward(old(world), world) && (ok ==> world.journal == None)
      ensures AddedSome(old(world), world, Asked(Head(world), state.plan.tags, push, publish))
      ensures ok ==> Added(old(world), world, Asked(Head(world), state.plan.tags, push, publish))
    {
      OnwardChain();
      hide Run, Disciplined, Created, Safe, Ahead, Untracked, ReadyToPublish, Added, AddedSome;
      ghost var first: seq<Effect> := if push then [Pushed(Head(world), state.plan.tags)] else [];
      ghost var second: seq<Effect> := if publish then Announcements(state.plan.tags) else [];
      assert first + second == Asked(Head(world), state.plan.tags, push, publish);
      hide Asked, Onward;
      NothingAdded(world, second);
      if push {
        ok := Push();
        AddedIsSome(old(world), world, first, second);
        if !ok {
          return false;
        }
      }
      ghost var pushed := world;
      AddedIsSome(old(world), pushed, first, second);
      ok := WriteOutputs();
      SameRemote(old(world), pushed, world, first);
      SameRemote(old(world), pushed, world, first + second);
      if !ok {
        return false;
      }
      ghost var written := world;
      NothingAdded(world, second);
      if publish {
        ok := Announce();
        AddedChain(old(world), written, world, first, second);
        if !ok {
          return false;
        }
      }
      ghost var announced := world;
      AddedChain(old(world), written, announced, first, second);
      AddedIsSome(old(world), announced, first + second, []);
      assert first + second + [] == first + second;
      ok := Close();
      SameRemote(old(world), announced, world, first + second);
    }

    /** Output files change nothing that publication depends on. */
    method WriteOutputs() returns (ok: bool)
      requires Sound() && Ahead(world, state) && ReadyToPublish(world, state)
      modifies this`world, this`log, this`faulty
      ensures (old(faulty) ==> faulty) && (!faulty ==> ok)
      ensures Sound() && Ahead(world, state) && ReadyToPublish(world, state) && Onward(old(world), world)
      ensures world.remote == old(world).remote
    {
      hide Run, Disciplined, Created, Safe, Ahead, Untracked;
      ok := Write();
    }

    method Push() returns (ok: bool)
      requires Sound() && Ahead(world, state) && ReadyToPublish(world, state)
      modifies this`world, this`state, this`log, this`faulty
      ensures (old(faulty) ==> faulty) && (!faulty ==> ok)
      ensures Sound() && Ahead(world, state) && SameTransaction(old(state), state) && Onward(old(world), world)
      ensures ok ==> ReadyToPublish(world, state)
      ensures AddedSome(old(world), world, [Pushed(Head(world), state.plan.tags)])
      ensures ok ==> Added(old(world), world, [Pushed(Head(world), state.plan.tags)])
    {
      MayLeave(world, state, External);
      hide Run, Disciplined, Created, Safe, Ahead, Untracked;
      ok := AdvanceTo(External);
      if !ok {
        return false;
      }
      ok := Send(Pushed(Head(world), state.plan.tags));
    }

    method Announce() returns (ok: bool)
      requires Sound() && Ahead(world, state) && ReadyToPublish(world, state)
      modifies this`world, this`state, this`log, this`faulty
      ensures (old(faulty) ==> faulty) && (!faulty ==> ok)
      ensures Sound() && Ahead(world, state) && SameTransaction(old(state), state) && Onward(old(world), world)
      ensures ok ==> ReadyToPublish(world, state)
      ensures AddedSome(old(world), world, Announcements(state.plan.tags))
      ensures ok ==> Added(old(world), world, Announcements(state.plan.tags))
    {
      MayLeave(world, state, External);
      hide Run, Disciplined, Created, Safe, Ahead, Untracked;
      ok := AdvanceTo(External);
      if !ok {
        return false;
      }
      ok := AnnounceAll();
    }

    /** Only a published journal is removed. */
    method Close() returns (ok: bool)
      requires Sound() && Ahead(world, state) && ReadyToPublish(world, state)
      modifies this`world, this`state, this`log, this`faulty
      ensures (old(faulty) ==> faulty) && (!faulty ==> ok)
      ensures Sound() && SameTransaction(old(state), state) && (!ok ==> Ahead(world, state))
      ensures Onward(old(world), world) && (ok ==> world.journal == None)
      ensures world.remote == old(world).remote
    {
      MayLeave(world, state, Published);
      OnwardChain();
      hide Run, Disciplined, Created, Safe, Ahead, Untracked;
      ok := Write();
      if !ok {
        return false;
      }
      MayLeave(world, state, Published);
      ok := AdvanceTo(Published);
      if !ok {
        return false;
      }
      ok := Write();
      if !ok {
        return false;
      }
      ok := Finish();
    }

    method Finish() returns (ok: bool)
      requires Sound() && Ahead(world, state) && world.journal == Some(state)
      requires state.phase.Published? || (state.plan.tags == [] && Head(world) == world.origin.head)
      modifies this`world, this`log, this`faulty
      ensures (old(faulty) ==> faulty) && (!faulty ==> ok)
      ensures Sound() && (!ok ==> Ahead(world, state) && world == old(world))
      ensures ok ==> world == old(world).(journal := None)
    {
      hide Run, Disciplined, Created, Safe, Restored;
      var failed := Fails();
      if !failed {
        Do(Forget);
      }
      return !failed;
    }

    /** A remote effect; a failure leaves open whether it happened. */
    method Send(effect: Effect) returns (ok: bool)
      requires Sound() && Ahead(world, state) && world.journal == Some(state) && state.phase.External?
      modifies this`world, this`log, this`faulty
      ensures (old(faulty) ==> faulty) && (!faulty ==> ok)
      ensures Sound() && Ahead(world, state)
      ensures world == old(world).(remote := world.remote, reached := world.reached)
      ensures world.remote == old(world).remote || world.remote == old(world).remote + [effect]
      ensures ok ==> world.remote == old(world).remote + [effect]
    {
      SentAhead(world, state, effect);
      hide Run, Disciplined, Created, Safe, Ahead;
      var failed := Fails();
      var happened := *;
      if !failed || happened {
        Do(Publish(effect));
      }
      return !failed;
    }

    method AnnounceAll() returns (ok: bool)
      requires Sound() && Ahead(world, state) && world.journal == Some(state) && state.phase.External?
      modifies this`world, this`log, this`faulty
      ensures (old(faulty) ==> faulty) && (!faulty ==> ok)
      ensures Sound() && Ahead(world, state)
      ensures world == old(world).(remote := world.remote, reached := world.reached)
      ensures AddedSome(old(world), world, Announcements(state.plan.tags))
      ensures ok ==> Added(old(world), world, Announcements(state.plan.tags))
    {
      hide Run, Disciplined, Created, Safe, Ahead;
      var i := 0;
      while i < |state.plan.tags|
        invariant 0 <= i <= |state.plan.tags|
        invariant Sound() && Ahead(world, state) && (old(faulty) ==> faulty)
        invariant world == old(world).(remote := world.remote, reached := world.reached)
        invariant Added(old(world), world, Announcements(state.plan.tags)[..i])
      {
        ghost var all := Announcements(state.plan.tags);
        assert all[..i + 1] == all[..i] + [Announced(state.plan.tags[i])];
        ok := Send(Announced(state.plan.tags[i]));
        if !ok {
          assert AddedSome(old(world), world, all[..i + 1]);
          AddedIsSome(old(world), world, all[..i + 1], all[i + 1..]);
          assert all[..i + 1] + all[i + 1..] == all;
          return false;
        }
        i := i + 1;
      }
      ghost var all := Announcements(state.plan.tags);
      assert all[..i] == all;
      return true;
    }

    /** Everything between snapshot and result; on failure the caller aborts. */
    method Proceed(resumable: bool, push: bool, publish: bool) returns (ok: bool)
      requires Sound() && Ahead(world, state) && world.journal == Some(state)
      requires if resumable then state.plan.tags != [] && Resuming(world, state) && IsResumable(world, state.plan)
               else state.phase.Prepared? && Head(world) == state.plan.source && state.releaseHead == None
                    && NewTags(world, state.plan)
      modifies this`world, this`state, this`log, this`faulty
      ensures (old(faulty) ==> faulty) && (!faulty ==> ok)
      ensures Sound() && state.plan == old(state.plan) && (!ok ==> Ahead(world, state))
      ensures ok ==> world.journal == None
      ensures ok && state.plan.tags != [] ==> Released(old(world), world, state.plan, push, publish)
      ensures NothingUnasked(old(world), world, state.plan, push, publish)
      ensures state.plan.tags == [] ==> world.remote == old(world).remote
    {
      NothingUnaskedYet(world, state.plan, push, publish);
      hide Run, Disciplined, Created, Safe, Ahead, Untracked, Added, AddedSome, ReadyToPublish, NothingUnasked;
      ok := Write();
      if !ok {
        return false;
      }
      if state.plan.tags == [] {
        ok := Write();
        if !ok {
          return false;
        }
        PreparedOrigin(world, state);
        ok := Finish();
        return ok;
      }
      if resumable {
        ok := CreateTags(true);
        ResumedIsReady(world, state, ok);
      } else {
        ok := Prepare();
      }
      if !ok {
        return false;
      }
      ghost var ready := world;
      ReadyFacts(world, state);
      ok := PublishAll(push, publish);
      SomeAsIsAsked(ready, world, Head(world), state.plan, push, publish);
      UnaskedSince(old(world), ready, world, state.plan, push, publish);
      if ok {
        ReleasedFrom(old(world), ready, world, state.plan, push, publish);
      }
    }

    /** Loads and settles an earlier transaction: it is rolled back, resumed with its own plan, or
        in the way. */
    method Settle(planned: Plan, replanned: Plan, derived: Option<Plan>) returns (ok: bool, plan: Plan, anew: bool)
      requires Sound()
      modifies this`world, this`state, this`log, this`faulty
      ensures Sound() && (old(faulty) ==> faulty) && (!faulty ==> (ok <==> CanSettle(old(world))))
      ensures world.remote == old(world).remote && (!ok ==> world.journal == old(world).journal)
      ensures ok ==> CanSettle(old(world)) && world == SettledWorld(old(world))
      ensures ok ==> plan == SettledPlan(old(world), planned, replanned, derived)
      ensures ok && anew ==> world.journal == None
      ensures ok && !anew ==>
        Ahead(world, state) && world.journal == Some(state) && Resuming(world, state) && plan == state.plan
    {
      hide Run, Disciplined, Created, Ahead, CanRollBack, TagsKept;
      plan, anew := planned, true;
      if world.journal.Some? {
        state := world.journal.value;
        LoadedIsAhead(world, state);
        var outcome := Recover();
        if outcome.Refused? {
          ok := false;
          return;
        }
        anew := outcome.WasRolledBack?;
        plan := if anew then replanned else state.plan;
      }
      if derived.Some? && anew {
        plan := derived.value;
      }
      ok := true;
    }

    method GiveUp() returns (ghost clean: bool)
      requires Sound() && Ahead(world, state)
      modifies this`world, this`state, this`log, this`faulty
      ensures Sound() && (old(faulty) ==> faulty) && world.remote == old(world).remote && (!faulty ==> clean)
      ensures GaveUp(old(world), world, state.phase, clean)
    {
      AheadOfJournal(world, state);
      hide Ahead, RolledBack, CanRollBack, Sound;
      clean := Abort();
    }

    /** One start of the release command, whatever an earlier one left behind. */
    method Execute(planned: Plan, replanned: Plan, derived: Option<Plan>, managed: set<Path>, push: bool, publish: bool)
      returns (r: Result, ghost gaveUp: Option<World>, ghost clean: bool)
      requires Sound()
      modifies this`world, this`state, this`log, this`faulty
      ensures Sound() && (old(faulty) ==> faulty)
      ensures r.Done? ==>
        && world.journal == None && (r.published <==> r.plan.tags != [])
        && r.plan == SettledPlan(old(world), planned, replanned, derived)
      ensures !faulty ==>
        (r.Done? <==> CanSettle(old(world))
                      && Startable(SettledWorld(old(world)), SettledPlan(old(world), planned, replanned, derived)))
      ensures r.Done? && r.published ==> Released(old(world), world, r.plan, push, publish)
      ensures r.Done? && !r.published ==> world.remote == old(world).remote
      ensures r.Failed? && gaveUp.None? ==> Unbegun(old(world), world)
      ensures r.Failed? && gaveUp.Some? ==> GaveUp(gaveUp.value, world, state.phase, clean)
      ensures NothingUnasked(old(world), world, SettledPlan(old(world), planned, replanned, derived), push, publish)
    {
      NothingUnaskedYet(world, SettledPlan(world, planned, replanned, derived), push, publish);
      hide Run, Disciplined, Created, Safe, Ahead, Untracked, Released, NothingUnasked, GaveUp;
      hide CanSettle, SettledWorld, SettledPlan;
      gaveUp, clean := None, true;
      var settled, plan, anew := Settle(planned, replanned, derived);
      if !settled {
        return Failed, None, true;
      }
      var resumable := IsResumable(world, plan);
      var failed := Fails();
      if failed || !DistinctTags(plan) || (!resumable && (Head(world) != plan.source || !NoneTagged(world, plan))) {
        return Failed, None, true;
      }
      if anew {
        var taken := TakeSnapshot(plan, managed);
        if !taken {
          return Failed, None, true;
        }
      }
      SettledRemote(old(world));
      ghost var begun := world;
      var ok := Proceed(resumable, push, publish);
      UnaskedSince(old(world), begun, world, plan, push, publish);
      if ok {
        SinceRemote(old(world), begun);
        return Done(plan.tags != [], plan), None, true;
      }
      gaveUp := Some(world);
      clean := GiveUp();
      UnaskedStill(old(world), gaveUp.value, world, plan, push, publish);
      r := Failed;
    }
  }
}
