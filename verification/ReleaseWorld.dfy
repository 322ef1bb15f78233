/** The repository a release works on, and the discipline that makes a release recoverable from
    a crash between any two of its steps. */
module ReleaseWorld {
  import opened Wrappers
  import ReleaseMessage

  type Sha = nat
  type Path = string
  type Tag = string

  datatype Entry = Regular(data: nat, mode: nat) | Link(target: Path)

  type Tree = map<Path, Entry>

  datatype Commit = Commit(parent: Sha, message: string, tree: Tree)

  /** An annotated tag: its own object and the commit it peels to. */
  datatype TagRef = TagRef(raw: Sha, target: Sha)

  datatype Phase = Prepared | Mutating | Committing | Tagging | External | Published

  /** In these phases nothing has left the machine yet. */
  predicate Local(phase: Phase) {
    !phase.External? && !phase.Published?
  }

  datatype Plan = Plan(source: Sha, message: string, tags: seq<Tag>)

  datatype Journal = Journal(
    phase: Phase,
    plan: Plan,
    ref: string,
    releaseHead: Option<Sha>,
    files: map<Path, Option<Entry>>,
    untracked: set<Path>,
    tags: map<Tag, Option<TagRef>>,
    index: Tree)

  datatype Effect = Pushed(head: Sha, tags: seq<Tag>) | Announced(tag: Tag)

  /** The repository when the journal was first written. */
  datatype Origin = Origin(head: Sha, tags: map<Tag, TagRef>, files: Tree, index: Tree)

  /** reached says whether the present transaction has changed anything remote. */
  datatype World = World(
    ref: string,
    heads: map<string, Sha>,
    commits: map<Sha, Commit>,
    tags: map<Tag, TagRef>,
    files: Tree,
    index: Tree,
    ignored: set<Path>,
    journal: Option<Journal>,
    remote: seq<Effect>,
    reached: bool,
    origin: Origin)

  datatype Event =
    | Snapshot(journal: Journal)
    | Advance(phase: Phase, releaseHead: Option<Sha>)
    | Forget
    | Edit(path: Path, entry: Option<Entry>)
    | Hook(files: Tree, index: Tree)
    | Stage
    | MakeCommit(sha: Sha)
    | MakeTag(tag: Tag, raw: Sha)
    | Publish(effect: Effect)
    | DeleteTag(tag: Tag)
    | RemoveCreated(path: Path)
    | Unlink(path: Path)
    | Restore(path: Path)
    | Rewind
    | RestoreIndex

  function Look<K, V>(m: map<K, V>, k: K): Option<V> {
    if k in m then Some(m[k]) else None
  }

  function Put<K, V>(m: map<K, V>, k: K, v: Option<V>): map<K, V> {
    if v.Some? then m[k := v.value] else m - {k}
  }

  predicate Sited(w: World) {
    w.ref in w.heads && w.heads[w.ref] in w.commits
  }

  function Head(w: World): Sha
    requires Sited(w)
  {
    w.heads[w.ref]
  }

  /** A commit on top of the plan's source that says exactly what the plan's commit says, but for
      a squash-merge suffix. */
  predicate IsRelease(w: World, sha: Sha, plan: Plan) {
    && sha in w.commits && sha != plan.source
    && w.commits[sha].parent == plan.source && SaysRelease(w.commits[sha].message, plan)
  }

  predicate SaysRelease(message: string, plan: Plan) {
    ReleaseMessage.MessageMatches(message, plan.message)
  }

  lemma SaysItself(plan: Plan)
    ensures SaysRelease(plan.message, plan)
  {
  }

  /** A squash merge that appended its pull request number to a printed plan's subject still made a
      release commit. */
  lemma SquashMergeIsRelease(w: World, sha: Sha, plan: Plan, releases: seq<ReleaseMessage.Release>, number: string)
    requires sha in w.commits && sha != plan.source && w.commits[sha].parent == plan.source
    requires plan.message == ReleaseMessage.CommitMessage(releases)
    requires releases != [] && forall i | 0 <= i < |releases| :: ReleaseMessage.Printable(releases[i])
    requires number != "" && forall i | 0 <= i < |number| :: '0' <= number[i] <= '9'
    ensures w.commits[sha].message == ReleaseMessage.Squashed(releases, number) ==> IsRelease(w, sha, plan)
  {
    hide SaysRelease;
    SquashSaysRelease(plan, releases, number);
  }

  lemma SquashSaysRelease(plan: Plan, releases: seq<ReleaseMessage.Release>, number: string)
    requires plan.message == ReleaseMessage.CommitMessage(releases)
    requires releases != [] && forall i | 0 <= i < |releases| :: ReleaseMessage.Printable(releases[i])
    requires number != "" && forall i | 0 <= i < |number| :: '0' <= number[i] <= '9'
    ensures SaysRelease(ReleaseMessage.Squashed(releases, number), plan)
  {
    ReleaseMessage.SquashedMatches(releases, number);
  }

  predicate TagKept(w: World, j: Journal, t: Tag) {
    t in j.tags && Look(w.tags, t) == j.tags[t]
  }

  predicate TagsKept(w: World, j: Journal) {
    forall t | t in j.tags :: TagKept(w, j, t)
  }

  /** A tag is as it was found, or it was absent and now marks HEAD. */
  predicate TagFine(w: World, j: Journal, t: Tag)
    requires Sited(w)
  {
    TagKept(w, j, t) || (t in j.tags && j.tags[t] == None && t in w.tags && w.tags[t].target == Head(w))
  }

  predicate TagsFine(w: World, j: Journal)
    requires Sited(w)
  {
    forall t | t in j.tags :: TagFine(w, j, t)
  }

  /** The paths rollback removes: created since the snapshot, and untracked or part of the
      release commit. */
  ghost function Created(w: World, j: Journal): set<Path>
    requires Sited(w)
  {
    set p | p in w.files && p !in j.files && p !in j.untracked
            && (p in Untracked(w) || (Head(w) != j.plan.source && p in Changed(w, j.plan.source, Head(w))))
  }

  function Untracked(w: World): set<Path> {
    Unknown(w.files, w.index, w.ignored)
  }

  /** Files that are neither tracked nor ignored. */
  function Unknown(files: Tree, index: Tree, ignored: set<Path>): set<Path> {
    set p | p in files && p !in index && p !in ignored
  }

  /** The paths that differ between two commits. */
  function Changed(w: World, a: Sha, b: Sha): set<Path> {
    set p | p in TreeOf(w, a).Keys + TreeOf(w, b).Keys && Look(TreeOf(w, a), p) != Look(TreeOf(w, b), p)
  }

  function TreeOf(w: World, sha: Sha): Tree {
    if sha in w.commits then w.commits[sha].tree else map[]
  }

  /** The journal tells what the repository was like when it was first written. */
  ghost predicate JournalTrue(w: World, j: Journal) {
    && j.ref == w.ref
    && (forall p | p in j.files :: j.files[p] == Look(w.origin.files, p))
    && (forall p | p in w.origin.index :: p in j.files)
    && (forall t :: t in j.tags <==> t in j.plan.tags)
    && (forall t | t in j.tags :: j.tags[t] == Look(w.origin.tags, t))
    && j.index == w.origin.index
    && j.untracked == Unknown(w.origin.files, w.origin.index, w.ignored)
  }

  ghost predicate HeadTold(w: World, j: Journal)
    requires Sited(w)
  {
    && (j.releaseHead.Some? ==> IsRelease(w, j.releaseHead.value, j.plan))
    && (Head(w) == j.plan.source
        || (IsRelease(w, Head(w), j.plan) && (j.releaseHead.Some? ==> Head(w) == j.releaseHead.value)))
  }

  /** What lets a local transaction be rolled back: nothing remote has happened, and the planned
      tags are as found, except that the tagging phase may have added some. */
  ghost predicate LocalOnly(w: World, j: Journal)
    requires Sited(w)
  {
    && w.origin.head == j.plan.source && j.plan.source in w.commits && !w.reached
    && TagsFine(w, j) && (!j.phase.Tagging? || (j.releaseHead.Some? && Head(w) == j.plan.source) ==> TagsKept(w, j))
    && (j.phase.Prepared? || j.phase.Mutating? ==> Head(w) == j.plan.source)
  }

  ghost predicate Safe(w: World) {
    Sited(w) && (w.journal.Some? ==> JournalSafe(w, w.journal.value))
  }

  ghost predicate JournalSafe(w: World, j: Journal)
    requires Sited(w)
  {
    && JournalTrue(w, j) && HeadTold(w, j)
    && (Local(j.phase) ==> LocalOnly(w, j))
    && (!Local(j.phase) ==> j.releaseHead == if Head(w) == j.plan.source then None else Some(Head(w)))
  }

  /** HEAD, the planned tags, every snapshotted path and the index are as they were. */
  ghost predicate Restored(w: World, j: Journal) {
    && Sited(w) && Head(w) == w.origin.head
    && (forall t | t in j.plan.tags :: Look(w.tags, t) == Look(w.origin.tags, t))
    && (forall p | p in j.files :: Look(w.files, p) == Look(w.origin.files, p))
    && w.index == w.origin.index
  }

  /** Steps that undo a transaction. */
  predicate Undoes(e: Event) {
    e.DeleteTag? || e.RemoveCreated? || e.Unlink? || e.Restore? || e.Rewind? || e.RestoreIndex?
  }

  ghost predicate FreshJournal(w: World, j: Journal)
    requires Sited(w)
  {
    && JournalTrue(w.(origin := OriginOf(w)), j)
    && if Head(w) == j.plan.source then j.phase.Prepared? && j.releaseHead == None
       else j.phase.External? && j.releaseHead == Some(Head(w)) && IsRelease(w, Head(w), j.plan)
  }

  function OriginOf(w: World): Origin
    requires Sited(w)
  {
    Origin(Head(w), w.tags, w.files, w.index)
  }

  /** When the journal may record a further phase. */
  ghost predicate MayAdvance(w: World, j: Journal, phase: Phase, releaseHead: Option<Sha>)
    requires Sited(w)
  {
    && (Local(phase) ==> Local(j.phase))
    && (|| releaseHead == j.releaseHead
        || (j.releaseHead == None && releaseHead == Some(Head(w)) && Head(w) != j.plan.source))
    && (!phase.Tagging? && Local(phase) ==> !j.phase.Tagging?)
    && (phase.Prepared? || phase.Mutating? ==> Head(w) == j.plan.source)
    && (!Local(phase) ==> releaseHead == if Head(w) == j.plan.source then None else Some(Head(w)))
  }

  ghost predicate Allowed(w: World, e: Event) {
    Sited(w) &&
    if e.Snapshot? then w.journal == None && FreshJournal(w, e.journal)
    else w.journal.Some? && MayDo(w, w.journal.value, e)
  }

  ghost predicate MayDo(w: World, j: Journal, e: Event)
    requires Sited(w)
  {
    match e
    case Snapshot(_) => false
    case Advance(phase, releaseHead) => MayAdvance(w, j, phase, releaseHead)
    case Forget => j.phase.Published? || Restored(w, j) || (j.plan.tags == [] && Head(w) == w.origin.head)
    case Edit(_, _) => true
    case Hook(_, _) => true
    case Stage => true
    case MakeCommit(sha) =>
      j.phase.Committing? && Head(w) == j.plan.source && j.releaseHead == None && sha !in w.commits
    case MakeTag(tag, _) =>
      && (j.phase.Tagging? || !Local(j.phase)) && tag in j.plan.tags && tag !in w.tags
      && (j.releaseHead.Some? ==> Head(w) == j.releaseHead.value)
    case Publish(_) => j.phase.External?
    case DeleteTag(tag) => Local(j.phase) && tag in j.tags && j.tags[tag] == None && Head(w) != j.plan.source
    case RemoveCreated(p) => Local(j.phase) && TagsKept(w, j) && p in Created(w, j)
    case Unlink(p) => Local(j.phase) && TagsKept(w, j) && Created(w, j) == {} && p in j.files
    case Restore(p) => Local(j.phase) && TagsKept(w, j) && Created(w, j) == {} && p in j.files
    case Rewind => Local(j.phase) && TagsKept(w, j) && Created(w, j) == {}
    case RestoreIndex => Local(j.phase) && TagsKept(w, j) && Created(w, j) == {} && Head(w) == j.plan.source
  }

  function Next(w: World, e: Event): World
    requires Sited(w) && (!e.Snapshot? ==> w.journal.Some?)
  {
    match e
    case Snapshot(journal) => w.(journal := Some(journal), reached := false, origin := OriginOf(w))
    case Advance(phase, releaseHead) =>
      w.(journal := Some(w.journal.value.(phase := phase, releaseHead := releaseHead)))
    case Forget => w.(journal := None)
    case Edit(path, entry) => w.(files := Put(w.files, path, entry))
    case Hook(files, index) => w.(files := files, index := index)
    case Stage => w.(index := map p | p in w.files && (p in w.index || p !in w.ignored) :: w.files[p])
    case MakeCommit(sha) =>
      w.(commits := w.commits[sha := Commit(Head(w), w.journal.value.plan.message, w.index)],
         heads := w.heads[w.ref := sha])
    case MakeTag(tag, raw) => w.(tags := w.tags[tag := TagRef(raw, Head(w))])
    case Publish(effect) => w.(remote := w.remote + [effect], reached := true)
    case DeleteTag(tag) => w.(tags := w.tags - {tag})
    case RemoveCreated(p) => w.(files := w.files - {p})
    case Unlink(p) => w.(files := w.files - {p})
    case Restore(p) =>
      if p in w.journal.value.files then w.(files := Put(w.files, p, w.journal.value.files[p])) else w
    case Rewind =>
      if w.journal.value.plan.source in w.commits then w.(heads := w.heads[w.ref := w.journal.value.plan.source]) else w
    case RestoreIndex => w.(index := w.journal.value.index)
  }

  lemma SnapshotKeepsSafe(w: World, j: Journal)
    requires Safe(w) && Allowed(w, Snapshot(j))
    ensures Safe(Next(w, Snapshot(j)))
  {
    hide Changed;
    assert forall t | t in j.tags :: TagKept(Next(w, Snapshot(j)), j, t);
  }

  lemma AdvanceKeepsSafe(w: World, phase: Phase, releaseHead: Option<Sha>)
    requires Safe(w) && Allowed(w, Advance(phase, releaseHead))
    ensures Safe(Next(w, Advance(phase, releaseHead)))
  {
    var j := w.journal.value;
    var after := Next(w, Advance(phase, releaseHead));
    assert forall t | t in j.tags :: TagKept(after, after.journal.value, t) == TagKept(w, j, t);
    assert forall t | t in j.tags :: TagFine(after, after.journal.value, t) == TagFine(w, j, t);
    hide TagKept, TagFine;
  }

  /** Steps that leave HEAD, commits and the planned tags alone. */
  lemma FilesKeepSafe(w: World, w': World)
    requires Safe(w)
    requires w' == w.(files := w'.files, index := w'.index)
    ensures Safe(w')
  {
    if w.journal.Some? {
      var j := w.journal.value;
      assert forall t | t in j.tags :: TagKept(w', j, t) == TagKept(w, j, t);
      assert forall t | t in j.tags :: TagFine(w', j, t) == TagFine(w, j, t);
      hide TagKept, TagFine;
    }
  }

  lemma CommitKeepsSafe(w: World, sha: Sha)
    requires Safe(w) && Allowed(w, MakeCommit(sha))
    ensures Safe(Next(w, MakeCommit(sha)))
  {
    var j := w.journal.value;
    var after := Next(w, MakeCommit(sha));
    SaysItself(j.plan);
    assert IsRelease(after, sha, j.plan);
    assert forall t | t in j.tags :: TagKept(after, j, t) == TagKept(w, j, t);
    assert TagsFine(after, j);
    hide TagKept, TagFine, TagsFine;
  }

  lemma MakeTagKeepsSafe(w: World, e: Event)
    requires Safe(w) && Allowed(w, e) && e.MakeTag?
    ensures Safe(Next(w, e))
  {
    var j := w.journal.value;
    var after := Next(w, e);
    assert forall t | t in j.tags && t != e.tag :: Look(after.tags, t) == Look(w.tags, t);
    assert forall t | t in j.tags && t != e.tag :: TagFine(after, j, t) == TagFine(w, j, t);
    assert forall sha :: IsRelease(after, sha, j.plan) == IsRelease(w, sha, j.plan);
    hide IsRelease;
  }

  lemma DeleteTagKeepsSafe(w: World, e: Event)
    requires Safe(w) && Allowed(w, e) && e.DeleteTag?
    ensures Safe(Next(w, e))
  {
    var j := w.journal.value;
    var after := Next(w, e);
    assert forall t | t in j.tags && t != e.tag :: Look(after.tags, t) == Look(w.tags, t);
    assert forall t | t in j.tags && t != e.tag :: TagFine(after, j, t) == TagFine(w, j, t);
    assert forall sha :: IsRelease(after, sha, j.plan) == IsRelease(w, sha, j.plan);
    hide IsRelease;
  }

  lemma RewindKeepsSafe(w: World)
    requires Safe(w) && Allowed(w, Rewind)
    ensures Safe(Next(w, Rewind))
  {
    hide Created, Changed, SaysRelease;
    assert forall sha ::
        IsRelease(Next(w, Rewind), sha, w.journal.value.plan) == IsRelease(w, sha, w.journal.value.plan);
    assert forall t | t in w.journal.value.tags :: TagKept(Next(w, Rewind), w.journal.value, t);
  }

  /** No allowed step, and so no crash between two of them, makes a transaction unrecoverable. */
  lemma AllowedKeepsSafe(w: World, e: Event)
    requires Safe(w) && Allowed(w, e)
    ensures Safe(Next(w, e))
  {
    if e.Snapshot? {
      SnapshotKeepsSafe(w, e.journal);
    } else if e.Advance? {
      AdvanceKeepsSafe(w, e.phase, e.releaseHead);
    } else if e.MakeCommit? {
      CommitKeepsSafe(w, e.sha);
    } else if e.MakeTag? {
      MakeTagKeepsSafe(w, e);
    } else if e.DeleteTag? {
      DeleteTagKeepsSafe(w, e);
    } else if e.Rewind? {
      RewindKeepsSafe(w);
    } else if e.Publish? {
      PublishKeepsSafe(w, e.effect);
    } else if e.Forget? {
      assert Next(w, e).journal == None && Sited(Next(w, e));
    } else {
      hide Safe;
      FilesKeepSafe(w, Next(w, e));
    }
  }

  lemma PublishKeepsSafe(w: World, effect: Effect)
    requires Safe(w) && Allowed(w, Publish(effect))
    ensures Safe(Next(w, Publish(effect)))
  {
  }
}
