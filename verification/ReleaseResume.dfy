/** Recognising an executed release commit: its message, its tags, and the version steps it made. */
module ReleaseResume {
  import opened Wrappers
  import opened TextScan
  import opened ReleaseMessage

  const MAX_INT := 0x7FFF_FFFF_FFFF_FFFF

  type Component = n: int | 0 <= n <= MAX_INT

  /** The suffix holds pre-release and build identifiers. */
  datatype Version = Version(major: Component, minor: Component, patch: Component, suffix: string)

  datatype Kind = Major | Minor | Patch

  /** A version raised, unless the number would overflow; the suffix goes. */
  function Bumped(v: Version, kind: Kind): Option<Version> {
    match kind
    case Major => if v.major == MAX_INT then None else Some(Version(v.major + 1, 0, 0, ""))
    case Minor => if v.minor == MAX_INT then None else Some(Version(v.major, v.minor + 1, 0, ""))
    case Patch => if v.patch == MAX_INT then None else Some(Version(v.major, v.minor, v.patch + 1, ""))
  }

  datatype Transition = Transition(from: Version, kind: Kind)

  /** HEAD, the commits tags mark, and the versions the manifests held in HEAD's parent, if any. */
  datatype Repository = Repository(
    head: nat,
    hasParent: bool,
    refs: map<string, nat>,
    parents: map<string, Version>,
    tagOf: (string, string) -> string,
    parse: string -> Option<Version>)

  function Decimal(n: nat): string {
    (if n < 10 then "" else Decimal(n / 10)) + ["0123456789"[n % 10]]
  }

  function Spelled(v: Version): string {
    Decimal(v.major) + "." + Decimal(v.minor) + "." + Decimal(v.patch)
  }

  predicate Tagged(repo: Repository, name: string, v: Version) {
    repo.tagOf(name, Spelled(v)) in repo.refs
  }

  /** The version a bump of this kind is taken to have started from. */
  function Predecessor(next: Version, kind: Kind): Option<Version> {
    match kind
    case Major => if next.major < 1 then None else Some(Version(next.major - 1, 0, 0, ""))
    case Minor => if next.minor < 1 then None else Some(Version(next.major, next.minor - 1, 0, ""))
    case Patch => if next.patch < 1 then None else Some(Version(next.major, next.minor, next.patch - 1, ""))
  }

  predicate Probed(repo: Repository, name: string, next: Version, kind: Kind) {
    Predecessor(next, kind).Some? && Tagged(repo, name, Predecessor(next, kind).value)
  }

  /** The widest kind of bump with a tagged predecessor. */
  function Widest(repo: Repository, name: string, next: Version): Option<Kind> {
    if Probed(repo, name, next, Major) then Some(Major)
    else if Probed(repo, name, next, Minor) then Some(Minor)
    else if Probed(repo, name, next, Patch) then Some(Patch)
    else None
  }

  function FromParent(repo: Repository, name: string, next: Version): Option<Transition> {
    if name !in repo.parents then None
    else
      var parent := repo.parents[name];
      if Bumped(parent, Major) == Some(next) then Some(Transition(parent, Major))
      else if Bumped(parent, Minor) == Some(next) then Some(Transition(parent, Minor))
      else if Bumped(parent, Patch) == Some(next) then Some(Transition(parent, Patch))
      else None
  }

  /** The step that led to a version: from the first tagged predecessor, else from the parent. */
  function Inferred(repo: Repository, name: string, next: Version): Option<Transition> {
    var widest := Widest(repo, name, next);
    if widest.Some? then Some(Transition(Predecessor(next, widest.value).value, widest.value))
    else FromParent(repo, name, next)
  }

  method InferTransition(repo: Repository, name: string, next: Version) returns (found: Option<Transition>)
    ensures found == Inferred(repo, name, next)
  {
    var kinds := [Major, Minor, Patch];
    for i := 0 to |kinds|
      invariant forall k | 0 <= k < i :: !Probed(repo, name, next, kinds[k])
    {
      var predecessor := Predecessor(next, kinds[i]);
      if predecessor.None? {
        continue;
      }
      if Tagged(repo, name, predecessor.value) {
        assert i > 0 ==> !Probed(repo, name, next, kinds[0]);
        assert i > 1 ==> !Probed(repo, name, next, kinds[1]);
        return Some(Transition(predecessor.value, kinds[i]));
      }
    }
    assert !Probed(repo, name, next, kinds[0]) && !Probed(repo, name, next, kinds[1]);
    assert !Probed(repo, name, next, kinds[2]);
    if name !in repo.parents {
      return None;
    }
    var parent := repo.parents[name];
    var matched: Option<Kind> := None;
    var ambiguous := false;
    for i := 0 to |kinds|
      invariant !ambiguous
      invariant matched.Some? ==> Bumped(parent, matched.value) == Some(next) && matched.value in kinds[..i]
      invariant matched.None? ==> forall k | 0 <= k < i :: Bumped(parent, kinds[k]) != Some(next)
    {
      if Bumped(parent, kinds[i]) == Some(next) {
        OneKind(parent, kinds[i], next);
        ambiguous := ambiguous || matched.Some?;
        matched := Some(kinds[i]);
      }
    }
    assert matched.None? ==> Bumped(parent, kinds[0]) != Some(next) && Bumped(parent, kinds[1]) != Some(next);
    assert matched.None? ==> Bumped(parent, kinds[2]) != Some(next);
    return if matched.None? || ambiguous then None else Some(Transition(parent, matched.value));
  }

  /** The number a decimal spelling stands for. */
  function NumberOf(s: string): int {
    if s == "" then 0 else 10 * NumberOf(s[..|s| - 1]) + (s[|s| - 1] as int - '0' as int)
  }

  lemma NumberSnoc(s: string, digit: char)
    ensures NumberOf(s + [digit]) == 10 * NumberOf(s) + (digit as int - '0' as int)
    ensures NumberOf("") == 0
  {
    assert (s + [digit])[..|s|] == s;
  }

  /** Numbers are spelled in digits, without leading zeros. */
  lemma {:induction false} DecimalSpells(n: nat)
    ensures NumberOf(Decimal(n)) == n && Decimal(n) != ""
    ensures forall i | 0 <= i < |Decimal(n)| :: '0' <= Decimal(n)[i] <= '9'
    ensures n > 0 ==> Decimal(n)[0] != '0'
    ensures n == 0 ==> Decimal(n) == "0"
  {
    hide Decimal, NumberOf;
    var front, digit := DecimalSnoc(n);
    NumberSnoc(front, digit);
    if n >= 10 {
      DecimalSpells(n / 10);
      assert Decimal(n)[0] == front[0];
    }
    forall i | 0 <= i < |Decimal(n)| ensures '0' <= Decimal(n)[i] <= '9' {
      assert i < |front| ==> Decimal(n)[i] == front[i];
    }
  }

  lemma DecimalSnoc(n: nat) returns (front: string, digit: char)
    ensures Decimal(n) == front + [digit] && front == if n < 10 then "" else Decimal(n / 10)
    ensures '0' <= digit <= '9' && digit as int - '0' as int == n % 10
  {
    front, digit := if n < 10 then "" else Decimal(n / 10), "0123456789"[n % 10];
  }

  /** Raising a predecessor gives the version cut off behind the number raised; there is one exactly if
      that number is not zero. */
  lemma PredecessorsPrecede(next: Version, kind: Kind)
    ensures Predecessor(next, kind).None? <==>
      match kind case Major => next.major == 0 case Minor => next.minor == 0 case Patch => next.patch == 0
    ensures Predecessor(next, kind).Some? ==>
      Bumped(Predecessor(next, kind).value, kind) == Some(
        match kind
        case Major => Version(next.major, 0, 0, "")
        case Minor => Version(next.major, next.minor, 0, "")
        case Patch => Version(next.major, next.minor, next.patch, ""))
    ensures Predecessor(next, kind).Some? ==>
      var v := Predecessor(next, kind).value;
      v.suffix == "" && (!kind.Patch? ==> v.patch == 0) && (kind.Major? ==> v.minor == 0)
  {
  }

  /** No version leads to another by two kinds of bump. */
  lemma OneKind(v: Version, kind: Kind, next: Version)
    requires Bumped(v, kind) == Some(next)
    ensures forall k :: Bumped(v, k) == Some(next) ==> k == kind
  {
  }

  /** Raising the widest tagged predecessor gives another version: a wider bump's predecessor is tagged,
      or the version has a suffix, which no bump gives. */
  predicate Misled(repo: Repository, name: string, next: Version) {
    match Widest(repo, name, next)
    case None => false
    case Some(Major) => next.minor != 0 || next.patch != 0 || next.suffix != ""
    case Some(Minor) => next.patch != 0 || next.suffix != ""
    case Some(Patch) => next.suffix != ""
  }

  lemma WidestPrecedes(repo: Repository, name: string, next: Version)
    ensures Widest(repo, name, next).Some? ==> Predecessor(next, Widest(repo, name, next).value).Some?
  {
    hide Tagged, Predecessor;
  }

  /** The step that is found leads to the version exactly when the tags do not mislead. */
  lemma InferredLeadsThere(repo: Repository, name: string, next: Version)
    requires Inferred(repo, name, next).Some?
    ensures var found := Inferred(repo, name, next).value;
      Bumped(found.from, found.kind) == Some(next) <==> !Misled(repo, name, next)
  {
    WidestPrecedes(repo, name, next);
    hide Widest;
  }

  /** For a version made by a bump of the parent's, some step is always found; it has the bump's
      kind exactly when the tags do not mislead, and starts at the parent's version exactly
      when the widest tagged predecessor, if any, is that version. */
  lemma StepIsFound(repo: Repository, name: string, from: Version, kind: Kind, next: Version)
    requires Bumped(from, kind) == Some(next) && name in repo.parents && repo.parents[name] == from
    ensures Inferred(repo, name, next).Some?
    ensures Inferred(repo, name, next).value.kind == kind <==> !Misled(repo, name, next)
    ensures var widest := Widest(repo, name, next);
      Inferred(repo, name, next).value == Transition(from, kind) <==>
        (widest.Some? ==> Predecessor(next, widest.value) == Some(from))
  {
    OneKind(from, kind, next);
    WidestPrecedes(repo, name, next);
    hide Widest;
    var widest := Widest(repo, name, next);
    if widest.Some? && Predecessor(next, widest.value) == Some(from) {
      assert Bumped(from, widest.value).Some?;
    }
  }

  /** A minor release after two major ones is taken for a major one. */
  lemma StepIsMistaken()
    ensures var repo := Repository(3, true, map["1.0.0" := 1, "2.0.0" := 2], map["app" := Version(2, 0, 0, "")],
                                   (name, version) => version, spelled => None);
      && Bumped(Version(2, 0, 0, ""), Minor) == Some(Version(2, 1, 0, ""))
      && Inferred(repo, "app", Version(2, 1, 0, "")) == Some(Transition(Version(1, 0, 0, ""), Major))
  {
    assert Decimal(1) == "1" && Decimal(0) == "0";
    assert Spelled(Version(1, 0, 0, "")) == "1.0.0";
  }

  /** A tag of the release marks another commit. */
  predicate Drifted(repo: Repository, r: Release) {
    var tag := repo.tagOf(r.name, r.version);
    tag in repo.refs && repo.refs[tag] != repo.head
  }

  function StepOf(repo: Repository, r: Release): Option<Transition> {
    var next := repo.parse(r.version);
    if next.None? then None else Inferred(repo, r.name, next.value)
  }

  /** HEAD proves an executed release: its message prints one, no tag of it is elsewhere, and every
      version step can be told. */
  predicate Resumes(repo: Repository, known: map<string, string>, message: string) {
    && repo.hasParent && Derived(known, message).Some?
    && forall i | 0 <= i < |Derived(known, message).value| ::
         var r := Derived(known, message).value[i]; !Drifted(repo, r) && StepOf(repo, r).Some?
  }

  predicate TagsElsewhere(repo: Repository, known: map<string, string>, message: string) {
    repo.hasParent && Selected(known, message).Some?
    && exists i :: 0 <= i < |Selected(known, message).value| && Drifted(repo, Selected(known, message).value[i])
  }

  /** The tag is that of the first selected release with a tag elsewhere. */
  ghost predicate FirstDrift(repo: Repository, selected: seq<Release>, tag: string) {
    exists i :: 0 <= i < |selected| && Drifted(repo, selected[i])
                && tag == repo.tagOf(selected[i].name, selected[i].version)
                && forall k | 0 <= k < i :: !Drifted(repo, selected[k])
  }

  datatype Outcome =
    | NotResumable
    | TagDrift(tag: string)
    | Resumable(releases: seq<Release>, steps: seq<Transition>)

  /** The first selected release with a tag elsewhere. */
  method FindDrift(repo: Repository, selected: seq<Release>) returns (tag: Option<string>)
    ensures tag.Some? <==> exists i :: 0 <= i < |selected| && Drifted(repo, selected[i])
    ensures tag.Some? ==> FirstDrift(repo, selected, tag.value)
  {
    for i := 0 to |selected|
      invariant forall k | 0 <= k < i :: !Drifted(repo, selected[k])
    {
      if Drifted(repo, selected[i]) {
        return Some(repo.tagOf(selected[i].name, selected[i].version));
      }
    }
    return None;
  }

  /** The steps and notes of the selected releases, unless a step cannot be told. */
  method AddSteps(repo: Repository, body: string, selected: seq<Release>)
    returns (found: Option<(seq<Release>, seq<Transition>)>)
    ensures found.Some? <==> forall i | 0 <= i < |selected| :: StepOf(repo, selected[i]).Some?
    ensures found.Some? ==> found.value.0 == WithNotes(body, selected) && |found.value.1| == |selected|
    ensures found.Some? ==> forall i | 0 <= i < |selected| :: Some(found.value.1[i]) == StepOf(repo, selected[i])
  {
    hide NotesOf, Inferred;
    var releases: seq<Release>, steps: seq<Transition> := [], [];
    for i := 0 to |selected|
      invariant releases == WithNotes(body, selected)[..i] && |steps| == i
      invariant forall k | 0 <= k < i :: Some(steps[k]) == StepOf(repo, selected[k])
    {
      var next := repo.parse(selected[i].version);
      if next.None? {
        return None;
      }
      var step := InferTransition(repo, selected[i].name, next.value);
      if step.None? {
        return None;
      }
      steps := steps + [step.value];
      releases := releases + [selected[i].(notes := NotesOf(body, selected[i], |selected|))];
    }
    return Some((releases, steps));
  }

  /** Recognises the release commit at HEAD. */
  method DeriveResumable(repo: Repository, known: map<string, string>, message: string) returns (outcome: Outcome)
    ensures outcome.Resumable? <==> Resumes(repo, known, message)
    ensures outcome.TagDrift? <==> TagsElsewhere(repo, known, message)
    ensures outcome.Resumable? ==>
      && Derived(known, message) == Some(outcome.releases) && |outcome.steps| == |outcome.releases|
      && forall i | 0 <= i < |outcome.releases| :: Some(outcome.steps[i]) == StepOf(repo, outcome.releases[i])
    ensures outcome.TagDrift? ==> FirstDrift(repo, Selected(known, message).value, outcome.tag)
  {
    hide Selected, SplitSubjectBody, NotesOf, MessageMatches, CommitMessage, StepOf, Drifted;
    if !repo.hasParent {
      return NotResumable;
    }
    var selected := SelectReleases(known, message);
    if selected.None? {
      return NotResumable;
    }
    var body := SplitSubjectBody(message).1;
    var drift := FindDrift(repo, selected.value);
    NotesDoNotMatter(repo, body, selected.value);
    if drift.Some? {
      return TagDrift(drift.value);
    }
    var found := AddSteps(repo, body, selected.value);
    if found.None? {
      return NotResumable;
    }
    var (releases, steps) := found.value;
    if !MessageMatches(message, CommitMessage(releases)) {
      return NotResumable;
    }
    return Resumable(releases, steps);
  }

  lemma NotesDoNotMatter(repo: Repository, body: string, selected: seq<Release>)
    ensures forall i | 0 <= i < |selected| ::
      && Drifted(repo, WithNotes(body, selected)[i]) == Drifted(repo, selected[i])
      && StepOf(repo, WithNotes(body, selected)[i]) == StepOf(repo, selected[i])
  {
    hide NotesOf, Inferred;
  }

  /** The release raised the version that HEAD's parent held. */
  ghost predicate Raised(repo: Repository, r: Release) {
    && r.name in repo.parents && repo.parse(r.version).Some?
    && exists kind :: Bumped(repo.parents[r.name], kind) == repo.parse(r.version)
  }

  /** The tags of the releases that exist mark HEAD. */
  predicate TagsAreHere(repo: Repository, releases: seq<Release>) {
    forall i | 0 <= i < |releases| ::
      var tag := repo.tagOf(releases[i].name, releases[i].version);
      tag in repo.refs ==> repo.refs[tag] == repo.head
  }

  lemma RaisedIsFound(repo: Repository, r: Release)
    requires Raised(repo, r)
    ensures StepOf(repo, r).Some?
  {
    hide Inferred, Bumped;
    var next := repo.parse(r.version);
    var kind :| Bumped(repo.parents[r.name], kind) == next;
    StepIsFound(repo, r.name, repo.parents[r.name], kind, next.value);
  }

  lemma ResumesUnlessDrifted(repo: Repository, known: map<string, string>, releases: seq<Release>, message: string)
    requires repo.hasParent && Derived(known, message) == Some(releases)
    requires forall i | 0 <= i < |releases| :: StepOf(repo, releases[i]).Some?
    ensures Resumes(repo, known, message) <==> TagsAreHere(repo, releases)
  {
    hide Derived, StepOf;
  }

  /** A commit that prints releases which raised their packages' versions is resumed, squashed or
      not, exactly when none of their tags marks another commit. */
  lemma ReleaseCommitResumes(repo: Repository, known: map<string, string>, releases: seq<Release>, number: string)
    requires Recoverable(known, releases) && repo.hasParent
    requires forall i | 0 <= i < |releases| :: Raised(repo, releases[i])
    requires number != "" && AllDigits(number)
    ensures Resumes(repo, known, CommitMessage(releases)) <==> TagsAreHere(repo, releases)
    ensures Resumes(repo, known, Squashed(releases, number)) <==> TagsAreHere(repo, releases)
  {
    ResumeRoundTrip(known, releases);
    SquashedRoundTrip(known, releases, number);
    hide Derived, Recoverable, CommitMessage, Squashed, StepOf, Raised, Resumes, TagsAreHere;
    forall i | 0 <= i < |releases| ensures StepOf(repo, releases[i]).Some? {
      RaisedIsFound(repo, releases[i]);
    }
    ResumesUnlessDrifted(repo, known, releases, CommitMessage(releases));
    ResumesUnlessDrifted(repo, known, releases, Squashed(releases, number));
  }
}
