/** The release commit message: printing a plan, and recovering the plan from the commit. */
module ReleaseMessage {
  import opened Wrappers
  import opened TextScan

  datatype Release = Release(name: string, version: string, notes: string)

  const Prefix := "chore(release): "

  function Header(r: Release): string {
    "# " + r.name + " " + r.version + "\n\n"
  }

  function Block(r: Release): string {
    Header(r) + r.notes
  }

  function Entry(r: Release): string {
    r.name + "@" + r.version
  }

  function Entries(releases: seq<Release>): seq<string> {
    seq(|releases|, i requires 0 <= i < |releases| => Entry(releases[i]))
  }

  function Blocks(releases: seq<Release>): seq<string> {
    seq(|releases|, i requires 0 <= i < |releases| => Block(releases[i]))
  }

  function Subject(releases: seq<Release>): string {
    if |releases| == 1 then Prefix + releases[0].name + " " + releases[0].version
    else Prefix + Join(Entries(releases), ", ")
  }

  function Body(releases: seq<Release>): string {
    if |releases| == 1 then releases[0].notes else Join(Blocks(releases), "\n\n")
  }

  function CommitMessage(releases: seq<Release>): string {
    Subject(releases) + "\n\n" + Body(releases)
  }

  method RenderCommitMessage(releases: seq<Release>) returns (message: string)
    ensures message == CommitMessage(releases)
  {
    if |releases| == 1 {
      return Prefix + releases[0].name + " " + releases[0].version + "\n\n" + releases[0].notes;
    }
    var summary: seq<string>, blocks: seq<string> := [], [];
    for i := 0 to |releases|
      invariant summary == Entries(releases[..i]) && blocks == Blocks(releases[..i])
    {
      summary := summary + [Entry(releases[i])];
      blocks := blocks + [Block(releases[i])];
    }
    assert releases[..|releases|] == releases;
    return Prefix + Join(summary, ", ") + "\n\n" + Join(blocks, "\n\n");
  }

  function TrailingDigits(s: string): (n: nat)
    ensures n <= |s| && forall i | |s| - n <= i < |s| :: IsDigit(s[i])
    ensures n < |s| ==> !IsDigit(s[|s| - n - 1])
  {
    if s != "" && IsDigit(s[|s| - 1]) then TrailingDigits(s[..|s| - 1]) + 1 else 0
  }

  /** Removes the pull request number that a squash merge appends to a subject. */
  function StripSquash(s: string): string {
    if s == "" || s[|s| - 1] != ')' then s
    else
      var digits := TrailingDigits(s[..|s| - 1]);
      var end := |s| - 1 - digits;
      if digits >= 1 && end >= 3 && s[end - 3..end] == " (#" then s[..end - 3] else s
  }

  function SquashSuffix(number: string): string {
    " (#" + number + ")"
  }

  lemma {:induction false} DigitsAtEnd(t: string, digits: string)
    requires forall i | 0 <= i < |digits| :: IsDigit(digits[i])
    requires t == "" || !IsDigit(t[|t| - 1])
    ensures TrailingDigits(t + digits) == |digits|
  {
    if digits != "" {
      DigitsAtEnd(t, digits[..|digits| - 1]);
      assert (t + digits)[..|t + digits| - 1] == t + digits[..|digits| - 1];
    } else {
      assert t + digits == t;
    }
  }

  lemma SquashStripped(t: string, number: string)
    requires number != "" && AllDigits(number)
    ensures StripSquash(t + SquashSuffix(number)) == t
  {
    var front := t + " (#";
    DigitsAtEnd(front, number);
    SuffixPieces(t, number);
    hide TrailingDigits, AllDigits, SquashSuffix;
    assert t + SquashSuffix(number) != "";
  }

  lemma SuffixPieces(t: string, number: string)
    ensures var s, n := t + SquashSuffix(number), |t| + 3 + |number|;
      && |s| == n + 1 && s[n] == ')' && s[..n] == (t + " (#") + number
      && s[|t|..|t| + 3] == " (#" && s[..|t|] == t
  {
  }

  /** Subject, and the rest of the message without surrounding white space. */
  function SplitSubjectBody(message: string): (string, string) {
    var at := IndexOf(message, "\n");
    if at.None? then (message, "") else (message[..at.value], TrimSpace(message[at.value..]))
  }

  /** The first line is the subject; without further lines there is no body, and white space around the
      body is no part of it. */
  lemma SplitByText(subject: string, rest: string)
    requires '\n' !in subject
    ensures SplitSubjectBody(subject) == (subject, "")
    ensures SplitSubjectBody(subject + "\n" + rest) == (subject, TrimSpace("\n" + rest))
  {
    NoSeparator(subject, "\n");
    LineBreakSplits(subject, rest);
    var message := subject + "\n" + rest;
    assert message[..|subject|] == subject && message[|subject|..] == "\n" + rest;
  }

  predicate MessageMatches(message: string, expected: string) {
    || message == expected
    || var (subject, body) := SplitSubjectBody(message); StripSquash(subject) + "\n\n" + body == expected
  }

  function ParseEntry(known: map<string, string>, part: string): Option<Release> {
    var at := LastIndexOf(part, '@');
    if at.None? || at.value == 0 || at.value == |part| - 1 then None
    else
      var name, version := part[..at.value], part[at.value + 1..];
      if name in known && known[name] == version then Some(Release(name, version, "")) else None
  }

  function ParseEntries(known: map<string, string>, parts: seq<string>): Option<seq<Release>> {
    if parts == [] then Some([])
    else
      var front, last := ParseEntries(known, parts[..|parts| - 1]), ParseEntry(known, parts[|parts| - 1]);
      if front.Some? && last.Some? then Some(front.value + [last.value]) else None
  }

  function ParseSingle(known: map<string, string>, text: string): Option<seq<Release>> {
    var at := IndexOf(text, " ");
    if at.None? then None
    else
      var name, version := text[..at.value], text[at.value + 1..];
      if name != "" && version != "" && name in known && known[name] == version
      then Some([Release(name, version, "")]) else None
  }

  /** The packages and versions a subject names, all at the versions their manifests hold. */
  function ParseSubject(known: map<string, string>, text: string): Option<seq<Release>> {
    if IndexOf(text, ", ").None? then ParseSingle(known, text)
    else ParseEntries(known, SplitOn(text, ", "))
  }

  /** The notes between a package's header and the next header. */
  function NotesOf(body: string, r: Release, count: nat): string {
    if count <= 1 then body
    else
      var start := IndexOf(body, Header(r));
      if start.None? then ""
      else
        var rest := body[start.value + |Header(r)|..];
        var end := IndexOf(rest, "\n\n# ");
        if end.None? then rest else rest[..end.value]
  }

  /** A release without its header in the body has no notes, unless it is the only one. */
  lemma NotesByText(body: string, r: Release, count: nat)
    ensures count <= 1 ==> NotesOf(body, r, count) == body
    ensures count > 1 && (forall at: nat :: !OccursAt(body, Header(r), at)) ==> NotesOf(body, r, count) == ""
  {
    hide Header;
    if count > 1 && IndexOf(body, Header(r)).Some? {
      assert OccursAt(body, Header(r), IndexOf(body, Header(r)).value);
    }
  }

  function WithNotes(body: string, found: seq<Release>): seq<Release> {
    seq(|found|, i requires 0 <= i < |found| => found[i].(notes := NotesOf(body, found[i], |found|)))
  }

  /** What the subject of a message selects. */
  function Selected(known: map<string, string>, message: string): Option<seq<Release>> {
    var stripped := StripSquash(SplitSubjectBody(message).0);
    if Prefix <= stripped then ParseSubject(known, stripped[|Prefix|..]) else None
  }

  /** The plan a commit message proves, given the versions the manifests hold. */
  function Derived(known: map<string, string>, message: string): Option<seq<Release>> {
    var selected := Selected(known, message);
    if selected.None? then None
    else
      var releases := WithNotes(SplitSubjectBody(message).1, selected.value);
      if MessageMatches(message, CommitMessage(releases)) then Some(releases) else None
  }

  /** Names without spaces, commas and line breaks; versions as the version grammar has them;
      notes that neither begin nor end with white space nor hold a top-level header. */
  predicate Printable(r: Release) {
    && r.name != "" && ' ' !in r.name && ',' !in r.name && '\n' !in r.name
    && r.version != "" && IsDigit(r.version[0])
    && ' ' !in r.version && ',' !in r.version && '\n' !in r.version && '@' !in r.version && ')' !in r.version
    && Trimmed(r.notes) && IndexOf(r.notes, "\n\n# ").None?
  }

  function BlockStart(releases: seq<Release>, i: nat): nat
    requires i < |releases|
  {
    if i == 0 then 0 else |Block(releases[0])| + 2 + BlockStart(releases[1..], i - 1)
  }

  /** No package's header occurs before its own block. */
  predicate HeadersFirst(releases: seq<Release>) {
    forall i, j: nat | 0 <= i < |releases| && j < BlockStart(releases, i) ::
      !OccursAt(Body(releases), Header(releases[i]), j)
  }

  predicate Recoverable(known: map<string, string>, releases: seq<Release>) {
    && releases != [] && (|releases| > 1 ==> HeadersFirst(releases))
    && (forall i | 0 <= i < |releases| ::
          Printable(releases[i]) && releases[i].name in known && known[releases[i].name] == releases[i].version)
  }

  lemma NoParenthesis(s: string)
    requires s != "" && s[|s| - 1] != ')'
    ensures StripSquash(s) == s
  {
  }

  lemma EntryIsOneLine(r: Release)
    requires Printable(r)
    ensures '\n' !in Entry(r) && Entry(r) != "" && Entry(r)[|Entry(r)| - 1] != ')'
  {
    assert r.version[|r.version| - 1] in r.version;
  }

  lemma SubjectIsOneLine(releases: seq<Release>)
    requires releases != [] && forall i | 0 <= i < |releases| :: Printable(releases[i])
    ensures '\n' !in Subject(releases) && StripSquash(Subject(releases)) == Subject(releases)
  {
    if |releases| == 1 {
      var version := releases[0].version;
      assert version[|version| - 1] in version;
      NoParenthesis(Subject(releases));
    } else {
      forall i | 0 <= i < |releases| ensures '\n' !in Entries(releases)[i] {
        EntryIsOneLine(releases[i]);
      }
      EntryIsOneLine(releases[|releases| - 1]);
      hide Printable, Entry, StripSquash, Join;
      JoinLacks(Entries(releases), ", ", '\n');
      JoinEnds(Entries(releases), ", ");
      NoParenthesis(Subject(releases));
    }
  }

  /** Parsing an entry undoes printing it. */
  lemma EntryRoundTrip(known: map<string, string>, r: Release)
    requires Printable(r) && r.name in known && known[r.name] == r.version
    ensures ParseEntry(known, Entry(r)) == Some(r.(notes := ""))
  {
    var part := Entry(r);
    assert part[|r.name|] == '@';
    assert part[|r.name| + 1..] == r.version;
    assert part[..|r.name|] == r.name;
    assert forall i | |r.name| < i < |part| :: part[i] == r.version[i - |r.name| - 1];
  }

  function Bare(releases: seq<Release>): seq<Release> {
    seq(|releases|, i requires 0 <= i < |releases| => releases[i].(notes := ""))
  }

  lemma {:induction false} EntriesRoundTrip(known: map<string, string>, releases: seq<Release>)
    requires forall i | 0 <= i < |releases| ::
      Printable(releases[i]) && releases[i].name in known && known[releases[i].name] == releases[i].version
    ensures ParseEntries(known, Entries(releases)) == Some(Bare(releases))
  {
    var parts := Entries(releases);
    if releases == [] {
      assert parts == [] && Bare(releases) == [];
    } else {
      var n := |releases| - 1;
      EntriesRoundTrip(known, releases[..n]);
      EntryRoundTrip(known, releases[n]);
      hide Printable, Entry, ParseEntry;
      assert parts[..n] == Entries(releases[..n]) && parts[n] == Entry(releases[n]);
      assert ParseEntries(known, parts) == Some(Bare(releases[..n]) + [releases[n].(notes := "")]);
      assert Bare(releases) == Bare(releases[..n]) + [releases[n].(notes := "")];
    }
  }

  lemma SingleRoundTrip(known: map<string, string>, r: Release)
    requires Recoverable(known, [r])
    ensures ParseSubject(known, r.name + " " + r.version) == Some([r.(notes := "")])
  {
    var text := r.name + " " + r.version;
    assert Printable([r][0]);
    assert ',' !in text;
    NoSeparator(text, ", ");
    SeparatorFollows(r.name, " ", r.version);
    assert text[..|r.name|] == r.name && text[|r.name| + 1..] == r.version;
  }

  lemma ManyRoundTrip(known: map<string, string>, releases: seq<Release>)
    requires Recoverable(known, releases) && |releases| > 1
    ensures ParseSubject(known, Join(Entries(releases), ", ")) == Some(Bare(releases))
  {
    EntriesRoundTrip(known, releases);
    assert forall i | 0 <= i < |releases| :: ',' !in Entries(releases)[i];
    hide HeadersFirst, Printable, Entry, ParseEntries;
    SeparatorFollows(Entries(releases)[0], ", ", Join(Entries(releases)[1..], ", "));
    SplitJoined(Entries(releases), ", ");
  }

  /** The subject of a printed message names exactly its packages and versions. */
  lemma SubjectRoundTrip(known: map<string, string>, releases: seq<Release>)
    requires Recoverable(known, releases)
    ensures Prefix <= Subject(releases)
    ensures ParseSubject(known, Subject(releases)[|Prefix|..]) == Some(Bare(releases))
  {
    hide ParseSubject, Recoverable;
    if |releases| == 1 {
      var r := releases[0];
      assert releases == [r] && Bare(releases) == [r.(notes := "")];
      SingleRoundTrip(known, r);
      assert Subject(releases)[|Prefix|..] == r.name + " " + r.version;
    } else {
      assert releases != [] by { NotEmpty(known, releases); }
      ManyRoundTrip(known, releases);
      assert Subject(releases)[|Prefix|..] == Join(Entries(releases), ", ");
    }
  }

  lemma NotEmpty(known: map<string, string>, releases: seq<Release>)
    requires Recoverable(known, releases)
    ensures releases != []
  {
  }

  function Tail(releases: seq<Release>): string {
    if releases == [] then "" else "\n\n" + Join(Blocks(releases), "\n\n")
  }

  lemma BodyStep(releases: seq<Release>)
    requires |releases| > 1
    ensures Join(Blocks(releases), "\n\n") == Block(releases[0]) + "\n\n" + Join(Blocks(releases[1..]), "\n\n")
  {
    hide Block;
    assert Blocks(releases)[1..] == Blocks(releases[1..]);
  }

  lemma Skip(front: string, rest: string, at: nat)
    requires at <= |rest|
    ensures (front + "\n\n" + rest)[|front| + 2 + at..] == rest[at..]
  {
  }

  lemma {:induction false} BodyAt(releases: seq<Release>, i: nat)
    requires i < |releases|
    ensures var body, at := Join(Blocks(releases), "\n\n"), BlockStart(releases, i);
      && at <= |body| && body[at..] == Block(releases[i]) + Tail(releases[i + 1..])
  {
    if i > 0 {
      hide Block, Blocks, Join;
      BodyStep(releases);
      BodyAt(releases[1..], i - 1);
      assert releases[1..][i..] == releases[i + 1..];
      Skip(Block(releases[0]), Join(Blocks(releases[1..]), "\n\n"), BlockStart(releases[1..], i - 1));
    } else if |releases| > 1 {
      hide Block, Blocks, Join;
      BodyStep(releases);
      Associate(Block(releases[0]), "\n\n", Join(Blocks(releases[1..]), "\n\n"));
    } else {
      hide Block;
      assert Block(releases[0]) + "" == Block(releases[0]);
    }
  }

  /** Notes end at the next header: none begins inside them. */
  lemma NotesEnd(notes: string, rest: string)
    requires Trimmed(notes) && IndexOf(notes, "\n\n# ").None?
    ensures IndexOf(notes + "\n\n# " + rest, "\n\n# ") == Some(|notes|)
  {
    var s, sep := notes + "\n\n# " + rest, "\n\n# ";
    assert OccursAt(s, sep, |notes|);
    forall j: nat | j < |notes| ensures !OccursAt(s, sep, j) {
      assert s[j] == notes[j] && s[|notes|] == '\n' && s[|notes| - 1] == notes[|notes| - 1] != '\n';
      if j + 4 <= |notes| {
        assert s[j..j + 4] == notes[j..j + 4];
        assert !OccursAt(notes, sep, j);
      } else {
        assert sep[1] == '\n' && sep[2] == '#' && sep[3] == ' ' && sep[0] == '\n';
        assert s[j..j + 4][|notes| - j] == s[|notes|];
        assert s[j..j + 4][|notes| - j - 1] == s[|notes| - 1];
      }
    }
  }

  /** What follows a package's header is its notes, up to the end or the next header. */
  lemma NotesAfterHeader(releases: seq<Release>, i: nat)
    requires i < |releases| && Printable(releases[i])
    ensures var rest := releases[i].notes + Tail(releases[i + 1..]);
      (if IndexOf(rest, "\n\n# ").None? then rest else rest[..IndexOf(rest, "\n\n# ").value]) == releases[i].notes
  {
    var r, next := releases[i], releases[i + 1..];
    hide Join, Blocks;
    if next == [] {
      assert r.notes + "" == r.notes;
    } else {
      TailStarts(next);
      var more := next[0].name + " " + next[0].version + "\n\n" + next[0].notes + Tail(next[1..]);
      assert r.notes + Tail(next) == r.notes + "\n\n# " + more;
      NotesEnd(r.notes, more);
    }
  }

  lemma BlockAt(releases: seq<Release>, i: nat)
    requires i < |releases| && |releases| > 1
    ensures var at := BlockStart(releases, i);
      && at <= |Body(releases)|
      && Body(releases)[at..] == Header(releases[i]) + (releases[i].notes + Tail(releases[i + 1..]))
  {
    BodyAt(releases, i);
    hide Header, BlockStart, Tail, Join, Blocks;
    Associate(Header(releases[i]), releases[i].notes, Tail(releases[i + 1..]));
  }

  lemma Associate(a: string, b: string, c: string)
    ensures a + b + c == a + (b + c)
  {
  }

  lemma FirstHeader(releases: seq<Release>, i: nat)
    requires i < |releases| && HeadersFirst(releases)
    ensures forall j: nat | j < BlockStart(releases, i) :: !OccursAt(Body(releases), Header(releases[i]), j)
  {
    hide OccursAt, Body, Header, BlockStart;
  }

  lemma NotesFound(body: string, header: string, at: nat, rest: string)
    requires at <= |body| && body[at..] == header + rest
    requires forall j: nat | j < at :: !OccursAt(body, header, j)
    ensures IndexOf(body, header) == Some(at) && at + |header| <= |body| && body[at + |header|..] == rest
  {
    HeaderFound(body, header, rest, at);
    hide OccursAt;
    IndexUnique(body, header, at);
  }

  lemma NotesRoundTrip(releases: seq<Release>, i: nat)
    requires i < |releases| && Printable(releases[i])
    requires |releases| > 1 ==> HeadersFirst(releases)
    ensures NotesOf(Body(releases), releases[i].(notes := ""), |releases|) == releases[i].notes
  {
    hide Body, Header, BlockStart, Tail, HeadersFirst, Printable, OccursAt, IndexOf, Join, Blocks, NotesOf;
    if |releases| > 1 {
      BlockAt(releases, i);
      FirstHeader(releases, i);
      NotesFound(Body(releases), Header(releases[i]), BlockStart(releases, i),
                 releases[i].notes + Tail(releases[i + 1..]));
      NotesAfterHeader(releases, i);
      HeaderIgnoresNotes(releases[i]);
      NotesAre(Body(releases), releases[i].(notes := ""), |releases|, releases[i].notes + Tail(releases[i + 1..]));
    } else {
      SingleNotes(releases, i);
    }
  }

  lemma SingleNotes(releases: seq<Release>, i: nat)
    requires i < |releases| == 1
    ensures NotesOf(Body(releases), releases[i].(notes := ""), |releases|) == releases[i].notes
  {
  }

  lemma NotesAre(body: string, r: Release, count: nat, rest: string)
    requires count > 1 && IndexOf(body, Header(r)).Some?
    requires body[IndexOf(body, Header(r)).value + |Header(r)|..] == rest
    ensures NotesOf(body, r, count) ==
      if IndexOf(rest, "\n\n# ").None? then rest else rest[..IndexOf(rest, "\n\n# ").value]
  {
    hide Header;
  }

  lemma HeaderIgnoresNotes(r: Release)
    ensures Header(r.(notes := "")) == Header(r)
  {
  }

  lemma HeaderFound(body: string, header: string, rest: string, at: nat)
    requires at <= |body| && body[at..] == header + rest
    ensures OccursAt(body, header, at) && body[at + |header|..] == rest
  {
    assert body[at..at + |header|] == body[at..][..|header|];
    assert body[at + |header|..] == body[at..][|header|..];
  }

  lemma BodyBegins(releases: seq<Release>)
    requires releases != []
    ensures Join(Blocks(releases), "\n\n") == Block(releases[0]) + Tail(releases[1..])
  {
    hide Block, Join, Blocks, Tail;
    BodyAt(releases, 0);
    var body := Join(Blocks(releases), "\n\n");
    assert body[0..] == body;
  }

  lemma BlockBegins(r: Release, tail: string)
    ensures "\n\n" + (Block(r) + tail) == "\n\n# " + (r.name + " " + r.version + "\n\n" + r.notes + tail)
  {
  }

  lemma TailStarts(releases: seq<Release>)
    requires releases != []
    ensures Tail(releases) == "\n\n# " + (releases[0].name + " " + releases[0].version + "\n\n" + releases[0].notes
                                            + Tail(releases[1..]))
  {
    BodyBegins(releases);
    BlockBegins(releases[0], Tail(releases[1..]));
    hide Block, Join, Blocks;
  }

  lemma BlockEnds(r: Release)
    requires Printable(r)
    ensures Block(r) != "" && Block(r)[0] == '#' && !IsSpace(Block(r)[|Block(r)| - 1])
  {
    hide IndexOf;
  }

  lemma BodyIsTrimmed(releases: seq<Release>)
    requires releases != [] && forall k | 0 <= k < |releases| :: Printable(releases[k])
    ensures Trimmed(Body(releases))
  {
    if |releases| == 1 {
      assert Body(releases) == releases[0].notes;
    } else {
      BlockEnds(releases[0]);
      BlockEnds(releases[|releases| - 1]);
      hide Printable, Block, IsSpace, Join;
      TrimmedJoin(Blocks(releases), "\n\n");
    }
  }

  lemma SplitPrinted(subject: string, body: string)
    requires '\n' !in subject && Trimmed(body)
    ensures SplitSubjectBody(subject + "\n\n" + body) == (subject, body)
  {
    var message := subject + "\n\n" + body;
    assert message == subject + "\n" + ("\n" + body);
    LineBreakSplits(subject, "\n" + body);
    var rest := "\n\n" + body;
    assert message[|subject|..] == rest && message[..|subject|] == subject;
    assert rest[1..] == "\n" + body && rest[1..][1..] == body;
    assert TrimLeft(rest) == TrimLeft(rest[1..]) == TrimLeft(body);
    TrimmedStays(body);
  }

  /** The printed message with a squash merge's pull request number in its subject. */
  function Squashed(releases: seq<Release>, number: string): string {
    Subject(releases) + SquashSuffix(number) + "\n\n" + Body(releases)
  }

  lemma DerivedFrom(known: map<string, string>, releases: seq<Release>, message: string)
    requires Recoverable(known, releases) && MessageMatches(message, CommitMessage(releases))
    requires SplitSubjectBody(message).1 == Body(releases)
    requires StripSquash(SplitSubjectBody(message).0) == Subject(releases)
    ensures Derived(known, message) == Some(releases)
  {
    SubjectRoundTrip(known, releases);
    forall i | 0 <= i < |releases|
      ensures NotesOf(Body(releases), Bare(releases)[i], |releases|) == releases[i].notes
    {
      NotesRoundTrip(releases, i);
    }
    assert WithNotes(Body(releases), Bare(releases)) == releases;
  }

  /** Deriving a plan from its own commit message gives the plan back. */
  lemma ResumeRoundTrip(known: map<string, string>, releases: seq<Release>)
    requires Recoverable(known, releases)
    ensures Derived(known, CommitMessage(releases)) == Some(releases)
  {
    SubjectIsOneLine(releases);
    BodyIsTrimmed(releases);
    SplitPrinted(Subject(releases), Body(releases));
    DerivedFrom(known, releases, CommitMessage(releases));
  }

  lemma SquashedSplits(releases: seq<Release>, number: string)
    requires releases != [] && forall i | 0 <= i < |releases| :: Printable(releases[i])
    requires number != "" && AllDigits(number)
    ensures SplitSubjectBody(Squashed(releases, number)) == (Subject(releases) + SquashSuffix(number), Body(releases))
    ensures StripSquash(Subject(releases) + SquashSuffix(number)) == Subject(releases)
  {
    SubjectIsOneLine(releases);
    BodyIsTrimmed(releases);
    SuffixIsOneLine(number);
    SquashStripped(Subject(releases), number);
    hide Subject, Body, StripSquash, SquashSuffix, AllDigits, Printable, Trimmed, SplitSubjectBody;
    var subject := Subject(releases) + SquashSuffix(number);
    SplitPrinted(subject, Body(releases));
    assert Squashed(releases, number) == subject + "\n\n" + Body(releases);
  }

  lemma SuffixIsOneLine(number: string)
    requires AllDigits(number)
    ensures '\n' !in SquashSuffix(number)
  {
  }

  lemma SquashedMatches(releases: seq<Release>, number: string)
    requires releases != [] && forall i | 0 <= i < |releases| :: Printable(releases[i])
    requires number != "" && AllDigits(number)
    ensures MessageMatches(Squashed(releases, number), CommitMessage(releases))
  {
    SquashedSplits(releases, number);
    hide Subject, Body, StripSquash, SquashSuffix, AllDigits, Printable, Squashed, SplitSubjectBody;
  }

  /** And so it does after a squash merge appended a pull request number. */
  lemma SquashedRoundTrip(known: map<string, string>, releases: seq<Release>, number: string)
    requires Recoverable(known, releases) && number != "" && AllDigits(number)
    ensures Derived(known, Squashed(releases, number)) == Some(releases)
  {
    SquashedSplits(releases, number);
    SquashedMatches(releases, number);
    hide Subject, Body, StripSquash, SquashSuffix, AllDigits, Printable, Squashed, SplitSubjectBody, CommitMessage;
    hide MessageMatches, Derived;
    DerivedFrom(known, releases, Squashed(releases, number));
  }

  lemma TrailingDigitsAll(s: string)
    ensures AllDigits(s[|s| - TrailingDigits(s)..])
  {
    var start := |s| - TrailingDigits(s);
    var tail := s[start..];
    forall i | 0 <= i < |tail| ensures IsDigit(tail[i]) {
      assert tail[i] == s[start + i];
    }
  }

  lemma Pieces(s: string, i: nat, j: nat)
    requires i <= j < |s|
    ensures s == s[..i] + (s[i..j] + s[j..|s| - 1] + [s[|s| - 1]])
  {
  }

  /** Stripping removes a pull request number from the end, or nothing. */
  lemma StrippedIsSquash(s: string) returns (number: string)
    ensures StripSquash(s) == s || (number != "" && AllDigits(number) && s == StripSquash(s) + SquashSuffix(number))
  {
    number := "";
    if StripSquash(s) != s {
      var n := |s| - 1;
      var end := n - TrailingDigits(s[..n]);
      number := s[end..n];
      TrailingDigitsAll(s[..n]);
      assert number == s[..n][end..];
      Pieces(s, end - 3, end);
      assert StripSquash(s) == s[..end - 3] && s[end - 3..end] == " (#" && [s[n]] == ")";
      hide StripSquash, TrailingDigits, AllDigits;
    }
  }

  predicate OneLine(r: Release) {
    '\n' !in r.name && '\n' !in r.version
  }

  lemma {:induction false} ParsedEntriesAreOneLine(known: map<string, string>, parts: seq<string>)
    requires ParseEntries(known, parts).Some? && forall i | 0 <= i < |parts| :: '\n' !in parts[i]
    ensures forall i | 0 <= i < |ParseEntries(known, parts).value| :: OneLine(ParseEntries(known, parts).value[i])
  {
    if parts != [] {
      ParsedEntriesAreOneLine(known, parts[..|parts| - 1]);
    }
  }

  lemma ParsedAreOneLine(known: map<string, string>, text: string)
    requires ParseSubject(known, text).Some? && '\n' !in text
    ensures forall i | 0 <= i < |ParseSubject(known, text).value| :: OneLine(ParseSubject(known, text).value[i])
    ensures ParseSubject(known, text).value != []
  {
    if IndexOf(text, ", ").Some? {
      SplitLacks(text, ", ", '\n');
      ParsedEntriesAreOneLine(known, SplitOn(text, ", "));
      ParsedAreKnown(known, SplitOn(text, ", "));
    }
  }

  lemma SubjectLacksBreaks(releases: seq<Release>)
    requires releases != [] && forall i | 0 <= i < |releases| :: OneLine(releases[i])
    ensures '\n' !in Subject(releases)
  {
    if |releases| > 1 {
      forall i | 0 <= i < |releases| ensures '\n' !in Entries(releases)[i] {
        assert OneLine(releases[i]);
      }
      JoinLacks(Entries(releases), ", ", '\n');
    } else {
      assert OneLine(releases[0]);
    }
  }

  /** A message is its first line, a break, and the rest. */
  lemma SplitBack(subject: string, body: string)
    requires '\n' !in subject
    ensures SplitSubjectBody(subject + "\n\n" + body) == (subject, TrimSpace(body))
  {
    var message, rest := subject + "\n\n" + body, "\n\n" + body;
    assert message == subject + "\n" + ("\n" + body);
    LineBreakSplits(subject, "\n" + body);
    assert message[|subject|..] == rest && message[..|subject|] == subject;
    assert rest[1..] == "\n" + body && rest[1..][1..] == body;
    assert TrimLeft(rest) == TrimLeft(rest[1..]) == TrimLeft(body);
  }

  lemma SubjectHasNoBreak(message: string)
    ensures '\n' !in SplitSubjectBody(message).0
  {
    var at := IndexOf(message, "\n");
    NoneBefore(message, '\n', if at.Some? then at.value else |message|);
  }

  lemma DerivedParts(known: map<string, string>, message: string)
    requires Derived(known, message).Some?
    ensures var subject := SplitSubjectBody(message).0;
      && Prefix <= StripSquash(subject) && ParseSubject(known, StripSquash(subject)[|Prefix|..]).Some?
      && Derived(known, message).value ==
           WithNotes(SplitSubjectBody(message).1, ParseSubject(known, StripSquash(subject)[|Prefix|..]).value)
      && MessageMatches(message, CommitMessage(Derived(known, message).value))
  {
    hide ParseSubject, WithNotes, MessageMatches, CommitMessage, SplitSubjectBody, StripSquash;
  }

  lemma DerivedAreOneLine(known: map<string, string>, message: string)
    requires Derived(known, message).Some?
    ensures Derived(known, message).value != [] && '\n' !in Subject(Derived(known, message).value)
  {
    DerivedParts(known, message);
    SubjectHasNoBreak(message);
    var subject := SplitSubjectBody(message).0;
    var number := StrippedIsSquash(subject);
    var text := StripSquash(subject)[|Prefix|..];
    hide Derived, SplitSubjectBody, StripSquash, ParseSubject, MessageMatches, CommitMessage, NotesOf, Subject;
    ParsedAreOneLine(known, text);
    SubjectLacksBreaks(Derived(known, message).value);
  }

  /** The subject of a message, when it is what the releases print, perhaps with a pull request number. */
  ghost predicate SubjectPrints(subject: string, releases: seq<Release>) {
    || subject == Subject(releases)
    || exists number :: number != "" && AllDigits(number) && subject == Subject(releases) + SquashSuffix(number)
  }

  /** Whatever is derived prints back to the commit's message: its first line is the printed subject,
      perhaps with a pull request number appended, and the rest is the printed body, but for white
      space around it; and the plan names only versions the manifests hold. */
  lemma DerivedReprints(known: map<string, string>, message: string)
    requires Derived(known, message).Some?
    ensures var releases := Derived(known, message).value;
      var (subject, body) := SplitSubjectBody(message);
      && releases != [] && SubjectPrints(subject, releases) && body == TrimSpace(Body(releases))
      && (message != CommitMessage(releases) ==> body == Body(releases))
    ensures forall i | 0 <= i < |Derived(known, message).value| ::
      var r := Derived(known, message).value[i];
      r.name != "" && r.version != "" && r.name in known && known[r.name] == r.version
  {
    DerivedIsKnown(known, message);
    DerivedParts(known, message);
    DerivedAreOneLine(known, message);
    SubjectHasNoBreak(message);
    var releases := Derived(known, message).value;
    var (subject, body) := SplitSubjectBody(message);
    var number := StrippedIsSquash(subject);
    if message == CommitMessage(releases) {
      SplitBack(Subject(releases), Body(releases));
    } else {
      BodyIsTrimmedOnce(message);
      hide Derived, Subject, Body, StripSquash, TrimSpace;
      SameHeadline(StripSquash(subject), body, Subject(releases), Body(releases));
    }
  }

  /** A message matches a printed one exactly if it is that, or its first line is the printed subject,
      perhaps with a pull request number, and the rest, but for white space around it, the printed body. */
  lemma MatchesByText(releases: seq<Release>, message: string)
    requires releases != [] && forall i | 0 <= i < |releases| :: Printable(releases[i])
    ensures MessageMatches(message, CommitMessage(releases)) <==>
      var (subject, body) := SplitSubjectBody(message); SubjectPrints(subject, releases) && body == Body(releases)
  {
    var (subject, body) := SplitSubjectBody(message);
    SubjectIsOneLine(releases);
    BodyIsTrimmed(releases);
    SplitPrinted(Subject(releases), Body(releases));
    SubjectHasNoBreak(message);
    var number := StrippedIsSquash(subject);
    if message != CommitMessage(releases) && MessageMatches(message, CommitMessage(releases)) {
      hide Subject, Body, StripSquash, SplitSubjectBody;
      SameHeadline(StripSquash(subject), body, Subject(releases), Body(releases));
    }
    if SubjectPrints(subject, releases) && subject != Subject(releases) {
      var digits :| digits != "" && AllDigits(digits) && subject == Subject(releases) + SquashSuffix(digits);
      SquashStripped(Subject(releases), digits);
    }
  }

  lemma BodyIsTrimmedOnce(message: string)
    ensures TrimSpace(SplitSubjectBody(message).1) == SplitSubjectBody(message).1
  {
    var at := IndexOf(message, "\n");
    if at.Some? {
      TrimTwice(message[at.value..]);
    }
  }

  lemma DerivedIsKnown(known: map<string, string>, message: string)
    requires Derived(known, message).Some?
    ensures forall i | 0 <= i < |Derived(known, message).value| ::
      var r := Derived(known, message).value[i];
      r.name != "" && r.version != "" && r.name in known && known[r.name] == r.version
  {
    DerivedParts(known, message);
    var text := StripSquash(SplitSubjectBody(message).0)[|Prefix|..];
    hide Derived, SplitSubjectBody, StripSquash, MessageMatches, NotesOf, Subject, CommitMessage;
    if IndexOf(text, ", ").Some? {
      ParsedAreKnown(known, SplitOn(text, ", "));
    }
  }

  lemma {:induction false} ParsedAreKnown(known: map<string, string>, parts: seq<string>)
    requires ParseEntries(known, parts).Some?
    ensures var found := ParseEntries(known, parts).value;
      && |found| == |parts|
      && (forall i | 0 <= i < |found| :: found[i].name in known && known[found[i].name] == found[i].version)
      && (forall i | 0 <= i < |found| :: found[i].name != "" && found[i].version != "")
  {
    if parts != [] {
      ParsedAreKnown(known, parts[..|parts| - 1]);
    }
  }

  /** The entries of a subject, refusing all of them at the first misfit. */
  method SelectEntries(known: map<string, string>, parts: seq<string>) returns (selected: Option<seq<Release>>)
    ensures selected == ParseEntries(known, parts)
  {
    hide ParseEntry;
    var found: seq<Release> := [];
    for i := 0 to |parts|
      invariant ParseEntries(known, parts[..i]) == Some(found)
    {
      var entry := ParseEntry(known, parts[i]);
      assert parts[..i + 1][..i] == parts[..i];
      if entry.None? {
        OneMisfit(known, parts, i + 1);
        return None;
      }
      found := found + [entry.value];
    }
    assert parts[..|parts|] == parts;
    return Some(found);
  }

  /** The packages and versions the subject of a release commit names. */
  method SelectReleases(known: map<string, string>, message: string) returns (selected: Option<seq<Release>>)
    ensures selected == Selected(known, message)
  {
    hide SplitSubjectBody, StripSquash, ParseSingle, ParseEntries, SplitOn;
    var stripped := StripSquash(SplitSubjectBody(message).0);
    if !(Prefix <= stripped) {
      return None;
    }
    var text := stripped[|Prefix|..];
    if IndexOf(text, ", ").None? {
      return ParseSingle(known, text);
    }
    selected := SelectEntries(known, SplitOn(text, ", "));
  }

  lemma {:induction false} OneMisfit(known: map<string, string>, parts: seq<string>, n: nat)
    requires n <= |parts| && ParseEntries(known, parts[..n]).None?
    ensures ParseEntries(known, parts).None?
    decreases |parts| - n
  {
    if n == |parts| {
      assert parts[..n] == parts;
    } else {
      assert parts[..n + 1][..n] == parts[..n];
      OneMisfit(known, parts, n + 1);
    }
  }
}
