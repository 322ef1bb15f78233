/** Release notes: how they group commits, and the shape that lets a resumed release find them
    again in its commit message. */
module Changelog {
  import opened Wrappers
  import opened TextScan

  datatype Commit = Commit(kind: string, breaking: bool, scope: string, description: string, hash: string,
                           warning: Option<string>)

  const Titles := ["Breaking Changes", "Features", "Bug Fixes", "Performance", "Other Changes"]

  /** Breaking commits come first, and unknown kinds last. */
  function GroupOf(c: Commit): (g: nat)
    ensures g < |Titles|
  {
    if c.breaking || c.kind == "major" then 0
    else if c.kind == "feat" then 1
    else if c.kind == "fix" then 2
    else if c.kind == "perf" then 3
    else 4
  }

  function InGroup(commits: seq<Commit>, g: nat): seq<Commit> {
    if commits == [] then []
    else
      var last := commits[|commits| - 1];
      InGroup(commits[..|commits| - 1], g) + if GroupOf(last) == g then [last] else []
  }

  function Line(c: Commit): string {
    "- " + (if c.scope != "" then "**" + c.scope + ":** " else "") + c.description + " (" +
    (if |c.hash| > 7 then c.hash[..7] else c.hash) + ")"
  }

  function CommitLines(c: Commit): seq<string> {
    [Line(c)] + if c.breaking && c.warning.Some? then ["  - BREAKING: " + c.warning.value] else []
  }

  function AllLines(commits: seq<Commit>): seq<string> {
    if commits == [] then []
    else AllLines(commits[..|commits| - 1]) + CommitLines(commits[|commits| - 1])
  }

  function Section(commits: seq<Commit>, g: nat): seq<string>
    requires g < |Titles|
  {
    var members := InGroup(commits, g);
    if members == [] then [] else ["### " + Titles[g], ""] + AllLines(members) + [""]
  }

  function Sections(commits: seq<Commit>, count: nat): seq<string>
    requires count <= |Titles|
  {
    if count == 0 then [] else Sections(commits, count - 1) + Section(commits, count - 1)
  }

  function Lines(version: string, date: string, commits: seq<Commit>): seq<string> {
    ["## " + version + " (" + date + ")", ""] + Sections(commits, |Titles|)
  }

  function Notes(version: string, date: string, commits: seq<Commit>): string {
    TrimRight(Join(Lines(version, date, commits), "\n"))
  }

  method GroupCommits(commits: seq<Commit>) returns (groups: seq<seq<Commit>>)
    ensures |groups| == |Titles| && forall g | 0 <= g < |Titles| :: groups[g] == InGroup(commits, g)
  {
    groups := seq(|Titles|, _ => []);
    for i := 0 to |commits|
      invariant |groups| == |Titles| && forall g | 0 <= g < |Titles| :: groups[g] == InGroup(commits[..i], g)
    {
      assert commits[..i + 1][..i] == commits[..i];
      var g := GroupOf(commits[i]);
      groups := groups[g := groups[g] + [commits[i]]];
    }
    assert commits[..|commits|] == commits;
  }

  method GenerateNotes(version: string, date: string, commits: seq<Commit>) returns (notes: string)
    ensures notes == Notes(version, date, commits)
  {
    hide InGroup, Section, Join;
    var groups := GroupCommits(commits);
    var lines: seq<string> := [];
    for g := 0 to |Titles|
      invariant lines == Sections(commits, g)
    {
      var section := NoteGroup(commits, g, groups[g]);
      lines := lines + section;
    }
    return TrimRight(Join(["## " + version + " (" + date + ")", ""] + lines, "\n"));
  }

  method NoteGroup(ghost commits: seq<Commit>, g: nat, members: seq<Commit>) returns (lines: seq<string>)
    requires g < |Titles| && members == InGroup(commits, g)
    ensures lines == Section(commits, g)
  {
    hide InGroup, AllLines;
    if members == [] {
      return [];
    }
    var noted := NoteAll(members);
    return ["### " + Titles[g], ""] + noted + [""];
  }

  method NoteAll(commits: seq<Commit>) returns (lines: seq<string>)
    ensures lines == AllLines(commits)
  {
    hide Line;
    lines := [];
    for i := 0 to |commits|
      invariant lines == AllLines(commits[..i])
    {
      assert commits[..i + 1][..i] == commits[..i];
      var c := commits[i];
      var noted := [Line(c)];
      if c.breaking && c.warning.Some? {
        noted := noted + ["  - BREAKING: " + c.warning.value];
      }
      lines := lines + noted;
    }
    assert commits[..|commits|] == commits;
  }

  /** Commits as the parser yields them: every part stays within its line. */
  predicate OneLiners(commits: seq<Commit>) {
    forall i | 0 <= i < |commits| :: OneLiner(commits[i])
  }

  predicate OneLiner(c: Commit) {
    && '\n' !in c.scope && '\n' !in c.description && '\n' !in c.hash
    && (c.warning.Some? ==> '\n' !in c.warning.value)
  }

  predicate HeadsSection(line: string) {
    |line| >= 2 && line[0] == '#' && line[1] == ' '
  }

  predicate Flat(lines: seq<string>) {
    forall i | 0 <= i < |lines| :: '\n' !in lines[i] && !HeadsSection(lines[i])
  }

  lemma {:induction false} MembersAreOneLiners(commits: seq<Commit>, g: nat)
    requires OneLiners(commits)
    ensures OneLiners(InGroup(commits, g))
  {
    if commits != [] {
      MembersAreOneLiners(commits[..|commits| - 1], g);
    }
  }

  lemma {:induction false} AllLinesFlat(commits: seq<Commit>)
    requires OneLiners(commits)
    ensures Flat(AllLines(commits))
  {
    if commits != [] {
      AllLinesFlat(commits[..|commits| - 1]);
      var c := commits[|commits| - 1];
      assert OneLiner(c);
      assert Line(c)[0] == '-';
      assert Flat(CommitLines(c));
    }
  }

  lemma {:induction false} SectionsFlat(commits: seq<Commit>, count: nat)
    requires OneLiners(commits) && count <= |Titles|
    ensures Flat(Sections(commits, count))
  {
    assert Flat([]);
    hide Section, Flat, OneLiners;
    if count > 0 {
      SectionsFlat(commits, count - 1);
      SectionFlat(commits, count - 1);
      BothFlat(Sections(commits, count - 1), Section(commits, count - 1));
    }
  }

  lemma BothFlat(a: seq<string>, b: seq<string>)
    requires Flat(a) && Flat(b)
    ensures Flat(a + b)
  {
  }

  lemma SectionFlat(commits: seq<Commit>, g: nat)
    requires OneLiners(commits) && g < |Titles|
    ensures Flat(Section(commits, g))
  {
    MembersAreOneLiners(commits, g);
    AllLinesFlat(InGroup(commits, g));
    TitlesFlat(g);
    hide OneLiners, InGroup, AllLines;
  }

  lemma TitlesFlat(g: nat)
    requires g < |Titles|
    ensures '\n' !in "### " + Titles[g]
  {
  }

  /** No line of the text but its first begins a top-level header. */
  predicate NoHeader(s: string) {
    forall i | 0 <= i && i + 2 < |s| :: !(s[i] == '\n' && s[i + 1] == '#' && s[i + 2] == ' ')
  }

  lemma OneLineNoHeader(line: string)
    requires '\n' !in line
    ensures NoHeader(line)
  {
    assert forall i | 0 <= i < |line| :: line[i] != '\n';
  }

  lemma {:induction false} JoinNoHeader(lines: seq<string>)
    requires lines != [] && Flat(lines)
    ensures NoHeader(Join(lines, "\n"))
  {
    var n := |lines| - 1;
    assert lines == lines[..n] + [lines[n]];
    JoinSnoc(lines[..n], lines[n], "\n");
    OneLineNoHeader(lines[n]);
    if n > 0 {
      JoinNoHeader(lines[..n]);
      SnocNoHeader(Join(lines[..n], "\n"), lines[n]);
    }
  }

  lemma SnocNoHeader(s: string, line: string)
    requires NoHeader(s) && NoHeader(line) && !HeadsSection(line) && '\n' !in line
    ensures NoHeader(s + "\n" + line)
  {
    var t := s + "\n" + line;
    forall i | 0 <= i && i + 2 < |t| ensures !(t[i] == '\n' && t[i + 1] == '#' && t[i + 2] == ' ') {
      if i + 2 < |s| {
        assert t[i] == s[i] && t[i + 1] == s[i + 1] && t[i + 2] == s[i + 2];
      } else if i > |s| {
        assert t[i] == line[i - |s| - 1];
      } else if i == |s| {
        assert t[i + 1] == line[0] && t[i + 2] == line[1];
      } else {
        assert t[|s|] == '\n';
      }
    }
  }

  lemma NoHeaderNoMarker(s: string)
    requires NoHeader(s)
    ensures IndexOf(s, "\n\n# ").None?
  {
    forall j: nat ensures !OccursAt(s, "\n\n# ", j) {
      if j + 4 <= |s| {
        assert s[j + 1] == s[j..j + 4][1] && s[j + 2] == s[j..j + 4][2] && s[j + 3] == s[j..j + 4][3];
      }
    }
  }

  /** Generated notes neither begin nor end with white space, and no package header begins in
      them, so a message that holds them can be taken apart again. */
  lemma NotesAreRecoverable(version: string, date: string, commits: seq<Commit>)
    requires '\n' !in version && '\n' !in date && OneLiners(commits)
    ensures Trimmed(Notes(version, date, commits)) && IndexOf(Notes(version, date, commits), "\n\n# ").None?
  {
    var lines := Lines(version, date, commits);
    SectionsFlat(commits, |Titles|);
    assert lines[0][0] == '#' && lines[0][1] == '#' && '\n' !in lines[0];
    assert Flat(lines);
    JoinNoHeader(lines);
    var text := Join(lines, "\n");
    assert text[0] == '#';
    TrimKeepsStart(text);
    NoHeaderNoMarker(TrimRight(text));
  }

  lemma {:induction false} TrimKeepsStart(s: string)
    requires s != "" && !IsSpace(s[0])
    ensures TrimRight(s) != "" && TrimRight(s) <= s && !IsSpace(TrimRight(s)[|TrimRight(s)| - 1])
  {
    if IsSpace(s[|s| - 1]) {
      TrimKeepsStart(s[..|s| - 1]);
    }
  }

  /** Every commit is noted in the section of its group, as often as it was given, and in no other. */
  lemma {:induction false} GroupsPartition(commits: seq<Commit>, c: Commit, g: nat)
    ensures multiset(InGroup(commits, g))[c] == if GroupOf(c) == g then multiset(commits)[c] else 0
  {
    if commits != [] {
      GroupsPartition(commits[..|commits| - 1], c, g);
      assert commits == commits[..|commits| - 1] + [commits[|commits| - 1]];
    }
  }

  /** The heading a commit belongs under. */
  predicate Belongs(c: Commit, heading: string) {
    heading ==
      if c.breaking then "### Breaking Changes"
      else match c.kind
           case "major" => "### Breaking Changes"
           case "feat" => "### Features"
           case "fix" => "### Bug Fixes"
           case "perf" => "### Performance"
           case _ => "### Other Changes"
  }

  /** A line that tells the commit's scope, if it has one, its description and seven digits of its hash. */
  ghost predicate Tells(line: string, c: Commit) {
    exists scope, short :: line == "- " + scope + c.description + " (" + short + ")" && Abridges(c, scope, short)
  }

  predicate Abridges(c: Commit, scope: string, short: string) {
    && (if c.scope == "" then scope == "" else scope == "**" + c.scope + ":** ")
    && short <= c.hash && (|short| == 7 || (|short| < 7 && short == c.hash))
  }

  predicate Heads(line: string) {
    |line| >= 1 && line[0] == '#'
  }

  /** The line at l tells the commit, and its warning if it is breaking and has one; it stands below its
      heading at h, and no other heading comes in between. */
  ghost predicate ToldUnder(lines: seq<string>, h: nat, l: nat, c: Commit) {
    && h < l < |lines| && Belongs(c, lines[h]) && Tells(lines[l], c)
    && (forall k | h < k <= l :: !Heads(lines[k]))
    && (c.breaking && c.warning.Some? ==> l + 1 < |lines| && lines[l + 1] == "  - BREAKING: " + c.warning.value)
  }

  lemma {:induction false} LinesNeverHead(commits: seq<Commit>)
    ensures forall l | 0 <= l < |AllLines(commits)| :: !Heads(AllLines(commits)[l])
  {
    if commits != [] {
      LinesNeverHead(commits[..|commits| - 1]);
      var c := commits[|commits| - 1];
      assert Line(c)[0] == '-';
      assert forall k | 0 <= k < |CommitLines(c)| :: !Heads(CommitLines(c)[k]);
      hide CommitLines, Heads;
    }
  }

  lemma LineTells(c: Commit)
    ensures Tells(Line(c), c)
  {
    var scope := if c.scope != "" then "**" + c.scope + ":** " else "";
    var short := if |c.hash| > 7 then c.hash[..7] else c.hash;
    assert Line(c) == "- " + scope + c.description + " (" + short + ")" && Abridges(c, scope, short);
  }

  lemma {:induction false} ToldAmong(commits: seq<Commit>, c: Commit) returns (l: nat)
    requires c in commits
    ensures l < |AllLines(commits)| && AllLines(commits)[l] == Line(c)
    ensures c.breaking && c.warning.Some? ==>
      l + 1 < |AllLines(commits)| && AllLines(commits)[l + 1] == "  - BREAKING: " + c.warning.value
  {
    var front, last := commits[..|commits| - 1], commits[|commits| - 1];
    assert commits == front + [last];
    hide Line;
    if c in front {
      l := ToldAmong(front, c);
    } else {
      l := |AllLines(front)|;
    }
  }

  lemma {:induction false} SectionWithin(commits: seq<Commit>, g: nat, count: nat)
    returns (before: seq<string>, after: seq<string>)
    requires g < count <= |Titles|
    ensures Sections(commits, count) == before + Section(commits, g) + after
  {
    hide Section;
    if g == count - 1 {
      before, after := Sections(commits, count - 1), [];
    } else {
      before, after := SectionWithin(commits, g, count - 1);
      after := after + Section(commits, count - 1);
    }
  }

  lemma ToldWithin(before: seq<string>, lines: seq<string>, after: seq<string>, h: nat, l: nat, c: Commit)
    requires ToldUnder(lines, h, l, c)
    ensures ToldUnder(before + lines + after, |before| + h, |before| + l, c)
  {
    hide Belongs, Tells, Heads;
    var all := before + lines + after;
    assert forall k | 0 <= k < |lines| :: all[|before| + k] == lines[k];
    forall k | |before| + h < k <= |before| + l ensures !Heads(all[k]) {
      assert all[k] == lines[k - |before|];
    }
  }

  lemma ToldBelow(heading: string, lines: seq<string>, m: nat, c: Commit)
    requires Belongs(c, heading) && m < |lines| && Tells(lines[m], c)
    requires forall k | 0 <= k < |lines| :: !Heads(lines[k])
    requires c.breaking && c.warning.Some? ==> m + 1 < |lines| && lines[m + 1] == "  - BREAKING: " + c.warning.value
    ensures ToldUnder([heading, ""] + lines + [""], 0, m + 2, c)
  {
    hide Belongs, Tells;
    assert !Heads("");
    hide Heads;
    var all := [heading, ""] + lines + [""];
    assert forall k | 0 <= k < |lines| :: all[k + 2] == lines[k];
    forall k | 0 < k <= m + 2 ensures !Heads(all[k]) {
      assert k > 1 ==> all[k] == lines[k - 2];
    }
  }

  lemma {:induction false} InItsGroup(commits: seq<Commit>, c: Commit)
    requires c in commits
    ensures c in InGroup(commits, GroupOf(c))
  {
    var front, last := commits[..|commits| - 1], commits[|commits| - 1];
    assert commits == front + [last];
    if c in front {
      InItsGroup(front, c);
    }
  }

  lemma TitleBelongs(c: Commit)
    ensures Belongs(c, "### " + Titles[GroupOf(c)])
  {
  }

  lemma ToldInSection(commits: seq<Commit>, c: Commit) returns (l: nat)
    requires c in commits
    ensures ToldUnder(Section(commits, GroupOf(c)), 0, l, c)
  {
    InItsGroup(commits, c);
    TitleBelongs(c);
    LineTells(c);
    hide Line, Tells, Belongs, InGroup, AllLines, Heads, GroupOf, ToldUnder;
    var members := InGroup(commits, GroupOf(c));
    var m := ToldAmong(members, c);
    LinesNeverHead(members);
    ToldBelow("### " + Titles[GroupOf(c)], AllLines(members), m, c);
    l := m + 2;
  }

  /** Every commit of a release is told in its notes, on a line under the heading of its kind. */
  lemma EveryCommitIsTold(version: string, date: string, commits: seq<Commit>, c: Commit) returns (h: nat, l: nat)
    requires c in commits
    ensures ToldUnder(Lines(version, date, commits), h, l, c)
  {
    hide Section, Sections, ToldUnder, GroupOf;
    var m := ToldInSection(commits, c);
    var before, after := SectionWithin(commits, GroupOf(c), |Titles|);
    var first := ["## " + version + " (" + date + ")", ""];
    assert Lines(version, date, commits) == first + before + Section(commits, GroupOf(c)) + after;
    ToldWithin(first + before, Section(commits, GroupOf(c)), after, 0, m, c);
    h, l := |first + before|, |first + before| + m;
  }
}
