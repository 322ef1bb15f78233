/** Searching, splitting, joining and trimming of strings, as the standard library of the source
    language does it. */
module TextScan {
  import opened Wrappers

  predicate OccursAt(s: string, sub: string, i: nat) {
    i + |sub| <= |s| && s[i..i + |sub|] == sub
  }

  /** The first occurrence, if any. */
  function IndexOf(s: string, sub: string): (at: Option<nat>)
    ensures at.Some? ==> OccursAt(s, sub, at.value) && forall j: nat | j < at.value :: !OccursAt(s, sub, j)
    ensures at.None? ==> forall j: nat :: !OccursAt(s, sub, j)
  {
    IndexFrom(s, sub, 0)
  }

  function IndexFrom(s: string, sub: string, from: nat): (at: Option<nat>)
    requires from <= |s|
    requires forall j: nat | j < from :: !OccursAt(s, sub, j)
    ensures at.Some? ==> OccursAt(s, sub, at.value) && forall j: nat | j < at.value :: !OccursAt(s, sub, j)
    ensures at.None? ==> forall j: nat :: !OccursAt(s, sub, j)
    decreases |s| - from
  {
    if OccursAt(s, sub, from) then Some(from)
    else if from == |s| then None
    else IndexFrom(s, sub, from + 1)
  }

  lemma IndexUnique(s: string, sub: string, i: nat)
    requires OccursAt(s, sub, i) && forall j: nat | j < i :: !OccursAt(s, sub, j)
    ensures IndexOf(s, sub) == Some(i)
  {
  }

  function LastIndexOf(s: string, c: char): (at: Option<nat>)
    ensures at.Some? ==> at.value < |s| && s[at.value] == c && forall j | at.value < j < |s| :: s[j] != c
    ensures at.None? ==> c !in s
  {
    if s == "" then None
    else if s[|s| - 1] == c then Some(|s| - 1)
    else LastIndexOf(s[..|s| - 1], c)
  }

  function SplitOn(s: string, sep: string): (parts: seq<string>)
    requires sep != ""
    ensures parts != []
    decreases |s|
  {
    var at := IndexOf(s, sep);
    if at.None? then [s] else [s[..at.value]] + SplitOn(s[at.value + |sep|..], sep)
  }

  function Join(parts: seq<string>, sep: string): string {
    if parts == [] then ""
    else if |parts| == 1 then parts[0]
    else parts[0] + sep + Join(parts[1..], sep)
  }

  lemma JoinSnoc(parts: seq<string>, last: string, sep: string)
    ensures Join(parts + [last], sep) == if parts == [] then last else Join(parts, sep) + sep + last
  {
    if |parts| > 1 {
      JoinSnoc(parts[1..], last, sep);
      assert (parts + [last])[1..] == parts[1..] + [last];
      assert Join(parts + [last], sep) == parts[0] + sep + (Join(parts[1..], sep) + sep + last);
    } else if |parts| == 1 {
      assert (parts + [last])[1..] == [last];
    }
  }

  lemma StartsDifferently(s: string, sub: string, i: nat)
    requires sub != "" && (i < |s| ==> s[i] != sub[0])
    ensures !OccursAt(s, sub, i)
  {
    if i + |sub| <= |s| {
      assert s[i..i + |sub|][0] == s[i];
    }
  }

  lemma SeparatorFollows(part: string, sep: string, rest: string)
    requires sep != "" && sep[0] !in part
    ensures IndexOf(part + sep + rest, sep) == Some(|part|)
  {
    var s := part + sep + rest;
    assert OccursAt(s, sep, |part|);
    forall j: nat | j < |part| ensures !OccursAt(s, sep, j) {
      assert s[j] == part[j];
      StartsDifferently(s, sep, j);
    }
  }

  lemma NoSeparator(part: string, sep: string)
    requires sep != "" && sep[0] !in part
    ensures IndexOf(part, sep) == None
  {
    forall j: nat ensures !OccursAt(part, sep, j) {
      StartsDifferently(part, sep, j);
    }
  }

  /** Splitting undoes joining when no part holds the separator's first character. */
  lemma {:induction false} SplitJoined(parts: seq<string>, sep: string)
    requires sep != "" && parts != []
    requires forall i | 0 <= i < |parts| :: sep[0] !in parts[i]
    ensures SplitOn(Join(parts, sep), sep) == parts
  {
    if |parts| == 1 {
      NoSeparator(parts[0], sep);
    } else {
      var rest := Join(parts[1..], sep);
      SeparatorFollows(parts[0], sep, rest);
      assert (parts[0] + sep + rest)[..|parts[0]|] == parts[0];
      assert (parts[0] + sep + rest)[|parts[0]| + |sep|..] == rest;
      SplitJoined(parts[1..], sep);
    }
  }

  predicate IsSpace(c: char) {
    c == ' ' || c == '\t' || c == '\n' || c == '\r' || c as int == 11 || c as int == 12
  }

  function TrimLeft(s: string): string {
    if s != "" && IsSpace(s[0]) then TrimLeft(s[1..]) else s
  }

  function TrimRight(s: string): string {
    if s != "" && IsSpace(s[|s| - 1]) then TrimRight(s[..|s| - 1]) else s
  }

  function TrimSpace(s: string): string {
    TrimRight(TrimLeft(s))
  }

  predicate Trimmed(s: string) {
    s != "" && !IsSpace(s[0]) && !IsSpace(s[|s| - 1])
  }

  lemma {:induction false} JoinLacks(parts: seq<string>, sep: string, c: char)
    requires c !in sep && forall i | 0 <= i < |parts| :: c !in parts[i]
    ensures c !in Join(parts, sep)
  {
    if |parts| > 1 {
      JoinLacks(parts[1..], sep, c);
    }
  }

  lemma {:induction false} JoinEnds(parts: seq<string>, sep: string)
    requires parts != [] && parts[|parts| - 1] != ""
    ensures Join(parts, sep) != ""
    ensures Join(parts, sep)[|Join(parts, sep)| - 1] == parts[|parts| - 1][|parts[|parts| - 1]| - 1]
  {
    if |parts| > 1 {
      JoinEnds(parts[1..], sep);
    }
  }

  /** White space is a blank, or one of the five control characters from tab to carriage return. */
  lemma SpaceByText(c: char)
    ensures IsSpace(c) <==> c as int == 32 || 9 <= c as int <= 13
  {
  }

  lemma TrimmedStays(s: string)
    requires Trimmed(s)
    ensures TrimSpace(s) == s
  {
  }

  lemma LineBreakSplits(subject: string, rest: string)
    requires '\n' !in subject
    ensures IndexOf(subject + "\n" + rest, "\n") == Some(|subject|)
  {
    SeparatorFollows(subject, "\n", rest);
  }

  function Lower(c: char): char {
    if 'A' <= c <= 'Z' then (c as int + 32) as char else c
  }

  function ToLower(s: string): string {
    seq(|s|, i requires 0 <= i < |s| => Lower(s[i]))
  }

  /** Joining undoes splitting. */
  lemma {:induction false} JoinSplit(s: string, sep: string)
    requires sep != ""
    ensures Join(SplitOn(s, sep), sep) == s
    decreases |s|
  {
    var at := IndexOf(s, sep);
    if at.Some? {
      var rest := s[at.value + |sep|..];
      JoinSplit(rest, sep);
      assert SplitOn(s, sep)[1..] == SplitOn(rest, sep);
      assert s == s[..at.value] + sep + rest;
    }
  }

  /** No part holds a one-character separator. */
  lemma {:induction false} SplitParts(s: string, c: char)
    ensures forall i | 0 <= i < |SplitOn(s, [c])| :: c !in SplitOn(s, [c])[i]
    decreases |s|
  {
    var at := IndexOf(s, [c]);
    if at.Some? {
      SplitParts(s[at.value + 1..], c);
      NoneBefore(s, c, at.value);
    } else {
      NoneBefore(s, c, |s|);
    }
  }

  lemma NoneBefore(s: string, c: char, n: nat)
    requires n <= |s| && forall j: nat | j < n :: !OccursAt(s, [c], j)
    ensures c !in s[..n]
  {
    if c in s[..n] {
      var j :| 0 <= j < n && s[..n][j] == c;
      assert s[j..j + 1] == [c];
      assert OccursAt(s, [c], j);
    }
  }

  predicate IsDigit(c: char) {
    '0' <= c <= '9'
  }

  predicate AllDigits(s: string) {
    forall i | 0 <= i < |s| :: IsDigit(s[i])
  }

  lemma {:induction false} SplitLacks(s: string, sep: string, c: char)
    requires sep != "" && c !in s
    ensures forall i | 0 <= i < |SplitOn(s, sep)| :: c !in SplitOn(s, sep)[i]
    decreases |s|
  {
    var at := IndexOf(s, sep);
    if at.Some? {
      SplitLacks(s[at.value + |sep|..], sep, c);
    }
  }

  /** A paragraph break after a line is found again: lines and rests of equal texts are equal. */
  lemma SameHeadline(a: string, x: string, b: string, y: string)
    requires '\n' !in a && '\n' !in b && a + "\n\n" + x == b + "\n\n" + y
    ensures a == b && x == y
  {
    var s := a + "\n\n" + x;
    assert s == a + "\n" + ("\n" + x) && s == b + "\n" + ("\n" + y);
    LineBreakSplits(a, "\n" + x);
    LineBreakSplits(b, "\n" + y);
    assert a == s[..|a|] == b;
    assert x == s[|a| + 2..] == y;
  }

  lemma {:induction false} TrimLeftIdle(s: string)
    ensures TrimLeft(s) == "" || !IsSpace(TrimLeft(s)[0])
  {
    if s != "" && IsSpace(s[0]) {
      TrimLeftIdle(s[1..]);
    }
  }

  lemma {:induction false} TrimRightIdle(s: string)
    ensures TrimRight(s) <= s && (TrimRight(s) == "" || !IsSpace(TrimRight(s)[|TrimRight(s)| - 1]))
  {
    if s != "" && IsSpace(s[|s| - 1]) {
      TrimRightIdle(s[..|s| - 1]);
    }
  }

  /** Trimming twice is trimming once. */
  lemma TrimTwice(s: string)
    ensures TrimSpace(TrimSpace(s)) == TrimSpace(s)
  {
    TrimLeftIdle(s);
    TrimRightIdle(TrimLeft(s));
  }

  /** Joined parts are trimmed if the first starts and the last ends so. */
  lemma TrimmedJoin(parts: seq<string>, sep: string)
    requires parts != [] && parts[0] != "" && !IsSpace(parts[0][0])
    requires var last := parts[|parts| - 1]; last != "" && !IsSpace(last[|last| - 1])
    ensures Trimmed(Join(parts, sep))
  {
    JoinEnds(parts, sep);
    JoinStarts(parts, sep);
    hide Join, IsSpace;
  }

  lemma JoinStarts(parts: seq<string>, sep: string)
    requires parts != [] && parts[0] != ""
    ensures parts[0] <= Join(parts, sep)
  {
  }
}
