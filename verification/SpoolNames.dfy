/** File names of the spool: twenty digits that sort as numbers, and the suffixes that tell records,
    markers, temporary files and quarantined records apart. */
module SpoolNames {
  import opened Wrappers
  import opened CrashDisk
  import opened TextScan

  const Width := 20

  function Pow10(k: nat): (p: nat)
    ensures p > 0
  {
    if k == 0 then 1 else 10 * Pow10(k - 1)
  }

  function Digit(c: char): (d: nat)
    requires IsDigit(c)
    ensures d < 10
  {
    c as int - '0' as int
  }

  function DigitChar(d: nat): (c: char)
    requires d < 10
    ensures IsDigit(c) && Digit(c) == d
  {
    (d + '0' as int) as char
  }

  function Value(s: string): nat
    requires AllDigits(s)
  {
    if s == "" then 0 else Digit(s[0]) * Pow10(|s| - 1) + Value(s[1..])
  }

  /** The decimal digits of n, zero-padded to the width. */
  function Padded(n: nat, width: nat): (s: string)
    requires n < Pow10(width)
    ensures |s| == width && AllDigits(s)
  {
    if width == 0 then ""
    else
      QuotientIsDigit(n, Pow10(width - 1));
      [DigitChar(n / Pow10(width - 1))] + Padded(n % Pow10(width - 1), width - 1)
  }

  lemma QuotientIsDigit(n: nat, p: nat)
    requires p > 0 && n < 10 * p
    ensures n / p < 10 && n % p < p
  {
  }

  lemma {:induction false} ValueBound(s: string)
    requires AllDigits(s)
    ensures Value(s) < Pow10(|s|)
  {
    if s != "" {
      ValueBound(s[1..]);
      LeadingDigits(Digit(s[0]), Value(s[1..]), 10, 0, Pow10(|s| - 1));
    }
  }

  lemma DivideAgain(n: nat, p: nat)
    requires p > 0
    ensures (n / p) * p + n % p == n
  {
  }

  lemma {:induction false} PaddedValue(n: nat, width: nat)
    requires n < Pow10(width)
    ensures Value(Padded(n, width)) == n
  {
    if width > 0 {
      var p := Pow10(width - 1);
      QuotientIsDigit(n, p);
      PaddedValue(n % p, width - 1);
      var s := Padded(n, width);
      assert s[1..] == Padded(n % p, width - 1) && Digit(s[0]) == n / p;
      assert Value(s) == Digit(s[0]) * p + Value(s[1..]);
      DivideAgain(n, p);
    }
  }

  /** Comparing two numbers by a leading digit and a rest below its weight. */
  lemma LeadingDigits(c: nat, q: nat, d: nat, r: nat, p: nat)
    requires q < p && r < p
    ensures c * p + q < d * p + r <==> c < d || (c == d && q < r)
    ensures c * p + q == d * p + r <==> c == d && q == r
  {
    if c < d {
      assert (c + 1) * p <= d * p;
    } else if c > d {
      assert (d + 1) * p <= c * p;
    }
  }

  lemma DivideBack(d: nat, p: nat, r: nat)
    requires r < p
    ensures (d * p + r) / p == d && (d * p + r) % p == r
  {
    DivideAgain(d * p + r, p);
    LeadingDigits((d * p + r) / p, (d * p + r) % p, d, r, p);
  }

  lemma {:induction false} ValuePadded(s: string)
    requires AllDigits(s)
    ensures Value(s) < Pow10(|s|) && Padded(Value(s), |s|) == s
  {
    ValueBound(s);
    if s != "" {
      ValueBound(s[1..]);
      ValuePadded(s[1..]);
      DivideBack(Digit(s[0]), Pow10(|s| - 1), Value(s[1..]));
      assert s == [s[0]] + s[1..];
    }
  }

  /** The order in which directory entries are sorted. */
  predicate Before(a: string, b: string) {
    if a == "" || b == "" then a == "" && b != ""
    else a[0] < b[0] || (a[0] == b[0] && Before(a[1..], b[1..]))
  }

  /** Of two different names exactly one comes before the other, and what begins another comes before it. */
  lemma {:induction false} BeforeIsAnOrder(a: string, b: string)
    ensures Before(a, b) <==> !Before(b, a) && a != b
    ensures a < b ==> Before(a, b)
  {
    if a != "" && b != "" {
      BeforeIsAnOrder(a[1..], b[1..]);
      assert a == [a[0]] + a[1..] && b == [b[0]] + b[1..];
    }
  }

  lemma {:induction false} DigitsSortAsNumbers(a: string, b: string)
    requires AllDigits(a) && AllDigits(b) && |a| == |b|
    ensures Before(a, b) <==> Value(a) < Value(b)
  {
    if a != "" {
      DigitsSortAsNumbers(a[1..], b[1..]);
      ValueBound(a[1..]);
      ValueBound(b[1..]);
      var p := Pow10(|a| - 1);
      assert Value(a) == Digit(a[0]) * p + Value(a[1..]) && Value(b) == Digit(b[0]) * p + Value(b[1..]);
      LeadingDigits(Digit(a[0]), Value(a[1..]), Digit(b[0]), Value(b[1..]), p);
    }
  }

  lemma {:induction false} SuffixKeepsOrder(a: string, b: string, suffix: string)
    requires |a| == |b|
    ensures Before(a + suffix, b + suffix) <==> Before(a, b)
  {
    if a != "" {
      assert (a + suffix)[1..] == a[1..] + suffix && (b + suffix)[1..] == b[1..] + suffix;
      SuffixKeepsOrder(a[1..], b[1..], suffix);
    } else {
      assert a + suffix == suffix && b + suffix == suffix;
      NotBeforeItself(suffix);
    }
  }

  lemma {:induction false} NotBeforeItself(s: string)
    ensures !Before(s, s)
  {
    if s != "" {
      NotBeforeItself(s[1..]);
    }
  }

  lemma SequenceFits(n: Sequence)
    ensures n < Pow10(Width)
  {
    assert Pow10(5) == 100000;
    assert Pow10(10) == 100000 * Pow10(5);
    assert Pow10(15) == 100000 * Pow10(10);
    assert Pow10(20) == 100000 * Pow10(15);
  }

  function RecordName(n: Sequence): (name: string)
    ensures |name| == Width + 5
  {
    SequenceFits(n);
    Padded(n, Width) + ".json"
  }

  function HasSuffix(s: string, suffix: string): bool {
    |s| >= |suffix| && s[|s| - |suffix|..] == suffix
  }

  /** The number of a record file's name; numbers beyond 64 bits are no names of records. */
  function SequenceOf(name: string): Option<Sequence> {
    if |name| != Width + 5 || !HasSuffix(name, ".json") then None
    else if !AllDigits(name[..Width]) then None
    else if Value(name[..Width]) <= MAX_UINT64 then Some(Value(name[..Width])) else None
  }

  /** Reading undoes writing, for every 64-bit number, and nothing else reads as a number. */
  lemma RecordNameRoundTrip(n: Sequence, name: string)
    ensures SequenceOf(RecordName(n)) == Some(n)
    ensures SequenceOf(name) == Some(n) <==> name == RecordName(n)
  {
    SequenceFits(n);
    PaddedValue(n, Width);
    assert RecordName(n)[..Width] == Padded(n, Width);
    if SequenceOf(name) == Some(n) {
      ValuePadded(name[..Width]);
      assert name == name[..Width] + name[Width..];
    }
  }

  /** Sorted names are sorted numbers, over all 64-bit numbers. */
  lemma NamesSortAsNumbers(m: Sequence, n: Sequence)
    ensures Before(RecordName(m), RecordName(n)) <==> m < n
  {
    SequenceFits(m);
    SequenceFits(n);
    PaddedValue(m, Width);
    PaddedValue(n, Width);
    SuffixKeepsOrder(Padded(m, Width), Padded(n, Width), ".json");
    DigitsSortAsNumbers(Padded(m, Width), Padded(n, Width));
  }

  /** A positive number without leading zeros. */
  function Decimal(n: nat): (s: string)
    ensures s != "" && AllDigits(s) && Value(s) == n
  {
    if n < 10 then
      assert Value([DigitChar(n)]) == n * Pow10(0) + Value("");
      [DigitChar(n)]
    else
      var front := Decimal(n / 10);
      ValueSnoc(front, DigitChar(n % 10));
      front + [DigitChar(n % 10)]
  }

  lemma {:induction false} ValueSnoc(s: string, c: char)
    requires AllDigits(s) && IsDigit(c)
    ensures AllDigits(s + [c]) && Value(s + [c]) == 10 * Value(s) + Digit(c)
  {
    if s != "" {
      ValueSnoc(s[1..], c);
      var t := s + [c];
      assert t[1..] == s[1..] + [c] && t[0] == s[0] && |t| - 1 == |s|;
      assert Value(s) == Digit(s[0]) * Pow10(|s| - 1) + Value(s[1..]);
      assert Value(t) == Digit(s[0]) * Pow10(|s|) + Value(s[1..] + [c]);
      hide Value;
      Tenfold(Digit(s[0]), Pow10(|s| - 1), Value(s[1..]), Digit(c));
    } else {
      assert s + [c] == [c];
      assert Value([c]) == Digit(c) * Pow10(0) + Value("");
    }
  }

  lemma Tenfold(d: nat, p: nat, v: nat, c: nat)
    ensures d * (10 * p) + (10 * v + c) == 10 * (d * p + v) + c
  {
  }

  datatype Kind = Plain | Temporary | Terminal | Quarantined

  function WithoutSuffix(s: string, suffix: string): string {
    if HasSuffix(s, suffix) then s[..|s| - |suffix|] else s
  }

  predicate IsTemporary(name: string) {
    && name != "" && name[0] == '.' && HasSuffix(name, ".tmp")
    && var core := WithoutSuffix(name[1..], ".tmp");
    || SequenceOf(core).Some?
    || (HasSuffix(core, ".terminal") && SequenceOf(WithoutSuffix(core, ".terminal")).Some?)
  }

  predicate IsTerminal(name: string) {
    HasSuffix(name, ".terminal") && SequenceOf(WithoutSuffix(name, ".terminal")).Some?
  }

  /** A record's name, the corruption marker, and at most a dot and a number. */
  predicate IsQuarantined(name: string) {
    var at := IndexOf(name, ".json.corrupt");
    && at.Some? && SequenceOf(name[..at.value + 5]).Some?
    && var rest := name[at.value + 13..];
    rest == "" || (rest[0] == '.' && rest[1..] != "" && AllDigits(rest[1..]))
  }

  function KindOf(name: string): Kind {
    if IsTemporary(name) then Temporary
    else if IsTerminal(name) then Terminal
    else if IsQuarantined(name) then Quarantined
    else Plain
  }

  /** The file name of a directory entry. */
  function Spell(name: Name): string {
    match name
    case Record(n) => RecordName(n)
    case Marker(n) => RecordName(n) + ".terminal"
    case TempRecord(n) => "." + RecordName(n) + ".tmp"
    case TempMarker(n) => "." + RecordName(n) + ".terminal" + ".tmp"
    case Quarantine(n, copy) => RecordName(n) + ".corrupt" + if copy == 0 then "" else "." + Decimal(copy)
    case Foreign(text) => text
  }

  /** What the startup scan makes of a file name. */
  function Unspell(text: string): Name {
    if SequenceOf(text).Some? then Record(SequenceOf(text).value)
    else if IsTemporary(text) then
      var core := WithoutSuffix(text[1..], ".tmp");
      if SequenceOf(core).Some? then TempRecord(SequenceOf(core).value)
      else TempMarker(SequenceOf(WithoutSuffix(core, ".terminal")).value)
    else if IsTerminal(text) then Marker(SequenceOf(WithoutSuffix(text, ".terminal")).value)
    else if IsQuarantined(text) then
      var at := IndexOf(text, ".json.corrupt").value;
      var rest := text[at + 13..];
      Quarantine(SequenceOf(text[..at + 5]).value, if rest == "" then 0 else Value(rest[1..]))
    else Foreign(text)
  }

  lemma SuffixBack(s: string, suffix: string)
    ensures HasSuffix(s + suffix, suffix) && WithoutSuffix(s + suffix, suffix) == s
  {
  }

  lemma LastOfSuffix(s: string, suffix: string)
    requires s != "" && suffix != ""
    ensures HasSuffix(s, suffix) ==> s[|s| - 1] == suffix[|suffix| - 1]
  {
    if |s| >= |suffix| {
      assert s[|s| - |suffix|..][|suffix| - 1] == s[|s| - 1];
    }
  }

  lemma RecordIsDigits(n: Sequence)
    ensures RecordName(n)[0] != '.' && RecordName(n)[|RecordName(n)| - 1] == 'n'
    ensures RecordName(n)[..Width] + ".json" == RecordName(n) && '.' !in RecordName(n)[..Width]
  {
    SequenceFits(n);
    var digits := Padded(n, Width);
    assert RecordName(n)[..Width] == digits && RecordName(n)[0] == digits[0];
  }

  lemma RecordSpelling(n: Sequence)
    ensures Unspell(RecordName(n)) == Record(n) && KindOf(RecordName(n)) == Plain
  {
    var name := RecordName(n);
    RecordNameRoundTrip(n, name);
    RecordIsDigits(n);
    assert !IsTemporary(name);
    LastOfSuffix(name, ".terminal");
    forall j: nat ensures !OccursAt(name, ".json.corrupt", j) {
      if j < Width {
        assert name[..Width][j] == name[j];
        StartsDifferently(name, ".json.corrupt", j);
      }
    }
  }

  lemma MarkerSpelling(n: Sequence)
    ensures Unspell(RecordName(n) + ".terminal") == Marker(n) && KindOf(RecordName(n) + ".terminal") == Terminal
  {
    var name := RecordName(n) + ".terminal";
    RecordNameRoundTrip(n, RecordName(n));
    RecordIsDigits(n);
    SuffixBack(RecordName(n), ".terminal");
    assert name[0] == RecordName(n)[0];
  }

  lemma TempRecordSpelling(n: Sequence)
    ensures var name := "." + RecordName(n) + ".tmp"; Unspell(name) == TempRecord(n) && KindOf(name) == Temporary
  {
    var name := "." + RecordName(n) + ".tmp";
    RecordNameRoundTrip(n, RecordName(n));
    SuffixBack("." + RecordName(n), ".tmp");
    SuffixBack(RecordName(n), ".tmp");
    assert name[1..] == RecordName(n) + ".tmp";
  }

  lemma TempMarkerSpelling(n: Sequence)
    ensures var name := "." + RecordName(n) + ".terminal" + ".tmp";
      Unspell(name) == TempMarker(n) && KindOf(name) == Temporary
  {
    var name := "." + RecordName(n) + ".terminal" + ".tmp";
    RecordNameRoundTrip(n, RecordName(n));
    SuffixBack("." + RecordName(n) + ".terminal", ".tmp");
    SuffixBack(RecordName(n) + ".terminal", ".tmp");
    SuffixBack(RecordName(n), ".terminal");
    assert name[1..] == RecordName(n) + ".terminal" + ".tmp";
  }

  /** What may follow a record's name and the corruption marker: nothing, or a dot and a number. */
  predicate CopyTail(tail: string) {
    tail == "" || (|tail| >= 2 && tail[0] == '.' && forall i | 1 <= i < |tail| :: '0' <= tail[i] <= '9')
  }

  predicate NamedFor(text: string, before: string, n: Sequence, after: string) {
    text == before + RecordName(n) + after
  }

  lemma QuarantinedAre(text: string, n: Sequence, tail: string)
    requires NamedFor(text, "", n, ".corrupt" + tail) && CopyTail(tail)
    ensures KindOf(text) == Quarantined
  {
    var digits := RecordName(n)[..Width];
    RecordNameRoundTrip(n, RecordName(n));
    RecordIsDigits(n);
    assert text == digits + ".json.corrupt" + tail;
    SeparatorFollows(digits, ".json.corrupt", tail);
    assert text[..Width + 5] == RecordName(n) && text[Width + 13..] == tail;
    assert text[0] == RecordName(n)[0];
    LastOfSuffix(text, ".terminal");
  }

  lemma MarkedPieces(text: string, at: nat)
    requires OccursAt(text, ".json.corrupt", at)
    ensures at + 13 <= |text| && text == text[..at + 5] + ".corrupt" + text[at + 13..]
  {
    assert text[at..at + 13] == ".json.corrupt";
    assert text[at + 5..at + 13] == text[at..at + 13][5..] == ".corrupt";
  }

  lemma QuarantinedHas(text: string) returns (n: Sequence, tail: string)
    requires IsQuarantined(text)
    ensures NamedFor(text, "", n, ".corrupt" + tail) && CopyTail(tail)
  {
    hide SequenceOf, RecordName, OccursAt;
    var at := IndexOf(text, ".json.corrupt").value;
    MarkedPieces(text, at);
    n, tail := SequenceOf(text[..at + 5]).value, text[at + 13..];
    RecordNameRoundTrip(n, text[..at + 5]);
    assert tail != "" ==> forall i | 1 <= i < |tail| :: tail[i] == tail[1..][i - 1];
    assert text == "" + RecordName(n) + (".corrupt" + tail);
  }

  lemma SuffixSplits(s: string, suffix: string)
    ensures HasSuffix(s, suffix) ==> s == WithoutSuffix(s, suffix) + suffix
  {
  }

  lemma TerminalHas(text: string) returns (n: Sequence)
    requires IsTerminal(text)
    ensures NamedFor(text, "", n, ".terminal")
  {
    SuffixSplits(text, ".terminal");
    hide SequenceOf, RecordName, HasSuffix, WithoutSuffix;
    var core := WithoutSuffix(text, ".terminal");
    n := SequenceOf(core).value;
    RecordNameRoundTrip(n, core);
    assert text == "" + core + ".terminal";
  }

  lemma TemporaryCore(text: string) returns (core: string)
    requires IsTemporary(text)
    ensures text == "." + core + ".tmp" && (SequenceOf(core).Some? || IsTerminal(core))
  {
    core := WithoutSuffix(text[1..], ".tmp");
    SuffixSplits(text[1..], ".tmp");
    assert text == "." + text[1..];
    assert |core| >= Width;
    assert HasSuffix(text[1..], ".tmp") by {
      assert text[1..][|text| - 5..] == text[|text| - 4..];
    }
  }

  lemma TemporaryHas(text: string) returns (n: Sequence)
    requires IsTemporary(text)
    ensures NamedFor(text, ".", n, ".tmp") || NamedFor(text, ".", n, ".terminal" + ".tmp")
  {
    var core := TemporaryCore(text);
    hide SequenceOf, RecordName, IsTemporary, IsTerminal;
    if SequenceOf(core).Some? {
      n := SequenceOf(core).value;
      RecordNameRoundTrip(n, core);
    } else {
      n := TerminalHas(core);
      assert text == "." + RecordName(n) + (".terminal" + ".tmp");
    }
  }

  /** The scan takes for temporary, terminal or quarantined exactly the names that are a record's with
      what the spool adds to it. */
  lemma KindsByText(text: string)
    ensures KindOf(text) == Temporary <==>
      exists n :: NamedFor(text, ".", n, ".tmp") || NamedFor(text, ".", n, ".terminal" + ".tmp")
    ensures KindOf(text) == Terminal <==> exists n :: NamedFor(text, "", n, ".terminal")
    ensures KindOf(text) == Quarantined <==>
      exists n, tail :: NamedFor(text, "", n, ".corrupt" + tail) && CopyTail(tail)
  {
    forall n ensures NamedFor(text, ".", n, ".tmp") ==> KindOf(text) == Temporary {
      TempRecordSpelling(n);
    }
    forall n ensures NamedFor(text, ".", n, ".terminal" + ".tmp") ==> KindOf(text) == Temporary {
      TempMarkerSpelling(n);
      assert "." + RecordName(n) + (".terminal" + ".tmp") == "." + RecordName(n) + ".terminal" + ".tmp";
    }
    forall n ensures NamedFor(text, "", n, ".terminal") ==> KindOf(text) == Terminal {
      MarkerSpelling(n);
      assert "" + RecordName(n) + ".terminal" == RecordName(n) + ".terminal";
    }
    forall n, tail | NamedFor(text, "", n, ".corrupt" + tail) && CopyTail(tail) ensures KindOf(text) == Quarantined {
      QuarantinedAre(text, n, tail);
    }
    if KindOf(text) == Temporary {
      var n := TemporaryHas(text);
    } else if KindOf(text) == Terminal {
      var n := TerminalHas(text);
    } else if KindOf(text) == Quarantined {
      var n, tail := QuarantinedHas(text);
    }
  }

  lemma QuarantineSpelling(n: Sequence, copy: nat)
    ensures var name := Spell(Quarantine(n, copy)); Unspell(name) == Quarantine(n, copy) && KindOf(name) == Quarantined
  {
    var name := Spell(Quarantine(n, copy));
    var tail := if copy == 0 then "" else "." + Decimal(copy);
    var digits := RecordName(n)[..Width];
    RecordNameRoundTrip(n, RecordName(n));
    RecordIsDigits(n);
    assert name == digits + ".json.corrupt" + tail;
    SeparatorFollows(digits, ".json.corrupt", tail);
    assert name[..Width + 5] == RecordName(n) && name[Width + 13..] == tail;
    assert name[0] == RecordName(n)[0];
    if copy != 0 {
      assert tail[1..] == Decimal(copy);
    }
    LastOfSuffix(name, ".terminal");
  }

  /** The names the spool uses never clash, and the scan takes each for what it was made as. */
  lemma SpellingIsUnique(name: Name)
    requires !name.Foreign?
    ensures Unspell(Spell(name)) == name
    ensures KindOf(Spell(name)) ==
      match name
      case Record(_) => Plain
      case Marker(_) => Terminal
      case TempRecord(_) => Temporary
      case TempMarker(_) => Temporary
      case Quarantine(_, _) => Quarantined
  {
    match name
    case Record(n) => RecordSpelling(n);
    case Marker(n) => MarkerSpelling(n);
    case TempRecord(n) => TempRecordSpelling(n);
    case TempMarker(n) => TempMarkerSpelling(n);
    case Quarantine(n, copy) => QuarantineSpelling(n, copy);
  }
}
