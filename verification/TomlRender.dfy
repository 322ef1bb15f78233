/** Editing string tokens of a TOML document: one sorted pass that replaces each edited token and
    leaves every other byte alone. Quoting a value and parsing are parameters of the document. */
module TomlRender {
  import opened Wrappers

  datatype Edit = Edit(start: nat, end: nat, value: string)

  /** A string token: where it stands, and what it says. */
  datatype Token = Token(path: seq<string>, value: string, start: int, end: int)

  type Edits = map<nat, Edit>

  predicate Overlap(a: Edit, b: Edit) {
    a.start < b.end && b.start < a.end
  }

  ghost predicate Apart(edits: Edits) {
    forall i, j | i in edits && j in edits && i != j :: !Overlap(edits[i], edits[j])
  }

  /** Every edit is filed under its start and lies within the text. */
  ghost predicate Placed(data: string, edits: Edits) {
    forall i | i in edits :: edits[i].start == i && i < edits[i].end <= |data|
  }

  function Least(keys: set<nat>): (k: nat)
    requires keys != {}
    ensures k in keys && forall j | j in keys :: k <= j
  {
    LeastExists(keys);
    var k :| k in keys && forall j | j in keys :: k <= j;
    k
  }

  lemma {:induction false} LeastExists(keys: set<nat>)
    requires keys != {}
    ensures exists k :: k in keys && forall j | j in keys :: k <= j
  {
    var k :| k in keys;
    if keys != {k} {
      LeastExists(keys - {k});
      var m :| m in keys - {k} && forall j | j in keys - {k} :: m <= j;
      LeastOfMore(keys, k, m);
    }
  }

  lemma LeastOfMore(keys: set<nat>, k: nat, m: nat)
    requires k in keys && m in keys && forall j | j in keys - {k} :: m <= j
    ensures exists least :: least in keys && forall j | j in keys :: least <= j
  {
    var least := if k < m then k else m;
    forall j | j in keys ensures least <= j {
      assert j == k || j in keys - {k};
    }
  }

  /** The edits in the order of their starts. */
  function InOrder(edits: Edits): seq<Edit> {
    if edits == map[] then []
    else
      var k := Least(edits.Keys);
      [edits[k]] + InOrder(edits - {k})
  }

  ghost predicate Fits(data: string, pos: nat, es: seq<Edit>)
    decreases |es|
  {
    && pos <= |data|
    && (es != [] ==> pos <= es[0].start < es[0].end <= |data| && Fits(data, es[0].end, es[1..]))
  }

  /** The text from a position on, with each edited token replaced. */
  ghost function Rendered(data: string, pos: nat, es: seq<Edit>): string
    requires Fits(data, pos, es)
    decreases |es|
  {
    if es == [] then data[pos..]
    else data[pos..es[0].start] + es[0].value + Rendered(data, es[0].end, es[1..])
  }

  lemma {:induction false} OrderedMembers(edits: Edits)
    ensures forall e | e in InOrder(edits) :: exists k :: k in edits && edits[k] == e
    decreases |edits|
  {
    if edits != map[] {
      var k := Least(edits.Keys);
      OrderedMembers(edits - {k});
      assert forall e | e in InOrder(edits) :: e == edits[k] || e in InOrder(edits - {k});
    }
  }

  lemma ApartStep(edits: Edits, k: nat, data: string)
    requires Placed(data, edits) && k in edits && forall j | j in edits :: k <= j
    ensures Apart(edits) <==> Apart(edits - {k}) && forall j | j in edits - {k} :: edits[k].end <= j
  {
    if Apart(edits) {
      assert forall j | j in edits - {k} :: !Overlap(edits[k], edits[j]);
    } else {
      var i, j :| i in edits && j in edits && i != j && Overlap(edits[i], edits[j]);
      assert i != k ==> i in edits - {k} && (edits - {k})[i] == edits[i];
      assert j != k ==> j in edits - {k} && (edits - {k})[j] == edits[j];
    }
  }

  /** In order, edits fit exactly when none of them overlap and all start at the position or later. */
  lemma {:induction false} FitsIffApart(data: string, pos: nat, edits: Edits)
    requires Placed(data, edits) && pos <= |data|
    ensures Fits(data, pos, InOrder(edits)) <==> Apart(edits) && forall k | k in edits :: pos <= k
    decreases |edits|
  {
    if edits != map[] {
      var k := Least(edits.Keys);
      var rest := edits - {k};
      assert InOrder(edits)[0] == edits[k] && InOrder(edits)[1..] == InOrder(rest);
      FitsIffApart(data, edits[k].end, rest);
      ApartStep(edits, k, data);
      hide InOrder, Apart, Least;
      assert Fits(data, pos, InOrder(edits)) <==> pos <= k && Fits(data, edits[k].end, InOrder(rest));
      hide Fits, Placed;
      assert (forall j | j in edits :: pos <= j) <==> pos <= k;
    }
  }

  class Document {
    const data: string
    const quote: string -> string
    const parses: string -> bool
    var edits: Edits

    ghost predicate Valid()
      reads this
    {
      Placed(data, edits)
    }

    constructor (data: string, quote: string -> string, parses: string -> bool)
      ensures Valid() && edits == map[] && this.data == data && this.quote == quote && this.parses == parses
    {
      this.data, this.quote, this.parses, edits := data, quote, parses, map[];
    }

    /** A literal token stays literal if the new value can be written so. */
    function Encode(raw: string, value: string): string {
      if raw != "" && raw[0] == '\'' && '\'' !in value && '\r' !in value && '\n' !in value
      then "'" + value + "'" else quote(value)
    }

    /** Files an edit, unless the token's range is bad, its value is the same, or another edit of the
        same token says something else. */
    method SetString(token: Token, value: string) returns (ok: bool)
      requires Valid()
      modifies this
      ensures Valid()
      ensures ok ==> 0 <= token.start < token.end <= |data|
      ensures ok && token.value == value ==> edits == old(edits)
      ensures ok && token.value != value ==>
        edits == old(edits)[token.start := Edit(token.start, token.end, Encode(data[token.start..token.end], value))]
      ensures !ok ==> edits == old(edits)
      ensures !ok <==>
        || token.start < 0 || token.end > |data| || token.start >= token.end
        || (token.value != value && token.start in old(edits)
            && old(edits)[token.start].value != Encode(data[token.start..token.end], value))
    {
      if token.start < 0 || token.end > |data| || token.start >= token.end {
        return false;
      }
      if token.value == value {
        return true;
      }
      var encoded := Encode(data[token.start..token.end], value);
      if token.start in edits && edits[token.start].value != encoded {
        return false;
      }
      edits := edits[token.start := Edit(token.start, token.end, encoded)];
      return true;
    }

    method Sorted() returns (es: seq<Edit>)
      ensures es == InOrder(edits)
    {
      es := [];
      var rest := edits;
      while rest != map[]
        invariant es + InOrder(rest) == InOrder(edits)
        decreases |rest|
      {
        var k := Least(rest.Keys);
        es := es + [rest[k]];
        rest := rest - {k};
      }
    }

    /** Replaces all edited tokens, and refuses exactly overlapping edits and results that do not
        parse. */
    method Render() returns (text: Option<string>)
      requires Valid()
      ensures Apart(edits) <==> Fits(data, 0, InOrder(edits))
      ensures text.Some? <==> Apart(edits) && parses(Rendered(data, 0, InOrder(edits)))
      ensures text.Some? ==> text.value == Rendered(data, 0, InOrder(edits))
    {
      var es := Sorted();
      FitsIffApart(data, 0, edits);
      OrderedMembers(edits);
      assert forall i | 0 <= i < |es| :: es[i] in es;
      text := Pass(es);
      if text.Some? && !parses(text.value) {
        return None;
      }
    }

    method Pass(es: seq<Edit>) returns (text: Option<string>)
      requires forall i | 0 <= i < |es| :: es[i].start < es[i].end <= |data|
      ensures text.Some? <==> Fits(data, 0, es)
      ensures text.Some? ==> text.value == Rendered(data, 0, es)
    {
      var out := "";
      var pos: nat := 0;
      for i := 0 to |es|
        invariant pos <= |data| && (Fits(data, 0, es) <==> Fits(data, pos, es[i..]))
        invariant Fits(data, 0, es) ==> out + Rendered(data, pos, es[i..]) == Rendered(data, 0, es)
      {
        var e := es[i];
        assert es[i..][0] == e && es[i..][1..] == es[i + 1..];
        if e.start < pos {
          return None;
        }
        if Fits(data, 0, es) {
          Associate(out, data[pos..e.start], e.value, Rendered(data, e.end, es[i + 1..]));
        }
        out := out + data[pos..e.start] + e.value;
        pos := e.end;
      }
      return Some(out + data[pos..]);
    }
  }

  /** A literal token stays literal exactly if its new value holds no quote and no line break; else the
      value is quoted anew. */
  lemma LiteralsStayLiteral(document: Document, raw: string, value: string)
    requires raw != ""
    ensures document.Encode(raw, value) ==
      if raw[0] == '\'' && forall c | c in value :: c != '\'' && c != '\r' && c != '\n'
      then ['\''] + value + ['\''] else document.quote(value)
  {
  }

  /** The text with one edit applied by itself. */
  function Splice(data: string, e: Edit): string
    requires e.start <= e.end <= |data|
  {
    data[..e.start] + e.value + data[e.end..]
  }

  /** An edit behind another one moves when that one is applied. */
  function Moved(e: Edit, shift: int): Edit
    requires e.start + shift >= 0 && e.end + shift >= 0
  {
    Edit(e.start + shift, e.end + shift, e.value)
  }

  function MovedAll(es: seq<Edit>, shift: int): seq<Edit>
    requires forall i | 0 <= i < |es| :: es[i].start + shift >= 0 && es[i].end + shift >= 0
  {
    seq(|es|, i requires 0 <= i < |es| => Moved(es[i], shift))
  }

  function Growth(e: Edit): int
    requires e.start <= e.end
  {
    |e.value| - (e.end - e.start)
  }

  ghost predicate AllFrom(es: seq<Edit>, pos: nat) {
    forall i | 0 <= i < |es| :: pos <= es[i].start < es[i].end
  }

  lemma {:induction false} FitsFrom(data: string, pos: nat, es: seq<Edit>)
    requires Fits(data, pos, es)
    ensures AllFrom(es, pos)
    decreases |es|
  {
    if es != [] {
      FitsFrom(data, es[0].end, es[1..]);
      assert forall i | 0 < i < |es| :: es[i] == es[1..][i - 1];
    }
  }

  lemma Associate(a: string, b: string, c: string, d: string)
    ensures a + b + c + d == a + (b + c + d)
  {
  }

  lemma SameSlice(a: string, b: string, i: nat, j: nat, n: nat)
    requires i + n <= |a| && j + n <= |b| && a[i..] == b[j..]
    ensures a[i..i + n] == b[j..j + n] && a[i + n..] == b[j + n..] && |a| - i == |b| - j
  {
    assert a[i..i + n] == a[i..][..n] && b[j..j + n] == b[j..][..n];
    assert a[i + n..] == a[i..][n..] && b[j + n..] == b[j..][n..];
    assert |a[i..]| == |b[j..]|;
  }

  lemma MovedTail(es: seq<Edit>, shift: int)
    requires es != [] && forall i | 0 <= i < |es| :: es[i].start + shift >= 0 && es[i].end + shift >= 0
    ensures MovedAll(es, shift)[1..] == MovedAll(es[1..], shift) && MovedAll(es, shift)[0] == Moved(es[0], shift)
  {
  }

  /** Rendering what lies behind a splice is rendering the moved edits of the spliced text. */
  lemma {:induction false} RenderedMoved(data: string, data': string, pos: nat, pos': nat, es: seq<Edit>)
    requires Fits(data, pos, es) && pos' <= |data'| && data[pos..] == data'[pos'..] && AllFrom(es, pos)
    ensures Fits(data', pos', MovedAll(es, pos' - pos))
    ensures Rendered(data', pos', MovedAll(es, pos' - pos)) == Rendered(data, pos, es)
    decreases |es|
  {
    assert |data[pos..]| == |data'[pos'..]|;
    if es != [] {
      var e, shift, rest := es[0], pos' - pos, es[1..];
      SameSlice(data, data', pos, pos', e.start - pos);
      SameSlice(data, data', pos, pos', e.end - pos);
      FitsFrom(data, e.end, rest);
      MovedTail(es, shift);
      MovedIs(e, shift);
      var moved := MovedAll(es, shift);
      hide MovedAll, Moved, AllFrom;
      RenderedMoved(data, data', e.end, e.end + shift, rest);
      RenderedStep(data, pos, es);
      assert Fits(data', pos', moved);
      RenderedStep(data', pos', moved);
      hide Rendered, Fits;
    }
  }

  lemma RenderedStep(data: string, pos: nat, es: seq<Edit>)
    requires Fits(data, pos, es) && es != []
    ensures Rendered(data, pos, es) == data[pos..es[0].start] + es[0].value + Rendered(data, es[0].end, es[1..])
  {
  }

  lemma MovedIs(e: Edit, shift: int)
    requires e.start + shift >= 0 && e.end + shift >= 0
    ensures Moved(e, shift) == Edit(e.start + shift, e.end + shift, e.value)
  {
  }

  /** The edits left after the k-th was applied, where they now stand. */
  function Without(es: seq<Edit>, k: nat): seq<Edit>
    requires k < |es| && es[k].start < es[k].end && AllFrom(es[k + 1..], es[k].end)
  {
    es[..k] + MovedAll(es[k + 1..], Growth(es[k]))
  }

  lemma SplicedParts(data: string, e: Edit, pos: nat)
    requires pos <= e.start <= e.end <= |data|
    ensures Splice(data, e)[e.start + |e.value|..] == data[e.end..]
    ensures Splice(data, e)[pos..e.start + |e.value|] == data[pos..e.start] + e.value
  {
  }

  lemma SplicedStart(data: string, e: Edit, pos: nat, n: nat)
    requires pos <= n <= e.start <= e.end <= |data|
    ensures Splice(data, e)[pos..n] == data[pos..n]
  {
  }

  lemma FirstEditTail(data: string, es: seq<Edit>)
    requires es != [] && es[0].start < es[0].end && Fits(data, es[0].end, es[1..])
    ensures AllFrom(es[1..], es[0].end)
    ensures var data', after := Splice(data, es[0]), es[0].start + |es[0].value|;
      && Fits(data', after, Without(es, 0))
      && Rendered(data', after, Without(es, 0)) == Rendered(data, es[0].end, es[1..])
  {
    var e := es[0];
    FitsFrom(data, e.end, es[1..]);
    SplicedParts(data, e, e.start);
    WithoutFirst(es);
    assert e.start + |e.value| <= |Splice(data, e)|;
    hide Splice, Without, Rendered, MovedAll, Fits;
    RenderedMoved(data, Splice(data, e), e.end, e.start + |e.value|, es[1..]);
  }

  lemma FirstEditFirst(data: string, pos: nat, es: seq<Edit>)
    requires Fits(data, pos, es) && es != [] && AllFrom(es[1..], es[0].end)
    ensures Fits(Splice(data, es[0]), pos, Without(es, 0))
    ensures Rendered(Splice(data, es[0]), pos, Without(es, 0)) == Rendered(data, pos, es)
  {
    hide Fits, Splice, Without, Rendered, MovedAll, AllFrom;
    var e := es[0];
    FitsTail(data, pos, es);
    var after := e.start + |e.value|;
    RenderedStep(data, pos, es);
    FirstEditTail(data, es);
    SplicedParts(data, e, pos);
    RenderedEarlier(Splice(data, e), pos, after, Without(es, 0));
  }

  lemma FitsTail(data: string, pos: nat, es: seq<Edit>)
    requires Fits(data, pos, es) && es != []
    ensures pos <= es[0].start < es[0].end <= |data| && Fits(data, es[0].end, es[1..])
  {
  }

  lemma WithoutFirst(es: seq<Edit>)
    requires es != [] && es[0].start < es[0].end && AllFrom(es[1..], es[0].end)
    ensures Without(es, 0) == MovedAll(es[1..], es[0].start + |es[0].value| - es[0].end)
  {
  }

  /** Applying any one edit first, and then rendering the others where they have moved to, gives the
      same text as rendering all of them. */
  lemma {:induction false} AnyEditFirst(data: string, pos: nat, es: seq<Edit>, k: nat)
    requires Fits(data, pos, es) && k < |es|
    ensures es[k].start < es[k].end <= |data| && AllFrom(es[k + 1..], es[k].end)
    ensures Fits(Splice(data, es[k]), pos, Without(es, k))
    ensures Rendered(Splice(data, es[k]), pos, Without(es, k)) == Rendered(data, pos, es)
    decreases |es|
  {
    FitsAt(data, pos, es, k);
    if k == 0 {
      FirstEditFirst(data, pos, es);
    } else {
      var e, first, more := es[k], es[0], es[1..];
      assert more[k - 1] == e && more[k..] == es[k + 1..];
      AnyEditFirst(data, first.end, more, k - 1);
      FitsFrom(data, first.end, more);
      assert first.end <= e.start;
      SplicedStart(data, e, pos, first.start);
      var left := Without(es, k);
      assert left[0] == first && left[1..] == Without(more, k - 1);
      hide Splice, Without, MovedAll, AllFrom;
      assert Rendered(data, pos, es) == data[pos..first.start] + first.value + Rendered(data, first.end, more);
    }
  }

  /** Starting earlier only adds the text in between. */
  lemma RenderedEarlier(data: string, pos: nat, later: nat, es: seq<Edit>)
    requires pos <= later && Fits(data, later, es)
    ensures Fits(data, pos, es) && Rendered(data, pos, es) == data[pos..later] + Rendered(data, later, es)
  {
    if es == [] {
      assert data[pos..] == data[pos..later] + data[later..];
    } else {
      var e := es[0];
      assert data[pos..e.start] == data[pos..later] + data[later..e.start];
      Associate(data[pos..later], data[later..e.start], e.value, Rendered(data, e.end, es[1..]));
    }
  }

  /** The text after applying the edits one at a time, each time one of those left, by choice. */
  ghost function Chosen(data: string, es: seq<Edit>, choices: seq<nat>): string
    requires Fits(data, 0, es) && |choices| == |es|
    decreases |es|
  {
    if es == [] then data
    else
      var k := choices[0] % |es|;
      AnyEditFirst(data, 0, es, k);
      Chosen(Splice(data, es[k]), Without(es, k), choices[1..])
  }

  lemma {:induction false} FitsAt(data: string, pos: nat, es: seq<Edit>, k: nat)
    requires Fits(data, pos, es) && k < |es|
    ensures es[k].start < es[k].end <= |data| && AllFrom(es[k + 1..], es[k].end)
    decreases |es|
  {
    if k == 0 {
      FitsFrom(data, es[0].end, es[1..]);
    } else {
      FitsAt(data, es[0].end, es[1..], k - 1);
      assert es[1..][k - 1] == es[k] && es[1..][k..] == es[k + 1..];
    }
  }

  /** The sorted single pass equals applying the edits independently, in any order. */
  lemma {:induction false} OrderDoesNotMatter(data: string, es: seq<Edit>, choices: seq<nat>)
    requires Fits(data, 0, es) && |choices| == |es|
    ensures Chosen(data, es, choices) == Rendered(data, 0, es)
    decreases |es|
  {
    if es == [] {
      assert data[0..] == data;
    } else {
      var k := choices[0] % |es|;
      AnyEditFirst(data, 0, es, k);
      OrderDoesNotMatter(Splice(data, es[k]), Without(es, k), choices[1..]);
    }
  }
}
