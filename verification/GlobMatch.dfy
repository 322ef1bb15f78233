/** Matching a workspace member's path against a pattern whose `**` components stand for any number
    of path components. How one component matches another is a parameter. */
module GlobMatch {
  type Fits = (string, string) -> bool

  function Sum(counts: seq<nat>): nat {
    if counts == [] then 0 else counts[0] + Sum(counts[1..])
  }

  /** The path falls into consecutive parts, one for each pattern component: any number of
      components for `**`, and one that fits for any other. */
  ghost predicate Decomposes(fits: Fits, pattern: seq<string>, path: seq<string>, counts: seq<nat>) {
    && |counts| == |pattern| && Sum(counts) == |path|
    && (pattern != [] ==>
          && (pattern[0] != "**" ==> counts[0] == 1 && fits(pattern[0], path[0]))
          && Decomposes(fits, pattern[1..], path[counts[0]..], counts[1..]))
  }

  ghost predicate Matches(fits: Fits, pattern: seq<string>, path: seq<string>) {
    exists counts :: Decomposes(fits, pattern, path, counts)
  }

  /** The recursion without its memo. */
  predicate Plain(fits: Fits, pattern: seq<string>, path: seq<string>, i: nat, j: nat)
    requires i <= |pattern| && j <= |path|
    decreases |pattern| - i + |path| - j
  {
    if i == |pattern| then j == |path|
    else if pattern[i] == "**" then
      Plain(fits, pattern, path, i + 1, j) || (j < |path| && Plain(fits, pattern, path, i, j + 1))
    else j < |path| && fits(pattern[i], path[j]) && Plain(fits, pattern, path, i + 1, j + 1)
  }

  lemma {:induction false} PlainFinds(fits: Fits, pattern: seq<string>, path: seq<string>, i: nat, j: nat)
      returns (counts: seq<nat>)
    requires i <= |pattern| && j <= |path| && Plain(fits, pattern, path, i, j)
    ensures Decomposes(fits, pattern[i..], path[j..], counts)
    decreases |pattern| - i + |path| - j
  {
    if i == |pattern| {
      counts := [];
    } else {
      var first;
      if pattern[i] == "**" && !Plain(fits, pattern, path, i + 1, j) {
        var more := PlainFinds(fits, pattern, path, i, j + 1);
        counts := [more[0] + 1] + more[1..];
        assert path[j..][counts[0]..] == path[j + 1..][more[0]..];
        assert counts[1..] == more[1..];
      } else {
        first := if pattern[i] == "**" then 0 else 1;
        var rest := PlainFinds(fits, pattern, path, i + 1, j + first);
        counts := [first] + rest;
        assert counts[1..] == rest && path[j..][first..] == path[j + first..];
        assert pattern[i..][1..] == pattern[i + 1..];
      }
    }
  }

  lemma {:induction false} PlainAccepts(fits: Fits, pattern: seq<string>, path: seq<string>, i: nat, j: nat,
                                        counts: seq<nat>)
    requires i <= |pattern| && j <= |path| && Decomposes(fits, pattern[i..], path[j..], counts)
    ensures Plain(fits, pattern, path, i, j)
    decreases |pattern| - i + |path| - j
  {
    if i < |pattern| {
      assert pattern[i..][1..] == pattern[i + 1..];
      if pattern[i] == "**" && counts[0] > 0 {
        var fewer := [counts[0] - 1] + counts[1..];
        assert fewer[1..] == counts[1..] && path[j + 1..][fewer[0]..] == path[j..][counts[0]..];
        PlainAccepts(fits, pattern, path, i, j + 1, fewer);
      } else {
        assert path[j..][counts[0]..] == path[j + counts[0]..];
        PlainAccepts(fits, pattern, path, i + 1, j + counts[0], counts[1..]);
      }
    }
  }

  datatype Place = Place(i: nat, j: nat)

  class Matcher {
    const fits: Fits
    const pattern: seq<string>
    const path: seq<string>
    var memo: map<Place, bool>
    var known: set<Place>

    constructor (fits: Fits, pattern: seq<string>, path: seq<string>)
      ensures this.fits == fits && this.pattern == pattern && this.path == path
      ensures known == {} && Agrees({})
    {
      this.fits, this.pattern, this.path, memo, known := fits, pattern, path, map[], {};
    }

    predicate Inside(at: Place) {
      at.i <= |pattern| && at.j <= |path|
    }

    function Left(at: Place): int {
      |pattern| - at.i + |path| - at.j
    }

    /** The memo agrees with the plain recursion wherever a result is known and not still under way. */
    ghost predicate Agrees(underWay: set<Place>)
      reads this
    {
      && underWay <= known
      && (forall at | at in known :: Inside(at))
      && (forall at | at in known && at !in underWay ::
            at in memo && memo[at] == Plain(fits, pattern, path, at.i, at.j))
    }

    /** Marking a place known before its result is there does no harm: the recursion only asks for
        places with less of pattern and path left. */
    method Visit(at: Place, ghost underWay: set<Place>) returns (result: bool)
      requires Inside(at) && Agrees(underWay) && forall other | other in underWay :: Left(other) > Left(at)
      modifies this
      ensures result == Plain(fits, pattern, path, at.i, at.j)
      ensures Agrees(underWay) && old(known) <= known
      decreases Left(at)
    {
      if at in known {
        return at in memo && memo[at];
      }
      known := known + {at};
      result := false;
      if at.i == |pattern| {
        result := at.j == |path|;
      } else if pattern[at.i] == "**" {
        result := Visit(Place(at.i + 1, at.j), underWay + {at});
        if !result && at.j < |path| {
          result := Visit(Place(at.i, at.j + 1), underWay + {at});
        }
      } else if at.j < |path| {
        if fits(pattern[at.i], path[at.j]) {
          result := Visit(Place(at.i + 1, at.j + 1), underWay + {at});
        }
      }
      memo := memo[at := result];
    }
  }

  /** True exactly when the pattern decomposes the path. */
  method Match(fits: Fits, pattern: seq<string>, path: seq<string>) returns (result: bool)
    ensures result <==> Matches(fits, pattern, path)
  {
    var matcher := new Matcher(fits, pattern, path);
    result := matcher.Visit(Place(0, 0), {});
    assert pattern[0..] == pattern && path[0..] == path;
    if result {
      var counts := PlainFinds(fits, pattern, path, 0, 0);
    } else {
      forall counts ensures !Decomposes(fits, pattern, path, counts) {
        if Decomposes(fits, pattern, path, counts) {
          PlainAccepts(fits, pattern, path, 0, 0, counts);
        }
      }
    }
  }
}
