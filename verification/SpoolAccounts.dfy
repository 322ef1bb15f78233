/** Byte and record totals over a spool directory. */
module SpoolAccounts {
  import opened CrashDisk
  import opened SpoolProtocol

  datatype Measure = RecordBytes(maxBody: nat) | RecordCount(maxBody: nat) | Artifacts | Markers | Quarantines

  function Measured(m: Measure, name: Name, file: File): nat {
    match m
    case RecordBytes(maxBody) => if name.Record? && Readable(file, maxBody) then file.size else 0
    case RecordCount(maxBody) => if name.Record? && Readable(file, maxBody) then 1 else 0
    case Artifacts => if name.Record? || name.Foreign? || file.Special? then 0 else file.size
    case Markers => if name.Marker? && file.Regular? then file.size else 0
    case Quarantines => if name.Quarantine? && file.Regular? then file.size else 0
  }

  function MeasuredAt(m: Measure, dir: Directory, name: Name): nat {
    if name in dir then Measured(m, name, dir[name]) else 0
  }

  ghost function Total(dir: Directory, m: Measure): nat
    decreases dir.Keys
  {
    if dir == map[] then 0
    else
      var name :| name in dir;
      Measured(m, name, dir[name]) + Total(dir - {name}, m)
  }

  lemma {:induction false} TotalWithout(dir: Directory, m: Measure, name: Name)
    ensures Total(dir, m) == MeasuredAt(m, dir, name) + Total(dir - {name}, m)
    decreases dir.Keys
  {
    if name !in dir {
      assert dir - {name} == dir;
    } else {
      var first :| first in dir && Total(dir, m) == Measured(m, first, dir[first]) + Total(dir - {first}, m);
      if first != name {
        TotalWithout(dir - {first}, m, name);
        TotalWithout(dir - {name}, m, first);
        assert dir - {first} - {name} == dir - {name} - {first};
      }
    }
  }

  ghost predicate SameMeasure(a: Directory, b: Directory, m: Measure) {
    forall name: Name :: MeasuredAt(m, a, name) == MeasuredAt(m, b, name)
  }

  lemma SameMeasureWithout(a: Directory, b: Directory, m: Measure, name: Name)
    requires SameMeasure(a, b, m)
    ensures SameMeasure(a - {name}, b - {name}, m)
    ensures MeasuredAt(m, a, name) == MeasuredAt(m, b, name)
  {
    forall other: Name ensures MeasuredAt(m, a - {name}, other) == MeasuredAt(m, b - {name}, other) {
      assert MeasuredAt(m, a, other) == MeasuredAt(m, b, other);
    }
  }

  lemma {:induction false} TotalCongruence(a: Directory, b: Directory, m: Measure)
    requires SameMeasure(a, b, m)
    ensures Total(a, m) == Total(b, m)
    decreases |a| + |b|
  {
    if a != map[] || b != map[] {
      hide SameMeasure, MeasuredAt;
      var name :| name in a || name in b;
      SameMeasureWithout(a, b, m, name);
      TotalWithout(a, m, name);
      TotalWithout(b, m, name);
      RemovingShrinks(a, name);
      RemovingShrinks(b, name);
      TotalCongruence(a - {name}, b - {name}, m);
    }
  }

  lemma RemovingShrinks(dir: Directory, name: Name)
    ensures |dir - {name}| == if name in dir then |dir| - 1 else |dir|
  {
    assert (dir - {name}).Keys == dir.Keys - {name};
    if name !in dir {
      assert dir - {name} == dir;
    } else {
      assert |dir.Keys| == |dir|;
      assert |(dir - {name}).Keys| == |dir - {name}|;
    }
  }

  /** Two directories that differ at one name have totals that differ by that name's measure. */
  lemma TotalDiffers(a: Directory, b: Directory, m: Measure, name: Name)
    requires forall other: Name :: other != name ==> MeasuredAt(m, a, other) == MeasuredAt(m, b, other)
    ensures Total(a, m) - MeasuredAt(m, a, name) == Total(b, m) - MeasuredAt(m, b, name)
  {
    TotalWithout(a, m, name);
    TotalWithout(b, m, name);
    forall other: Name ensures MeasuredAt(m, a - {name}, other) == MeasuredAt(m, b - {name}, other) {
      if other != name {
        assert MeasuredAt(m, a, other) == MeasuredAt(m, b, other);
      }
    }
    TotalCongruence(a - {name}, b - {name}, m);
  }

  lemma MeasureIsPartOfTotal(dir: Directory, m: Measure, name: Name)
    ensures MeasuredAt(m, dir, name) <= Total(dir, m)
  {
    TotalWithout(dir, m, name);
  }

  lemma {:induction false} TotalOrdered(dir: Directory, small: Measure, large: Measure)
    requires forall name | name in dir :: Measured(small, name, dir[name]) <= Measured(large, name, dir[name])
    ensures Total(dir, small) <= Total(dir, large)
    decreases dir.Keys
  {
    if dir != map[] {
      var name :| name in dir;
      TotalWithout(dir, small, name);
      TotalWithout(dir, large, name);
      TotalOrdered(dir - {name}, small, large);
    }
  }

  lemma TotalZero(dir: Directory, m: Measure)
    requires forall name | name in dir :: Measured(m, name, dir[name]) == 0
    ensures Total(dir, m) == 0
  {
    TotalCongruence(dir, map[], m);
  }

  /** Artifacts are counted by walking the directory once, in any order. */
  method CountArtifacts(dir: Directory) returns (total: nat)
    ensures total == Total(dir, Artifacts)
  {
    var rest := dir;
    total := 0;
    while rest != map[]
      invariant total + Total(rest, Artifacts) == Total(dir, Artifacts)
      decreases rest.Keys
    {
      var name :| name in rest;
      TotalWithout(rest, Artifacts, name);
      total := total + Measured(Artifacts, name, rest[name]);
      rest := rest - {name};
    }
  }
}
