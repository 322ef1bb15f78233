/** Which packages a plan releases, why, and by how much. Whether a path lies inside another is a
    parameter, as are the commits in each package's window since its own latest tag. */
module ReleasePlan {
  import opened TextScan
  import PackageGraph

  datatype ReleaseType = NoRelease | Patch | Minor | Major

  datatype Commit = Commit(hash: string, kind: string, breaking: bool, scope: string, files: seq<string>)

  datatype Package = Package(name: string, path: string, scopes: seq<string>, dependencies: seq<string>)

  datatype Release = Release(name: string, kind: ReleaseType, commits: seq<Commit>, triggered: bool)

  datatype Plan = Plan(unmatched: seq<Commit>, releases: seq<Release>)

  type Inside = (string, string) -> bool

  function Rank(t: ReleaseType): nat {
    match t
    case NoRelease => 0
    case Patch => 1
    case Minor => 2
    case Major => 3
  }

  function MaxType(ts: seq<ReleaseType>): (max: ReleaseType)
    ensures forall t | t in ts :: Rank(t) <= Rank(max)
    ensures max in ts || max == NoRelease
  {
    if ts == [] then NoRelease
    else
      var front := MaxType(ts[..|ts| - 1]);
      assert ts == ts[..|ts| - 1] + [ts[|ts| - 1]];
      if Rank(front) >= Rank(ts[|ts| - 1]) then front else ts[|ts| - 1]
  }

  method Highest(ts: seq<ReleaseType>) returns (result: ReleaseType)
    ensures result == MaxType(ts)
  {
    result := NoRelease;
    for i := 0 to |ts|
      invariant result == MaxType(ts[..i]) && result != Major
    {
      assert ts[..i + 1][..i] == ts[..i];
      if ts[i] == NoRelease {
        continue;
      }
      if ts[i] == Major {
        MajorWins(ts, i);
        return Major;
      }
      if ts[i] == Minor && result != Major {
        result := Minor;
      }
      if ts[i] == Patch && result == NoRelease {
        result := Patch;
      }
    }
    assert ts[..|ts|] == ts;
  }

  lemma MajorWins(ts: seq<ReleaseType>, i: nat)
    requires i < |ts| && ts[i] == Major
    ensures MaxType(ts) == Major
  {
    assert ts[i] in ts;
  }

  function TypeOf(c: Commit, rules: map<string, ReleaseType>): ReleaseType {
    if c.breaking then Major else if c.kind in rules then rules[c.kind] else NoRelease
  }

  predicate Worthy(c: Commit, rules: map<string, ReleaseType>) {
    TypeOf(c, rules) != NoRelease
  }

  /** A scope names a package by one of its comma-separated parts. */
  predicate ScopeNames(scope: string, p: Package) {
    scope != "" && exists part :: part in SplitOn(scope, ",") && TrimSpace(part) != ""
                                  && (TrimSpace(part) in p.scopes || TrimSpace(part) == p.name)
  }

  /** The root package owns only what no other package does. */
  predicate Owns(inside: Inside, packages: seq<Package>, p: Package, file: string) {
    if p.path == "." then forall q | q in packages && q.path != "." :: !inside(file, q.path)
    else inside(file, p.path)
  }

  predicate Routes(inside: Inside, packages: seq<Package>, c: Commit, p: Package) {
    ScopeNames(c.scope, p) || exists f :: f in c.files && Owns(inside, packages, p, f)
  }

  /** Commits in the order of their first appearance. */
  function FirstSeen(commits: seq<Commit>): seq<Commit> {
    if commits == [] then []
    else
      var front, last := FirstSeen(commits[..|commits| - 1]), commits[|commits| - 1];
      if last in front then front else front + [last]
  }

  /** The windows of all packages, one after another. */
  function AllWindows(packages: seq<Package>, windows: map<string, seq<Commit>>): seq<Commit>
    requires forall p | p in packages :: p.name in windows
  {
    if packages == [] then []
    else AllWindows(packages[..|packages| - 1], windows) + windows[packages[|packages| - 1].name]
  }

  predicate SameHashSameCommit(commits: seq<Commit>) {
    forall c, d | c in commits && d in commits && c.hash == d.hash :: c == d
  }

  lemma {:induction false} FirstSeenMembers(commits: seq<Commit>, c: Commit)
    ensures c in FirstSeen(commits) <==> c in commits
  {
    if commits != [] {
      FirstSeenMembers(commits[..|commits| - 1], c);
      assert commits == commits[..|commits| - 1] + [commits[|commits| - 1]];
    }
  }

  /** The commits of `part` are distinct, and in the order in which `whole` first shows them. */
  ghost predicate ByFirstAppearance(part: seq<Commit>, whole: seq<Commit>) {
    forall i, j | 0 <= i < j < |part| :: ShownBefore(whole, part[i], part[j])
  }

  /** Before `d` is first shown, `c` was. */
  ghost predicate ShownBefore(whole: seq<Commit>, c: Commit, d: Commit) {
    exists b :: 0 <= b < |whole| && whole[b] == d && d !in whole[..b] && c in whole[..b]
  }

  lemma {:induction false} FirstSeenInOrder(commits: seq<Commit>)
    ensures ByFirstAppearance(FirstSeen(commits), commits)
  {
    if commits != [] {
      var front, last := commits[..|commits| - 1], commits[|commits| - 1];
      FirstSeenInOrder(front);
      var seen, all := FirstSeen(front), FirstSeen(commits);
      forall i, j | 0 <= i < j < |all| ensures ShownBefore(commits, all[i], all[j]) {
        assert all[i] == seen[i];
        FirstSeenMembers(front, seen[i]);
        if j < |seen| {
          assert ShownBefore(front, seen[i], seen[j]);
          var b :| 0 <= b < |front| && front[b] == seen[j] && seen[j] !in front[..b] && seen[i] in front[..b];
          assert commits[..b] == front[..b];
        } else {
          FirstSeenMembers(front, last);
        }
      }
    }
  }

  function Hashes(commits: seq<Commit>): set<string> {
    set c | c in commits :: c.hash
  }

  method AddWindow(candidates: seq<Commit>, seen: set<string>, ghost all: seq<Commit>, window: seq<Commit>)
      returns (more: seq<Commit>, known: set<string>)
    requires SameHashSameCommit(all + window) && candidates == FirstSeen(all) && seen == Hashes(candidates)
    ensures more == FirstSeen(all + window) && known == Hashes(more)
  {
    hide FirstSeen, SameHashSameCommit, Hashes;
    more, known := candidates, seen;
    assert all + window[..0] == all;
    for i := 0 to |window|
      invariant more == FirstSeen(all + window[..i]) && known == Hashes(more)
    {
      var c := window[i];
      KnownByHash(all, window, i);
      FirstSeenSnoc(all + window[..i], c);
      assert all + window[..i + 1] == all + window[..i] + [c];
      HashesSnoc(more, c);
      if c.hash !in known {
        more, known := more + [c], known + {c.hash};
      }
    }
    assert window[..|window|] == window;
  }

  lemma FirstSeenSnoc(commits: seq<Commit>, c: Commit)
    ensures FirstSeen(commits + [c]) == if c in FirstSeen(commits) then FirstSeen(commits) else FirstSeen(commits) + [c]
  {
    assert (commits + [c])[..|commits|] == commits;
  }

  lemma HashesSnoc(commits: seq<Commit>, c: Commit)
    ensures Hashes(commits + [c]) == Hashes(commits) + {c.hash}
  {
  }

  lemma KnownByHash(all: seq<Commit>, window: seq<Commit>, i: nat)
    requires i < |window| && SameHashSameCommit(all + window)
    ensures window[i].hash in Hashes(FirstSeen(all + window[..i])) <==> window[i] in FirstSeen(all + window[..i])
  {
    var earlier := FirstSeen(all + window[..i]);
    assert forall c | c in all + window[..i] :: c in all + window;
    forall c | c in earlier ensures c in all + window {
      FirstSeenMembers(all + window[..i], c);
    }
  }

  /** Candidate commits, each once, in the order in which the packages' windows bring them up. */
  method Collect(packages: seq<Package>, windows: map<string, seq<Commit>>) returns (candidates: seq<Commit>)
    requires forall p | p in packages :: p.name in windows
    requires SameHashSameCommit(AllWindows(packages, windows))
    ensures candidates == FirstSeen(AllWindows(packages, windows))
  {
    candidates := [];
    var seen: set<string> := {};
    for i := 0 to |packages|
      invariant candidates == FirstSeen(AllWindows(packages[..i], windows)) && seen == Hashes(candidates)
    {
      WindowsPrefix(packages, windows, i + 1);
      assert packages[..i + 1][..i] == packages[..i];
      candidates, seen := AddWindow(candidates, seen, AllWindows(packages[..i], windows), windows[packages[i].name]);
    }
    assert packages[..|packages|] == packages;
  }

  lemma {:induction false} WindowsPrefix(packages: seq<Package>, windows: map<string, seq<Commit>>, n: nat)
    requires n <= |packages| && forall p | p in packages :: p.name in windows
    ensures AllWindows(packages[..n], windows) <= AllWindows(packages, windows)
    ensures SameHashSameCommit(AllWindows(packages, windows)) ==> SameHashSameCommit(AllWindows(packages[..n], windows))
  {
    if n < |packages| {
      var front := packages[..|packages| - 1];
      assert front[..n] == packages[..n];
      WindowsPrefix(front, windows, n);
      assert AllWindows(front, windows) <= AllWindows(packages, windows);
    } else {
      assert packages[..n] == packages;
    }
    assert forall c | c in AllWindows(packages[..n], windows) :: c in AllWindows(packages, windows);
  }

  /** What a plan is made from. */
  datatype Setting = Setting(inside: Inside, rules: map<string, ReleaseType>, packages: seq<Package>,
                             windows: map<string, seq<Commit>>)
  {
    predicate Valid() {
      && DistinctNames(packages)
      && (forall p | p in packages :: p.name in windows)
      && SameHashSameCommit(AllWindows(packages, windows))
    }
  }

  predicate Eligible(s: Setting, p: Package, c: Commit) {
    p.name in s.windows && c in s.windows[p.name]
  }

  /** A candidate is in the window of some package, and every commit of a window is a candidate. */
  lemma {:induction false} CandidatesAreEligible(packages: seq<Package>, windows: map<string, seq<Commit>>, c: Commit)
    requires forall p | p in packages :: p.name in windows
    ensures c in AllWindows(packages, windows) <==> exists p :: p in packages && c in windows[p.name]
  {
    if packages != [] {
      var front, last := packages[..|packages| - 1], packages[|packages| - 1];
      assert packages == front + [last];
      CandidatesAreEligible(front, windows, c);
    }
  }

  /** A release-worthy commit of the package's own window that routes to it. */
  predicate Counts(s: Setting, p: Package, c: Commit) {
    Worthy(c, s.rules) && Eligible(s, p, c) && Routes(s.inside, s.packages, c, p)
  }

  function Direct(s: Setting, candidates: seq<Commit>, p: Package): seq<Commit> {
    if candidates == [] then []
    else
      var c := candidates[|candidates| - 1];
      Direct(s, candidates[..|candidates| - 1], p) + if Counts(s, p, c) then [c] else []
  }

  predicate IsUnmatched(s: Setting, c: Commit) {
    Worthy(c, s.rules) && forall p | p in s.packages :: !Routes(s.inside, s.packages, c, p)
  }

  function Unmatched(s: Setting, candidates: seq<Commit>): seq<Commit> {
    if candidates == [] then []
    else
      var c := candidates[|candidates| - 1];
      Unmatched(s, candidates[..|candidates| - 1]) + if IsUnmatched(s, c) then [c] else []
  }

  function Types(s: Setting, commits: seq<Commit>): seq<ReleaseType> {
    seq(|commits|, i requires 0 <= i < |commits| => TypeOf(commits[i], s.rules))
  }

  /** A commit that comes last can be added at the end. */
  lemma InOrderSnoc(some: seq<Commit>, front: seq<Commit>, c: Commit, whole: seq<Commit>)
    requires ByFirstAppearance(front + [c], whole) && ByFirstAppearance(some, whole)
    requires forall d | d in some :: d in front
    ensures ByFirstAppearance(some + [c], whole)
  {
    var commits, all := front + [c], some + [c];
    hide ShownBefore;
    forall i, j | 0 <= i < j < |all| ensures ShownBefore(whole, all[i], all[j]) {
      assert all[i] == some[i];
      if j == |some| {
        assert some[i] in some;
        assert some[i] in front;
        var k :| 0 <= k < |front| && front[k] == some[i];
        assert commits[k] == some[i] && commits[|front|] == c;
      }
    }
  }

  lemma {:induction false} DirectInOrder(s: Setting, candidates: seq<Commit>, p: Package, whole: seq<Commit>)
    requires ByFirstAppearance(candidates, whole)
    ensures ByFirstAppearance(Direct(s, candidates, p), whole)
  {
    if candidates != [] {
      var front, c := candidates[..|candidates| - 1], candidates[|candidates| - 1];
      assert candidates == front + [c];
      DirectInOrder(s, front, p, whole);
      forall d | d in Direct(s, front, p) ensures d in front {
        DirectMembers(s, front, p, d);
      }
      InOrderSnoc(Direct(s, front, p), front, c, whole);
    }
  }

  lemma {:induction false} DirectMembers(s: Setting, candidates: seq<Commit>, p: Package, c: Commit)
    ensures c in Direct(s, candidates, p) <==> c in candidates && Counts(s, p, c)
  {
    if candidates != [] {
      DirectMembers(s, candidates[..|candidates| - 1], p, c);
      assert candidates == candidates[..|candidates| - 1] + [candidates[|candidates| - 1]];
    }
  }

  function CommitsOf(commits: map<string, seq<Commit>>, name: string): seq<Commit> {
    if name in commits then commits[name] else []
  }

  /** The books on one package agree with its direct commits. */
  predicate Booked(s: Setting, candidates: seq<Commit>, p: Package, commits: map<string, seq<Commit>>,
                   types: map<string, ReleaseType>)
  {
    var direct := Direct(s, candidates, p);
    && CommitsOf(commits, p.name) == direct
    && (p.name in types <==> direct != [])
    && (p.name in types ==> types[p.name] == MaxType(Types(s, direct)))
  }

  /** The books differ for one package only. */
  predicate OnlyFor(name: string, commits: map<string, seq<Commit>>, types: map<string, ReleaseType>,
                    commits': map<string, seq<Commit>>, types': map<string, ReleaseType>)
  {
    && (forall other | other in types.Keys + types'.Keys && other != name ::
          other in types && other in types' && types'[other] == types[other])
    && (forall other | other in commits.Keys + commits'.Keys && other != name ::
          CommitsOf(commits', other) == CommitsOf(commits, other))
  }

  method Count(s: Setting, ghost candidates: seq<Commit>, c: Commit, p: Package, commits: map<string, seq<Commit>>,
               types: map<string, ReleaseType>)
      returns (commits': map<string, seq<Commit>>, types': map<string, ReleaseType>)
    requires Booked(s, candidates, p, commits, types)
    ensures Booked(s, candidates + [c], p, commits', types')
    ensures OnlyFor(p.name, commits, types, commits', types')
  {
    commits', types' := commits, types;
    assert (candidates + [c])[..|candidates|] == candidates;
    if Counts(s, p, c) {
      var t := TypeOf(c, s.rules);
      var former := if p.name in types then types[p.name] else NoRelease;
      var highest := Highest([former, t]);
      commits' := commits[p.name := CommitsOf(commits, p.name) + [c]];
      types' := types[p.name := highest];
      HighestSoFar(s, Direct(s, candidates, p), c, former);
    }
  }

  lemma HighestSoFar(s: Setting, direct: seq<Commit>, c: Commit, former: ReleaseType)
    requires former == MaxType(Types(s, direct))
    ensures MaxType(Types(s, direct + [c])) == MaxType([former, TypeOf(c, s.rules)])
  {
    var ts := Types(s, direct + [c]);
    assert ts[..|direct|] == Types(s, direct);
    var two := [former, TypeOf(c, s.rules)];
    assert two[..1] == [former] && [former][..0] == [];
  }

  lemma NothingBooked(s: Setting)
    ensures forall p :: Booked(s, [], p, map[], map[])
  {
  }

  /** Each release-worthy candidate is booked on the packages it counts for, or is unmatched. */
  method Attribute(s: Setting, candidates: seq<Commit>)
      returns (unmatched: seq<Commit>, commits: map<string, seq<Commit>>, types: map<string, ReleaseType>)
    requires s.Valid()
    ensures unmatched == Unmatched(s, candidates)
    ensures forall p | p in s.packages :: Booked(s, candidates, p, commits, types)
    ensures OfPackages(s.packages, types.Keys)
  {
    hide Counts, IsUnmatched, Booked;
    NothingBooked(s);
    unmatched, commits, types := [], map[], map[];
    for i := 0 to |candidates|
      invariant unmatched == Unmatched(s, candidates[..i])
      invariant forall p | p in s.packages :: Booked(s, candidates[..i], p, commits, types)
      invariant OfPackages(s.packages, types.Keys)
    {
      assert candidates[..i + 1] == candidates[..i] + [candidates[i]];
      assert candidates[..i + 1][..i] == candidates[..i];
      commits, types := CountEverywhere(s, candidates[..i], candidates[i], commits, types);
      if IsUnmatched(s, candidates[i]) {
        unmatched := unmatched + [candidates[i]];
      }
    }
    assert candidates[..|candidates|] == candidates;
  }

  method CountEverywhere(s: Setting, ghost candidates: seq<Commit>, c: Commit, commits0: map<string, seq<Commit>>,
                         types0: map<string, ReleaseType>)
      returns (commits: map<string, seq<Commit>>, types: map<string, ReleaseType>)
    requires s.Valid() && forall p | p in s.packages :: Booked(s, candidates, p, commits0, types0)
    requires OfPackages(s.packages, types0.Keys)
    ensures forall p | p in s.packages :: Booked(s, candidates + [c], p, commits, types)
    ensures OfPackages(s.packages, types.Keys)
  {
    commits, types := commits0, types0;
    hide Booked, OnlyFor;
    for k := 0 to |s.packages|
      invariant forall l | 0 <= l < k :: Booked(s, candidates + [c], s.packages[l], commits, types)
      invariant forall l | k <= l < |s.packages| :: Booked(s, candidates, s.packages[l], commits, types)
      invariant OfPackages(s.packages, types.Keys)
    {
      ghost var commits1, types1 := commits, types;
      var p := s.packages[k];
      commits, types := Count(s, candidates, c, p, commits, types);
      forall l | 0 <= l < |s.packages| && l != k
        ensures Booked(s, candidates, s.packages[l], commits1, types1) ==>
          Booked(s, candidates, s.packages[l], commits, types)
        ensures Booked(s, candidates + [c], s.packages[l], commits1, types1) ==>
                  Booked(s, candidates + [c], s.packages[l], commits, types)
      {
        SameBooks(s, candidates, s.packages[l], p.name, commits1, types1, commits, types);
        SameBooks(s, candidates + [c], s.packages[l], p.name, commits1, types1, commits, types);
      }
      OnlyForKeys(p.name, commits1, types1, commits, types);
      assert types.Keys <= types1.Keys + {p.name};
    }
  }

  predicate OfPackages(packages: seq<Package>, names: set<string>) {
    forall name | name in names :: exists p :: p in packages && p.name == name
  }

  lemma OnlyForKeys(name: string, commits: map<string, seq<Commit>>, types: map<string, ReleaseType>,
                    commits': map<string, seq<Commit>>, types': map<string, ReleaseType>)
    requires OnlyFor(name, commits, types, commits', types')
    ensures types'.Keys <= types.Keys + {name}
  {
    assert forall other | other in types' :: other in types.Keys + types'.Keys;
  }

  lemma SameBooks(s: Setting, candidates: seq<Commit>, p: Package, other: string, commits: map<string, seq<Commit>>,
                  types: map<string, ReleaseType>, commits': map<string, seq<Commit>>, types': map<string, ReleaseType>)
    requires p.name != other && OnlyFor(other, commits, types, commits', types')
    ensures Booked(s, candidates, p, commits, types) ==> Booked(s, candidates, p, commits', types')
  {
    assert p.name in types || p.name in types' ==> p.name in types.Keys + types'.Keys;
    assert p.name in commits || p.name in commits' ==> p.name in commits.Keys + commits'.Keys;
    hide Direct, Types;
  }

  function Dependencies(packages: seq<Package>): PackageGraph.Graph
    requires DistinctNames(packages)
  {
    map i | 0 <= i < |packages| :: packages[i].name := packages[i].dependencies
  }

  /** The package is one of these or depends, over any number of steps, on one of them. */
  ghost predicate DependsOn(g: PackageGraph.Graph, name: string, targets: set<string>) {
    exists path :: PackageGraph.Walk(g, path) && path[0] == name && path[|path| - 1] in targets
  }

  lemma DirectDepends(g: PackageGraph.Graph, name: string, targets: set<string>)
    requires name in targets
    ensures DependsOn(g, name, targets)
  {
    assert PackageGraph.Walk(g, [name]);
  }

  lemma EdgeDepends(g: PackageGraph.Graph, name: string, dependency: string, targets: set<string>)
    requires PackageGraph.Edge(g, name, dependency) && DependsOn(g, dependency, targets)
    ensures DependsOn(g, name, targets)
  {
    var path :| PackageGraph.Walk(g, path) && path[0] == dependency && path[|path| - 1] in targets;
    var longer := [name] + path;
    assert forall i | 0 <= i < |longer| - 1 :: PackageGraph.Edge(g, longer[i], longer[i + 1]);
    assert PackageGraph.Walk(g, longer) && longer[|longer| - 1] == path[|path| - 1];
  }

  /** A set that holds the targets and every package with a dependency in it holds all dependents. */
  lemma {:induction false} ClosedHolds(g: PackageGraph.Graph, path: seq<string>, targets: set<string>,
                                       closed: set<string>)
    requires PackageGraph.Walk(g, path) && path[|path| - 1] in targets && targets <= closed
    requires forall a, b | PackageGraph.Edge(g, a, b) && b in closed :: a in closed
    ensures path[0] in closed
  {
    if |path| > 1 {
      assert PackageGraph.Edge(g, path[0], path[1]);
      assert forall i | 0 <= i < |path[1..]| - 1 :: PackageGraph.Edge(g, path[1..][i], path[1..][i + 1]);
      ClosedHolds(g, path[1..], targets, closed);
    }
  }

  ghost predicate AllDepend(g: PackageGraph.Graph, names: set<string>, targets: set<string>) {
    forall name | name in names :: DependsOn(g, name, targets)
  }

  ghost predicate Closed(g: PackageGraph.Graph, names: set<string>) {
    forall a, b | PackageGraph.Edge(g, a, b) && b in names :: a in names
  }

  lemma ClosedIsAll(g: PackageGraph.Graph, names: set<string>, targets: set<string>)
    requires targets <= names && Closed(g, names)
    ensures forall name | DependsOn(g, name, targets) :: name in names
  {
    forall name | DependsOn(g, name, targets) ensures name in names {
      var path :| PackageGraph.Walk(g, path) && path[0] == name && path[|path| - 1] in targets;
      ClosedHolds(g, path, targets, names);
    }
  }

  lemma TargetsDepend(g: PackageGraph.Graph, targets: set<string>)
    ensures AllDepend(g, targets, targets)
  {
    forall name | name in targets ensures DependsOn(g, name, targets) {
      DirectDepends(g, name, targets);
    }
  }

  predicate DistinctNames(packages: seq<Package>) {
    forall i, j | 0 <= i < j < |packages| :: packages[i].name != packages[j].name
  }

  /** What the passes keep: direct types as they were, and every addition a triggered patch. */
  ghost predicate Grown(types: map<string, ReleaseType>, all: map<string, ReleaseType>, triggered: set<string>) {
    && (forall name | name in types :: name in all && all[name] == types[name] && name !in triggered)
    && (forall name | name in all && name !in types :: all[name] == Patch && name in triggered)
  }

  /** Passes over the packages until nothing changes: exactly the dependents of the direct ones are
      added, at patch level, whatever the order of the packages. */
  method Propagate(packages: seq<Package>, types: map<string, ReleaseType>)
      returns (all: map<string, ReleaseType>, triggered: set<string>)
    requires DistinctNames(packages) && OfPackages(packages, types.Keys)
    ensures forall name :: name in all <==> DependsOn(Dependencies(packages), name, types.Keys)
    ensures Grown(types, all, triggered)
  {
    hide OnTheWay, Settled, Left, Joined, OfPackages, DistinctNames, Dependencies, DependsOn, Grown;
    all, triggered := types, {};
    StartOfTheWay(packages, types);
    var changed := true;
    while changed
      invariant OnTheWay(packages, types, all, triggered) && (!changed ==> Settled(packages, all))
      decreases Left(packages, all), changed
    {
      ghost var before := all;
      all, triggered, changed := Pass(packages, types, all, triggered);
      if changed {
        FewerLeft(packages, before, all);
      }
    }
    EndOfTheWay(packages, types, all, triggered);
  }

  /** Between passes: additions are triggered patches, and all planned packages depend on direct ones. */
  ghost predicate OnTheWay(packages: seq<Package>, types: map<string, ReleaseType>, all: map<string, ReleaseType>,
                           triggered: set<string>)
    requires DistinctNames(packages)
  {
    Grown(types, all, triggered) && AllDepend(Dependencies(packages), all.Keys, types.Keys)
  }

  ghost predicate Settled(packages: seq<Package>, all: map<string, ReleaseType>)
    requires DistinctNames(packages)
  {
    Closed(Dependencies(packages), all.Keys)
  }

  lemma StartOfTheWay(packages: seq<Package>, types: map<string, ReleaseType>)
    requires DistinctNames(packages)
    ensures OnTheWay(packages, types, types, {})
  {
    TargetsDepend(Dependencies(packages), types.Keys);
  }

  lemma EndOfTheWay(packages: seq<Package>, types: map<string, ReleaseType>, all: map<string, ReleaseType>,
                    triggered: set<string>)
    requires DistinctNames(packages) && OnTheWay(packages, types, all, triggered) && Settled(packages, all)
    ensures forall name :: name in all <==> DependsOn(Dependencies(packages), name, types.Keys)
    ensures Grown(types, all, triggered)
  {
    DependIsMembership(Dependencies(packages), all, types.Keys);
  }

  lemma DependIsMembership(g: PackageGraph.Graph, all: map<string, ReleaseType>, targets: set<string>)
    requires AllDepend(g, all.Keys, targets) && targets <= all.Keys && Closed(g, all.Keys)
    ensures forall name :: name in all <==> DependsOn(g, name, targets)
  {
    ClosedIsAll(g, all.Keys, targets);
    hide DependsOn, Closed;
  }

  ghost predicate Joined(packages: seq<Package>, before: set<string>, after: set<string>) {
    exists p :: p in packages && p.name in after && p.name !in before
  }

  function NamesOf(packages: seq<Package>): set<string> {
    set p | p in packages :: p.name
  }

  /** How many packages are not planned yet. */
  function Left(packages: seq<Package>, all: map<string, ReleaseType>): nat {
    |NamesOf(packages) - all.Keys|
  }

  lemma FewerLeft(packages: seq<Package>, before: map<string, ReleaseType>, after: map<string, ReleaseType>)
    requires before.Keys <= after.Keys && Joined(packages, before.Keys, after.Keys)
    ensures Left(packages, after) < Left(packages, before)
  {
    var p :| p in packages && p.name in after && p.name !in before;
    assert p.name in NamesOf(packages) - before.Keys;
    SmallerSet(NamesOf(packages) - after.Keys, NamesOf(packages) - before.Keys);
  }

  lemma SmallerSet(a: set<string>, b: set<string>)
    requires a < b
    ensures |a| < |b|
  {
    assert b == a + (b - a);
    assert b - a != {};
  }

  lemma GrownMore(types: map<string, ReleaseType>, all: map<string, ReleaseType>, triggered: set<string>, name: string)
    requires Grown(types, all, triggered) && name !in all
    ensures Grown(types, all[name := Patch], triggered + {name})
  {
  }

  predicate HasPlanned(p: Package, all: map<string, ReleaseType>) {
    exists d :: d in p.dependencies && d in all
  }

  lemma JoinDepends(packages: seq<Package>, i: nat, all: map<string, ReleaseType>, targets: set<string>)
    requires DistinctNames(packages) && i < |packages| && HasPlanned(packages[i], all)
    requires AllDepend(Dependencies(packages), all.Keys, targets)
    ensures AllDepend(Dependencies(packages), all.Keys + {packages[i].name}, targets)
  {
    var g := Dependencies(packages);
    var d :| d in packages[i].dependencies && d in all;
    assert packages[i].name in g && g[packages[i].name] == packages[i].dependencies;
    assert PackageGraph.Edge(g, packages[i].name, d);
    EdgeDepends(g, packages[i].name, d, targets);
    hide DependsOn;
  }

  lemma NoneLeft(packages: seq<Package>, all: map<string, ReleaseType>)
    requires DistinctNames(packages)
    requires forall p | p in packages :: p.name in all || !HasPlanned(p, all)
    ensures Settled(packages, all)
  {
    var g := Dependencies(packages);
    forall a, b | PackageGraph.Edge(g, a, b) && b in all.Keys ensures a in all.Keys {
      var i :| 0 <= i < |packages| && packages[i].name == a && g[a] == packages[i].dependencies;
      assert packages[i] in packages;
    }
  }

  /** One pass: packages with a planned dependency join the plan. */
  method Pass(packages: seq<Package>, ghost types: map<string, ReleaseType>, all0: map<string, ReleaseType>,
              triggered0: set<string>)
      returns (all: map<string, ReleaseType>, triggered: set<string>, changed: bool)
    requires DistinctNames(packages) && OnTheWay(packages, types, all0, triggered0)
    ensures OnTheWay(packages, types, all, triggered) && all0.Keys <= all.Keys
    ensures changed ==> Joined(packages, all0.Keys, all.Keys)
    ensures !changed ==> all == all0 && Settled(packages, all)
  {
    all, triggered, changed := all0, triggered0, false;
    hide OnTheWay, HasPlanned, Dependencies, Settled;
    for i := 0 to |packages|
      invariant OnTheWay(packages, types, all, triggered) && all0.Keys <= all.Keys
      invariant changed ==> Joined(packages, all0.Keys, all.Keys)
      invariant !changed ==> all == all0
      invariant !changed ==> forall l | 0 <= l < i :: packages[l].name in all || !HasPlanned(packages[l], all)
    {
      var p := packages[i];
      if p.name in all || !HasPlanned(p, all) {
        continue;
      }
      JoinIsOnTheWay(packages, i, types, all, triggered);
      all, triggered, changed := all[p.name := Patch], triggered + {p.name}, true;
    }
    if !changed {
      NoneLeft(packages, all);
    }
  }

  lemma JoinIsOnTheWay(packages: seq<Package>, i: nat, types: map<string, ReleaseType>, all: map<string, ReleaseType>,
                       triggered: set<string>)
    requires DistinctNames(packages) && i < |packages| && HasPlanned(packages[i], all) && packages[i].name !in all
    requires OnTheWay(packages, types, all, triggered)
    ensures OnTheWay(packages, types, all[packages[i].name := Patch], triggered + {packages[i].name})
  {
    JoinDepends(packages, i, all, types.Keys);
    GrownMore(types, all, triggered, packages[i].name);
    assert all[packages[i].name := Patch].Keys == all.Keys + {packages[i].name};
    hide Grown, AllDepend, HasPlanned;
  }

  /** The release of a planned package. */
  function ReleaseOf(s: Setting, candidates: seq<Commit>, p: Package): Release {
    var direct := Direct(s, candidates, p);
    if direct == [] then Release(p.name, Patch, [], true) else Release(p.name, MaxType(Types(s, direct)), direct, false)
  }

  ghost function DirectNames(s: Setting, candidates: seq<Commit>): set<string> {
    set p | p in s.packages && Direct(s, candidates, p) != [] :: p.name
  }

  ghost predicate Released(s: Setting, candidates: seq<Commit>, p: Package)
    requires s.Valid()
  {
    DependsOn(Dependencies(s.packages), p.name, DirectNames(s, candidates))
  }

  /** The releases of a plan, in the order of the packages. */
  ghost function Releases(s: Setting, candidates: seq<Commit>, n: nat): seq<Release>
    requires s.Valid() && n <= |s.packages|
  {
    if n == 0 then []
    else
      var p := s.packages[n - 1];
      Releases(s, candidates, n - 1) + if Released(s, candidates, p) then [ReleaseOf(s, candidates, p)] else []
  }

  /** The plan: nothing is released while a commit belongs nowhere. */
  ghost function PlanOf(s: Setting): Plan
    requires s.Valid()
  {
    var unmatched := Unmatched(s, Candidates(s));
    Plan(unmatched, if unmatched == [] then Releases(s, Candidates(s), |s.packages|) else [])
  }

  method CreateIndependentPlan(s: Setting) returns (plan: Plan)
    requires s.Valid()
    ensures plan == PlanOf(s)
  {
    hide Booked, Grown, DependsOn;
    var candidates := Collect(s.packages, s.windows);
    var unmatched, commits, types := Attribute(s, candidates);
    if unmatched != [] {
      return Plan(unmatched, []);
    }
    BookedNames(s, candidates, commits, types);
    var all, triggered := Propagate(s.packages, types);
    var releases := Build(s, candidates, commits, types, all, triggered);
    return Plan([], releases);
  }

  method Build(s: Setting, ghost candidates: seq<Commit>, commits: map<string, seq<Commit>>,
               ghost types: map<string, ReleaseType>, all: map<string, ReleaseType>, triggered: set<string>)
      returns (releases: seq<Release>)
    requires s.Valid() && forall p | p in s.packages :: Booked(s, candidates, p, commits, types)
    requires Grown(types, all, triggered)
    requires forall p | p in s.packages :: p.name in all <==> Released(s, candidates, p)
    ensures releases == Releases(s, candidates, |s.packages|)
  {
    hide Booked, Grown, Released;
    releases := [];
    for i := 0 to |s.packages|
      invariant releases == Releases(s, candidates, i)
    {
      var p := s.packages[i];
      if p.name in all {
        BookedRelease(s, candidates, p, commits, types, all, triggered);
        releases := releases + [Release(p.name, all[p.name], CommitsOf(commits, p.name), p.name in triggered)];
      }
    }
  }

  lemma BookedNames(s: Setting, candidates: seq<Commit>, commits: map<string, seq<Commit>>,
                   types: map<string, ReleaseType>)
    requires s.Valid() && forall p | p in s.packages :: Booked(s, candidates, p, commits, types)
    requires OfPackages(s.packages, types.Keys)
    ensures types.Keys == DirectNames(s, candidates)
  {
    hide Direct;
  }

  lemma BookedRelease(s: Setting, candidates: seq<Commit>, p: Package, commits: map<string, seq<Commit>>,
                      types: map<string, ReleaseType>, all: map<string, ReleaseType>, triggered: set<string>)
    requires Booked(s, candidates, p, commits, types) && p.name in all
    requires Grown(types, all, triggered)
    ensures Release(p.name, all[p.name], CommitsOf(commits, p.name), p.name in triggered) == ReleaseOf(s, candidates, p)
  {
    hide Direct;
  }

  function Candidates(s: Setting): seq<Commit>
    requires s.Valid()
  {
    FirstSeen(AllWindows(s.packages, s.windows))
  }

  lemma CandidateMembers(s: Setting, c: Commit)
    requires s.Valid()
    ensures c in Candidates(s) <==> exists p :: p in s.packages && Eligible(s, p, c)
  {
    FirstSeenMembers(AllWindows(s.packages, s.windows), c);
    CandidatesAreEligible(s.packages, s.windows, c);
    assert forall p | p in s.packages :: Eligible(s, p, c) <==> c in s.windows[p.name];
  }

  ghost predicate HasReason(s: Setting, p: Package) {
    exists c :: Counts(s, p, c)
  }

  lemma DirectIffReason(s: Setting, p: Package)
    requires s.Valid() && p in s.packages
    ensures Direct(s, Candidates(s), p) != [] <==> HasReason(s, p)
    ensures forall c :: c in Direct(s, Candidates(s), p) <==> Counts(s, p, c)
  {
    forall c ensures c in Direct(s, Candidates(s), p) <==> Counts(s, p, c) {
      DirectMembers(s, Candidates(s), p, c);
      CandidateMembers(s, c);
      assert Counts(s, p, c) ==> Eligible(s, p, c);
    }
    if Direct(s, Candidates(s), p) != [] {
      assert Direct(s, Candidates(s), p)[0] in Direct(s, Candidates(s), p);
    }
  }

  /** A package is released exactly when a release-worthy commit after its own tag routes to it, or
      it depends over any number of steps on such a package; its commits are exactly those, each once
      and by first appearance in the windows; and its type is the highest of theirs, or patch for a
      mere dependent. */
  lemma ReleasedExactly(s: Setting, p: Package)
    requires s.Valid() && p in s.packages
    ensures Released(s, Candidates(s), p) <==>
      exists path, q :: q in s.packages && HasReason(s, q) && PackageGraph.Walk(Dependencies(s.packages), path)
                        && path[0] == p.name && path[|path| - 1] == q.name
    ensures var r := ReleaseOf(s, Candidates(s), p);
      && (forall c :: c in r.commits <==> Counts(s, p, c))
      && ByFirstAppearance(r.commits, AllWindows(s.packages, s.windows))
      && (HasReason(s, p) ==> IsMaximum(s.rules, r.commits, r.kind))
      && (!HasReason(s, p) ==> r.kind == Patch && r.triggered)
  {
    ReleasedByWalk(s, p);
    ReleaseIsExact(s, p);
    hide Released, HasReason, ReleaseOf, Candidates, DistinctNames, SameHashSameCommit, ByFirstAppearance, IsMaximum;
  }

  lemma ReleaseIsExact(s: Setting, p: Package)
    requires s.Valid() && p in s.packages
    ensures var r := ReleaseOf(s, Candidates(s), p);
      && (forall c :: c in r.commits <==> Counts(s, p, c))
      && ByFirstAppearance(r.commits, AllWindows(s.packages, s.windows))
      && (HasReason(s, p) ==> IsMaximum(s.rules, r.commits, r.kind))
      && (!HasReason(s, p) ==> r.kind == Patch && r.triggered)
  {
    DirectIffReason(s, p);
    FirstSeenInOrder(AllWindows(s.packages, s.windows));
    DirectInOrder(s, Candidates(s), p, AllWindows(s.packages, s.windows));
    var direct := Direct(s, Candidates(s), p);
    hide ByFirstAppearance, HasReason, Candidates, DistinctNames, SameHashSameCommit, Direct;
    if direct != [] {
      assert forall c | c in direct :: Worthy(c, s.rules);
      TypeIsHighest(s, direct);
    }
  }

  /** The places, below n, of the released packages. */
  ghost function Places(s: Setting, n: nat): seq<nat>
    requires s.Valid() && n <= |s.packages|
  {
    if n == 0 then []
    else Places(s, n - 1) + if Released(s, Candidates(s), s.packages[n - 1]) then [n - 1] else []
  }

  ghost predicate Ascending(places: seq<nat>) {
    forall i, j | 0 <= i < j < |places| :: places[i] < places[j]
  }

  lemma {:induction false} PlacesAscend(s: Setting, n: nat)
    requires s.Valid() && n <= |s.packages|
    ensures Ascending(Places(s, n))
    ensures forall a: nat :: a in Places(s, n) <==> a < n && Released(s, Candidates(s), s.packages[a])
  {
    hide Released, Candidates, DistinctNames, SameHashSameCommit;
    if n > 0 {
      PlacesAscend(s, n - 1);
      var front := Places(s, n - 1);
      assert forall i | 0 <= i < |front| :: front[i] in front;
    }
  }

  lemma {:induction false} ReleasesAtPlaces(s: Setting, n: nat)
    requires s.Valid() && n <= |s.packages|
    ensures var releases, places := Releases(s, Candidates(s), n), Places(s, n);
      |releases| == |places| && forall i | 0 <= i < |places| ::
        places[i] < n && releases[i] == ReleaseOf(s, Candidates(s), s.packages[places[i]])
  {
    hide Released, ReleaseOf, Candidates, DistinctNames, SameHashSameCommit;
    if n > 0 {
      ReleasesAtPlaces(s, n - 1);
    }
  }

  lemma {:induction false} UnmatchedMembers(s: Setting, candidates: seq<Commit>, c: Commit)
    ensures c in Unmatched(s, candidates) <==> c in candidates && IsUnmatched(s, c)
  {
    if candidates != [] {
      UnmatchedMembers(s, candidates[..|candidates| - 1], c);
      assert candidates == candidates[..|candidates| - 1] + [candidates[|candidates| - 1]];
    }
  }

  lemma {:induction false} UnmatchedInOrder(s: Setting, candidates: seq<Commit>, whole: seq<Commit>)
    requires ByFirstAppearance(candidates, whole)
    ensures ByFirstAppearance(Unmatched(s, candidates), whole)
  {
    if candidates != [] {
      var front, c := candidates[..|candidates| - 1], candidates[|candidates| - 1];
      assert candidates == front + [c];
      UnmatchedInOrder(s, front, whole);
      forall d | d in Unmatched(s, front) ensures d in front {
        UnmatchedMembers(s, front, d);
      }
      InOrderSnoc(Unmatched(s, front), front, c, whole);
    }
  }

  /** A release that is listed, one for every place of a released package and in their order. */
  ghost predicate OneEach(s: Setting, releases: seq<Release>, places: seq<nat>)
    requires s.Valid()
  {
    && |releases| == |places| && Ascending(places)
    && (forall a: nat :: a in places <==> a < |s.packages| && Released(s, Candidates(s), s.packages[a]))
    && (forall i | 0 <= i < |places| ::
          places[i] < |s.packages| && releases[i] == ReleaseOf(s, Candidates(s), s.packages[places[i]]))
  }

  /** A commit of some window whose kind or breaking change asks for a release, and which routes to no
      package at all. */
  predicate Homeless(s: Setting, c: Commit) {
    && (exists p :: p in s.packages && p.name in s.windows && c in s.windows[p.name])
    && (c.breaking || (c.kind in s.rules && s.rules[c.kind] != NoRelease))
    && forall p | p in s.packages :: !Routes(s.inside, s.packages, c, p)
  }

  lemma HomelessIsUnmatched(s: Setting, c: Commit)
    ensures Homeless(s, c) <==> IsUnmatched(s, c) && exists p :: p in s.packages && Eligible(s, p, c)
  {
  }

  /** The plan lists the release-worthy commits of any window that route to no package, by first
      appearance; with none of those, it holds exactly one release for every released package, in the
      order of the packages. */
  lemma PlanIsExact(s: Setting) returns (places: seq<nat>)
    requires s.Valid()
    ensures forall c :: c in PlanOf(s).unmatched <==> Homeless(s, c)
    ensures ByFirstAppearance(PlanOf(s).unmatched, AllWindows(s.packages, s.windows))
    ensures if PlanOf(s).unmatched != [] then PlanOf(s).releases == [] else OneEach(s, PlanOf(s).releases, places)
  {
    places := Places(s, |s.packages|);
    UnmatchedExactly(s);
    hide Homeless;
    PlacesAscend(s, |s.packages|);
    ReleasesAtPlaces(s, |s.packages|);
    hide DistinctNames, SameHashSameCommit, Candidates, Eligible;
    hide Ascending, Unmatched, Releases, Places, ByFirstAppearance, IsUnmatched, Released, ReleaseOf;
  }

  lemma UnmatchedExactly(s: Setting)
    requires s.Valid()
    ensures forall c :: c in Unmatched(s, Candidates(s)) <==> Homeless(s, c)
    ensures ByFirstAppearance(Unmatched(s, Candidates(s)), AllWindows(s.packages, s.windows))
  {
    FirstSeenInOrder(AllWindows(s.packages, s.windows));
    UnmatchedInOrder(s, Candidates(s), AllWindows(s.packages, s.windows));
    hide DistinctNames, SameHashSameCommit, Candidates, Eligible, Unmatched, ByFirstAppearance, IsUnmatched, Homeless;
    forall c ensures c in Unmatched(s, Candidates(s)) <==> Homeless(s, c) {
      UnmatchedMembers(s, Candidates(s), c);
      CandidateMembers(s, c);
      HomelessIsUnmatched(s, c);
    }
  }

  /** A commit after the package's own tag whose scope or files are the package's. */
  predicate Concerns(s: Setting, p: Package, c: Commit) {
    Eligible(s, p, c) && Routes(s.inside, s.packages, c, p)
  }

  /** The commit is breaking, or its kind's rule says one of these levels. */
  predicate Breaks(s: Setting, c: Commit) {
    c.breaking || (c.kind in s.rules && s.rules[c.kind] == Major)
  }

  predicate Adds(s: Setting, c: Commit) {
    !c.breaking && c.kind in s.rules && s.rules[c.kind] == Minor
  }

  predicate Mends(s: Setting, c: Commit) {
    !c.breaking && c.kind in s.rules && s.rules[c.kind] == Patch
  }

  /** A package is released as major exactly if a commit that concerns it is breaking, or ruled to be;
      else as minor if one is ruled to be; else, having any reason at all, as patch. */
  lemma LevelsAreTold(s: Setting, p: Package)
    requires s.Valid() && p in s.packages
    ensures var r := ReleaseOf(s, Candidates(s), p);
      && (HasReason(s, p) <==> exists c :: Concerns(s, p, c) && (Breaks(s, c) || Adds(s, c) || Mends(s, c)))
      && (r.kind == Major <==> exists c :: Concerns(s, p, c) && Breaks(s, c))
      && (r.kind == Minor <==>
            && (exists c :: Concerns(s, p, c) && Adds(s, c))
            && !(exists c :: Concerns(s, p, c) && Breaks(s, c)))
      && r.kind != NoRelease
  {
    ReleaseIsExact(s, p);
    forall c
      ensures Counts(s, p, c) <==> Concerns(s, p, c) && TypeOf(c, s.rules) != NoRelease
      ensures TypeOf(c, s.rules) == Major <==> Breaks(s, c)
      ensures TypeOf(c, s.rules) == Minor <==> Adds(s, c)
      ensures TypeOf(c, s.rules) == Patch <==> Mends(s, c)
    {
      WorthByText(s, p, c);
    }
    hide ReleaseOf, Candidates, ByFirstAppearance, Concerns, Counts, TypeOf, Breaks, Adds, Mends, IsMaximum;
    hide DistinctNames, SameHashSameCommit;
    if HasReason(s, p) {
      var top := TopOfMaximum(s, p, ReleaseOf(s, Candidates(s), p));
    }
  }

  lemma WorthByText(s: Setting, p: Package, c: Commit)
    ensures Counts(s, p, c) <==> Concerns(s, p, c) && TypeOf(c, s.rules) != NoRelease
    ensures TypeOf(c, s.rules) == Major <==> Breaks(s, c)
    ensures TypeOf(c, s.rules) == Minor <==> Adds(s, c)
    ensures TypeOf(c, s.rules) == Patch <==> Mends(s, c)
  {
    hide Routes, Eligible;
  }

  lemma TopOfMaximum(s: Setting, p: Package, r: Release) returns (top: Commit)
    requires IsMaximum(s.rules, r.commits, r.kind) && forall c :: c in r.commits <==> Counts(s, p, c)
    ensures Counts(s, p, top) && TypeOf(top, s.rules) == r.kind
    ensures r.kind != Major ==> forall c | Counts(s, p, c) :: TypeOf(c, s.rules) != Major
    ensures !r.kind.Major? && !r.kind.Minor? ==> forall c | Counts(s, p, c) :: !TypeOf(c, s.rules).Minor?
  {
    hide Counts, TypeOf;
    top :| top in r.commits && TypeOf(top, s.rules) == r.kind;
    forall c | Counts(s, p, c) ensures Rank(TypeOf(c, s.rules)) <= Rank(r.kind) {
      assert c in r.commits;
    }
  }

  predicate Names(word: string, p: Package) {
    word != "" && (word in p.scopes || word == p.name)
  }

  /** A scope names a package by any of its comma-separated parts, whatever white space is around it. */
  lemma ScopeByParts(parts: seq<string>, p: Package)
    requires parts != [] && forall i | 0 <= i < |parts| :: ',' !in parts[i]
    ensures ScopeNames(Join(parts, ","), p) <==>
      exists i :: 0 <= i < |parts| && Names(TrimSpace(parts[i]), p)
  {
    SplitJoined(parts, ",");
    EmptyJoin(parts);
    hide TrimSpace, SplitOn, Join;
    if i :| 0 <= i < |parts| && Names(TrimSpace(parts[i]), p) {
      assert parts[i] in parts;
    }
  }

  lemma EmptyJoin(parts: seq<string>)
    requires parts != []
    ensures Join(parts, ",") == "" ==> parts == [""] && TrimSpace(parts[0]) == ""
  {
  }

  /** A file inside packages of their own belongs to each of those and to no other; any other file
      belongs to the packages at the root. */
  lemma FilesHaveOwners(inside: Inside, packages: seq<Package>, p: Package, file: string)
    requires p in packages
    ensures Owns(inside, packages, p, file) <==>
      if exists q :: q in packages && q.path != "." && inside(file, q.path) then p.path != "." && inside(file, p.path)
      else p.path == "."
  {
  }

  lemma TypeIsHighest(s: Setting, commits: seq<Commit>)
    requires commits != [] && forall c | c in commits :: Worthy(c, s.rules)
    ensures exists c :: c in commits && TypeOf(c, s.rules) == MaxType(Types(s, commits))
    ensures forall c | c in commits :: Rank(TypeOf(c, s.rules)) <= Rank(MaxType(Types(s, commits)))
  {
    var ts := Types(s, commits);
    forall c | c in commits ensures TypeOf(c, s.rules) in ts {
      var i :| 0 <= i < |commits| && commits[i] == c;
      assert ts[i] == TypeOf(c, s.rules);
    }
    assert TypeOf(commits[0], s.rules) in ts;
    var i :| 0 <= i < |ts| && ts[i] == MaxType(ts);
    assert commits[i] in commits;
  }

  lemma ReleasedByWalk(s: Setting, p: Package)
    requires s.Valid() && p in s.packages
    ensures Released(s, Candidates(s), p) <==>
      exists path, q :: q in s.packages && HasReason(s, q) && PackageGraph.Walk(Dependencies(s.packages), path)
                        && path[0] == p.name && path[|path| - 1] == q.name
  {
    var g := Dependencies(s.packages);
    forall q | q in s.packages ensures q.name in DirectNames(s, Candidates(s)) <==> HasReason(s, q) {
      DirectIffReason(s, q);
      NameIsPackage(s, q);
    }
    hide HasReason, Direct, Dependencies, Counts;
    if Released(s, Candidates(s), p) {
      var path :| PackageGraph.Walk(g, path) && path[0] == p.name && path[|path| - 1] in DirectNames(s, Candidates(s));
      var q :| q in s.packages && q.name == path[|path| - 1];
      assert HasReason(s, q);
    }
  }

  lemma NameIsPackage(s: Setting, q: Package)
    requires s.Valid() && q in s.packages
    ensures q.name in DirectNames(s, Candidates(s)) <==> Direct(s, Candidates(s), q) != []
  {
    hide Direct;
    forall r | r in s.packages && r.name == q.name ensures r == q {
      var i :| 0 <= i < |s.packages| && s.packages[i] == r;
      var j :| 0 <= j < |s.packages| && s.packages[j] == q;
    }
  }

  /** Releases do not depend on the order in which the packages are configured. */
  lemma OrderIsIrrelevant(s: Setting, t: Setting, p: Package)
    requires s.Valid() && t.Valid() && t == s.(packages := t.packages)
    requires forall q :: q in s.packages <==> q in t.packages
    requires p in s.packages
    ensures Released(s, Candidates(s), p) <==> Released(t, Candidates(t), p)
    ensures ReleaseOf(s, Candidates(s), p).kind == ReleaseOf(t, Candidates(t), p).kind
  {
    forall q, c ensures Counts(s, q, c) == Counts(t, q, c) {
      SameRoutes(s, t, q, c);
    }
    assert forall q :: HasReason(s, q) == HasReason(t, q);
    SameGraph(s.packages, t.packages);
    ReleasedExactly(s, p);
    ReleasedExactly(t, p);
    DirectIffReason(s, p);
    DirectIffReason(t, p);
    hide Direct, Counts, Released, HasReason;
    if HasReason(s, p) {
      SameHighest(s, t, p);
    }
  }

  lemma SameRoutes(s: Setting, t: Setting, q: Package, c: Commit)
    requires t == s.(packages := t.packages) && forall q :: q in s.packages <==> q in t.packages
    ensures Counts(s, q, c) == Counts(t, q, c)
  {
    forall f ensures Owns(s.inside, s.packages, q, f) == Owns(t.inside, t.packages, q, f) {
    }
    hide Owns, ScopeNames;
  }

  lemma SameHighest(s: Setting, t: Setting, p: Package)
    requires s.Valid() && t.Valid() && p in s.packages && p in t.packages && s.rules == t.rules
    requires HasReason(s, p) && HasReason(t, p) && forall c :: Counts(s, p, c) == Counts(t, p, c)
    ensures ReleaseOf(s, Candidates(s), p).kind == ReleaseOf(t, Candidates(t), p).kind
  {
    HighestOfReleased(s, p);
    HighestOfReleased(t, p);
    hide ReleaseOf, Counts, HasReason;
    var a, b := ReleaseOf(s, Candidates(s), p), ReleaseOf(t, Candidates(t), p);
    assert forall c :: c in a.commits <==> c in b.commits;
    SameMaximum(s.rules, a.commits, a.kind, b.commits, b.kind);
  }

  lemma HighestOfReleased(s: Setting, p: Package)
    requires s.Valid() && p in s.packages && HasReason(s, p)
    ensures var r := ReleaseOf(s, Candidates(s), p);
      IsMaximum(s.rules, r.commits, r.kind) && forall c :: c in r.commits <==> Counts(s, p, c)
  {
    hide ReleaseOf, Counts, HasReason, Released, ByFirstAppearance, TypeOf;
    ReleasedExactly(s, p);
  }

  ghost predicate IsMaximum(rules: map<string, ReleaseType>, commits: seq<Commit>, kind: ReleaseType) {
    && (exists c :: c in commits && TypeOf(c, rules) == kind)
    && forall c | c in commits :: Rank(TypeOf(c, rules)) <= Rank(kind)
  }

  lemma SameMaximum(rules: map<string, ReleaseType>, a: seq<Commit>, k: ReleaseType, b: seq<Commit>, l: ReleaseType)
    requires IsMaximum(rules, a, k) && IsMaximum(rules, b, l) && forall c :: c in a <==> c in b
    ensures k == l
  {
    hide TypeOf;
    var c :| c in a && TypeOf(c, rules) == k;
    var d :| d in b && TypeOf(d, rules) == l;
    assert Rank(k) == Rank(l);
  }

  lemma SameGraph(a: seq<Package>, b: seq<Package>)
    requires DistinctNames(a) && DistinctNames(b) && forall q :: q in a <==> q in b
    ensures Dependencies(a) == Dependencies(b)
  {
    GraphWithin(a, b);
    GraphWithin(b, a);
  }

  lemma GraphWithin(a: seq<Package>, b: seq<Package>)
    requires DistinctNames(a) && DistinctNames(b) && forall q | q in a :: q in b
    ensures forall name | name in Dependencies(a) ::
      name in Dependencies(b) && Dependencies(b)[name] == Dependencies(a)[name]
  {
    forall name | name in Dependencies(a)
      ensures name in Dependencies(b) && Dependencies(b)[name] == Dependencies(a)[name]
    {
      var i :| 0 <= i < |a| && a[i].name == name;
      assert a[i] in a;
      var j :| 0 <= j < |b| && b[j] == a[i];
    }
  }
}
