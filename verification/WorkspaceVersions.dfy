/** Versions of packages in their manifests, some of them shared through a Cargo workspace, and the
    check that makes updating them safe. Manifests are documents already parsed. */
module WorkspaceVersions {
  import opened Wrappers

  type Path = string

  datatype Kind = Node | Python | VersionFile | Rust

  /** A Cargo manifest may hold its own version, inherit its workspace's, and be a workspace that
      has one to share. */
  datatype Manifest =
    | Simple(kind: Kind, version: Option<string>)
    | Cargo(version: Option<string>, inherits: bool, shared: Option<string>)

  type Files = map<Path, Manifest>

  datatype Package = Package(name: string, kind: Kind, manifest: Path)

  datatype Release = Release(package: Package, next: string)

  /** Which manifest is whose workspace root, and which manifests a root lists as members; version
      updates change neither. */
  datatype Layout = Layout(rootOf: map<Path, Path>, members: map<Path, seq<Path>>)

  /** Where a package's version is kept. A version file that is not there yet will be created. */
  datatype Slot = Own(path: Path) | Shared(root: Path)

  predicate Inherits(files: Files, path: Path) {
    path in files && files[path].Cargo? && files[path].inherits
  }

  function SlotOf(l: Layout, files: Files, p: Package): Option<Slot> {
    if p.manifest !in files then if p.kind.VersionFile? then Some(Own(p.manifest)) else None
    else if p.kind.Rust? && files[p.manifest].Cargo? then
      if !files[p.manifest].inherits then Some(Own(p.manifest))
      else if p.manifest in l.rootOf then Some(Shared(l.rootOf[p.manifest])) else None
    else if files[p.manifest].Simple? && files[p.manifest].kind == p.kind then Some(Own(p.manifest))
    else None
  }

  function VersionAt(files: Files, slot: Slot): Option<string> {
    match slot
    case Own(path) => if path in files then files[path].version else None
    case Shared(root) => if root in files && files[root].Cargo? then files[root].shared else None
  }

  /** The version a package reads, its own or inherited. */
  function Read(l: Layout, files: Files, p: Package): Option<string> {
    var slot := SlotOf(l, files, p);
    if slot.None? then None else VersionAt(files, slot.value)
  }

  function Write(files: Files, slot: Slot, next: string): Files {
    match slot
    case Own(path) =>
      files[path := if path in files then files[path].(version := Some(next)) else Simple(VersionFile, Some(next))]
    case Shared(root) =>
      if root in files && files[root].Cargo? then files[root := files[root].(shared := Some(next))] else files
  }

  /** Only a JSON object or a version file takes a version it did not have. */
  predicate CanUpdate(l: Layout, files: Files, p: Package) {
    && SlotOf(l, files, p).Some?
    && (p.kind.Node? || p.kind.VersionFile? || VersionAt(files, SlotOf(l, files, p).value).Some?)
  }

  class Store {
    const layout: Layout
    var files: Files

    constructor (layout: Layout, files: Files)
      ensures this.layout == layout && this.files == files
    {
      this.layout, this.files := layout, files;
    }

    /** Rewrites a package's version where it is kept, its own manifest or its workspace's root. The
        version stands even if a Rust package's lock file cannot be brought up to date afterwards. */
    method UpdateVersion(p: Package, next: string, locks: bool) returns (ok: bool)
      modifies this
      ensures ok <==> CanUpdate(layout, old(files), p) && (p.kind.Rust? ==> locks)
      ensures CanUpdate(layout, old(files), p) ==>
        && files == Write(old(files), SlotOf(layout, old(files), p).value, next)
        && Read(layout, files, p) == Some(next)
      ensures !CanUpdate(layout, old(files), p) ==> files == old(files)
    {
      ok := SetVersion(p, next);
      if ok && p.kind.Rust? {
        return locks;
      }
    }

    method SetVersion(p: Package, next: string) returns (ok: bool)
      modifies this
      ensures ok <==> CanUpdate(layout, old(files), p)
      ensures ok ==> files == Write(old(files), SlotOf(layout, old(files), p).value, next)
      ensures ok ==> Read(layout, files, p) == Some(next)
      ensures !ok ==> files == old(files)
    {
      if p.manifest !in files {
        if p.kind.VersionFile? {
          files := files[p.manifest := Simple(VersionFile, Some(next))];
        }
        return p.kind.VersionFile?;
      }
      var manifest := files[p.manifest];
      if manifest.Simple? {
        if manifest.kind != p.kind || (manifest.version.None? && !p.kind.Node? && !p.kind.VersionFile?) {
          return false;
        }
        files := files[p.manifest := Simple(manifest.kind, Some(next))];
        return true;
      }
      if !p.kind.Rust? {
        return false;
      }
      if manifest.inherits {
        if p.manifest !in layout.rootOf || layout.rootOf[p.manifest] !in files {
          return false;
        }
        var root := layout.rootOf[p.manifest];
        if !files[root].Cargo? || files[root].shared.None? {
          return false;
        }
        files := files[root := files[root].(shared := Some(next))];
        return true;
      }
      if manifest.version.None? {
        return false;
      }
      files := files[p.manifest := Cargo(Some(next), manifest.inherits, manifest.shared)];
      return true;
    }
  }

  /** A Cargo package that inherits reads what its workspace's root shares, any other package what its
      own manifest says; a manifest of another kind tells nothing. */
  lemma WhereVersionsAreRead(l: Layout, files: Files, p: Package)
    ensures Read(l, files, p) ==
      if p.manifest !in files then None
      else match files[p.manifest]
           case Simple(kind, version) => if kind == p.kind then version else None
           case Cargo(version, inherits, _) =>
             if !p.kind.Rust? then None
             else if !inherits then version
             else if p.manifest in l.rootOf && l.rootOf[p.manifest] in files && files[l.rootOf[p.manifest]].Cargo?
             then files[l.rootOf[p.manifest]].shared else None
  {
  }

  lemma SlotsStay(l: Layout, files: Files, slot: Slot, next: string, p: Package)
    ensures SlotOf(l, Write(files, slot, next), p) == SlotOf(l, files, p)
    ensures forall path :: Inherits(Write(files, slot, next), path) == Inherits(files, path)
  {
  }

  /** An update is read by exactly the packages whose version is kept in the same place. */
  lemma ReadAfterWrite(l: Layout, files: Files, slot: Slot, next: string, p: Package)
    requires VersionAt(files, slot).Some? || slot.Own?
    ensures Read(l, Write(files, slot, next), p) ==
      if SlotOf(l, files, p) == Some(slot) then Some(next) else Read(l, files, p)
  {
    SlotsStay(l, files, slot, next, p);
  }

  /** All updates, one after another; None if one of them fails. */
  function Applied(l: Layout, files: Files, updates: seq<Release>): Option<Files> {
    if updates == [] then Some(files)
    else
      var before := Applied(l, files, updates[..|updates| - 1]);
      var r := updates[|updates| - 1];
      if before.None? || !CanUpdate(l, before.value, r.package) then None
      else Some(Write(before.value, SlotOf(l, before.value, r.package).value, r.next))
  }

  /** Releases that write where the package's version is kept. */
  predicate Touches(l: Layout, files: Files, r: Release, p: Package) {
    SlotOf(l, files, r.package).Some? && SlotOf(l, files, r.package) == SlotOf(l, files, p)
  }

  lemma {:induction false} SlotsStayApplied(l: Layout, files: Files, updates: seq<Release>, p: Package)
    requires Applied(l, files, updates).Some?
    ensures SlotOf(l, Applied(l, files, updates).value, p) == SlotOf(l, files, p)
  {
    if updates != [] {
      var before := Applied(l, files, updates[..|updates| - 1]).value;
      var r := updates[|updates| - 1];
      SlotsStayApplied(l, files, updates[..|updates| - 1], p);
      SlotsStay(l, before, SlotOf(l, before, r.package).value, r.next, p);
    }
  }

  lemma CanStillUpdate(l: Layout, files: Files, q: Package, next: string, p: Package)
    requires CanUpdate(l, files, q)
    ensures CanUpdate(l, Write(files, SlotOf(l, files, q).value, next), p) == CanUpdate(l, files, p)
  {
    var slot := SlotOf(l, files, q).value;
    SlotsStay(l, files, slot, next, p);
  }

  /** A set of updates goes through, in whatever order, exactly if each could be made by itself. */
  lemma {:induction false} AppliedIffEachCan(l: Layout, files: Files, updates: seq<Release>)
    ensures Applied(l, files, updates).Some? <==> forall r | r in updates :: CanUpdate(l, files, r.package)
    ensures Applied(l, files, updates).Some? ==>
      forall p :: CanUpdate(l, Applied(l, files, updates).value, p) == CanUpdate(l, files, p)
  {
    if updates != [] {
      var front, last := updates[..|updates| - 1], updates[|updates| - 1];
      assert updates == front + [last];
      AppliedIffEachCan(l, files, front);
      var before := Applied(l, files, front);
      if before.Some? && CanUpdate(l, before.value, last.package) {
        forall p
          ensures CanUpdate(l, Applied(l, files, updates).value, p) == CanUpdate(l, files, p)
        {
          CanStillUpdate(l, before.value, last.package, last.next, p);
        }
      }
    }
  }

  /** After any updates a package reads what the last one touching it wrote. */
  lemma {:induction false} ReadApplied(l: Layout, files: Files, updates: seq<Release>, p: Package, next: string)
    requires Applied(l, files, updates).Some?
    requires forall r | r in updates && Touches(l, files, r, p) :: r.next == next
    ensures Read(l, Applied(l, files, updates).value, p) ==
      if exists r :: r in updates && Touches(l, files, r, p) then Some(next) else Read(l, files, p)
  {
    if updates != [] {
      var front, last := updates[..|updates| - 1], updates[|updates| - 1];
      assert updates == front + [last];
      var before := Applied(l, files, front).value;
      ReadApplied(l, files, front, p, next);
      SlotsStayApplied(l, files, front, p);
      SlotsStayApplied(l, files, front, last.package);
      ReadAfterWrite(l, before, SlotOf(l, before, last.package).value, last.next, p);
      assert last in updates;
      assert Touches(l, files, last, p) <==> SlotOf(l, before, p) == SlotOf(l, before, last.package);
    }
  }

  /** What is planned for a package; the empty version stands for nothing. */
  function Planned(releases: seq<Release>, name: string): string {
    if releases == [] then ""
    else if releases[|releases| - 1].package.name == name then releases[|releases| - 1].next
    else Planned(releases[..|releases| - 1], name)
  }

  predicate InGroup(l: Layout, files: Files, p: Package, root: Path) {
    p.kind.Rust? && Inherits(files, p.manifest) && p.manifest in l.rootOf && l.rootOf[p.manifest] == root
  }

  /** Every member of the workspace that inherits is configured, as a package of its group. */
  predicate MembersConfigured(l: Layout, files: Files, packages: seq<Package>, root: Path) {
    root in l.members && forall m | m in l.members[root] :: MemberConfigured(l, files, packages, root, m)
  }

  predicate MemberConfigured(l: Layout, files: Files, packages: seq<Package>, root: Path, m: Path) {
    m in files && (Inherits(files, m) ==>
      m in l.rootOf && exists p :: p in packages && InGroup(l, files, p, root) && p.manifest == m)
  }

  /** Packages inheriting a version that is to change are all released with one and the same next
      version, and no other manifest of the workspace inherits it. */
  predicate GroupAccepted(l: Layout, files: Files, releases: seq<Release>, packages: seq<Package>, root: Path) {
    (exists p :: p in packages && InGroup(l, files, p, root) && Planned(releases, p.name) != "") ==>
      && MembersConfigured(l, files, packages, root)
      && (forall p, q | p in packages && q in packages && InGroup(l, files, p, root) && InGroup(l, files, q, root) ::
            Planned(releases, p.name) == Planned(releases, q.name))
  }

  predicate Rooted(l: Layout, files: Files, packages: seq<Package>) {
    forall p | p in packages && p.kind.Rust? ::
      p.manifest in files && (Inherits(files, p.manifest) ==> p.manifest in l.rootOf)
  }

  predicate Accepted(l: Layout, files: Files, releases: seq<Release>, packages: seq<Package>) {
    && Rooted(l, files, packages)
    && (forall p | p in packages && p.kind.Rust? && Inherits(files, p.manifest) ::
          GroupAccepted(l, files, releases, packages, l.rootOf[p.manifest]))
  }

  /** Names and manifests are configured once, and releases are of configured packages, each once. */
  ghost predicate Distinct(releases: seq<Release>, packages: seq<Package>) {
    && (forall p, q | p in packages && q in packages && (p.name == q.name || p.manifest == q.manifest) :: p == q)
    && (forall r | r in releases :: r.package in packages && r.next != "")
    && (forall i, j | 0 <= i < j < |releases| :: releases[i].package.name != releases[j].package.name)
  }

  lemma {:induction false} PlannedIs(releases: seq<Release>, r: Release)
    requires r in releases
    requires forall i, j | 0 <= i < j < |releases| :: releases[i].package.name != releases[j].package.name
    ensures Planned(releases, r.package.name) == r.next
  {
    var n := |releases| - 1;
    assert releases == releases[..n] + [releases[n]];
    if releases[n] != r {
      var i :| 0 <= i < n && releases[i] == r;
      assert releases[..n][i] == r;
      PlannedIs(releases[..n], r);
    }
  }

  lemma {:induction false} PlannedComesFrom(releases: seq<Release>, name: string)
    requires Planned(releases, name) != ""
    ensures exists r :: r in releases && r.package.name == name && r.next == Planned(releases, name)
  {
    var n := |releases| - 1;
    assert releases == releases[..n] + [releases[n]];
    if releases[n].package.name != name {
      PlannedComesFrom(releases[..n], name);
    }
  }

  /** A release that touches a package's version plans just that version for it. */
  lemma TouchedIsPlanned(l: Layout, files: Files, releases: seq<Release>, packages: seq<Package>, r: Release,
                         p: Package)
    requires Accepted(l, files, releases, packages) && Distinct(releases, packages)
    requires r in releases && p in packages && Touches(l, files, r, p)
    ensures Planned(releases, p.name) == r.next
  {
    PlannedIs(releases, r);
    var q := r.package;
    var slot := SlotOf(l, files, p).value;
    if slot.Own? {
      assert p == q;
    } else {
      assert InGroup(l, files, p, slot.root) && InGroup(l, files, q, slot.root);
      assert GroupAccepted(l, files, releases, packages, slot.root);
    }
  }

  /** If the check accepts and each update could be made by itself, then all of them go through in
      whatever order, and make every released package read its planned version, and every other
      package read what it read before. */
  lemma AcceptedUpdatesAreSafe(l: Layout, files: Files, releases: seq<Release>, packages: seq<Package>,
                               updates: seq<Release>, p: Package)
    requires Accepted(l, files, releases, packages) && Distinct(releases, packages) && p in packages
    requires forall r :: r in updates <==> r in releases
    requires forall r | r in releases :: CanUpdate(l, files, r.package)
    ensures Applied(l, files, updates).Some?
    ensures var planned := Planned(releases, p.name);
      Read(l, Applied(l, files, updates).value, p) == if planned != "" then Some(planned) else Read(l, files, p)
  {
    AppliedIffEachCan(l, files, updates);
    var planned := Planned(releases, p.name);
    forall r | r in updates && Touches(l, files, r, p) ensures r.next == planned {
      TouchedIsPlanned(l, files, releases, packages, r, p);
    }
    ReadApplied(l, files, updates, p, planned);
    if planned != "" {
      PlannedComesFrom(releases, p.name);
      var r :| r in releases && r.package.name == p.name && r.next == planned;
      assert r.package == p;
      UpdatedHasSlot(l, files, updates, r);
      assert Touches(l, files, r, p);
    }
  }

  lemma {:induction false} UpdatedHasSlot(l: Layout, files: Files, updates: seq<Release>, r: Release)
    requires Applied(l, files, updates).Some? && r in updates
    ensures SlotOf(l, files, r.package).Some?
  {
    var front, last := updates[..|updates| - 1], updates[|updates| - 1];
    assert updates == front + [last];
    if last == r {
      SlotsStayApplied(l, files, front, r.package);
    } else {
      UpdatedHasSlot(l, files, front, r);
    }
  }

  /** And a member of a workspace that is not configured keeps the version it inherits. */
  lemma UnconfiguredKeepTheirVersion(l: Layout, files: Files, releases: seq<Release>, packages: seq<Package>,
                                     updates: seq<Release>, m: Path)
    requires Accepted(l, files, releases, packages) && Distinct(releases, packages)
    requires forall r :: r in updates <==> r in releases
    requires forall r | r in releases :: CanUpdate(l, files, r.package)
    requires Inherits(files, m) && m in l.rootOf && l.rootOf[m] in l.members && m in l.members[l.rootOf[m]]
    requires forall p | p in packages :: p.manifest != m
    ensures Applied(l, files, updates).Some?
    ensures var package := Package("", Rust, m);
      Read(l, Applied(l, files, updates).value, package) == Read(l, files, package)
  {
    AppliedIffEachCan(l, files, updates);
    var package, root := Package("", Rust, m), l.rootOf[m];
    forall r | r in updates ensures !Touches(l, files, r, package) {
      if Touches(l, files, r, package) {
        PlannedIs(releases, r);
        GroupMembers(l, files, releases, packages, r.package, m);
      }
    }
    ReadApplied(l, files, updates, package, "");
  }

  lemma GroupMembers(l: Layout, files: Files, releases: seq<Release>, packages: seq<Package>, q: Package, m: Path)
    requires Accepted(l, files, releases, packages) && q in packages && Planned(releases, q.name) != ""
    requires q.kind.Rust? && Inherits(files, q.manifest) && q.manifest in l.rootOf
    requires l.rootOf[q.manifest] in l.members && m in l.members[l.rootOf[q.manifest]]
    ensures MemberConfigured(l, files, packages, l.rootOf[q.manifest], m)
  {
    assert InGroup(l, files, q, l.rootOf[q.manifest]);
    assert GroupAccepted(l, files, releases, packages, l.rootOf[q.manifest]);
  }

  /** The check: whether a set of version updates is accepted. */
  method ValidateVersionUpdates(l: Layout, files: Files, releases: seq<Release>, packages: seq<Package>)
    returns (ok: bool)
    ensures ok <==> Accepted(l, files, releases, packages)
  {
    hide GroupAccepted, Inherits;
    var roots: set<Path> := {};
    for i := 0 to |packages|
      invariant Rooted(l, files, packages[..i])
      invariant roots ==
        set p | p in packages[..i] && p.kind.Rust? && Inherits(files, p.manifest) :: l.rootOf[p.manifest]
    {
      var p := packages[i];
      assert packages[..i + 1] == packages[..i] + [p];
      if p.kind.Rust? {
        if p.manifest !in files || (Inherits(files, p.manifest) && p.manifest !in l.rootOf) {
          assert p in packages;
          return false;
        }
        if Inherits(files, p.manifest) {
          roots := roots + {l.rootOf[p.manifest]};
        }
      }
    }
    assert packages[..|packages|] == packages;
    while roots != {}
      invariant forall p | p in packages && p.kind.Rust? && Inherits(files, p.manifest) ::
          l.rootOf[p.manifest] in roots || GroupAccepted(l, files, releases, packages, l.rootOf[p.manifest])
      invariant forall root | root in roots ::
          exists p :: p in packages && p.kind.Rust? && Inherits(files, p.manifest) && l.rootOf[p.manifest] == root
      decreases |roots|
    {
      var root :| root in roots;
      var accepted := CheckGroup(l, files, releases, packages, root);
      if !accepted {
        return false;
      }
      roots := roots - {root};
    }
    return true;
  }

  method CheckGroup(l: Layout, files: Files, releases: seq<Release>, packages: seq<Package>, root: Path)
    returns (ok: bool)
    ensures ok <==> GroupAccepted(l, files, releases, packages, root)
  {
    var target := "";
    var group: seq<Package> := [];
    for i := 0 to |packages|
      invariant forall p :: p in group <==> p in packages[..i] && InGroup(l, files, p, root)
      invariant target != "" ==> exists p :: p in group && Planned(releases, p.name) == target
      invariant forall p | p in group :: Planned(releases, p.name) == "" || Planned(releases, p.name) == target
    {
      hide InGroup;
      var p := packages[i];
      assert packages[..i + 1] == packages[..i] + [p];
      if InGroup(l, files, p, root) {
        var version := Planned(releases, p.name);
        if version != "" {
          if target != "" && target != version {
            assert p in packages;
            return false;
          }
          target := version;
        }
        group := group + [p];
      }
    }
    assert packages[..|packages|] == packages;
    if target == "" {
      return true;
    }
    if !MembersConfigured(l, files, packages, root) {
      return false;
    }
    for i := 0 to |group|
      invariant forall k | 0 <= k < i :: Planned(releases, group[k].name) == target
    {
      if Planned(releases, group[i].name) != target {
        assert group[i] in group;
        return false;
      }
    }
    assert forall p | p in group :: Planned(releases, p.name) == target;
    return true;
  }
}
