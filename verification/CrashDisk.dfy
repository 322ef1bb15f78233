/** The spool directory as a crash sees it: entries that are visible now, entries that are
    already durable, and directory operations of which any subset may survive a crash. */
module CrashDisk {
  import opened Wrappers

  const MAX_UINT64: nat := 0xFFFF_FFFF_FFFF_FFFF

  type Sequence = n: nat | n <= MAX_UINT64

  /** The file names the spool generates or recognises; everything else is Foreign. */
  datatype Name =
    | Record(number: Sequence)
    | Marker(number: Sequence)
    | TempRecord(number: Sequence)
    | TempMarker(number: Sequence)
    | Quarantine(number: Sequence, copy: nat)
    | Foreign(text: string)

  datatype Status = Completed | Failed

  datatype Job = Job(deliveryKey: string, workflowKey: string, queueKey: string, payload: string)

  /** What the bytes of a regular file decode to. The ticket tells two admissions of equal
      jobs apart, as an inode number does. */
  datatype Content = Work(ticket: nat, job: Job) | Verdict(status: Status) | Junk

  /** A special entry is a directory, link or device; its size is what the file system says. */
  datatype File = Regular(size: nat, content: Content) | Special(bytes: nat)

  function SizeOf(file: File): nat {
    if file.Regular? then file.size else file.bytes
  }

  type Directory = map<Name, File>

  datatype Change =
    | Link(name: Name, file: File)
    | Unlink(name: Name)
    | Rename(from: Name, to: Name, file: File)

  function Look(dir: Directory, name: Name): Option<File> {
    if name in dir then Some(dir[name]) else None
  }

  function Apply(change: Change, dir: Directory): Directory {
    match change
    case Link(name, file) => dir[name := file]
    case Unlink(name) => dir - {name}
    case Rename(from, to, file) => (dir - {from})[to := file]
  }

  predicate Touches(change: Change, name: Name) {
    match change
    case Link(n, _) => n == name
    case Unlink(n) => n == name
    case Rename(from, to, _) => from == name || to == name
  }

  /** What a name refers to once a change that touches it has taken effect. */
  function Outcome(change: Change, name: Name): Option<File> {
    match change
    case Link(_, file) => Some(file)
    case Unlink(_) => None
    case Rename(_, to, file) => if to == name then Some(file) else None
  }

  function Replay(dir: Directory, changes: seq<Change>): Directory {
    if changes == [] then dir
    else Apply(changes[|changes| - 1], Replay(dir, changes[..|changes| - 1]))
  }

  /** The durable directory after a crash that kept exactly the marked changes. */
  function Surviving(dir: Directory, changes: seq<Change>, kept: seq<bool>): Directory
    requires |kept| == |changes|
  {
    if changes == [] then dir
    else
      var last := |changes| - 1;
      var before := Surviving(dir, changes[..last], kept[..last]);
      if kept[last] then Apply(changes[last], before) else before
  }

  datatype Disk = Disk(live: Directory, durable: Directory, pending: seq<Change>) {
    predicate WellFormed() {
      live == Replay(durable, pending)
    }

    function Change(change: Change): Disk {
      Disk(Apply(change, live), durable, pending + [change])
    }

    function Synced(): Disk {
      Disk(live, live, [])
    }

    /** After a crash the surviving directory is both visible and durable. */
    ghost predicate CanCrashTo(dir: Directory) {
      exists kept: seq<bool> | |kept| == |pending| :: Surviving(durable, pending, kept) == dir
    }
  }

  /** Every file, or absence, that a name can refer to after a crash now. */
  ghost function Possible(disk: Disk, name: Name): set<Option<File>> {
    {Look(disk.durable, name)} + Outcomes(disk.pending, name)
  }

  ghost function Outcomes(changes: seq<Change>, name: Name): set<Option<File>> {
    set i | 0 <= i < |changes| && Touches(changes[i], name) :: Outcome(changes[i], name)
  }

  lemma OutcomesSnoc(changes: seq<Change>, last: Change, name: Name)
    ensures Outcomes(changes + [last], name)
         == Outcomes(changes, name) + if Touches(last, name) then {Outcome(last, name)} else {}
  {
    var all := changes + [last];
    assert forall i | 0 <= i < |changes| :: all[i] == changes[i];
    assert all[|changes|] == last;
    forall v | v in Outcomes(changes, name)
      ensures v in Outcomes(all, name)
    {
      var i :| 0 <= i < |changes| && Touches(changes[i], name) && v == Outcome(changes[i], name);
      assert Touches(all[i], name) && v == Outcome(all[i], name);
    }
    if Touches(last, name) {
      assert Touches(all[|changes|], name);
    }
  }

  lemma LookAfter(change: Change, dir: Directory, name: Name)
    ensures Look(Apply(change, dir), name)
         == if Touches(change, name) then Outcome(change, name) else Look(dir, name)
  {
  }

  lemma {:induction false} SurvivingLook(dir: Directory, changes: seq<Change>, kept: seq<bool>, name: Name)
    requires |kept| == |changes|
    ensures Look(Surviving(dir, changes, kept), name) in {Look(dir, name)} + Outcomes(changes, name)
  {
    if changes != [] {
      var last := |changes| - 1;
      SurvivingLook(dir, changes[..last], kept[..last], name);
      assert changes == changes[..last] + [changes[last]];
      OutcomesSnoc(changes[..last], changes[last], name);
      LookAfter(changes[last], Surviving(dir, changes[..last], kept[..last]), name);
    }
  }

  lemma {:induction false} SurvivingNone(dir: Directory, changes: seq<Change>, kept: seq<bool>)
    requires |kept| == |changes|
    requires forall i | 0 <= i < |kept| :: !kept[i]
    ensures Surviving(dir, changes, kept) == dir
  {
    if changes != [] {
      SurvivingNone(dir, changes[..|changes| - 1], kept[..|changes| - 1]);
    }
  }

  lemma {:induction false} SurvivingAll(dir: Directory, changes: seq<Change>, kept: seq<bool>)
    requires |kept| == |changes|
    requires forall i | 0 <= i < |kept| :: kept[i]
    ensures Surviving(dir, changes, kept) == Replay(dir, changes)
  {
    if changes != [] {
      SurvivingAll(dir, changes[..|changes| - 1], kept[..|changes| - 1]);
    }
  }

  /** Keeping only change `i` leaves the name that it touches with its outcome. */
  lemma {:induction false} SurvivingOnly(dir: Directory, changes: seq<Change>, kept: seq<bool>, i: nat)
    requires |kept| == |changes| && i < |changes|
    requires forall j | 0 <= j < |kept| :: kept[j] == (j == i)
    ensures Surviving(dir, changes, kept) == Apply(changes[i], dir)
  {
    var last := |changes| - 1;
    if i == last {
      SurvivingNone(dir, changes[..last], kept[..last]);
    } else {
      SurvivingOnly(dir, changes[..last], kept[..last], i);
    }
  }

  /** `Possible` is exact: a value is possible precisely when some crash leaves it behind. */
  lemma PossibleIsExact(disk: Disk, name: Name, value: Option<File>)
    ensures value in Possible(disk, name)
       <==> exists dir :: disk.CanCrashTo(dir) && Look(dir, name) == value
  {
    if value in Possible(disk, name) {
      var dir: Directory;
      if value == Look(disk.durable, name) {
        var kept := seq(|disk.pending|, _ => false);
        SurvivingNone(disk.durable, disk.pending, kept);
        dir := disk.durable;
      } else {
        var i :| 0 <= i < |disk.pending| && Touches(disk.pending[i], name)
                 && value == Outcome(disk.pending[i], name);
        var kept := seq(|disk.pending|, j => j == i);
        SurvivingOnly(disk.durable, disk.pending, kept, i);
        dir := Apply(disk.pending[i], disk.durable);
        LookAfter(disk.pending[i], disk.durable, name);
      }
      assert disk.CanCrashTo(dir) && Look(dir, name) == value;
    }
    forall dir | disk.CanCrashTo(dir)
      ensures Look(dir, name) in Possible(disk, name)
    {
      var kept :| |kept| == |disk.pending| && Surviving(disk.durable, disk.pending, kept) == dir;
      SurvivingLook(disk.durable, disk.pending, kept, name);
    }
  }

  lemma LiveIsPossible(disk: Disk, name: Name)
    requires disk.WellFormed()
    ensures Look(disk.live, name) in Possible(disk, name)
  {
    var kept := seq(|disk.pending|, _ => true);
    SurvivingAll(disk.durable, disk.pending, kept);
    SurvivingLook(disk.durable, disk.pending, kept, name);
  }

  lemma PossibleAfterChange(disk: Disk, change: Change, name: Name)
    ensures Possible(disk.Change(change), name)
         == Possible(disk, name) + if Touches(change, name) then {Outcome(change, name)} else {}
  {
    OutcomesSnoc(disk.pending, change, name);
  }

  lemma WellFormedAfterChange(disk: Disk, change: Change)
    requires disk.WellFormed()
    ensures disk.Change(change).WellFormed()
  {
    assert (disk.pending + [change])[..|disk.pending|] == disk.pending;
  }

  lemma PossibleAfterSync(disk: Disk, name: Name)
    ensures Possible(disk.Synced(), name) == {Look(disk.live, name)}
    ensures disk.Synced().WellFormed()
  {
  }

  predicate Ascending(numbers: seq<Sequence>) {
    forall i, j | 0 <= i < j < |numbers| :: numbers[i] < numbers[j]
  }
}
