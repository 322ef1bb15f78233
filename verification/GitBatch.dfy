/** The NUL-delimited output of Git's batch commands: what the parsers accept, and that they give
    back what was printed. */
module GitBatch {
  import opened Wrappers
  import opened TextScan

  const NUL := "\0"

  predicate IsHex(s: string) {
    forall i | 0 <= i < |s| :: '0' <= s[i] <= '9' || 'a' <= s[i] <= 'f'
  }

  predicate IsOctal(s: string) {
    forall i | 0 <= i < |s| :: '0' <= s[i] <= '7'
  }

  predicate IsHash(s: string) {
    (|s| == 40 || |s| == 64) && IsHex(s)
  }

  /** Old and new mode, old and new object, and the kind of the change. */
  predicate IsHeader(s: string) {
    var f := SplitOn(s, " ");
    && s != "" && s[0] == ':' && |f| == 5 && |f[0]| == 7 && IsOctal(f[0][1..]) && |f[1]| == 6 && IsOctal(f[1])
    && f[2] != "" && IsHex(f[2]) && f[3] != "" && IsHex(f[3])
    && |f[4]| == 1 && f[4][0] in "ACDMTUXB"
  }

  predicate HexText(t: string) {
    t != "" && forall c | c in t :: c in "0123456789abcdef"
  }

  predicate SixOctal(t: string) {
    |t| == 6 && forall c | c in t :: c in "01234567"
  }

  /** A header's text, put together from modes, objects and the letter for the change. */
  predicate HeaderOf(s: string, old': string, new': string, from: string, to: string, change: char) {
    && s == ":" + old' + " " + new' + " " + from + " " + to + " " + [change]
    && SixOctal(old') && SixOctal(new') && HexText(from) && HexText(to)
    && change in {'A', 'C', 'D', 'M', 'T', 'U', 'X', 'B'}
  }

  lemma HashByText(s: string)
    ensures IsHash(s) <==> |s| in {40, 64} && HexText(s)
  {
    HexByText(s);
  }

  lemma HexByText(s: string)
    ensures s != "" ==> (IsHex(s) <==> HexText(s))
    ensures |s| == 6 ==> (IsOctal(s) <==> SixOctal(s))
  {
    assert forall c: char :: c in "0123456789abcdef" <==> '0' <= c <= '9' || 'a' <= c <= 'f';
    assert forall c: char :: c in "01234567" <==> '0' <= c <= '7';
    assert forall i | 0 <= i < |s| :: s[i] in s;
  }

  /** A field is taken for a header exactly if it is put together like one. */
  lemma HeaderByText(s: string)
    ensures IsHeader(s) <==> exists old', new', from, to, change :: HeaderOf(s, old', new', from, to, change)
  {
    if IsHeader(s) {
      HeaderFalls(s);
    }
    forall old', new', from, to, change | HeaderOf(s, old', new', from, to, change) ensures IsHeader(s) {
      HeaderIsTaken(s, old', new', from, to, change);
    }
  }

  lemma HeaderFalls(s: string)
    requires IsHeader(s)
    ensures exists old', new', from, to, change :: HeaderOf(s, old', new', from, to, change)
  {
    var f := SplitOn(s, " ");
    JoinSplit(s, " ");
    FiveJoined(f);
    HexByText(f[0][1..]);
    HexByText(f[1]);
    HexByText(f[2]);
    HexByText(f[3]);
    hide SplitOn, Join, IsHex, IsOctal, HexText, SixOctal;
    assert s == f[0] + " " + f[1] + " " + f[2] + " " + f[3] + " " + f[4];
    assert f[0] == ":" + f[0][1..];
    assert f[4] == [f[4][0]];
    assert HeaderOf(s, f[0][1..], f[1], f[2], f[3], f[4][0]);
  }

  lemma FiveJoined(f: seq<string>)
    requires |f| == 5
    ensures Join(f, " ") == f[0] + " " + f[1] + " " + f[2] + " " + f[3] + " " + f[4]
  {
    assert Join(f[4..], " ") == f[4];
    assert Join(f[3..], " ") == f[3] + " " + Join(f[4..], " ") by { assert f[3..][1..] == f[4..]; }
    assert Join(f[2..], " ") == f[2] + " " + Join(f[3..], " ") by { assert f[2..][1..] == f[3..]; }
    assert Join(f[1..], " ") == f[1] + " " + Join(f[2..], " ") by { assert f[1..][1..] == f[2..]; }
  }

  lemma HeaderIsTaken(s: string, old': string, new': string, from: string, to: string, change: char)
    requires HeaderOf(s, old', new', from, to, change)
    ensures IsHeader(s)
  {
    var f := [":" + old', new', from, to, [change]];
    FiveJoined(f);
    assert s == Join(f, " ");
    HexByText(old');
    HexByText(new');
    HexByText(from);
    HexByText(to);
    forall i | 0 <= i < |f| ensures ' ' !in f[i] {
    }
    SplitJoined(f, " ");
    assert f[0][1..] == old';
  }

  /** Fields end with NUL; None stands for truncated output. */
  function FieldsOf(output: string): Option<seq<string>> {
    if output == "" then Some([])
    else if output[|output| - 1] != '\0' then None
    else Some(SplitOn(output[..|output| - 1], NUL))
  }

  function Output(fields: seq<string>): string {
    if fields == [] then "" else Join(fields, NUL) + NUL
  }

  lemma FieldsRoundTrip(fields: seq<string>)
    requires forall i | 0 <= i < |fields| :: '\0' !in fields[i]
    ensures FieldsOf(Output(fields)) == Some(fields)
  {
    if fields != [] {
      assert Output(fields)[..|Output(fields)| - 1] == Join(fields, NUL);
      SplitJoined(fields, NUL);
    }
  }

  lemma OutputRoundTrip(output: string)
    requires FieldsOf(output).Some?
    ensures Output(FieldsOf(output).value) == output
    ensures forall i | 0 <= i < |FieldsOf(output).value| :: '\0' !in FieldsOf(output).value[i]
  {
    if output != "" {
      JoinSplit(output[..|output| - 1], NUL);
      SplitParts(output[..|output| - 1], '\0');
    }
  }

  datatype Change = Change(header: string, file: string)

  /** What Git prints for one commit. */
  datatype Block = Block(hash: string, changes: seq<Change>)

  function ChangeFields(changes: seq<Change>): seq<string> {
    if changes == [] then [] else [changes[0].header, changes[0].file] + ChangeFields(changes[1..])
  }

  function BlockFields(blocks: seq<Block>): seq<string> {
    if blocks == [] then [] else [blocks[0].hash] + ChangeFields(blocks[0].changes) + BlockFields(blocks[1..])
  }

  /** Filenames are opaque: any that are not empty, even such as look like hashes or headers. */
  predicate Printable(b: Block) {
    IsHash(b.hash) && forall i | 0 <= i < |b.changes| :: IsHeader(b.changes[i].header) && b.changes[i].file != ""
  }

  /** The parser's variables: files found for each commit, commits seen, and the present one. */
  datatype Progress = Progress(files: seq<seq<string>>, seen: set<string>, current: Option<nat>)

  function LastIndex(hashes: seq<string>, hash: string): (at: Option<nat>)
    ensures at.Some? <==> hash in hashes
    ensures at.Some? ==> at.value < |hashes| && hashes[at.value] == hash
  {
    if hashes == [] then None
    else if hashes[|hashes| - 1] == hash then Some(|hashes| - 1)
    else
      assert hashes == hashes[..|hashes| - 1] + [hashes[|hashes| - 1]];
      LastIndex(hashes[..|hashes| - 1], hash)
  }

  predicate Fits(hashes: seq<string>, p: Progress) {
    |p.files| == |hashes| && (p.current.Some? ==> p.current.value < |hashes|)
  }

  function AddFile(p: Progress, file: string): Progress
    requires p.current.Some? && p.current.value < |p.files|
  {
    p.(files := p.files[p.current.value := p.files[p.current.value] + [file]])
  }

  function ParseFrom(hashes: seq<string>, fields: seq<string>, p: Progress): (r: Option<Progress>)
    requires Fits(hashes, p)
    ensures r.Some? ==> Fits(hashes, r.value)
    decreases |fields|
  {
    if fields == [] then Some(p)
    else if IsHash(fields[0]) then
      if fields[0] !in hashes || fields[0] in p.seen then None
      else ParseFrom(hashes, fields[1..], p.(seen := p.seen + {fields[0]}, current := LastIndex(hashes, fields[0])))
    else if p.current.None? || !IsHeader(fields[0]) || |fields| < 2 || fields[1] == "" then None
    else ParseFrom(hashes, fields[2..], AddFile(p, fields[1]))
  }

  function Start(hashes: seq<string>): (p: Progress)
    ensures Fits(hashes, p)
  {
    Progress(seq(|hashes|, _ => []), {}, None)
  }

  /** The files of each commit, or None for output that is no batch of these commits. */
  function Parsed(hashes: seq<string>, output: string): Option<seq<seq<string>>> {
    var fields := FieldsOf(output);
    if fields.None? then None
    else
      var end := ParseFrom(hashes, fields.value, Start(hashes));
      if end.None? then None else Some(end.value.files)
  }

  method ParseCommitDiffs(hashes: seq<string>, output: string) returns (files: Option<seq<seq<string>>>)
    ensures files == Parsed(hashes, output)
  {
    if output == "" {
      return Some(seq(|hashes|, _ => []));
    }
    var fields := FieldsOf(output);
    if fields.None? {
      return None;
    }
    var p := Start(hashes);
    var i := 0;
    while i < |fields.value|
      invariant i <= |fields.value| && Fits(hashes, p)
      invariant ParseFrom(hashes, fields.value, Start(hashes)) == ParseFrom(hashes, fields.value[i..], p)
    {
      hide IsHash, IsHeader, FieldsOf;
      var field := fields.value[i];
      assert fields.value[i..][1..] == fields.value[i + 1..];
      if IsHash(field) {
        if field !in hashes || field in p.seen {
          return None;
        }
        p := p.(seen := p.seen + {field}, current := LastIndex(hashes, field));
        i := i + 1;
        continue;
      }
      if p.current.None? || !IsHeader(field) || i + 1 >= |fields.value| || fields.value[i + 1] == "" {
        return None;
      }
      assert fields.value[i..][2..] == fields.value[i + 2..];
      p := AddFile(p, fields.value[i + 1]);
      i := i + 2;
    }
    return Some(p.files);
  }

  function Files(changes: seq<Change>): seq<string> {
    seq(|changes|, i requires 0 <= i < |changes| => changes[i].file)
  }

  /** The files of the block with this hash, or none. */
  function FilesOf(blocks: seq<Block>, hash: string): seq<string> {
    if blocks == [] then []
    else if blocks[0].hash == hash then Files(blocks[0].changes) else FilesOf(blocks[1..], hash)
  }

  predicate DistinctBlocks(blocks: seq<Block>) {
    forall i, j | 0 <= i < j < |blocks| :: blocks[i].hash != blocks[j].hash
  }

  /** A batch of these commits: each block printable, of a known commit, and none twice. */
  predicate Batch(hashes: seq<string>, blocks: seq<Block>, seen: set<string>) {
    && DistinctBlocks(blocks)
    && forall i | 0 <= i < |blocks| :: Printable(blocks[i]) && blocks[i].hash in hashes && blocks[i].hash !in seen
  }

  lemma HeaderIsNoHash(s: string)
    requires IsHeader(s)
    ensures !IsHash(s)
  {
    assert s[0] == ':';
  }

  /** The present commit's files are extended. */
  function Credited(p: Progress, files: seq<string>): Progress
    requires p.current.Some? && p.current.value < |p.files|
  {
    p.(files := p.files[p.current.value := p.files[p.current.value] + files])
  }

  lemma CreditMore(p: Progress, changes: seq<Change>)
    requires p.current.Some? && p.current.value < |p.files|
    ensures changes == [] ==> Credited(p, Files(changes)) == p
    ensures changes != [] ==> Credited(AddFile(p, changes[0].file), Files(changes[1..])) == Credited(p, Files(changes))
  {
    var c := p.current.value;
    if changes == [] {
      assert p.files[c] + Files(changes) == p.files[c];
      assert p.files[c := p.files[c]] == p.files;
    } else {
      assert p.files[c] + [changes[0].file] + Files(changes[1..]) == p.files[c] + Files(changes);
      var files := AddFile(p, changes[0].file).files;
      assert files[c := files[c] + Files(changes[1..])] == p.files[c := p.files[c] + Files(changes)];
    }
  }

  lemma {:induction false} ParseChanges(hashes: seq<string>, changes: seq<Change>, rest: seq<string>, p: Progress)
    requires Fits(hashes, p) && p.current.Some?
    requires forall i | 0 <= i < |changes| :: IsHeader(changes[i].header) && changes[i].file != ""
    ensures ParseFrom(hashes, ChangeFields(changes) + rest, p) == ParseFrom(hashes, rest, Credited(p, Files(changes)))
  {
    hide IsHash, IsHeader, Files, Credited;
    CreditMore(p, changes);
    if changes == [] {
      assert ChangeFields(changes) + rest == rest;
    } else {
      HeaderIsNoHash(changes[0].header);
      var fields := ChangeFields(changes) + rest;
      assert fields[0] == changes[0].header && fields[1] == changes[0].file;
      assert fields[2..] == ChangeFields(changes[1..]) + rest;
      ParseChanges(hashes, changes[1..], rest, AddFile(p, changes[0].file));
    }
  }

  /** Progress after whole blocks. */
  function After(hashes: seq<string>, blocks: seq<Block>, p: Progress): (q: Progress)
    requires Fits(hashes, p) && forall i | 0 <= i < |blocks| :: blocks[i].hash in hashes
    ensures Fits(hashes, q)
  {
    if blocks == [] then p
    else
      var c := LastIndex(hashes, blocks[0].hash).value;
      After(hashes, blocks[1..], Progress(p.files[c := p.files[c] + Files(blocks[0].changes)],
                                          p.seen + {blocks[0].hash}, Some(c)))
  }

  lemma {:induction false} ParseBlocks(hashes: seq<string>, blocks: seq<Block>, p: Progress)
    requires Fits(hashes, p) && Batch(hashes, blocks, p.seen)
    ensures ParseFrom(hashes, BlockFields(blocks), p) == Some(After(hashes, blocks, p))
  {
    hide IsHash, IsHeader;
    if blocks != [] {
      var b, c := blocks[0], LastIndex(hashes, blocks[0].hash);
      assert IsHash(b.hash) by { PrintableHash(b); }
      var rest := BlockFields(blocks[1..]);
      var q := p.(seen := p.seen + {b.hash}, current := c);
      assert BlockFields(blocks) == [b.hash] + (ChangeFields(b.changes) + rest);
      assert BlockFields(blocks)[1..] == ChangeFields(b.changes) + rest;
      ParseChanges(hashes, b.changes, rest, q);
      assert forall i | 0 <= i < |blocks[1..]| :: blocks[1..][i] == blocks[i + 1];
      ParseBlocks(hashes, blocks[1..], Progress(p.files[c.value := p.files[c.value] + Files(b.changes)], q.seen, c));
    }
  }

  lemma PrintableHash(b: Block)
    requires Printable(b)
    ensures IsHash(b.hash)
  {
  }

  predicate DistinctHashes(hashes: seq<string>) {
    forall i, j | 0 <= i < j < |hashes| :: hashes[i] != hashes[j]
  }

  lemma {:induction false} AfterFiles(hashes: seq<string>, blocks: seq<Block>, p: Progress, i: nat)
    requires Fits(hashes, p) && DistinctHashes(hashes) && DistinctBlocks(blocks) && i < |hashes|
    requires forall k | 0 <= k < |blocks| :: blocks[k].hash in hashes
    ensures After(hashes, blocks, p).files[i] == p.files[i] + FilesOf(blocks, hashes[i])
  {
    if blocks != [] {
      var c := LastIndex(hashes, blocks[0].hash).value;
      var q := Progress(p.files[c := p.files[c] + Files(blocks[0].changes)], p.seen + {blocks[0].hash}, Some(c));
      assert forall k | 0 <= k < |blocks[1..]| :: blocks[1..][k] == blocks[k + 1];
      AfterFiles(hashes, blocks[1..], q, i);
      if blocks[0].hash == hashes[i] {
        assert c == i;
        FilesOfNone(blocks[1..], hashes[i]);
      }
    }
  }

  lemma {:induction false} FilesOfNone(blocks: seq<Block>, hash: string)
    requires forall i | 0 <= i < |blocks| :: blocks[i].hash != hash
    ensures FilesOf(blocks, hash) == []
  {
    if blocks != [] {
      FilesOfNone(blocks[1..], hash);
    }
  }

  predicate FieldsFree(blocks: seq<Block>) {
    forall i | 0 <= i < |BlockFields(blocks)| :: '\0' !in BlockFields(blocks)[i]
  }

  /** Printing a batch and parsing it back gives every commit its files, in order. */
  lemma BatchRoundTrip(hashes: seq<string>, blocks: seq<Block>)
    requires DistinctHashes(hashes) && Batch(hashes, blocks, {}) && FieldsFree(blocks)
    ensures Parsed(hashes, Output(BlockFields(blocks))) ==
      Some(seq(|hashes|, i requires 0 <= i < |hashes| => FilesOf(blocks, hashes[i])))
  {
    FieldsRoundTrip(BlockFields(blocks));
    ParseBlocks(hashes, blocks, Start(hashes));
    hide Batch, FieldsOf, Output, ParseFrom, FilesOf, BlockFields, After, FieldsFree;
    var files := After(hashes, blocks, Start(hashes)).files;
    forall i | 0 <= i < |hashes| ensures files[i] == FilesOf(blocks, hashes[i]) {
      BatchIsKnown(hashes, blocks);
      AfterFiles(hashes, blocks, Start(hashes), i);
    }
    assert files == seq(|hashes|, i requires 0 <= i < |hashes| => FilesOf(blocks, hashes[i]));
  }

  lemma BatchIsKnown(hashes: seq<string>, blocks: seq<Block>)
    requires Batch(hashes, blocks, {})
    ensures DistinctBlocks(blocks) && forall k | 0 <= k < |blocks| :: blocks[k].hash in hashes
  {
  }

  /** Accepted fields are those of the block under way and of further blocks. */
  lemma {:induction false} AcceptedFields(hashes: seq<string>, fields: seq<string>, p: Progress)
      returns (changes: seq<Change>, blocks: seq<Block>)
    requires Fits(hashes, p) && ParseFrom(hashes, fields, p).Some?
    ensures fields == ChangeFields(changes) + BlockFields(blocks) && Batch(hashes, blocks, p.seen)
    ensures GoodChanges(changes) && (p.current.None? ==> changes == [])
    decreases |fields|
  {
    hide IsHash, IsHeader, Batch, Printable, ChangeFields, BlockFields, GoodChanges;
    if fields == [] {
      changes, blocks := [], [];
      NoFields(hashes, p.seen);
    } else if IsHash(fields[0]) {
      var q := p.(seen := p.seen + {fields[0]}, current := LastIndex(hashes, fields[0]));
      var first, more := AcceptedFields(hashes, fields[1..], q);
      var b := Block(fields[0], first);
      changes, blocks := [], [b] + more;
      GoodBlock(b);
      OneMoreBlock(hashes, b, more, p.seen);
      BlockFirst(fields, b, more);
    } else {
      var rest;
      rest, blocks := AcceptedFields(hashes, fields[2..], AddFile(p, fields[1]));
      changes := [Change(fields[0], fields[1])] + rest;
      ChangeFirst(fields, rest, blocks);
    }
  }

  predicate GoodChanges(changes: seq<Change>) {
    forall i | 0 <= i < |changes| :: IsHeader(changes[i].header) && changes[i].file != ""
  }

  lemma NoFields(hashes: seq<string>, seen: set<string>)
    ensures [] == ChangeFields([]) + BlockFields([]) && Batch(hashes, [], seen) && GoodChanges([])
  {
  }

  lemma GoodBlock(b: Block)
    requires IsHash(b.hash) && GoodChanges(b.changes)
    ensures Printable(b)
  {
  }

  lemma BlockFirst(fields: seq<string>, b: Block, more: seq<Block>)
    requires fields != [] && fields[0] == b.hash && fields[1..] == ChangeFields(b.changes) + BlockFields(more)
    ensures fields == ChangeFields([]) + BlockFields([b] + more) && GoodChanges([])
  {
    assert ([b] + more)[1..] == more && fields == [fields[0]] + fields[1..];
  }

  lemma ChangeFirst(fields: seq<string>, rest: seq<Change>, blocks: seq<Block>)
    requires |fields| >= 2 && fields[2..] == ChangeFields(rest) + BlockFields(blocks)
    requires IsHeader(fields[0]) && fields[1] != "" && GoodChanges(rest)
    ensures var changes := [Change(fields[0], fields[1])] + rest;
      fields == ChangeFields(changes) + BlockFields(blocks) && GoodChanges(changes)
  {
    hide IsHeader, BlockFields;
    var changes := [Change(fields[0], fields[1])] + rest;
    assert changes[1..] == rest && fields == [fields[0], fields[1]] + fields[2..];
  }

  lemma OneMoreBlock(hashes: seq<string>, b: Block, more: seq<Block>, seen: set<string>)
    requires Batch(hashes, more, seen + {b.hash}) && Printable(b) && b.hash in hashes && b.hash !in seen
    ensures Batch(hashes, [b] + more, seen)
  {
    hide Printable;
  }

  /** Nothing but a printed batch is accepted: an unknown or repeated commit, a malformed header, a
      missing or empty filename and truncation are all refused. */
  lemma OnlyBatchesAreAccepted(hashes: seq<string>, output: string) returns (blocks: seq<Block>)
    requires Parsed(hashes, output).Some?
    ensures output == Output(BlockFields(blocks)) && Batch(hashes, blocks, {})
  {
    OutputRoundTrip(output);
    var changes;
    changes, blocks := AcceptedFields(hashes, FieldsOf(output).value, Start(hashes));
    assert [] + BlockFields(blocks) == BlockFields(blocks);
  }

  datatype Commit = Commit(hash: string, subject: string, body: string)

  function MetadataFields(commits: seq<Commit>): seq<string> {
    if commits == [] then []
    else
      var c := commits[|commits| - 1];
      MetadataFields(commits[..|commits| - 1]) + [c.hash, c.subject, c.body]
  }

  function Hashes(commits: seq<Commit>): seq<string> {
    seq(|commits|, i requires 0 <= i < |commits| => commits[i].hash)
  }

  /** The i-th record of three fields: an identity, and what is left of subject and body without
      trailing white space. */
  function RecordAt(fields: seq<string>, i: nat): Commit
    requires 3 * i + 2 < |fields|
  {
    Commit(fields[3 * i], TrimRight(fields[3 * i + 1]), TrimRight(fields[3 * i + 2]))
  }

  function RecordsOf(fields: seq<string>): seq<Commit> {
    seq(|fields| / 3, i requires 0 <= i < |fields| / 3 => RecordAt(fields, i))
  }

  /** Whether fields are records of valid and distinct commits. */
  predicate ValidRecords(fields: seq<string>) {
    && |fields| % 3 == 0
    && (forall i | 0 <= i < |fields| / 3 :: IsHash(RecordAt(fields, i).hash))
    && DistinctHashes(Hashes(RecordsOf(fields)))
  }

  /** The commits a log proves, or None. */
  function Metadata(output: string): Option<seq<Commit>> {
    var fields := FieldsOf(output);
    if fields.None? || !ValidRecords(fields.value) then None else Some(RecordsOf(fields.value))
  }

  /** The first n records have been read, and are valid and distinct. */
  predicate Read(fields: seq<string>, n: nat, parsed: seq<Commit>) {
    && n <= |fields| / 3 && parsed == RecordsOf(fields)[..n]
    && (forall i | 0 <= i < n :: IsHash(RecordAt(fields, i).hash)) && DistinctHashes(Hashes(parsed))
  }

  method ParseCommitMetadata(output: string) returns (commits: Option<seq<Commit>>)
    ensures commits == Metadata(output)
    ensures commits.Some? <==> FieldsOf(output).Some? && ValidRecords(FieldsOf(output).value)
  {
    hide IsHash, TrimRight, FieldsOf;
    var fields := FieldsOf(output);
    if fields.None? || |fields.value| % 3 != 0 {
      return None;
    }
    var parsed: seq<Commit>, seen: set<string> := [], {};
    hide RecordAt;
    for i := 0 to |fields.value| / 3
      invariant Read(fields.value, i, parsed)
      invariant seen == set h | h in Hashes(parsed)
    {
      var c := RecordAt(fields.value, i);
      if !IsHash(c.hash) {
        return None;
      }
      if c.hash in seen {
        SeenTwice(fields.value, parsed, i);
        return None;
      }
      ReadMore(fields.value, i, parsed);
      parsed, seen := parsed + [c], seen + {c.hash};
    }
    assert RecordsOf(fields.value)[..|fields.value| / 3] == RecordsOf(fields.value);
    return Some(parsed);
  }

  lemma SeenTwice(fields: seq<string>, parsed: seq<Commit>, n: nat)
    requires n < |fields| / 3 && Read(fields, n, parsed) && RecordAt(fields, n).hash in Hashes(parsed)
    ensures !ValidRecords(fields)
  {
    hide RecordAt, IsHash;
    var all := RecordsOf(fields);
    var i :| 0 <= i < n && Hashes(parsed)[i] == RecordAt(fields, n).hash;
    assert Hashes(all)[i] == Hashes(all)[n];
  }

  lemma ReadMore(fields: seq<string>, n: nat, parsed: seq<Commit>)
    requires n < |fields| / 3 && Read(fields, n, parsed)
    requires IsHash(RecordAt(fields, n).hash) && RecordAt(fields, n).hash !in Hashes(parsed)
    ensures Read(fields, n + 1, parsed + [RecordAt(fields, n)])
    ensures Hashes(parsed + [RecordAt(fields, n)]) == Hashes(parsed) + [RecordAt(fields, n).hash]
  {
    hide RecordAt, IsHash;
    assert RecordsOf(fields)[..n + 1] == parsed + [RecordAt(fields, n)];
    assert Hashes(parsed + [RecordAt(fields, n)]) == Hashes(parsed) + [RecordAt(fields, n).hash];
  }

  lemma {:induction false} FieldAt(commits: seq<Commit>, i: nat)
    requires i < |commits|
    ensures var f := MetadataFields(commits);
      |f| == 3 * |commits| && f[3 * i] == commits[i].hash && f[3 * i + 1] == commits[i].subject
      && f[3 * i + 2] == commits[i].body
  {
    var n := |commits| - 1;
    if n > 0 {
      FieldAt(commits[..n], if i < n then i else 0);
    }
  }

  lemma {:induction false} FieldCount(commits: seq<Commit>)
    ensures |MetadataFields(commits)| == 3 * |commits|
  {
    if commits != [] {
      FieldCount(commits[..|commits| - 1]);
    }
  }

  /** A commit as Git prints it: a valid identity, and texts without NUL or trailing white space. */
  predicate Loggable(c: Commit) {
    && IsHash(c.hash) && '\0' !in c.subject && '\0' !in c.body
    && TrimRight(c.subject) == c.subject && TrimRight(c.body) == c.body
  }

  lemma LoggableHash(c: Commit)
    requires Loggable(c)
    ensures IsHash(c.hash) && '\0' !in c.hash
  {
  }

  lemma {:induction false} FieldsAreFree(commits: seq<Commit>)
    requires forall i | 0 <= i < |commits| :: Loggable(commits[i])
    ensures forall k | 0 <= k < |MetadataFields(commits)| :: '\0' !in MetadataFields(commits)[k]
  {
    if commits != [] {
      FieldsAreFree(commits[..|commits| - 1]);
      LoggableHash(commits[|commits| - 1]);
      hide IsHash, TrimRight;
    }
  }

  lemma PrintedRecord(commits: seq<Commit>, i: nat)
    requires i < |commits| && Loggable(commits[i])
    ensures |MetadataFields(commits)| == 3 * |commits| && RecordAt(MetadataFields(commits), i) == commits[i]
  {
    FieldAt(commits, i);
    hide IsHash, MetadataFields, TrimRight;
  }

  lemma PrintedReadsBack(commits: seq<Commit>)
    requires forall i | 0 <= i < |commits| :: Loggable(commits[i])
    ensures |MetadataFields(commits)| == 3 * |commits| && RecordsOf(MetadataFields(commits)) == commits
  {
    hide MetadataFields, RecordAt, Loggable;
    FieldCount(commits);
    var records := RecordsOf(MetadataFields(commits));
    forall i | 0 <= i < |commits| ensures records[i] == commits[i] {
      PrintedRecord(commits, i);
    }
  }

  lemma PrintedIsValid(commits: seq<Commit>)
    requires forall i | 0 <= i < |commits| :: Loggable(commits[i])
    requires DistinctHashes(Hashes(commits))
    ensures ValidRecords(MetadataFields(commits))
  {
    hide MetadataFields, RecordAt, Loggable, IsHash, Hashes, DistinctHashes;
    PrintedReadsBack(commits);
    forall i | 0 <= i < |commits| ensures IsHash(RecordAt(MetadataFields(commits), i).hash) {
      PrintedRecord(commits, i);
      LoggableHash(commits[i]);
    }
  }

  /** A printed log of distinct commits is accepted, and gives back exactly those commits. */
  lemma MetadataRoundTrip(commits: seq<Commit>)
    requires forall i | 0 <= i < |commits| :: Loggable(commits[i])
    requires DistinctHashes(Hashes(commits))
    ensures Metadata(Output(MetadataFields(commits))) == Some(commits)
  {
    hide Loggable, MetadataFields, RecordsOf, ValidRecords, FieldsOf, Output, Hashes, DistinctHashes;
    FieldsAreFree(commits);
    FieldsRoundTrip(MetadataFields(commits));
    PrintedIsValid(commits);
    PrintedReadsBack(commits);
  }
}
