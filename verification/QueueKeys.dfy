/** Which queue keys stand for one repository, told by their texts. */
module QueueKeys {
  import opened Wrappers
  import opened TextScan
  import opened QueueMachine

  /** The key of a branch of a repository: the branch is what follows the last colon. */
  predicate BranchKey(key: string, repository: string, branch: string) {
    key == repository + ":" + branch && ':' !in branch
  }

  predicate Capital(c: char) {
    'A' <= c <= 'Z'
  }

  /** The same character, or the same letter once as a capital and once not. */
  predicate SameLetter(c: char, d: char) {
    c == d || (Capital(c) && d as int == c as int + 32) || (Capital(d) && c as int == d as int + 32)
  }

  predicate SameButCase(a: string, b: string) {
    |a| == |b| && forall i | 0 <= i < |a| :: SameLetter(a[i], b[i])
  }

  /** A key without a branch stands for itself, and for a repository whose name in small letters it is. */
  ghost predicate OneRepository(k: string, l: string) {
    || (exists r, b, s, c :: BranchKey(k, r, b) && BranchKey(l, s, c) && SameButCase(r, s))
    || (':' !in k && ':' !in l && k == l)
    || (':' !in k && exists s, c :: BranchKey(l, s, c) && SmallOf(k, s))
    || (':' !in l && exists r, b :: BranchKey(k, r, b) && SmallOf(l, r))
  }

  predicate SmallOf(k: string, r: string) {
    SameButCase(k, r) && forall i | 0 <= i < |k| :: !Capital(k[i])
  }

  lemma {:induction false} LastColonOf(key: string)
    ensures LastColon(key).None? <==> ':' !in key
    ensures LastColon(key).Some? ==>
      var at := LastColon(key).value; at < |key| && key[at] == ':' && ':' !in key[at + 1..]
  {
    if key != "" && key[|key| - 1] != ':' {
      var front := key[..|key| - 1];
      LastColonOf(front);
      assert key == front + [key[|key| - 1]];
      if LastColon(front).Some? {
        var at := LastColon(front).value;
        assert key[at + 1..] == front[at + 1..] + [key[|key| - 1]];
      }
    }
  }

  lemma RepositoryOfBranch(key: string, repository: string, branch: string)
    requires BranchKey(key, repository, branch)
    ensures QueueRepository(key) == ToLower(repository)
  {
    LastColonOf(key);
    assert key[|repository|] == ':';
    var at := LastColon(key).value;
    assert forall i | at < i < |key| :: key[i] == key[at + 1..][i - at - 1];
    assert forall i | |repository| < i < |key| :: key[i] == branch[i - |repository| - 1];
    assert at == |repository| && key[..at] == repository;
  }

  lemma RepositoryOfPlain(key: string)
    ensures ':' !in key ==> QueueRepository(key) == key
    ensures ':' in key ==> exists r, b :: BranchKey(key, r, b)
  {
    LastColonOf(key);
    if ':' in key {
      var at := LastColon(key).value;
      assert BranchKey(key, key[..at], key[at + 1..]);
    }
  }

  lemma SameLower(a: string, b: string)
    ensures ToLower(a) == ToLower(b) <==> SameButCase(a, b)
  {
    if ToLower(a) == ToLower(b) {
      assert |a| == |ToLower(a)| == |ToLower(b)| == |b|;
      forall i | 0 <= i < |a| ensures SameLetter(a[i], b[i]) {
        assert ToLower(a)[i] == ToLower(b)[i];
      }
    }
  }

  lemma SmallIsLower(k: string, r: string)
    ensures k == ToLower(r) <==> SmallOf(k, r)
  {
    if k == ToLower(r) {
      forall i | 0 <= i < |k| ensures SameLetter(k[i], r[i]) && !Capital(k[i]) {
        assert k[i] == Lower(r[i]);
      }
    }
    if SmallOf(k, r) {
      forall i | 0 <= i < |k| ensures k[i] == ToLower(r)[i] {
        assert SameLetter(k[i], r[i]);
      }
    }
  }

  /** Keys get one gate exactly when their texts stand for one repository. */
  lemma OneRepositoryByText(k: string, l: string)
    ensures QueueRepository(k) == QueueRepository(l) <==> OneRepository(k, l)
  {
    RepositoryOfPlain(k);
    RepositoryOfPlain(l);
    hide QueueRepository, SameButCase, SmallOf, ToLower;
    forall r, b | BranchKey(k, r, b) ensures QueueRepository(k) == ToLower(r) && ':' in k {
      RepositoryOfBranch(k, r, b);
      assert k[|r|] == ':';
    }
    forall s, c | BranchKey(l, s, c) ensures QueueRepository(l) == ToLower(s) && ':' in l {
      RepositoryOfBranch(l, s, c);
      assert l[|s|] == ':';
    }
    hide BranchKey;
    forall r, s ensures ToLower(r) == ToLower(s) <==> SameButCase(r, s) {
      SameLower(r, s);
    }
    forall x, s ensures x == ToLower(s) <==> SmallOf(x, s) {
      SmallIsLower(x, s);
    }
    if QueueRepository(k) == QueueRepository(l) && ':' in k && ':' in l {
      var r, b :| BranchKey(k, r, b);
      var s, c :| BranchKey(l, s, c);
      assert SameButCase(r, s);
    }
  }
}
