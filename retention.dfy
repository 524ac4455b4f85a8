/**
 * Pruning of old code archives under a context's code prefix: with three or
 * more archives listed, everything but the two most recently modified is
 * deleted.
 */
module Retention {
  import opened Wrappers
  import opened Cloud

  /** How many archives survive a pruning. */
  const Keep := 2

  /** `files.sort(key=lambda i: i[1], reverse=True)`: a stable sort, newest first. */
  function SortNewestFirst(files: seq<Artifact>): (sorted: seq<Artifact>)
    ensures |sorted| == |files|
    decreases |files|
  {
    if |files| == 0 then [] else InsertNewestFirst(files[0], SortNewestFirst(files[1..]))
  }

  /** Insert `a` before the first strictly older archive, so that equal timestamps keep their order. */
  function InsertNewestFirst(a: Artifact, sorted: seq<Artifact>): (r: seq<Artifact>)
    ensures |r| == |sorted| + 1
    decreases |sorted|
  {
    if |sorted| == 0 || a.lastModified >= sorted[0].lastModified then [a] + sorted
    else [sorted[0]] + InsertNewestFirst(a, sorted[1..])
  }

  predicate NewestFirst(s: seq<Artifact>)
  {
    forall i, j :: 0 <= i < j < |s| ==> s[i].lastModified >= s[j].lastModified
  }

  lemma {:induction false} InsertNewestFirstPermutes(a: Artifact, sorted: seq<Artifact>)
    ensures multiset(InsertNewestFirst(a, sorted)) == multiset(sorted) + multiset{a}
    decreases |sorted|
  {
    if |sorted| > 0 && a.lastModified < sorted[0].lastModified {
      InsertNewestFirstPermutes(a, sorted[1..]);
      assert sorted == [sorted[0]] + sorted[1..];
    }
  }

  /** Prepending an archive at least as new as every other keeps the order. */
  lemma PrependNewest(a: Artifact, s: seq<Artifact>)
    requires NewestFirst(s)
    requires forall k :: 0 <= k < |s| ==> a.lastModified >= s[k].lastModified
    ensures NewestFirst([a] + s)
  {
    var r := [a] + s;
    forall i, j | 0 <= i < j < |r| ensures r[i].lastModified >= r[j].lastModified {
      assert r[j] == s[j - 1];
      if i > 0 {
        assert r[i] == s[i - 1];
      }
    }
  }

  lemma {:induction false} InsertNewestFirstSorted(a: Artifact, sorted: seq<Artifact>)
    requires NewestFirst(sorted)
    ensures NewestFirst(InsertNewestFirst(a, sorted))
    decreases |sorted|
  {
    if |sorted| == 0 || a.lastModified >= sorted[0].lastModified {
      PrependNewest(a, sorted);
    } else {
      var tail := sorted[1..];
      InsertNewestFirstSorted(a, tail);
      InsertNewestFirstPermutes(a, tail);
      var rest := InsertNewestFirst(a, tail);
      forall k | 0 <= k < |rest| ensures sorted[0].lastModified >= rest[k].lastModified {
        assert rest[k] in multiset(tail) + multiset{a};
        if rest[k] != a {
          var m :| 0 <= m < |tail| && tail[m] == rest[k];
          assert sorted[m + 1] == rest[k];
        }
      }
      PrependNewest(sorted[0], rest);
    }
  }

  /** The sort orders newest first and neither loses nor invents archives. */
  lemma {:induction false} SortNewestFirstCorrect(files: seq<Artifact>)
    ensures NewestFirst(SortNewestFirst(files))
    ensures multiset(SortNewestFirst(files)) == multiset(files)
    decreases |files|
  {
    if |files| > 0 {
      SortNewestFirstCorrect(files[1..]);
      InsertNewestFirstSorted(files[0], SortNewestFirst(files[1..]));
      InsertNewestFirstPermutes(files[0], SortNewestFirst(files[1..]));
      assert files == [files[0]] + files[1..];
    }
  }

  /** The archives modified at `t`, in order. */
  function ModifiedAt(s: seq<Artifact>, t: int): seq<Artifact>
  {
    if |s| == 0 then [] else (if s[0].lastModified == t then [s[0]] else []) + ModifiedAt(s[1..], t)
  }

  lemma {:induction false} InsertNewestFirstStable(a: Artifact, sorted: seq<Artifact>, t: int)
    ensures ModifiedAt(InsertNewestFirst(a, sorted), t)
            == (if a.lastModified == t then [a] else []) + ModifiedAt(sorted, t)
    decreases |sorted|
  {
    if |sorted| > 0 && a.lastModified < sorted[0].lastModified {
      InsertNewestFirstStable(a, sorted[1..], t);
      assert ([sorted[0]] + InsertNewestFirst(a, sorted[1..]))[1..] == InsertNewestFirst(a, sorted[1..]);
    } else {
      assert ([a] + sorted)[1..] == sorted;
    }
  }

  /**
   * The sort is stable, as Python's `list.sort` is also with
   * `reverse=True`: archives with the same modification time keep their
   * listing order, so which of them survive is decided by the listing.
   */
  lemma {:induction false} SortNewestFirstStable(files: seq<Artifact>, t: int)
    ensures ModifiedAt(SortNewestFirst(files), t) == ModifiedAt(files, t)
    decreases |files|
  {
    if |files| > 0 {
      SortNewestFirstStable(files[1..], t);
      InsertNewestFirstStable(files[0], SortNewestFirst(files[1..]), t);
    }
  }

  /** The archives the pruning deletes, in deletion order. */
  function Deleted(files: seq<Artifact>): seq<Artifact>
  {
    if |files| < Keep + 1 then [] else SortNewestFirst(files)[Keep..]
  }

  /** The archives the pruning leaves in place. */
  function Survivors(files: seq<Artifact>): seq<Artifact>
  {
    if |files| < Keep + 1 then files else SortNewestFirst(files)[..Keep]
  }

  /** The keys of the archives, in order. */
  function Keys(s: seq<Artifact>): (keys: seq<string>)
    ensures |keys| == |s| && forall a :: a in s ==> a.key in keys
  {
    var keys := seq(|s|, i requires 0 <= i < |s| => s[i].key);
    assert forall i :: 0 <= i < |s| ==> keys[i] == s[i].key && keys[i] in keys;
    keys
  }

  lemma KeysAppend(s: seq<Artifact>, t: seq<Artifact>)
    ensures Keys(s + t) == Keys(s) + Keys(t)
  {
  }

  /**
   * Retention: nothing is deleted below three archives; otherwise n - 2 are
   * deleted, at most two survive, survivors and deleted archives together are
   * exactly the listing, and no survivor is older than a deleted archive.
   */
  lemma RetentionKeepsTwoNewest(files: seq<Artifact>)
    ensures |files| < 3 ==> Deleted(files) == []
    ensures |files| >= 3 ==> |Deleted(files)| == |files| - 2 && |Survivors(files)| == 2
    ensures |Survivors(files)| <= Keep
    ensures multiset(Survivors(files)) + multiset(Deleted(files)) == multiset(files)
    ensures forall a, b :: a in Survivors(files) && b in Deleted(files) ==> a.lastModified >= b.lastModified
  {
    if |files| >= 3 {
      var sorted := SortNewestFirst(files);
      SortNewestFirstCorrect(files);
      assert |sorted| == |multiset(sorted)| == |files|;
      assert sorted == sorted[..Keep] + sorted[Keep..];
      forall a, b | a in Survivors(files) && b in Deleted(files) ensures a.lastModified >= b.lastModified {
        var i :| 0 <= i < Keep && sorted[i] == a;
        var j :| 0 <= j < |sorted[Keep..]| && sorted[Keep..][j] == b;
        assert sorted[Keep + j] == b;
      }
    }
  }

  /** Archives that are a permutation of each other have keys that are a permutation of each other. */
  lemma {:induction false} KeysPermute(s: seq<Artifact>, t: seq<Artifact>)
    requires multiset(s) == multiset(t)
    ensures multiset(Keys(s)) == multiset(Keys(t))
    decreases |s|
  {
    if |s| > 0 {
      var a := s[0];
      assert a in multiset(t);
      var j :| 0 <= j < |t| && t[j] == a;
      var t' := t[..j] + t[j + 1..];
      assert t == t[..j] + [a] + t[j + 1..];
      assert multiset(t) == multiset(t[..j]) + multiset{a} + multiset(t[j + 1..]);
      assert s == [a] + s[1..];
      assert multiset(s) == multiset{a} + multiset(s[1..]);
      assert multiset(t') == multiset(t[..j]) + multiset(t[j + 1..]);
      forall x ensures multiset(s[1..])[x] == multiset(t')[x] {
        assert multiset(s)[x] == multiset{a}[x] + multiset(s[1..])[x];
        assert multiset(t)[x] == multiset(t[..j])[x] + multiset{a}[x] + multiset(t[j + 1..])[x];
        assert multiset(t')[x] == multiset(t[..j])[x] + multiset(t[j + 1..])[x];
      }
      assert multiset(s[1..]) == multiset(t');
      KeysPermute(s[1..], t');
      KeysAppend([a], s[1..]);
      KeysAppend(t[..j] + [a], t[j + 1..]);
      KeysAppend(t[..j], [a]);
      KeysAppend(t[..j], t[j + 1..]);
    }
  }

  /** The deleted keys and the surviving keys together are exactly the listed keys. */
  lemma DeletedKeysAndSurvivorKeys(files: seq<Artifact>)
    ensures multiset(Keys(Survivors(files))) + multiset(Keys(Deleted(files))) == multiset(Keys(files))
  {
    RetentionKeepsTwoNewest(files);
    if |files| >= 3 {
      var sorted := SortNewestFirst(files);
      assert sorted == Survivors(files) + Deleted(files);
      KeysAppend(Survivors(files), Deleted(files));
      SortNewestFirstCorrect(files);
      KeysPermute(sorted, files);
    }
  }

  datatype KeyError = KeyError(key: string)

  /**
   * `_clean_up_old_artifacts` after the listing: `contents` is
   * `response['Contents']` (None when absent, which raises KeyError); the
   * result is the keys deleted, in order.
   */
  method CleanUpOldArtifacts(contents: Option<seq<Artifact>>) returns (r: Result<seq<string>, KeyError>)
    ensures contents.None? <==> r.Err?
    ensures contents.None? ==> r == Err(KeyError("Contents"))
    ensures contents.Some? ==> r == Ok(Keys(Deleted(contents.value)))
  {
    if contents.None? {
      return Err(KeyError("Contents"));
    }
    var files: seq<Artifact> := [];
    for k := 0 to |contents.value|
      invariant files == contents.value[..k]
    {
      files := files + [contents.value[k]];
    }
    assert files == contents.value;
    if |files| < 3 {
      return Ok([]);
    }
    var sorted := SortNewestFirst(files);
    SortNewestFirstCorrect(files);
    assert |sorted| == |multiset(sorted)| == |files|;
    var deleted: seq<string> := [];
    for i := Keep to |sorted|
      invariant deleted == Keys(sorted[Keep..i])
    {
      assert sorted[Keep..i + 1] == sorted[Keep..i] + [sorted[i]];
      KeysAppend(sorted[Keep..i], [sorted[i]]);
      deleted := deleted + [sorted[i].key];
    }
    assert sorted[Keep..|sorted|] == sorted[Keep..];
    return Ok(deleted);
  }

  /** Five archives modified at 1 < 2 < 3 < 4 < 5: only those at 4 and 5 survive. */
  lemma FiveArchivesKeepNewestTwo(a1: Artifact, a2: Artifact, a3: Artifact, a4: Artifact, a5: Artifact)
    requires a1.lastModified == 1 && a2.lastModified == 2 && a3.lastModified == 3
    requires a4.lastModified == 4 && a5.lastModified == 5
    ensures Survivors([a1, a2, a3, a4, a5]) == [a5, a4]
    ensures Deleted([a1, a2, a3, a4, a5]) == [a3, a2, a1]
  {
    var files := [a1, a2, a3, a4, a5];
    assert files[1..] == [a2, a3, a4, a5] && files[1..][1..] == [a3, a4, a5];
    assert files[1..][1..][1..] == [a4, a5] && files[1..][1..][1..][1..] == [a5];
    assert SortNewestFirst([a5]) == [a5];
    assert InsertNewestFirst(a4, [a5]) == [a5] + InsertNewestFirst(a4, []) == [a5, a4];
    assert SortNewestFirst([a4, a5]) == [a5, a4];
    assert InsertNewestFirst(a3, [a4]) == [a4, a3];
    assert InsertNewestFirst(a3, [a5, a4]) == [a5] + InsertNewestFirst(a3, [a4]) == [a5, a4, a3];
    assert SortNewestFirst([a3, a4, a5]) == [a5, a4, a3];
    assert InsertNewestFirst(a2, [a3]) == [a3, a2];
    assert InsertNewestFirst(a2, [a4, a3]) == [a4] + InsertNewestFirst(a2, [a3]);
    assert InsertNewestFirst(a2, [a5, a4, a3]) == [a5] + InsertNewestFirst(a2, [a4, a3]) == [a5, a4, a3, a2];
    assert SortNewestFirst([a2, a3, a4, a5]) == [a5, a4, a3, a2];
    assert InsertNewestFirst(a1, [a2]) == [a2, a1];
    assert InsertNewestFirst(a1, [a3, a2]) == [a3] + InsertNewestFirst(a1, [a2]);
    assert InsertNewestFirst(a1, [a4, a3, a2]) == [a4] + InsertNewestFirst(a1, [a3, a2]);
    assert InsertNewestFirst(a1, [a5, a4, a3, a2]) == [a5] + InsertNewestFirst(a1, [a4, a3, a2]);
    assert SortNewestFirst(files) == [a5, a4, a3, a2, a1];
  }
}
