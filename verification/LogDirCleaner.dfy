// Keeping the log directory within a size: the oldest log files are removed until the rest fits.
module LogDirCleaner {
  import opened StableSort

  datatype LogFile = LogFile(path: string, size: nat, modTime: int)

  predicate Older(a: LogFile, b: LogFile) {
    a.modTime < b.modTime
  }

  function Total(files: seq<LogFile>): nat {
    if files == [] then 0 else Total(files[..|files| - 1]) + files[|files| - 1].size
  }

  // The total is the sum of the sizes: nothing for no file, its size for one, and it adds up over lists.
  lemma {:induction false} TotalAdds(a: seq<LogFile>, b: seq<LogFile>, f: LogFile)
    ensures Total([]) == 0 && Total([f]) == f.size && Total(a + b) == Total(a) + Total(b)
    decreases |b|
  {
    assert [f][..0] == [];
    if b == [] {
      assert a + b == a;
    } else {
      assert (a + b)[..|a + b| - 1] == a + b[..|b| - 1];
      TotalAdds(a, b[..|b| - 1], f);
    }
  }

  // So n files of one size have n times that size.
  lemma {:induction false} TotalOfEqual(files: seq<LogFile>, size: nat)
    requires forall f :: f in files ==> f.size == size
    ensures Total(files) == |files| * size
  {
    if files != [] {
      var init, last := files[..|files| - 1], files[|files| - 1];
      assert files == init + [last];
      TotalOfEqual(init, size);
      assert last in files;
      assert |files| * size == |init| * size + size;
    }
  }

  // What a pass leaves and what it removes of the files, oldest first, while the total is over the limit. A file that
  // is protected, or that the system does not remove, stays.
  function Pass(files: seq<LogFile>, total: nat, limit: nat, removable: LogFile -> bool): (seq<LogFile>, seq<LogFile>)
  {
    if files == [] then ([], [])
    else
      var init, last := files[..|files| - 1], files[|files| - 1];
      var (kept, removed) := Pass(init, total, limit, removable);
      if total - Total(removed) <= limit || !removable(last) then (kept + [last], removed)
      else (kept, removed + [last])
  }

  // sort.Slice by age: files of the same age come in any order
  ghost predicate SortsByAge(order: seq<LogFile> -> seq<LogFile>) {
    forall files :: Sorted(Older, order(files)) && multiset(order(files)) == multiset(files)
  }

  // enforceLogDirSizeLimit, from the log files that were found; removable tells for each file whether it is neither
  // protected nor refused by the system
  method EnforceLimit(files: seq<LogFile>, limit: int, order: seq<LogFile> -> seq<LogFile>, removable: LogFile -> bool)
    returns (kept: seq<LogFile>, removed: seq<LogFile>)
    requires SortsByAge(order)
    ensures limit <= 0 || Total(files) <= limit ==> kept == files && removed == []
    ensures 0 < limit < Total(files) ==> (kept, removed) == Pass(order(files), Total(files), limit, removable)
  {
    kept, removed := files, [];
    if limit <= 0 {
      return;
    }
    var total := 0;
    for i := 0 to |files|
      invariant total == Total(files[..i])
    {
      assert files[..i + 1][..i] == files[..i];
      total := total + files[i].size;
    }
    assert files[..|files|] == files;
    if total <= limit {
      return;
    }
    var sorted := order(files);
    ghost var all := total;
    kept := [];
    for i := 0 to |sorted|
      invariant (kept, removed) == Pass(sorted[..i], all, limit, removable)
      invariant total == all - Total(removed)
    {
      assert sorted[..i + 1][..i] == sorted[..i];
      var file := sorted[i];
      if total <= limit || !removable(file) {
        kept := kept + [file];
      } else {
        assert (removed + [file])[..|removed|] == removed;
        removed := removed + [file];
        total := total - file.size;
      }
    }
    assert sorted[..|sorted|] == sorted;
  }

  // Every file is kept or removed, and removed files are removable.
  lemma {:induction false} PassDivides(files: seq<LogFile>, total: nat, limit: nat, removable: LogFile -> bool)
    ensures var (kept, removed) := Pass(files, total, limit, removable);
      multiset(kept) + multiset(removed) == multiset(files) && forall f :: f in removed ==> removable(f)
  {
    if files != [] {
      var init, last := files[..|files| - 1], files[|files| - 1];
      assert files == init + [last];
      PassDivides(init, total, limit, removable);
    }
  }

  // The sizes of what is kept and of what is removed add up.
  lemma {:induction false} PassConserves(files: seq<LogFile>, total: nat, limit: nat, removable: LogFile -> bool)
    ensures var (kept, removed) := Pass(files, total, limit, removable); Total(kept) + Total(removed) == Total(files)
  {
    if files != [] {
      var init, last := files[..|files| - 1], files[|files| - 1];
      PassConserves(init, total, limit, removable);
      var (kept, removed) := Pass(init, total, limit, removable);
      assert (kept + [last])[..|kept|] == kept && (removed + [last])[..|removed|] == removed;
    }
  }

  // The pass ends within the limit, unless nothing removable is left.
  lemma {:induction false} PassEnforces(files: seq<LogFile>, total: nat, limit: nat, removable: LogFile -> bool)
    ensures var (kept, removed) := Pass(files, total, limit, removable);
      total - Total(removed) <= limit || forall f :: f in kept ==> !removable(f)
  {
    if files != [] {
      var init, last := files[..|files| - 1], files[|files| - 1];
      PassEnforces(init, total, limit, removable);
      var (kept, removed) := Pass(init, total, limit, removable);
      assert (removed + [last])[..|removed|] == removed;
    }
  }

  // The limit was still exceeded before each of the removals.
  predicate Frugal(removed: seq<LogFile>, total: nat, limit: nat) {
    forall i :: 0 <= i < |removed| ==> total - Total(removed[..i]) > limit
  }

  lemma OneMoreRemoval(removed: seq<LogFile>, last: LogFile, total: nat, limit: nat)
    requires Frugal(removed, total, limit) && total - Total(removed) > limit
    ensures Frugal(removed + [last], total, limit)
  {
    assert forall i :: 0 <= i <= |removed| ==> (removed + [last])[..i] == removed[..i];
    assert removed[..|removed|] == removed;
  }

  // No removal is in vain.
  lemma {:induction false} PassIsFrugal(files: seq<LogFile>, total: nat, limit: nat, removable: LogFile -> bool)
    ensures Frugal(Pass(files, total, limit, removable).1, total, limit)
  {
    if files != [] {
      var init, last := files[..|files| - 1], files[|files| - 1];
      PassIsFrugal(init, total, limit, removable);
      var removed := Pass(init, total, limit, removable).1;
      if total - Total(removed) > limit {
        OneMoreRemoval(removed, last, total, limit);
      }
    }
  }

  // No removable file that stays is older than one removed.
  lemma {:induction false} PassTakesOldest(files: seq<LogFile>, total: nat, limit: nat, removable: LogFile -> bool)
    requires Sorted(Older, files)
    ensures var (kept, removed) := Pass(files, total, limit, removable);
      forall k, r :: k in kept && r in removed && removable(k) ==> r.modTime <= k.modTime
  {
    if files != [] {
      var init, last := files[..|files| - 1], files[|files| - 1];
      PassTakesOldest(init, total, limit, removable);
      PassEnforces(init, total, limit, removable);
      RemovedAmong(init, total, limit, removable);
      var (kept, removed) := Pass(init, total, limit, removable);
      forall r | r in removed ensures !Older(last, r) {
        var i :| 0 <= i < |init| && init[i] == r;
        assert files[i] == r;
      }
    }
  }

  lemma RemovedAmong(files: seq<LogFile>, total: nat, limit: nat, removable: LogFile -> bool)
    ensures forall r :: r in Pass(files, total, limit, removable).1 ==> r in files
  {
    PassDivides(files, total, limit, removable);
    var (kept, removed) := Pass(files, total, limit, removable);
    forall r | r in removed ensures r in files {
      assert r in multiset(kept) + multiset(removed);
      assert r in multiset(files);
    }
  }
}
