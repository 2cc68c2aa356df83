/** Log retention: `remove_log_by_create_time` keeps the `count` most recently modified `.log`
    files of the log directory and deletes the others. The directory is a sequence of entries,
    each with its name, whether it is a regular file, and its modification time. */
module LogUtils {

  /** A directory entry as `iterdir`, `is_file` and `stat().st_mtime` see it. */
  datatype DirEntry = DirEntry(name: string, isFile: bool, mtime: int)

  /** The `log_dir` argument: a `Path`, a `str`, or anything else. */
  datatype LogDirArg = PathArg(path: string) | StrArg(text: string) | OtherArg

  /** Index of the last `.` in `name`, or -1. */
  function LastDot(name: string): (r: int)
    ensures -1 <= r < |name|
    ensures r >= 0 ==> name[r] == '.'
    ensures forall k :: r < k < |name| ==> name[k] != '.'
  {
    if name == [] then -1
    else if name[|name| - 1] == '.' then |name| - 1
    else LastDot(name[..|name| - 1])
  }

  /** `PurePath.suffix`: from the last dot to the end, but only when that dot is neither the first
      nor the last character of the name (so `.log` and `a.` have no suffix). */
  function Suffix(name: string): (r: string)
    ensures r != "" ==> r[0] == '.' && 2 <= |r| < |name| && r == name[|name| - |r|..]
    ensures r != "" ==> forall k :: 1 <= k < |r| ==> r[k] != '.'
    ensures r != "" <==>
              exists i :: 0 < i < |name| - 1 && name[i] == '.' && forall k :: i < k < |name| ==> name[k] != '.'
  {
    var i := LastDot(name);
    if 0 < i < |name| - 1 then name[i..] else ""
  }

  /** A deletion candidate: a regular file whose suffix is `suffix`. */
  predicate IsLog(e: DirEntry, suffix: string)
  {
    e.isFile && Suffix(e.name) == suffix
  }

  /** `[item for item in p.iterdir() if item.is_file() and item.suffix == suffix]`. */
  function LogFiles(entries: seq<DirEntry>, suffix: string): (r: seq<DirEntry>)
    ensures |r| <= |entries|
    ensures forall e :: e in r <==> e in entries && IsLog(e, suffix)
  {
    if entries == [] then []
    else
      var n := |entries| - 1;
      var front := LogFiles(entries[..n], suffix);
      assert entries == entries[..n] + [entries[n]];
      if IsLog(entries[n], suffix) then front + [entries[n]] else front
  }

  /** Where `all_logs[count:]` starts in a list of `n` items: Python clamps a start beyond the end
      to `n`, and counts a negative start from the end. */
  function SliceStart(n: nat, count: int): (r: nat)
    ensures r <= n
    ensures count >= 0 ==> r == if count <= n then count else n
  {
    if count >= 0 then (if count <= n then count else n)
    else if n + count >= 0 then n + count else 0
  }

  /** Newest first: modification times never increase along `s[lo..hi]`. */
  predicate Descending(s: seq<DirEntry>, lo: int, hi: int)
    requires 0 <= lo <= hi <= |s|
  {
    forall p, q :: lo <= p < q < hi ==> s[p].mtime >= s[q].mtime
  }

  /** Newest first, on a whole sequence. */
  predicate NewestFirst(s: seq<DirEntry>)
  {
    Descending(s, 0, |s|)
  }

  /** Every entry before `j` is at least as recent as every entry in `s[j + 1..i + 1]`. */
  predicate NewerPrefix(s: seq<DirEntry>, j: int, i: int)
    requires 0 <= j <= i < |s|
  {
    forall p, q :: 0 <= p < j < q <= i ==> s[p].mtime >= s[q].mtime
  }

  /** One step of insertion: swapping the entry at `j` past an older neighbour keeps both sorted
      runs sorted and the prefix newer. */
  lemma SwapStep(s: seq<DirEntry>, j: int, i: int)
    requires 0 < j <= i < |s|
    requires Descending(s, 0, j) && Descending(s, j, i + 1) && NewerPrefix(s, j, i)
    requires s[j - 1].mtime < s[j].mtime
    ensures var t := s[j - 1 := s[j]][j := s[j - 1]];
            Descending(t, 0, j - 1) && Descending(t, j - 1, i + 1) && NewerPrefix(t, j - 1, i)
  {
  }

  /** Exchanges `a[j - 1]` and `a[j]`. */
  method Swap(a: array<DirEntry>, j: int)
    requires 0 < j < a.Length
    modifies a
    ensures a[..] == old(a[..])[j - 1 := old(a[j])][j := old(a[j - 1])]
    ensures multiset(a[..]) == multiset(old(a[..]))
  {
    a[j - 1], a[j] := a[j], a[j - 1];
  }

  /** `all_logs.sort(key=lambda x: x.stat().st_mtime, reverse=True)`: sorts in place, newest first,
      moving an entry only past strictly older ones. */
  method SortNewestFirst(a: array<DirEntry>)
    modifies a
    ensures NewestFirst(a[..])
    ensures multiset(a[..]) == multiset(old(a[..]))
  {
    var i := 0;
    while i < a.Length
      invariant 0 <= i <= a.Length
      invariant Descending(a[..], 0, i)
      invariant multiset(a[..]) == multiset(old(a[..]))
    {
      var j := i;
      while j > 0 && a[j - 1].mtime < a[j].mtime
        invariant 0 <= j <= i
        invariant Descending(a[..], 0, j) && Descending(a[..], j, i + 1) && NewerPrefix(a[..], j, i)
        invariant multiset(a[..]) == multiset(old(a[..]))
      {
        SwapStep(a[..], j, i);
        Swap(a, j);
        j := j - 1;
      }
      i := i + 1;
    }
  }

  /** The logs `remove_log_by_create_time` deletes: `logs` sorted newest first, from position
      `all_logs[count:]` on. */
  method OldestLogs(logs: seq<DirEntry>, count: int) returns (deleted: seq<DirEntry>)
    ensures |deleted| == |logs| - SliceStart(|logs|, count)
    ensures multiset(deleted) <= multiset(logs)
    ensures forall e, d :: e in logs && e !in deleted && d in deleted ==> e.mtime >= d.mtime
  {
    var allLogs := new DirEntry[|logs|](k requires 0 <= k < |logs| => logs[k]);
    assert allLogs[..] == logs;
    SortNewestFirst(allLogs);
    var start := SliceStart(allLogs.Length, count);
    deleted := allLogs[start..];
    KeptAreNewer(allLogs[..], logs, start);
  }

  /** The entries of `entries` that are not in `gone`, in their order. */
  function Keep(entries: seq<DirEntry>, gone: seq<DirEntry>): (r: seq<DirEntry>)
    ensures forall e :: e in r <==> e in entries && e !in gone
  {
    if entries == [] then []
    else
      var n := |entries| - 1;
      var front := Keep(entries[..n], gone);
      assert entries == entries[..n] + [entries[n]];
      if entries[n] in gone then front else front + [entries[n]]
  }

  /** Removing the entries of `gone` and then `d` removes the entries of `gone + [d]`. */
  lemma {:induction false} KeepThenOne(entries: seq<DirEntry>, gone: seq<DirEntry>, d: DirEntry)
    ensures Keep(Keep(entries, gone), [d]) == Keep(entries, gone + [d])
  {
    if entries != [] {
      var n := |entries| - 1;
      KeepThenOne(entries[..n], gone, d);
      var front := Keep(entries[..n], gone);
      if entries[n] !in gone {
        assert (front + [entries[n]])[..|front|] == front;
      }
    }
  }

  /** Removing nothing keeps every entry. */
  lemma {:induction false} KeepNothing(entries: seq<DirEntry>)
    ensures Keep(entries, []) == entries
  {
    if entries != [] {
      KeepNothing(entries[..|entries| - 1]);
      assert entries == entries[..|entries| - 1] + [entries[|entries| - 1]];
    }
  }

  /** A log directory on disk. */
  class LogDirectory {
    /** Whether the directory exists. */
    var present: bool
    /** Its entries, in `iterdir` order. */
    var entries: seq<DirEntry>

    constructor (present: bool, entries: seq<DirEntry>)
      ensures this.present == present && this.entries == entries
    {
      this.present := present;
      this.entries := entries;
    }

    /** `item.unlink()`: the entry disappears from the directory. */
    method Unlink(item: DirEntry)
      modifies this
      ensures present == old(present)
      ensures entries == Keep(old(entries), [item])
    {
      entries := Keep(entries, [item]);
    }

    /** The deletion loop: each entry of `items` is unlinked in turn. */
    method UnlinkAll(items: seq<DirEntry>)
      modifies this
      ensures present == old(present)
      ensures entries == Keep(old(entries), items)
    {
      KeepNothing(entries);
      for k := 0 to |items|
        invariant present == old(present)
        invariant entries == Keep(old(entries), items[..k])
      {
        Unlink(items[k]);
        KeepThenOne(old(entries), items[..k], items[k]);
        assert items[..k] + [items[k]] == items[..k + 1];
      }
      assert items[..|items|] == items;
    }

    /** `remove_log_by_create_time(log_dir, count, suffix)` on this directory. Nothing changes when
        the argument is neither a path nor a string or when the directory does not exist;
        otherwise the `.log` files are sorted newest first and every one from position
        `all_logs[count:]` on is deleted. `deleted` names the deleted entries. */
    method RemoveLogByCreateTime(logDir: LogDirArg, count: int, suffix: string) returns (ghost deleted: seq<DirEntry>)
      modifies this
      ensures present == old(present)
      ensures logDir.OtherArg? || !present ==> deleted == [] && entries == old(entries)
      ensures entries == Keep(old(entries), deleted)
      ensures multiset(deleted) <= multiset(LogFiles(old(entries), suffix))
      ensures !logDir.OtherArg? && present ==>
                |deleted| == |LogFiles(old(entries), suffix)| - SliceStart(|LogFiles(old(entries), suffix)|, count)
      ensures forall e, d :: e in LogFiles(old(entries), suffix) && e !in deleted && d in deleted ==> e.mtime >= d.mtime
    {
      if logDir.OtherArg? || !present {
        KeepNothing(entries);
        return [];
      }
      var logs := LogFiles(entries, suffix);
      var oldest := OldestLogs(logs, count);
      UnlinkAll(oldest);
      deleted := oldest;
    }
  }

  /** After sorting, an entry outside the deleted tail of a newest-first permutation is at least
      as recent as every deleted one, and the deleted tail lies among the logs. */
  lemma KeptAreNewer(sorted: seq<DirEntry>, logs: seq<DirEntry>, start: nat)
    requires NewestFirst(sorted) && multiset(sorted) == multiset(logs) && start <= |sorted|
    ensures multiset(sorted[start..]) <= multiset(logs)
    ensures forall e, d :: e in logs && e !in sorted[start..] && d in sorted[start..] ==> e.mtime >= d.mtime
  {
    assert sorted == sorted[..start] + sorted[start..];
    forall e, d | e in logs && e !in sorted[start..] && d in sorted[start..]
      ensures e.mtime >= d.mtime
    {
      assert e in multiset(sorted);
      assert e in sorted[..start];
      var p :| 0 <= p < start && sorted[p] == e;
      var q :| start <= q < |sorted| && sorted[q] == d;
    }
  }
}
