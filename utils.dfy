/** `Utils.search_list_json` (first-match lookup in a list of dicts) and `Utils.compare_list`
    (expansion of `difflib.SequenceMatcher` opcodes into diff records). The opcodes themselves
    come from `SequenceMatcher`, which is a parameter here. */
module Utils {
  import opened Values

  /** `Utils.search_list_json`: the first item whose `.get(key)` equals `value`, else `{}`. */
  function SearchListJson(items: seq<Dict>, key: string, value: Json): (r: Dict)
    ensures r == map[] || r in items
    ensures r != map[] ==> Get(r, key) == value
    ensures (forall j :: 0 <= j < |items| ==> Get(items[j], key) != value) ==> r == map[]
    ensures forall i :: (0 <= i < |items| && Get(items[i], key) == value
                         && forall j :: 0 <= j < i ==> Get(items[j], key) != value) ==> r == items[i]
  {
    if items == [] then map[]
    else if Get(items[0], key) == value then items[0]
    else
      var r := SearchListJson(items[1..], key, value);
      assert forall i :: 1 <= i < |items| ==> items[i] == items[1..][i - 1];
      r
  }

  datatype Tag = Equal | Replace | Delete | Insert

  /** One `(tag, i1, i2, j1, j2)` tuple of `SequenceMatcher.get_opcodes()`. */
  datatype Opcode = Opcode(tag: Tag, i1: nat, i2: nat, j1: nat, j2: nat)

  /** One entry of `diff_data`; `lineDiff` is `line_diff_opcodes`, present on replace records only. */
  datatype DiffRecord = DiffRecord(operation: Tag, leftData: string, rightData: string, lineDiff: Option<seq<Opcode>>)

  /** Opcodes whose ranges lie inside sequences of lengths `n` and `m`. */
  ghost predicate InRange(ops: seq<Opcode>, n: nat, m: nat)
  {
    forall k :: 0 <= k < |ops| ==> ops[k].i1 <= ops[k].i2 <= n && ops[k].j1 <= ops[k].j2 <= m
  }

  /** `SequenceMatcher(None, a, b).get_opcodes()` over lists of lines always stays in range. */
  ghost predicate MatcherInRange(matcher: (seq<string>, seq<string>) -> seq<Opcode>)
  {
    forall a, b :: InRange(matcher(a, b), |a|, |b|)
  }

  /** The opcodes that are not "equal", in order. */
  function NonEqual(ops: seq<Opcode>): (r: seq<Opcode>)
    ensures forall k :: 0 <= k < |r| ==> r[k].tag != Equal && r[k] in ops
    ensures |r| <= |ops|
  {
    if ops == [] then []
    else if ops[|ops| - 1].tag == Equal then NonEqual(ops[..|ops| - 1])
    else NonEqual(ops[..|ops| - 1]) + [ops[|ops| - 1]]
  }

  /** No opcode other than "equal" is dropped. */
  lemma {:induction false} NonEqualKeeps(ops: seq<Opcode>, o: Opcode)
    requires o in ops && o.tag != Equal
    ensures o in NonEqual(ops)
  {
    var n := |ops| - 1;
    if o != ops[n] {
      assert ops == ops[..n] + [ops[n]];
      NonEqualKeeps(ops[..n], o);
    }
  }

  /** The filter works piecewise: the opcodes kept from `a + b` are those kept from `a`
      followed by those kept from `b`, so the kept opcodes stay in their original order. */
  lemma {:induction false} NonEqualConcat(a: seq<Opcode>, b: seq<Opcode>)
    ensures NonEqual(a + b) == NonEqual(a) + NonEqual(b)
  {
    if b == [] {
      assert a + b == a;
    } else {
      var n := |b| - 1;
      assert (a + b)[..|a + b| - 1] == a + b[..n];
      assert (a + b)[|a + b| - 1] == b[n];
      NonEqualConcat(a, b[..n]);
    }
  }

  /** A single opcode is kept exactly when it is not "equal". */
  lemma NonEqualOne(o: Opcode)
    ensures NonEqual([o]) == if o.tag != Equal then [o] else []
  {
    assert [o][..0] == [];
  }

  /** `Utils.custom_compare_string` with no filter rules: the character-level opcodes of the two
      lines (`charMatcher` stands for `SequenceMatcher` over characters) without the equal ones. */
  function CustomCompareString(left: string, right: string, charMatcher: (string, string) -> seq<Opcode>): seq<Opcode>
  {
    NonEqual(charMatcher(left, right))
  }

  /** Records of a "delete" opcode: each left line, in order, against an empty right side. */
  function DeleteRecords(xs: seq<string>): (r: seq<DiffRecord>)
    ensures |r| == |xs|
    ensures forall k :: 0 <= k < |xs| ==> r[k] == DiffRecord(Delete, xs[k], "", None)
  {
    if xs == [] then [] else DeleteRecords(xs[..|xs| - 1]) + [DiffRecord(Delete, xs[|xs| - 1], "", None)]
  }

  /** Records of an "insert" opcode: each right line, in order, against an empty left side. */
  function InsertRecords(ys: seq<string>): (r: seq<DiffRecord>)
    ensures |r| == |ys|
    ensures forall k :: 0 <= k < |ys| ==> r[k] == DiffRecord(Insert, "", ys[k], None)
  {
    if ys == [] then [] else InsertRecords(ys[..|ys| - 1]) + [DiffRecord(Insert, "", ys[|ys| - 1], None)]
  }

  /** Records of a "replace" opcode over equally long ranges: one per line pair whose
      character-level diff is not empty. */
  function PairRecords(ls: seq<string>, rs: seq<string>, charMatcher: (string, string) -> seq<Opcode>): (r: seq<DiffRecord>)
    requires |ls| == |rs|
    ensures |r| <= |ls|
  {
    if ls == [] then []
    else
      var n := |ls| - 1;
      var prefix := PairRecords(ls[..n], rs[..n], charMatcher);
      var lineOps := CustomCompareString(ls[n], rs[n], charMatcher);
      if lineOps != [] then prefix + [DiffRecord(Replace, ls[n], rs[n], Some(lineOps))] else prefix
  }

  /** Every record stands for a line pair, at the same index on both sides, whose
      character-level diff is not empty, and carries that diff. */
  lemma {:induction false} PairRecordsSound(ls: seq<string>, rs: seq<string>,
                                            charMatcher: (string, string) -> seq<Opcode>, k: nat)
    requires |ls| == |rs| && k < |PairRecords(ls, rs, charMatcher)|
    ensures var r := PairRecords(ls, rs, charMatcher)[k];
            && r.operation == Replace && r.lineDiff.Some? && r.lineDiff.value != []
            && exists i :: 0 <= i < |ls| && r.leftData == ls[i] && r.rightData == rs[i]
                           && r.lineDiff.value == CustomCompareString(ls[i], rs[i], charMatcher)
  {
    var n := |ls| - 1;
    var prefix := PairRecords(ls[..n], rs[..n], charMatcher);
    if k < |prefix| {
      PairRecordsSound(ls[..n], rs[..n], charMatcher, k);
      var i :| 0 <= i < n && prefix[k].leftData == ls[..n][i] && prefix[k].rightData == rs[..n][i]
                && prefix[k].lineDiff.value == CustomCompareString(ls[..n][i], rs[..n][i], charMatcher);
      assert ls[..n][i] == ls[i] && rs[..n][i] == rs[i];
    }
  }

  /** The records of the first `j` pairs are a prefix of the records of all pairs. */
  lemma {:induction false} PairRecordsPrefix(ls: seq<string>, rs: seq<string>,
                                             charMatcher: (string, string) -> seq<Opcode>, j: nat)
    requires |ls| == |rs| && j <= |ls|
    ensures PairRecords(ls[..j], rs[..j], charMatcher) <= PairRecords(ls, rs, charMatcher)
    decreases |ls| - j
  {
    if j == |ls| {
      assert ls[..j] == ls && rs[..j] == rs;
    } else {
      var n := |ls| - 1;
      assert ls[..n][..j] == ls[..j] && rs[..n][..j] == rs[..j];
      PairRecordsPrefix(ls[..n], rs[..n], charMatcher, j);
    }
  }

  /** Every line pair whose character-level diff is not empty gets its record, and the pairs
      are visited in index order: the record of pair `j` comes right after the records of the
      pairs before it. */
  lemma PairRecordPosition(ls: seq<string>, rs: seq<string>, charMatcher: (string, string) -> seq<Opcode>, j: nat)
    requires |ls| == |rs| && j < |ls|
    requires CustomCompareString(ls[j], rs[j], charMatcher) != []
    ensures var p := |PairRecords(ls[..j], rs[..j], charMatcher)|;
            && p < |PairRecords(ls, rs, charMatcher)|
            && PairRecords(ls, rs, charMatcher)[p]
               == DiffRecord(Replace, ls[j], rs[j], Some(CustomCompareString(ls[j], rs[j], charMatcher)))
  {
    PairRecordsPrefix(ls, rs, charMatcher, j + 1);
    assert ls[..j + 1][..j] == ls[..j] && rs[..j + 1][..j] == rs[..j];
    assert ls[..j + 1][j] == ls[j] && rs[..j + 1][j] == rs[j];
  }

  /** The records one opcode contributes to `diff_data`. An unequal-length replace is diffed again
      by a nested `compare_list(..., iteration=True)` at the top level, and expanded into deletes
      followed by inserts inside that nested call. */
  function OpRecords(left: seq<string>, right: seq<string>, op: Opcode, iteration: bool,
                     matcher: (seq<string>, seq<string>) -> seq<Opcode>,
                     charMatcher: (string, string) -> seq<Opcode>): seq<DiffRecord>
    requires op.i1 <= op.i2 <= |left| && op.j1 <= op.j2 <= |right|
    requires MatcherInRange(matcher)
    decreases if iteration then 0 else 1, 0
  {
    var ls, rs := left[op.i1..op.i2], right[op.j1..op.j2];
    match op.tag
    case Equal => []
    case Replace =>
      if op.i2 - op.i1 == op.j2 - op.j1 then PairRecords(ls, rs, charMatcher)
      else if !iteration then DiffOps(ls, rs, matcher(ls, rs), true, matcher, charMatcher)
      else DeleteRecords(ls) + InsertRecords(rs)
    case Delete => DeleteRecords(ls)
    case Insert => InsertRecords(rs)
  }

  /** `diff_data` after the loop of `compare_list` has handled `ops`. */
  function DiffOps(left: seq<string>, right: seq<string>, ops: seq<Opcode>, iteration: bool,
                   matcher: (seq<string>, seq<string>) -> seq<Opcode>,
                   charMatcher: (string, string) -> seq<Opcode>): seq<DiffRecord>
    requires InRange(ops, |left|, |right|)
    requires MatcherInRange(matcher)
    decreases if iteration then 0 else 1, |ops|
  {
    if ops == [] then []
    else DiffOps(left, right, ops[..|ops| - 1], iteration, matcher, charMatcher)
         + OpRecords(left, right, ops[|ops| - 1], iteration, matcher, charMatcher)
  }

  /** The loop `for data in xs: diff.append({"operation": "delete", "left_data": data, "right_data": ""})`. */
  method AppendDeletes(diff: seq<DiffRecord>, xs: seq<string>) returns (r: seq<DiffRecord>)
    ensures r == diff + DeleteRecords(xs)
  {
    r := diff;
    for i := 0 to |xs|
      invariant r == diff + DeleteRecords(xs[..i])
    {
      assert xs[..i + 1][..i] == xs[..i];
      r := r + [DiffRecord(Delete, xs[i], "", None)];
    }
    assert xs[..|xs|] == xs;
  }

  /** The loop `for data in ys: diff.append({"operation": "insert", "left_data": "", "right_data": data})`. */
  method AppendInserts(diff: seq<DiffRecord>, ys: seq<string>) returns (r: seq<DiffRecord>)
    ensures r == diff + InsertRecords(ys)
  {
    r := diff;
    for j := 0 to |ys|
      invariant r == diff + InsertRecords(ys[..j])
    {
      assert ys[..j + 1][..j] == ys[..j];
      r := r + [DiffRecord(Insert, "", ys[j], None)];
    }
    assert ys[..|ys|] == ys;
  }

  /** The loop over the line pairs of an equal-length replace, appending a record for each pair
      whose character-level diff is not empty. */
  method AppendPairs(diff: seq<DiffRecord>, ls: seq<string>, rs: seq<string>,
                     charMatcher: (string, string) -> seq<Opcode>) returns (r: seq<DiffRecord>)
    requires |ls| == |rs|
    ensures r == diff + PairRecords(ls, rs, charMatcher)
  {
    r := diff;
    for index := 0 to |rs|
      invariant r == diff + PairRecords(ls[..index], rs[..index], charMatcher)
    {
      assert ls[..index + 1][..index] == ls[..index] && rs[..index + 1][..index] == rs[..index];
      var lineOps := CustomCompareString(ls[index], rs[index], charMatcher);
      if lineOps != [] {
        r := r + [DiffRecord(Replace, ls[index], rs[index], Some(lineOps))];
      }
    }
    assert ls[..|rs|] == ls && rs[..|rs|] == rs;
  }

  /** The body of the opcode loop of `compare_list`: appends the records of one opcode. */
  method HandleOpcode(diff: seq<DiffRecord>, left: seq<string>, right: seq<string>, op: Opcode, iteration: bool,
                      matcher: (seq<string>, seq<string>) -> seq<Opcode>,
                      charMatcher: (string, string) -> seq<Opcode>)
    returns (r: seq<DiffRecord>)
    requires op.i1 <= op.i2 <= |left| && op.j1 <= op.j2 <= |right|
    requires MatcherInRange(matcher)
    ensures r == diff + OpRecords(left, right, op, iteration, matcher, charMatcher)
    decreases if iteration then 0 else 1, 1
  {
    var ls, rs := left[op.i1..op.i2], right[op.j1..op.j2];
    match op.tag {
      case Equal =>
        r := diff;
      case Replace =>
        if op.i2 - op.i1 == op.j2 - op.j1 {
          r := AppendPairs(diff, ls, rs, charMatcher);
        } else if !iteration {
          var temp := CompareList(ls, rs, true, matcher, charMatcher);
          r := diff + temp;
        } else {
          var temp := AppendDeletes([], ls);
          temp := AppendInserts(temp, rs);
          assert temp == DeleteRecords(ls) + InsertRecords(rs);
          r := diff + temp;
        }
      case Delete =>
        r := AppendDeletes(diff, ls);
      case Insert =>
        r := AppendInserts(diff, rs);
    }
  }

  /** `Utils.compare_list(left_data, right_data, iteration)`, with `matcher` standing for
      `SequenceMatcher(None, a, b).get_opcodes()` and `charMatcher` for the same over characters. */
  method CompareList(left: seq<string>, right: seq<string>, iteration: bool,
                     matcher: (seq<string>, seq<string>) -> seq<Opcode>,
                     charMatcher: (string, string) -> seq<Opcode>)
    returns (diff: seq<DiffRecord>)
    requires MatcherInRange(matcher)
    ensures diff == DiffOps(left, right, matcher(left, right), iteration, matcher, charMatcher)
    decreases if iteration then 0 else 1, 2
  {
    var opcodes := matcher(left, right);
    assert InRange(opcodes, |left|, |right|);
    diff := [];
    for k := 0 to |opcodes|
      invariant InRange(opcodes[..k], |left|, |right|)
      invariant diff == DiffOps(left, right, opcodes[..k], iteration, matcher, charMatcher)
    {
      assert opcodes[..k + 1][..k] == opcodes[..k] && opcodes[..k + 1][k] == opcodes[k];
      diff := HandleOpcode(diff, left, right, opcodes[k], iteration, matcher, charMatcher);
    }
    assert opcodes[..|opcodes|] == opcodes;
  }

  /** A diff record reports a change between `left` and `right`: never "equal", deletes carry a
      left line and an empty right side, inserts the reverse, and replaces a non-empty list of
      non-equal character opcodes between a left and a right line. */
  ghost predicate IsChange(r: DiffRecord, left: seq<string>, right: seq<string>)
  {
    match r.operation
    case Equal => false
    case Delete => r.leftData in left && r.rightData == "" && r.lineDiff == None
    case Insert => r.leftData == "" && r.rightData in right && r.lineDiff == None
    case Replace =>
      && r.leftData in left && r.rightData in right
      && r.lineDiff.Some? && r.lineDiff.value != []
      && forall k :: 0 <= k < |r.lineDiff.value| ==> r.lineDiff.value[k].tag != Equal
  }

  /** Every record `compare_list` produces describes a change between its inputs. */
  lemma {:induction false} DiffRecordsAreChanges(left: seq<string>, right: seq<string>, ops: seq<Opcode>, iteration: bool,
                                                 matcher: (seq<string>, seq<string>) -> seq<Opcode>,
                                                 charMatcher: (string, string) -> seq<Opcode>)
    requires InRange(ops, |left|, |right|)
    requires MatcherInRange(matcher)
    ensures forall k :: 0 <= k < |DiffOps(left, right, ops, iteration, matcher, charMatcher)| ==>
              IsChange(DiffOps(left, right, ops, iteration, matcher, charMatcher)[k], left, right)
    decreases if iteration then 0 else 1, |ops|
  {
    if ops != [] {
      var n := |ops| - 1;
      var op := ops[n];
      assert InRange(ops[..n], |left|, |right|);
      DiffRecordsAreChanges(left, right, ops[..n], iteration, matcher, charMatcher);
      var prefix := DiffOps(left, right, ops[..n], iteration, matcher, charMatcher);
      var added := OpRecords(left, right, op, iteration, matcher, charMatcher);
      var ls, rs := left[op.i1..op.i2], right[op.j1..op.j2];
      assert forall x :: x in ls ==> x in left;
      assert forall y :: y in rs ==> y in right;
      if op.tag == Replace && op.i2 - op.i1 != op.j2 - op.j1 && !iteration {
        DiffRecordsAreChanges(ls, rs, matcher(ls, rs), true, matcher, charMatcher);
      }
      forall k | 0 <= k < |added| ensures IsChange(added[k], left, right) {
        match op.tag {
          case Equal =>
          case Delete =>
            assert added[k] == DiffRecord(Delete, ls[k], "", None);
          case Insert =>
            assert added[k] == DiffRecord(Insert, "", rs[k], None);
          case Replace =>
            if op.i2 - op.i1 == op.j2 - op.j1 {
              PairRecordsSound(ls, rs, charMatcher, k);
              var i :| 0 <= i < |ls| && added[k].leftData == ls[i] && added[k].rightData == rs[i]
                       && added[k].lineDiff.value == CustomCompareString(ls[i], rs[i], charMatcher);
              assert ls[i] in ls && rs[i] in rs;
            }
        }
      }
    }
  }

  /** "equal" opcodes contribute nothing: the records are those of the other opcodes alone. */
  lemma {:induction false} EqualOpcodesContributeNothing(left: seq<string>, right: seq<string>, ops: seq<Opcode>,
                                                         iteration: bool,
                                                         matcher: (seq<string>, seq<string>) -> seq<Opcode>,
                                                         charMatcher: (string, string) -> seq<Opcode>)
    requires InRange(ops, |left|, |right|)
    requires MatcherInRange(matcher)
    ensures InRange(NonEqual(ops), |left|, |right|)
    ensures DiffOps(left, right, ops, iteration, matcher, charMatcher)
            == DiffOps(left, right, NonEqual(ops), iteration, matcher, charMatcher)
  {
    NonEqualInRange(ops, |left|, |right|);
    if ops != [] {
      var n := |ops| - 1;
      assert InRange(ops[..n], |left|, |right|);
      EqualOpcodesContributeNothing(left, right, ops[..n], iteration, matcher, charMatcher);
      var kept, p := NonEqual(ops), NonEqual(ops[..n]);
      var before := DiffOps(left, right, ops[..n], iteration, matcher, charMatcher);
      var last := OpRecords(left, right, ops[n], iteration, matcher, charMatcher);
      assert DiffOps(left, right, ops, iteration, matcher, charMatcher) == before + last;
      assert before == DiffOps(left, right, p, iteration, matcher, charMatcher);
      if ops[n].tag == Equal {
        assert kept == p;
        assert last == [];
        assert before + last == before;
      } else {
        assert kept[..|kept| - 1] == p && kept[|kept| - 1] == ops[n];
      }
    }
  }

  /** Dropping opcodes keeps the remaining ones inside the line ranges. */
  lemma NonEqualInRange(ops: seq<Opcode>, n: nat, m: nat)
    requires InRange(ops, n, m)
    ensures InRange(NonEqual(ops), n, m)
  {
    var kept := NonEqual(ops);
    forall k | 0 <= k < |kept| ensures kept[k].i1 <= kept[k].i2 <= n && kept[k].j1 <= kept[k].j2 <= m {
      assert kept[k] in ops;
    }
  }

  /** Inside the nested call, a replace of unequal lengths yields one delete per left line, in
      order, then one insert per right line, in order. */
  lemma NestedReplaceIsDeletesThenInserts(left: seq<string>, right: seq<string>, op: Opcode,
                                          matcher: (seq<string>, seq<string>) -> seq<Opcode>,
                                          charMatcher: (string, string) -> seq<Opcode>)
    requires op.i1 <= op.i2 <= |left| && op.j1 <= op.j2 <= |right|
    requires MatcherInRange(matcher)
    requires op.tag == Replace && op.i2 - op.i1 != op.j2 - op.j1
    ensures var r := OpRecords(left, right, op, true, matcher, charMatcher);
            var nl := op.i2 - op.i1;
            && |r| == nl + (op.j2 - op.j1)
            && (forall k :: 0 <= k < nl ==> r[k] == DiffRecord(Delete, left[op.i1 + k], "", None))
            && (forall k :: nl <= k < |r| ==> r[k] == DiffRecord(Insert, "", right[op.j1 + k - nl], None))
  {
  }
}
