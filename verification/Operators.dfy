/** The operators at work: they materialize their results column by column, in loops.  rows, a ghost result, says which
    row stands at each index of the columns. */
module Operators {
  import opened QueryText
  import opened JoinPlan

  datatype Result = Result(size: nat, columns: seq<seq<Word>>, pos: map<SelectInfo, nat>)

  ghost predicate NoDuplicates<T>(s: seq<T>) {
    forall i, j :: 0 <= i < j < |s| ==> s[i] != s[j]
  }

  /** A list without repetition is as long as the set of its elements is large. */
  lemma {:induction false} DistinctSize<T>(s: seq<T>, elements: set<T>)
    requires NoDuplicates(s) && forall x :: x in s <==> x in elements
    ensures |s| == |elements|
  {
    if s == [] {
      assert elements == {};
    } else {
      var before, last := s[..|s| - 1], s[|s| - 1];
      assert s == before + [last] && last in s;
      DistinctSize(before, elements - {last});
    }
  }

  function Column(tables: seq<Relation>, rows: seq<Row>, s: SelectInfo): (c: seq<Word>)
    ensures |c| == |rows|
  {
    seq(|rows|, i requires 0 <= i < |rows| => Cell(tables, rows[i], s))
  }

  /** The column is where pos says. */
  ghost predicate Resolves(tables: seq<Relation>, res: Result, rows: seq<Row>, s: SelectInfo) {
    s in res.pos && res.pos[s] < |res.columns| && res.columns[res.pos[s]] == Column(tables, rows, s)
  }

  /** The rows of the result are those of the meaning, each once, and every required column can be resolved. */
  ghost predicate Produces(tables: seq<Relation>, op: Op, res: Result, rows: seq<Row>) {
    && res.size == |rows| && NoDuplicates(rows) && (forall row :: row in rows <==> row in Meaning(tables, op))
    && forall s :: s in Required(op) ==> Resolves(tables, res, rows, s)
  }

  // ---------------------------------------------------------------- scans

  method RunScan(ghost tables: seq<Relation>, op: Op) returns (res: Result, ghost rows: seq<Row>)
    requires OpOk(tables, op) && op.Scan? && TablesOk(tables)
    ensures Produces(tables, op, res, rows)
  {
    var b := op.binding;
    res := Result(op.relation.size, op.resultColumns, op.pos);
    rows := seq(op.relation.size, i => map[b := i]);
    forall i, j | 0 <= i < j < |rows| ensures rows[i] != rows[j] { assert rows[i][b] == i && rows[j][b] == j; }
    forall row | row in Meaning(tables, op) ensures row in rows {
      var i: nat :| i < op.relation.size && row == map[b := i];
      assert rows[i] == row;
    }
    forall s | s in op.pos ensures Resolves(tables, res, rows, s) {
      assert res.columns[res.pos[s]] == Column(tables, rows, s);
    }
  }

  method ApplyFilter(relation: Relation, i: nat, f: FilterInfo) returns (pass: bool)
    requires f.filterColumn.colId < |relation.columns| && i < |relation.columns[f.filterColumn.colId]|
    ensures pass == Compare(relation.columns[f.filterColumn.colId][i], f.comparison, f.constant)
  {
    var value := relation.columns[f.filterColumn.colId][i];
    match f.comparison {
      case Equal => pass := value == f.constant;
      case Greater => pass := value > f.constant;
      case Less => pass := value < f.constant;
    }
  }

  /** The values of the columns at the indices. */
  function Gather(columns: seq<seq<Word>>, ids: seq<nat>): seq<seq<Word>>
    requires forall c, k :: 0 <= c < |columns| && 0 <= k < |ids| ==> ids[k] < |columns[c]|
  {
    seq(|columns|, c requires 0 <= c < |columns| =>
      seq(|ids|, k requires 0 <= k < |ids| => columns[c][ids[k]]))
  }

  /** The values of the columns at id are appended to the result's columns from first on. */
  method AppendValues(tmpResults: seq<seq<Word>>, first: nat, columns: seq<seq<Word>>, id: nat) returns (r: seq<seq<Word>>)
    requires first + |columns| <= |tmpResults| && forall c :: 0 <= c < |columns| ==> id < |columns[c]|
    ensures |r| == |tmpResults|
    ensures forall c :: 0 <= c < |columns| ==> r[first + c] == tmpResults[first + c] + [columns[c][id]]
    ensures forall c :: 0 <= c < |r| && !(first <= c < first + |columns|) ==> r[c] == tmpResults[c]
  {
    r := tmpResults;
    for cId := 0 to |columns|
      invariant |r| == |tmpResults|
      invariant forall c :: 0 <= c < cId ==> r[first + c] == tmpResults[first + c] + [columns[c][id]]
      invariant forall c :: 0 <= c < |r| && !(first <= c < first + cId) ==> r[c] == tmpResults[c]
    {
      r := r[first + cId := r[first + cId] + [columns[cId][id]]];
    }
  }

  /** copy2Result of a filter scan or a self join: the values at id are appended to the columns. */
  method CopyToResult(tmpResults: seq<seq<Word>>, columns: seq<seq<Word>>, ghost ids: seq<nat>, id: nat)
    returns (r: seq<seq<Word>>)
    requires forall c :: 0 <= c < |columns| ==> id < |columns[c]|
    requires forall c, k :: 0 <= c < |columns| && 0 <= k < |ids| ==> ids[k] < |columns[c]|
    requires tmpResults == Gather(columns, ids)
    ensures r == Gather(columns, ids + [id])
  {
    r := AppendValues(tmpResults, 0, columns, id);
    forall c | 0 <= c < |columns| ensures r[c] == Gather(columns, ids + [id])[c] {
      assert r[0 + c] == tmpResults[0 + c] + [columns[c][id]];
    }
  }

  /** Which indices pass all filters. */
  predicate PassesAll(relation: Relation, filters: seq<FilterInfo>, i: nat)
    requires forall f :: f in filters ==>
               f.filterColumn.colId < |relation.columns| && i < |relation.columns[f.filterColumn.colId]|
  {
    forall f :: f in filters ==> Compare(relation.columns[f.filterColumn.colId][i], f.comparison, f.constant)
  }

  method FilterLoop(relation: Relation, filters: seq<FilterInfo>, inputData: seq<seq<Word>>)
    returns (tmpResults: seq<seq<Word>>, resultSize: nat, ghost ids: seq<nat>)
    requires RelationOk(relation) && forall f :: f in filters ==> f.filterColumn.colId < |relation.columns|
    requires forall c :: 0 <= c < |inputData| ==> |inputData[c]| == relation.size
    ensures forall k :: 0 <= k < |ids| ==> ids[k] < relation.size
    ensures tmpResults == Gather(inputData, ids) && resultSize == |ids| && NoDuplicates(ids)
    ensures forall i: nat :: i in ids <==> i < relation.size && PassesAll(relation, filters, i)
    ensures forall i: nat :: i in ids <==>
              i < relation.size && forall f :: f in filters ==>
                var x := relation.columns[f.filterColumn.colId][i];
                match f.comparison case Equal => x == f.constant case Greater => x > f.constant case Less => x < f.constant
  {
    tmpResults, resultSize, ids := seq(|inputData|, _ => []), 0, [];
    assert tmpResults == Gather(inputData, ids);
    for i := 0 to relation.size
      invariant forall k :: 0 <= k < |ids| ==> ids[k] < i
      invariant tmpResults == Gather(inputData, ids) && resultSize == |ids| && NoDuplicates(ids)
      invariant forall j: nat :: j in ids <==> j < i && PassesAll(relation, filters, j)
    {
      var pass := true;
      for n := 0 to |filters|
        invariant pass <==> PassesAll(relation, filters[..n], i)
      {
        var p := ApplyFilter(relation, i, filters[n]);
        assert filters[..n + 1] == filters[..n] + [filters[n]];
        pass := pass && p;
      }
      assert filters[..|filters|] == filters;
      if pass {
        tmpResults := CopyToResult(tmpResults, inputData, ids, i);
        resultSize, ids := resultSize + 1, ids + [i];
      }
    }
  }

  method RunFilterScan(ghost tables: seq<Relation>, op: Op) returns (res: Result, ghost rows: seq<Row>)
    requires OpOk(tables, op) && op.FilterScan? && TablesOk(tables)
    ensures Produces(tables, op, res, rows)
  {
    var tmpResults, size;
    ghost var ids;
    tmpResults, size, ids := FilterLoop(op.relation, op.filters, op.inputData);
    res := Result(size, tmpResults, op.pos);
    rows := FilterRows(tables, op, ids, tmpResults);
  }

  /** The rows a filter scan keeps. */
  lemma FilterRows(tables: seq<Relation>, op: Op, ids: seq<nat>, columns: seq<seq<Word>>) returns (rows: seq<Row>)
    requires OpOk(tables, op) && op.FilterScan? && TablesOk(tables)
    requires forall k :: 0 <= k < |ids| ==> ids[k] < op.relation.size
    requires columns == Gather(op.inputData, ids) && NoDuplicates(ids)
    requires forall i: nat :: i in ids <==> i < op.relation.size && PassesAll(op.relation, op.filters, i)
    ensures Produces(tables, op, Result(|ids|, columns, op.pos), rows)
  {
    var b, res := op.binding, Result(|ids|, columns, op.pos);
    rows := seq(|ids|, k requires 0 <= k < |ids| => map[b := ids[k]]);
    forall i, j | 0 <= i < j < |rows| ensures rows[i] != rows[j] { assert rows[i][b] == ids[i] && rows[j][b] == ids[j]; }
    forall i: nat | i < op.relation.size
      ensures PassesAll(op.relation, op.filters, i) <==> forall f :: f in op.filters ==> Passes(tables, map[b := i], f)
    {
      forall f | f in op.filters
        ensures Cell(tables, map[b := i], f.filterColumn) == op.relation.columns[f.filterColumn.colId][i] {}
    }
    forall row ensures row in rows <==> row in Meaning(tables, op) {
      if row in Meaning(tables, op) {
        var i: nat :| i < op.relation.size && row == map[b := i]
                   && forall f :: f in op.filters ==> Passes(tables, map[b := i], f);
        assert i in ids;
        var k :| 0 <= k < |ids| && ids[k] == i;
        assert rows[k] == row;
      }
      if row in rows {
        var k :| 0 <= k < |rows| && rows[k] == row;
        assert ids[k] in ids;
      }
    }
    forall s | s in op.pos ensures Resolves(tables, res, rows, s) {
      assert res.columns[res.pos[s]] == Column(tables, rows, s);
    }
  }

  // ---------------------------------------------------------------- hash join

  predicate InTable(hashTable: map<Word, set<nat>>, key: Word, i: nat) {
    key in hashTable && i in hashTable[key]
  }

  /** The positions of every key, as in a multimap; equal keys stand in no particular order. */
  method Build(keys: seq<Word>) returns (hashTable: map<Word, set<nat>>)
    ensures forall key, i: nat :: InTable(hashTable, key, i) <==> i < |keys| && keys[i] == key
  {
    hashTable := map[];
    for i := 0 to |keys|
      invariant forall key, j: nat :: InTable(hashTable, key, j) <==> j < i && keys[j] == key
    {
      ghost var before := hashTable;
      hashTable := hashTable[keys[i] := (if keys[i] in hashTable then hashTable[keys[i]] else {}) + {i}];
      forall key, j: nat ensures InTable(hashTable, key, j) <==> InTable(before, key, j) || (key == keys[i] && j == i) {}
    }
  }

  function Lefts(pairs: seq<(nat, nat)>): (ids: seq<nat>)
    ensures |ids| == |pairs|
  {
    seq(|pairs|, k requires 0 <= k < |pairs| => pairs[k].0)
  }

  function Rights(pairs: seq<(nat, nat)>): (ids: seq<nat>)
    ensures |ids| == |pairs|
  {
    seq(|pairs|, k requires 0 <= k < |pairs| => pairs[k].1)
  }

  predicate IdsOk(columns: seq<seq<Word>>, ids: seq<nat>) {
    forall c, k :: 0 <= c < |columns| && 0 <= k < |ids| ==> ids[k] < |columns[c]|
  }

  lemma GatherMore(columns: seq<seq<Word>>, ids: seq<nat>, id: nat, c: nat)
    requires IdsOk(columns, ids + [id]) && IdsOk(columns, ids) && c < |columns|
    ensures id < |columns[c]| && Gather(columns, ids + [id])[c] == Gather(columns, ids)[c] + [columns[c][id]]
  {
    assert (ids + [id])[|ids|] == id;
    forall k: nat | k < |ids| ensures (ids + [id])[k] == ids[k] {}
  }

  /** The left columns and the right columns each get one more value. */
  lemma CopiedPair(copyLeft: seq<seq<Word>>, copyRight: seq<seq<Word>>, ls: seq<nat>, rs: seq<nat>,
                   leftId: nat, rightId: nat, before: seq<seq<Word>>, after: seq<seq<Word>>)
    requires IdsOk(copyLeft, ls + [leftId]) && IdsOk(copyRight, rs + [rightId]) && IdsOk(copyLeft, ls) && IdsOk(copyRight, rs)
    requires before == Gather(copyLeft, ls) + Gather(copyRight, rs) && |after| == |before|
    requires forall c :: 0 <= c < |copyLeft| ==> leftId < |copyLeft[c]| && after[c] == before[c] + [copyLeft[c][leftId]]
    requires forall c :: 0 <= c < |copyRight| ==>
               rightId < |copyRight[c]| && after[|copyLeft| + c] == before[|copyLeft| + c] + [copyRight[c][rightId]]
    ensures after == Gather(copyLeft, ls + [leftId]) + Gather(copyRight, rs + [rightId])
  {
    var n, left, right := |copyLeft|, Gather(copyLeft, ls + [leftId]), Gather(copyRight, rs + [rightId]);
    forall c: nat | c < |after| ensures after[c] == (left + right)[c] {
      if c < n {
        GatherMore(copyLeft, ls, leftId, c);
      } else {
        var d := c - n;
        assert after[n + d] == before[n + d] + [copyRight[d][rightId]];
        GatherMore(copyRight, rs, rightId, d);
      }
    }
  }

  /** copy2Result of a join: the values of the left columns at leftId, then those of the right columns at rightId. */
  method CopyPairToResult(tmpResults: seq<seq<Word>>, copyLeft: seq<seq<Word>>, copyRight: seq<seq<Word>>,
                          ghost ls: seq<nat>, ghost rs: seq<nat>, leftId: nat, rightId: nat) returns (r: seq<seq<Word>>)
    requires IdsOk(copyLeft, ls + [leftId]) && IdsOk(copyRight, rs + [rightId]) && IdsOk(copyLeft, ls)
    requires IdsOk(copyRight, rs)
    requires tmpResults == Gather(copyLeft, ls) + Gather(copyRight, rs)
    ensures r == Gather(copyLeft, ls + [leftId]) + Gather(copyRight, rs + [rightId])
  {
    assert (ls + [leftId])[|ls|] == leftId && (rs + [rightId])[|rs|] == rightId;
    var withLeft := AppendValues(tmpResults, 0, copyLeft, leftId);
    r := AppendValues(withLeft, |copyLeft|, copyRight, rightId);
    forall c | 0 <= c < |copyLeft| ensures r[c] == tmpResults[c] + [copyLeft[c][leftId]] {
      assert withLeft[0 + c] == tmpResults[0 + c] + [copyLeft[c][leftId]];
    }
    CopiedPair(copyLeft, copyRight, ls, rs, leftId, rightId, tmpResults, r);
  }

  predicate KeysMatch(leftKeys: seq<Word>, rightKeys: seq<Word>, l: nat, r: nat) {
    l < |leftKeys| && r < |rightKeys| && leftKeys[l] == rightKeys[r]
  }

  function MatchingPairs(leftKeys: seq<Word>, rightKeys: seq<Word>): set<(nat, nat)> {
    set l: nat, r: nat | l < |leftKeys| && r < |rightKeys| && leftKeys[l] == rightKeys[r] :: (l, r)
  }

  /** What has been found: exactly the matching pairs, each once, and the columns hold the values there. */
  ghost predicate Found(copyLeft: seq<seq<Word>>, copyRight: seq<seq<Word>>, tmpResults: seq<seq<Word>>,
                        pairs: seq<(nat, nat)>) {
    && NoDuplicates(pairs) && IdsOk(copyLeft, Lefts(pairs)) && IdsOk(copyRight, Rights(pairs))
    && tmpResults == Gather(copyLeft, Lefts(pairs)) + Gather(copyRight, Rights(pairs))
  }

  lemma OneMorePair(pairs: seq<(nat, nat)>, leftId: nat, rightId: nat)
    ensures Lefts(pairs + [(leftId, rightId)]) == Lefts(pairs) + [leftId]
    ensures Rights(pairs + [(leftId, rightId)]) == Rights(pairs) + [rightId]
  {
  }

  /** One more pair. */
  method Emit(tmpResults: seq<seq<Word>>, copyLeft: seq<seq<Word>>, copyRight: seq<seq<Word>>,
              ghost pairs: seq<(nat, nat)>, leftId: nat, rightId: nat) returns (r: seq<seq<Word>>)
    requires Found(copyLeft, copyRight, tmpResults, pairs) && (leftId, rightId) !in pairs
    requires forall c :: 0 <= c < |copyLeft| ==> leftId < |copyLeft[c]|
    requires forall c :: 0 <= c < |copyRight| ==> rightId < |copyRight[c]|
    ensures Found(copyLeft, copyRight, r, pairs + [(leftId, rightId)])
  {
    ghost var ls, rs := Lefts(pairs), Rights(pairs);
    OneMorePair(pairs, leftId, rightId);
    r := CopyPairToResult(tmpResults, copyLeft, copyRight, ls, rs, leftId, rightId);
  }

  /** Build on the left keys, probe with the right keys. */
  method HashJoin(leftKeys: seq<Word>, rightKeys: seq<Word>, copyLeft: seq<seq<Word>>, copyRight: seq<seq<Word>>)
    returns (tmpResults: seq<seq<Word>>, resultSize: nat, ghost pairs: seq<(nat, nat)>)
    requires forall c :: 0 <= c < |copyLeft| ==> |copyLeft[c]| == |leftKeys|
    requires forall c :: 0 <= c < |copyRight| ==> |copyRight[c]| == |rightKeys|
    ensures Found(copyLeft, copyRight, tmpResults, pairs) && resultSize == |pairs|
    ensures forall l: nat, r: nat :: (l, r) in pairs <==> KeysMatch(leftKeys, rightKeys, l, r)
    ensures resultSize == |MatchingPairs(leftKeys, rightKeys)|
  {
    var hashTable := Build(leftKeys);
    tmpResults, resultSize, pairs := seq(|copyLeft| + |copyRight|, _ => []), 0, [];
    assert tmpResults == Gather(copyLeft, []) + Gather(copyRight, []);
    for i := 0 to |rightKeys|
      invariant Found(copyLeft, copyRight, tmpResults, pairs) && resultSize == |pairs|
      invariant forall l: nat, r: nat :: (l, r) in pairs <==> r < i && KeysMatch(leftKeys, rightKeys, l, r)
    {
      var range := if rightKeys[i] in hashTable then hashTable[rightKeys[i]] else {};
      forall l: nat ensures l in range <==> KeysMatch(leftKeys, rightKeys, l, i) {
        assert InTable(hashTable, rightKeys[i], l) <==> l in range;
      }
      while range != {}
        invariant Found(copyLeft, copyRight, tmpResults, pairs) && resultSize == |pairs|
        invariant forall l: nat :: l in range ==> KeysMatch(leftKeys, rightKeys, l, i)
        invariant forall l: nat, r: nat :: (l, r) in pairs <==>
                    r <= i && KeysMatch(leftKeys, rightKeys, l, r) && (r == i ==> l !in range)
        decreases range
      {
        var l :| l in range;
        range := range - {l};
        tmpResults := Emit(tmpResults, copyLeft, copyRight, pairs, l, i);
        resultSize, pairs := resultSize + 1, pairs + [(l, i)];
      }
    }
    forall x ensures x in pairs <==> x in MatchingPairs(leftKeys, rightKeys) { assert x == (x.0, x.1); }
    DistinctSize(pairs, MatchingPairs(leftKeys, rightKeys));
  }

  /** Where the columns of the infos stand when they are numbered from resColId on. */
  function Positions(infos: seq<SelectInfo>, pos: map<SelectInfo, nat>, resColId: nat): map<SelectInfo, nat> {
    if infos == [] then pos
    else
      var n := |infos| - 1;
      Positions(infos[..n], pos, resColId)[infos[n] := resColId + n]
  }

  lemma {:induction false} PositionsAt(infos: seq<SelectInfo>, pos: map<SelectInfo, nat>, resColId: nat, s: SelectInfo)
    ensures var q := Positions(infos, pos, resColId);
            if s in infos then s in q && resColId <= q[s] < resColId + |infos| && infos[q[s] - resColId] == s
            else (s in q <==> s in pos) && (s in pos ==> q[s] == pos[s])
  {
    if infos != [] {
      var n := |infos| - 1;
      PositionsAt(infos[..n], pos, resColId, s);
      assert infos == infos[..n] + [infos[n]];
    }
  }

  /** The columns of the requested infos, and where they will stand in the result. */
  method ResolveColumns(input: Result, infos: seq<SelectInfo>, pos0: map<SelectInfo, nat>, resColId: nat)
    returns (copyData: seq<seq<Word>>, pos: map<SelectInfo, nat>)
    requires forall k :: 0 <= k < |infos| ==> infos[k] in input.pos && input.pos[infos[k]] < |input.columns|
    ensures |copyData| == |infos| && pos == Positions(infos, pos0, resColId)
    ensures forall k :: 0 <= k < |infos| ==> copyData[k] == input.columns[input.pos[infos[k]]]
  {
    copyData, pos := [], pos0;
    for k := 0 to |infos|
      invariant |copyData| == k && pos == Positions(infos[..k], pos0, resColId)
      invariant forall j :: 0 <= j < k ==> copyData[j] == input.columns[input.pos[infos[j]]]
    {
      assert infos[..k + 1][..k] == infos[..k];
      copyData := copyData + [input.columns[input.pos[infos[k]]]];
      pos := pos[infos[k] := resColId + k];
    }
    assert infos[..|infos|] == infos;
  }

  /** A materialized input: its rows, all over the same bindings, and the columns that can be resolved in it. */
  ghost predicate InputOk(tables: seq<Relation>, res: Result, rows: seq<Row>, bindings: set<nat>, infos: seq<SelectInfo>) {
    && res.size == |rows| && NoDuplicates(rows) && (forall row :: row in rows ==> row.Keys == bindings)
    && forall s :: s in infos ==> s.binding in bindings && Resolves(tables, res, rows, s)
  }

  /** The rows are the matching pairs of the inputs' rows. */
  ghost predicate Joins(tables: seq<Relation>, lrows: seq<Row>, rrows: seq<Row>, p: PredicateInfo, rows: seq<Row>) {
    && (forall l, r :: l in lrows && r in rrows && Matches(tables, l + r, p) ==> l + r in rows)
    && forall row :: row in rows ==> JoinedFrom(tables, lrows, rrows, p, row)
  }

  ghost predicate JoinedFrom(tables: seq<Relation>, lrows: seq<Row>, rrows: seq<Row>, p: PredicateInfo, row: Row) {
    exists l, r :: l in lrows && r in rrows && Matches(tables, l + r, p) && row == l + r
  }

  lemma UnionInjective(l: Row, r: Row, l': Row, r': Row)
    requires l.Keys == l'.Keys && r.Keys == r'.Keys && l.Keys !! r.Keys && l + r == l' + r'
    ensures l == l' && r == r'
  {
    forall b | b in l ensures l[b] == l'[b] { assert (l + r)[b] == l[b] && (l' + r')[b] == l'[b]; }
    forall b | b in r ensures r[b] == r'[b] { assert (l + r)[b] == r[b] && (l' + r')[b] == r'[b]; }
  }

  function PairRows(lrows: seq<Row>, rrows: seq<Row>, pairs: seq<(nat, nat)>): (rows: seq<Row>)
    requires forall k :: 0 <= k < |pairs| ==> pairs[k].0 < |lrows| && pairs[k].1 < |rrows|
    ensures |rows| == |pairs|
  {
    seq(|pairs|, k requires 0 <= k < |pairs| => lrows[pairs[k].0] + rrows[pairs[k].1])
  }

  /** Keys match where rows match. */
  lemma KeysAreCells(tables: seq<Relation>, lrows: seq<Row>, rrows: seq<Row>, p: PredicateInfo, l: nat, r: nat)
    requires l < |lrows| && r < |rrows| && lrows[l].Keys !! rrows[r].Keys
    requires p.left.binding in lrows[l] && p.right.binding in rrows[r]
    ensures KeysMatch(Column(tables, lrows, p.left), Column(tables, rrows, p.right), l, r)
       <==> Matches(tables, lrows[l] + rrows[r], p)
  {
    CellOfPart(tables, lrows[l], rrows[r], p.left);
    CellOfPart(tables, lrows[l], rrows[r], p.right);
  }

  lemma PairRowsDistinct(lrows: seq<Row>, rrows: seq<Row>, bl: set<nat>, br: set<nat>, pairs: seq<(nat, nat)>)
    requires NoDuplicates(lrows) && NoDuplicates(rrows) && NoDuplicates(pairs) && bl !! br
    requires (forall row :: row in lrows ==> row.Keys == bl) && (forall row :: row in rrows ==> row.Keys == br)
    requires forall k :: 0 <= k < |pairs| ==> pairs[k].0 < |lrows| && pairs[k].1 < |rrows|
    ensures NoDuplicates(PairRows(lrows, rrows, pairs))
  {
    var rows := PairRows(lrows, rrows, pairs);
    forall i, j | 0 <= i < j < |rows| ensures rows[i] != rows[j] {
      if rows[i] == rows[j] {
        UnionInjective(lrows[pairs[i].0], rrows[pairs[i].1], lrows[pairs[j].0], rrows[pairs[j].1]);
      }
    }
  }

  lemma PairRowsJoin(tables: seq<Relation>, lrows: seq<Row>, rrows: seq<Row>, bl: set<nat>, br: set<nat>, p: PredicateInfo,
                     pairs: seq<(nat, nat)>)
    requires NoDuplicates(lrows) && NoDuplicates(rrows) && NoDuplicates(pairs) && bl !! br
    requires (forall row :: row in lrows ==> row.Keys == bl) && (forall row :: row in rrows ==> row.Keys == br)
    requires p.left.binding in bl && p.right.binding in br
    requires forall l: nat, r: nat :: (l, r) in pairs <==>
               KeysMatch(Column(tables, lrows, p.left), Column(tables, rrows, p.right), l, r)
    ensures forall k :: 0 <= k < |pairs| ==> pairs[k].0 < |lrows| && pairs[k].1 < |rrows|
    ensures NoDuplicates(PairRows(lrows, rrows, pairs)) && Joins(tables, lrows, rrows, p, PairRows(lrows, rrows, pairs))
  {
    forall k | 0 <= k < |pairs| ensures pairs[k].0 < |lrows| && pairs[k].1 < |rrows| {
      assert (pairs[k].0, pairs[k].1) in pairs;
    }
    var rows := PairRows(lrows, rrows, pairs);
    PairRowsDistinct(lrows, rrows, bl, br, pairs);
    forall l, r | l in lrows && r in rrows && Matches(tables, l + r, p) ensures l + r in rows {
      var i: nat :| i < |lrows| && lrows[i] == l;
      var j: nat :| j < |rrows| && rrows[j] == r;
      KeysAreCells(tables, lrows, rrows, p, i, j);
      var k :| 0 <= k < |pairs| && pairs[k] == (i, j);
      assert rows[k] == l + r;
    }
    forall row | row in rows ensures JoinedFrom(tables, lrows, rrows, p, row) {
      var k :| 0 <= k < |rows| && rows[k] == row;
      assert (pairs[k].0, pairs[k].1) in pairs;
      KeysAreCells(tables, lrows, rrows, p, pairs[k].0, pairs[k].1);
    }
  }

  /** The copied columns are the columns of the joined rows. */
  lemma JoinedColumns(tables: seq<Relation>, lrows: seq<Row>, rrows: seq<Row>, bl: set<nat>, br: set<nat>,
                      pairs: seq<(nat, nat)>, s: SelectInfo)
    requires forall k :: 0 <= k < |pairs| ==> pairs[k].0 < |lrows| && pairs[k].1 < |rrows|
    requires (forall row :: row in lrows ==> row.Keys == bl) && (forall row :: row in rrows ==> row.Keys == br) && bl !! br
    ensures s.binding in bl ==>
              Gather([Column(tables, lrows, s)], Lefts(pairs)) == [Column(tables, PairRows(lrows, rrows, pairs), s)]
    ensures s.binding in br ==>
              Gather([Column(tables, rrows, s)], Rights(pairs)) == [Column(tables, PairRows(lrows, rrows, pairs), s)]
  {
    var rows := PairRows(lrows, rrows, pairs);
    forall k | 0 <= k < |pairs|
      ensures s.binding in bl ==> Cell(tables, rows[k], s) == Cell(tables, lrows[pairs[k].0], s)
      ensures s.binding in br ==> Cell(tables, rows[k], s) == Cell(tables, rrows[pairs[k].1], s)
    {
      CellOfPart(tables, lrows[pairs[k].0], rrows[pairs[k].1], s);
    }
    if s.binding in bl {
      assert Gather([Column(tables, lrows, s)], Lefts(pairs))[0] == Column(tables, rows, s);
    }
    if s.binding in br {
      assert Gather([Column(tables, rrows, s)], Rights(pairs))[0] == Column(tables, rows, s);
    }
  }

  /** The columns of an input that a join copies, and its key column. */
  ghost predicate Prepared(tables: seq<Relation>, rows: seq<Row>, bindings: set<nat>, infos: seq<SelectInfo>, p: SelectInfo,
                           copy: seq<seq<Word>>, keys: seq<Word>) {
    && |copy| == |infos| && p.binding in bindings && keys == Column(tables, rows, p)
    && forall k :: 0 <= k < |infos| ==> infos[k].binding in bindings && copy[k] == Column(tables, rows, infos[k])
  }

  method Prepare(ghost tables: seq<Relation>, input: Result, ghost rows: seq<Row>, ghost bindings: set<nat>,
                 infos: seq<SelectInfo>, p: SelectInfo, pos0: map<SelectInfo, nat>, resColId: nat)
    returns (copy: seq<seq<Word>>, keys: seq<Word>, pos: map<SelectInfo, nat>)
    requires InputOk(tables, input, rows, bindings, infos + [p])
    ensures Prepared(tables, rows, bindings, infos, p, copy, keys) && pos == Positions(infos, pos0, resColId)
  {
    assert p in infos + [p];
    forall k | 0 <= k < |infos| ensures infos[k].binding in bindings && Resolves(tables, input, rows, infos[k]) {
      assert infos[k] in infos + [p];
    }
    copy, pos := ResolveColumns(input, infos, pos0, resColId);
    keys := input.columns[input.pos[p]];
  }

  /** The copied columns stand where pos says. */
  lemma JoinResolves(tables: seq<Relation>, lrows: seq<Row>, rrows: seq<Row>, bl: set<nat>, br: set<nat>,
                     pairs: seq<(nat, nat)>, copyLeft: seq<seq<Word>>, copyRight: seq<seq<Word>>,
                     infos: seq<SelectInfo>, k: nat)
    requires forall k :: 0 <= k < |pairs| ==> pairs[k].0 < |lrows| && pairs[k].1 < |rrows|
    requires (forall row :: row in lrows ==> row.Keys == bl) && (forall row :: row in rrows ==> row.Keys == br) && bl !! br
    requires |infos| == |copyLeft| + |copyRight| && k < |infos|
    requires if k < |copyLeft| then infos[k].binding in bl && copyLeft[k] == Column(tables, lrows, infos[k])
             else infos[k].binding in br && copyRight[k - |copyLeft|] == Column(tables, rrows, infos[k])
    requires IdsOk(copyLeft, Lefts(pairs)) && IdsOk(copyRight, Rights(pairs))
    ensures (Gather(copyLeft, Lefts(pairs)) + Gather(copyRight, Rights(pairs)))[k]
         == Column(tables, PairRows(lrows, rrows, pairs), infos[k])
  {
    var s := infos[k];
    JoinedColumns(tables, lrows, rrows, bl, br, pairs, s);
    if k < |copyLeft| {
      assert Gather(copyLeft, Lefts(pairs))[k] == Gather([Column(tables, lrows, s)], Lefts(pairs))[0];
    } else {
      assert Gather(copyRight, Rights(pairs))[k - |copyLeft|] == Gather([Column(tables, rrows, s)], Rights(pairs))[0];
    }
  }

  lemma AllJoinResolve(tables: seq<Relation>, lrows: seq<Row>, rrows: seq<Row>, bl: set<nat>, br: set<nat>,
                       pairs: seq<(nat, nat)>, copyLeft: seq<seq<Word>>, copyRight: seq<seq<Word>>,
                       infosLeft: seq<SelectInfo>, infosRight: seq<SelectInfo>, p: PredicateInfo,
                       leftKeys: seq<Word>, rightKeys: seq<Word>)
    requires forall k :: 0 <= k < |pairs| ==> pairs[k].0 < |lrows| && pairs[k].1 < |rrows|
    requires (forall row :: row in lrows ==> row.Keys == bl) && (forall row :: row in rrows ==> row.Keys == br) && bl !! br
    requires Prepared(tables, lrows, bl, infosLeft, p.left, copyLeft, leftKeys)
    requires Prepared(tables, rrows, br, infosRight, p.right, copyRight, rightKeys)
    requires IdsOk(copyLeft, Lefts(pairs)) && IdsOk(copyRight, Rights(pairs))
    ensures var columns := Gather(copyLeft, Lefts(pairs)) + Gather(copyRight, Rights(pairs));
            && |columns| == |infosLeft| + |infosRight|
            && forall k :: 0 <= k < |columns| ==>
                 columns[k] == Column(tables, PairRows(lrows, rrows, pairs), (infosLeft + infosRight)[k])
  {
    var columns, infos := Gather(copyLeft, Lefts(pairs)) + Gather(copyRight, Rights(pairs)), infosLeft + infosRight;
    forall k: nat | k < |infos| ensures columns[k] == Column(tables, PairRows(lrows, rrows, pairs), infos[k]) {
      JoinResolves(tables, lrows, rrows, bl, br, pairs, copyLeft, copyRight, infos, k);
    }
  }

  method JoinPrepared(ghost tables: seq<Relation>, p: PredicateInfo, copyLeft: seq<seq<Word>>, leftKeys: seq<Word>,
                      copyRight: seq<seq<Word>>, rightKeys: seq<Word>,
                      ghost requestedLeft: seq<SelectInfo>, ghost requestedRight: seq<SelectInfo>,
                      ghost lrows: seq<Row>, ghost rrows: seq<Row>, ghost bl: set<nat>, ghost br: set<nat>)
    returns (tmpResults: seq<seq<Word>>, size: nat, ghost rows: seq<Row>)
    requires Prepared(tables, lrows, bl, requestedLeft, p.left, copyLeft, leftKeys) && NoDuplicates(lrows)
    requires Prepared(tables, rrows, br, requestedRight, p.right, copyRight, rightKeys) && NoDuplicates(rrows)
    requires (forall row :: row in lrows ==> row.Keys == bl) && (forall row :: row in rrows ==> row.Keys == br) && bl !! br
    ensures size == |rows| && NoDuplicates(rows) && Joins(tables, lrows, rrows, p, rows)
    ensures |tmpResults| == |requestedLeft| + |requestedRight|
    ensures forall k :: 0 <= k < |tmpResults| ==>
              tmpResults[k] == Column(tables, rows, (requestedLeft + requestedRight)[k])
  {
    ghost var pairs;
    tmpResults, size, pairs := HashJoin(leftKeys, rightKeys, copyLeft, copyRight);
    PairRowsJoin(tables, lrows, rrows, bl, br, p, pairs);
    rows := PairRows(lrows, rrows, pairs);
    AllJoinResolve(tables, lrows, rrows, bl, br, pairs, copyLeft, copyRight, requestedLeft, requestedRight, p,
                   leftKeys, rightKeys);
  }

  /** The second half of Join::run, after the inputs have run and the smaller one is on the left. */
  method JoinInputs(ghost tables: seq<Relation>, left: Result, right: Result, p: PredicateInfo,
                    requestedLeft: seq<SelectInfo>, requestedRight: seq<SelectInfo>,
                    ghost lrows: seq<Row>, ghost rrows: seq<Row>, ghost bl: set<nat>, ghost br: set<nat>)
    returns (res: Result, ghost rows: seq<Row>)
    requires InputOk(tables, left, lrows, bl, requestedLeft + [p.left])
    requires InputOk(tables, right, rrows, br, requestedRight + [p.right]) && bl !! br
    ensures res.size == |rows| && NoDuplicates(rows) && Joins(tables, lrows, rrows, p, rows)
    ensures forall s :: s in requestedLeft || s in requestedRight ==> Resolves(tables, res, rows, s)
  {
    var copyLeft, leftKeys, pos1 := Prepare(tables, left, lrows, bl, requestedLeft, p.left, map[], 0);
    var copyRight, rightKeys, pos :=
      Prepare(tables, right, rrows, br, requestedRight, p.right, pos1, |requestedLeft|);
    var tmpResults, size;
    tmpResults, size, rows := JoinPrepared(tables, p, copyLeft, leftKeys, copyRight, rightKeys,
                                           requestedLeft, requestedRight, lrows, rrows, bl, br);
    res := Result(size, tmpResults, pos);
    JoinedResolve(tables, res, rows, requestedLeft, requestedRight);
  }

  /** The positions are those of the left columns and then the right ones. */
  lemma JoinedResolve(tables: seq<Relation>, res: Result, rows: seq<Row>, infosLeft: seq<SelectInfo>,
                      infosRight: seq<SelectInfo>)
    requires |res.columns| == |infosLeft| + |infosRight|
    requires res.pos == Positions(infosRight, Positions(infosLeft, map[], 0), |infosLeft|)
    requires forall k :: 0 <= k < |res.columns| ==> res.columns[k] == Column(tables, rows, (infosLeft + infosRight)[k])
    ensures forall s :: s in infosLeft || s in infosRight ==> Resolves(tables, res, rows, s)
  {
    forall s | s in infosLeft || s in infosRight ensures Resolves(tables, res, rows, s) {
      PositionsOfBoth(infosLeft, infosRight, s);
    }
  }

  lemma PositionsOfBoth(infosLeft: seq<SelectInfo>, infosRight: seq<SelectInfo>, s: SelectInfo)
    requires s in infosLeft || s in infosRight
    ensures var pos := Positions(infosRight, Positions(infosLeft, map[], 0), |infosLeft|);
            s in pos && pos[s] < |infosLeft| + |infosRight| && (infosLeft + infosRight)[pos[s]] == s
  {
    var pos1 := Positions(infosLeft, map[], 0);
    PositionsAt(infosLeft, map[], 0, s);
    PositionsAt(infosRight, pos1, |infosLeft|, s);
  }

  predicate Swapped(p: PredicateInfo, q: PredicateInfo) {
    q.left == p.right && q.right == p.left
  }

  /** Swapping the inputs together with the sides of the predicate changes nothing. */
  lemma JoinsSwap(tables: seq<Relation>, lrows: seq<Row>, rrows: seq<Row>, bl: set<nat>, br: set<nat>, p: PredicateInfo,
                  q: PredicateInfo, rows: seq<Row>)
    requires (forall row :: row in lrows ==> row.Keys == bl) && (forall row :: row in rrows ==> row.Keys == br) && bl !! br
    requires Swapped(p, q) && Joins(tables, rrows, lrows, q, rows)
    ensures Joins(tables, lrows, rrows, p, rows)
  {
    forall l, r | l in lrows && r in rrows ensures l + r == r + l && (Matches(tables, l + r, p) <==> Matches(tables, r + l, q)) {
      assert l + r == r + l;
    }
    forall row | row in rows ensures JoinedFrom(tables, lrows, rrows, p, row) {
      assert JoinedFrom(tables, rrows, lrows, q, row);
      var r, l :| r in rrows && l in lrows && Matches(tables, r + l, q) && row == r + l;
      assert row == l + r;
    }
  }

  /** The smaller input is used for the build. */
  method JoinBySize(ghost tables: seq<Relation>, left: Result, right: Result, p: PredicateInfo,
                    requestedLeft: seq<SelectInfo>, requestedRight: seq<SelectInfo>,
                    ghost lrows: seq<Row>, ghost rrows: seq<Row>, ghost bl: set<nat>, ghost br: set<nat>)
    returns (res: Result, ghost rows: seq<Row>)
    requires InputOk(tables, left, lrows, bl, requestedLeft + [p.left])
    requires InputOk(tables, right, rrows, br, requestedRight + [p.right]) && bl !! br
    ensures res.size == |rows| && NoDuplicates(rows) && Joins(tables, lrows, rrows, p, rows)
    ensures forall s :: s in requestedLeft || s in requestedRight ==> Resolves(tables, res, rows, s)
  {
    if left.size > right.size {
      var q := PredicateInfo(p.right, p.left);
      res, rows := JoinInputs(tables, right, left, q, requestedRight, requestedLeft, rrows, lrows, br, bl);
      JoinsSwap(tables, lrows, rrows, bl, br, p, q, rows);
    } else {
      res, rows := JoinInputs(tables, left, right, p, requestedLeft, requestedRight, lrows, rrows, bl, br);
    }
  }

  lemma JoinsMean(tables: seq<Relation>, op: Op, lrows: seq<Row>, rrows: seq<Row>, rows: seq<Row>)
    requires op.Join? && Joins(tables, lrows, rrows, op.pInfo, rows)
    requires forall row :: row in lrows <==> row in Meaning(tables, op.left)
    requires forall row :: row in rrows <==> row in Meaning(tables, op.right)
    ensures forall row :: row in rows <==> row in Meaning(tables, op)
  {
    forall row | row in rows ensures row in Meaning(tables, op) {
      assert JoinedFrom(tables, lrows, rrows, op.pInfo, row);
    }
  }

  /** An input that has run, as the join sees it. */
  lemma InputFits(tables: seq<Relation>, op: Op, op': Op, s: SelectInfo, res: Result, rows: seq<Row>, infos: seq<SelectInfo>)
    requires OpOk(tables, op') && SamePlan(tables, op, op') && Produces(tables, op', res, rows)
    requires s in Required(op') && forall x :: x in infos ==> x in Required(op')
    ensures InputOk(tables, res, rows, Bindings(op), infos + [s])
    ensures forall row :: row in rows <==> row in Meaning(tables, op)
  {
    forall row | row in rows ensures row.Keys == Bindings(op) { MeaningIsSelection(tables, op', row); }
    forall x | x in infos + [s] ensures x.binding in Bindings(op) && Resolves(tables, res, rows, x) {
      assert x in Required(op');
      RequiredAreOfBindings(tables, op', x);
    }
  }

  // ---------------------------------------------------------------- self join

  method SelfJoinLoop(leftCol: seq<Word>, rightCol: seq<Word>, copyData: seq<seq<Word>>)
    returns (tmpResults: seq<seq<Word>>, resultSize: nat, ghost ids: seq<nat>)
    requires |leftCol| == |rightCol| && forall c :: 0 <= c < |copyData| ==> |copyData[c]| == |leftCol|
    ensures forall k :: 0 <= k < |ids| ==> ids[k] < |leftCol|
    ensures tmpResults == Gather(copyData, ids) && resultSize == |ids| && NoDuplicates(ids)
    ensures forall i: nat :: i in ids <==> i < |leftCol| && leftCol[i] == rightCol[i]
  {
    tmpResults, resultSize, ids := seq(|copyData|, _ => []), 0, [];
    assert tmpResults == Gather(copyData, ids);
    for i := 0 to |leftCol|
      invariant forall k :: 0 <= k < |ids| ==> ids[k] < i
      invariant tmpResults == Gather(copyData, ids) && resultSize == |ids| && NoDuplicates(ids)
      invariant forall j: nat :: j in ids <==> j < i && leftCol[j] == rightCol[j]
    {
      if leftCol[i] == rightCol[i] {
        tmpResults := CopyToResult(tmpResults, copyData, ids, i);
        resultSize, ids := resultSize + 1, ids + [i];
      }
    }
  }

  /** The elements in some order. */
  method Enumerate(infos: set<SelectInfo>) returns (s: seq<SelectInfo>)
    ensures forall x :: x in s <==> x in infos
  {
    s := [];
    var rest := infos;
    while rest != {}
      invariant rest <= infos && forall x :: x in s <==> x in infos && x !in rest
      decreases rest
    {
      var x :| x in rest;
      s, rest := s + [x], rest - {x};
    }
  }

  function PickRows(rows: seq<Row>, ids: seq<nat>): (r: seq<Row>)
    requires forall k :: 0 <= k < |ids| ==> ids[k] < |rows|
    ensures |r| == |ids|
  {
    seq(|ids|, k requires 0 <= k < |ids| => rows[ids[k]])
  }

  lemma PickedRows(tables: seq<Relation>, op: Op, inRows: seq<Row>, ids: seq<nat>)
    requires op.SelfJoin? && NoDuplicates(inRows) && NoDuplicates(ids)
    requires forall row :: row in inRows <==> row in Meaning(tables, op.input)
    requires forall i: nat :: i in ids <==> i < |inRows| && Matches(tables, inRows[i], op.pInfo)
    ensures forall k :: 0 <= k < |ids| ==> ids[k] < |inRows|
    ensures NoDuplicates(PickRows(inRows, ids)) && forall row :: row in PickRows(inRows, ids) <==> row in Meaning(tables, op)
  {
    forall k | 0 <= k < |ids| ensures ids[k] < |inRows| { assert ids[k] in ids; }
    var rows := PickRows(inRows, ids);
    forall i, j | 0 <= i < j < |rows| ensures rows[i] != rows[j] {
      assert ids[i] != ids[j];
    }
    forall row ensures row in rows <==> row in Meaning(tables, op) {
      if row in rows {
        var k :| 0 <= k < |rows| && rows[k] == row;
        assert ids[k] in ids && inRows[ids[k]] in inRows;
      }
      if row in Meaning(tables, op) {
        assert row in inRows;
        var i: nat :| i < |inRows| && inRows[i] == row;
        assert i in ids;
        var k :| 0 <= k < |ids| && ids[k] == i;
        assert rows[k] == row;
      }
    }
  }

  lemma PickedColumns(tables: seq<Relation>, inRows: seq<Row>, ids: seq<nat>, copy: seq<seq<Word>>, infos: seq<SelectInfo>,
                      k: nat)
    requires (forall k :: 0 <= k < |ids| ==> ids[k] < |inRows|) && IdsOk(copy, ids) && k < |copy| == |infos|
    requires copy[k] == Column(tables, inRows, infos[k])
    ensures Gather(copy, ids)[k] == Column(tables, PickRows(inRows, ids), infos[k])
  {
  }

  method RunSelfJoin(ghost tables: seq<Relation>, op: Op, input: Result, ghost inRows: seq<Row>)
    returns (res: Result, ghost rows: seq<Row>)
    requires op.SelfJoin? && input.size == |inRows| && NoDuplicates(inRows)
    requires forall row :: row in inRows <==> row in Meaning(tables, op.input)
    requires Resolves(tables, input, inRows, op.pInfo.left) && Resolves(tables, input, inRows, op.pInfo.right)
    requires forall s :: s in op.required ==> Resolves(tables, input, inRows, s)
    ensures Produces(tables, op, res, rows)
  {
    var infos := Enumerate(op.required);
    forall k | 0 <= k < |infos| ensures Resolves(tables, input, inRows, infos[k]) { assert infos[k] in infos; }
    var copyData, pos := ResolveColumns(input, infos, map[], 0);
    var leftCol, rightCol := input.columns[input.pos[op.pInfo.left]], input.columns[input.pos[op.pInfo.right]];
    var tmpResults, size;
    ghost var ids;
    tmpResults, size, ids := SelfJoinLoop(leftCol, rightCol, copyData);
    res := Result(size, tmpResults, pos);
    PickedRows(tables, op, inRows, ids);
    rows := PickRows(inRows, ids);
    forall s | s in op.required ensures Resolves(tables, res, rows, s) {
      PositionsAt(infos, map[], 0, s);
      PickedColumns(tables, inRows, ids, copyData, infos, pos[s]);
    }
  }

  // ---------------------------------------------------------------- any operator

  /** Running an operator materializes its meaning: every row once, and every required column where it is resolved. */
  method Run(ghost tables: seq<Relation>, op: Op) returns (res: Result, ghost rows: seq<Row>)
    requires OpOk(tables, op) && TablesOk(tables)
    ensures Produces(tables, op, res, rows) && res.size == |Meaning(tables, op)|
    decreases Depth(op), 1
  {
    match op {
      case Scan(_, _, _, _) => res, rows := RunScan(tables, op);
      case FilterScan(_, _, _, _, _) => res, rows := RunFilterScan(tables, op);
      case Join(_, _, _, _, _, _) => res, rows := RunJoin(tables, op);
      case SelfJoin(input, p, _) =>
        RequireOk(tables, input, p.left);
        var input1 := Require(input, p.left).0;
        RequireOk(tables, input1, p.right);
        var input2 := Require(input1, p.right).0;
        var inRes;
        ghost var inRows;
        inRes, inRows := Run(tables, input2);
        res, rows := RunSelfJoin(tables, op, inRes, inRows);
    }
    DistinctSize(rows, Meaning(tables, op));
  }

  /** Both inputs run, and the smaller one is used for building. */
  method RunJoin(ghost tables: seq<Relation>, op: Op) returns (res: Result, ghost rows: seq<Row>)
    requires OpOk(tables, op) && op.Join? && TablesOk(tables)
    ensures Produces(tables, op, res, rows)
    decreases Depth(op), 0
  {
    var p := op.pInfo;
    RequireOk(tables, op.left, p.left);
    RequireOk(tables, op.right, p.right);
    var left, right := Require(op.left, p.left).0, Require(op.right, p.right).0;
    var leftRes, rightRes;
    ghost var lrows, rrows;
    leftRes, lrows := Run(tables, left);
    rightRes, rrows := Run(tables, right);
    InputFits(tables, op.left, left, p.left, leftRes, lrows, op.requestedLeft);
    InputFits(tables, op.right, right, p.right, rightRes, rrows, op.requestedRight);
    res, rows := JoinBySize(tables, leftRes, rightRes, p, op.requestedLeft, op.requestedRight, lrows, rrows,
                            Bindings(op.left), Bindings(op.right));
    JoinsMean(tables, op, lrows, rrows, rows);
  }

  // ---------------------------------------------------------------- checksums

  /** The sum of a column over the rows. */
  function Total(tables: seq<Relation>, rows: seq<Row>, s: SelectInfo): nat {
    if rows == [] then 0
    else Total(tables, rows[..|rows| - 1], s) + Cell(tables, rows[|rows| - 1], s)
  }

  lemma TotalGrows(tables: seq<Relation>, rows: seq<Row>, i: nat, s: SelectInfo)
    requires i < |rows|
    ensures Total(tables, rows[..i + 1], s) == Total(tables, rows[..i], s) + Cell(tables, rows[i], s)
  {
    assert rows[..i + 1][..i] == rows[..i];
  }

  lemma AddWraps(a: nat, b: nat)
    ensures (a % ULONG + b) % ULONG == (a + b) % ULONG
  {
  }

  /** The sum of a column in 64 bits. */
  method SumColumn(ghost tables: seq<Relation>, column: seq<Word>, ghost rows: seq<Row>, ghost s: SelectInfo)
    returns (sum: Word)
    requires column == Column(tables, rows, s)
    ensures sum == Total(tables, rows, s) % ULONG
  {
    sum := 0;
    for i := 0 to |column|
      invariant sum == Total(tables, rows[..i], s) % ULONG
    {
      TotalGrows(tables, rows, i, s);
      AddWraps(Total(tables, rows[..i], s), column[i]);
      sum := (sum + column[i]) % ULONG;
    }
    assert rows[..|column|] == rows;
  }

  /** Checksum::run: for every selection the sum of its column over the rows of the input. */
  method Checksum(ghost tables: seq<Relation>, input: Op, colInfo: seq<SelectInfo>)
    returns (checkSums: seq<Word>, resultSize: nat, ghost rows: seq<Row>)
    requires OpOk(tables, input) && TablesOk(tables)
    requires forall k :: 0 <= k < |colInfo| ==> ColumnOk(tables, colInfo[k]) && colInfo[k].binding in Bindings(input)
    ensures NoDuplicates(rows) && forall row :: row in rows <==> row in Meaning(tables, input)
    ensures |checkSums| == |colInfo|
    ensures forall k :: 0 <= k < |colInfo| ==> checkSums[k] == Total(tables, rows, colInfo[k]) % ULONG
    ensures resultSize == if colInfo == [] then 0 else |rows|
  {
    var op := input;
    for k := 0 to |colInfo|
      invariant OpOk(tables, op) && SamePlan(tables, input, op)
      invariant forall j :: 0 <= j < k ==> colInfo[j] in Required(op)
    {
      RequireOk(tables, op, colInfo[k]);
      op := Require(op, colInfo[k]).0;
    }
    var results;
    results, rows := Run(tables, op);
    checkSums, resultSize := [], 0;
    for k := 0 to |colInfo|
      invariant |checkSums| == k && resultSize == if k == 0 then 0 else |rows|
      invariant forall j :: 0 <= j < k ==> checkSums[j] == Total(tables, rows, colInfo[j]) % ULONG
    {
      assert Resolves(tables, results, rows, colInfo[k]);
      resultSize := results.size;
      var sum := SumColumn(tables, results.columns[results.pos[colInfo[k]]], rows, colInfo[k]);
      checkSums := checkSums + [sum];
    }
  }
}
