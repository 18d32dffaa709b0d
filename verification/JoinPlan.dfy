/** Query plans: trees of operators, what they mean, and how columns are required of them. */
module JoinPlan {
  import opened QueryText

  /** Unsigned 64-bit values. */
  type Word = x: int | 0 <= x < 0x1_0000_0000_0000_0000

  datatype Relation = Relation(size: nat, columns: seq<seq<Word>>)

  /** A choice of one tuple for every binding. */
  type Row = map<nat, nat>

  /** An operator with the columns required of it so far.  The inputs of a join or self join are parts of it. */
  datatype Op =
    | Scan(relation: Relation, binding: nat, resultColumns: seq<seq<Word>>, pos: map<SelectInfo, nat>)
    | FilterScan(relation: Relation, binding: nat, filters: seq<FilterInfo>, inputData: seq<seq<Word>>,
                 pos: map<SelectInfo, nat>)
    | Join(left: Op, right: Op, pInfo: PredicateInfo, requested: set<SelectInfo>, requestedLeft: seq<SelectInfo>,
           requestedRight: seq<SelectInfo>)
    | SelfJoin(input: Op, pInfo: PredicateInfo, required: set<SelectInfo>)

  // ---------------------------------------------------------------- values and rows

  /** tables holds the relation of every binding of the query. */
  predicate ColumnOk(tables: seq<Relation>, s: SelectInfo) {
    s.binding < |tables| && s.colId < |tables[s.binding].columns|
  }

  predicate RelationOk(r: Relation) {
    forall c :: 0 <= c < |r.columns| ==> |r.columns[c]| == r.size
  }

  predicate TablesOk(tables: seq<Relation>) {
    forall b :: 0 <= b < |tables| ==> RelationOk(tables[b])
  }

  /** The value of a column in a row. */
  function Cell(tables: seq<Relation>, row: Row, s: SelectInfo): Word {
    if s.binding in row && ColumnOk(tables, s) && row[s.binding] < |tables[s.binding].columns[s.colId]|
    then tables[s.binding].columns[s.colId][row[s.binding]] else 0
  }

  predicate Matches(tables: seq<Relation>, row: Row, p: PredicateInfo) {
    Cell(tables, row, p.left) == Cell(tables, row, p.right)
  }

  predicate Compare(x: Word, c: Comparison, constant: nat) {
    match c
    case Equal => x == constant
    case Greater => x > constant
    case Less => x < constant
  }

  predicate Passes(tables: seq<Relation>, row: Row, f: FilterInfo) {
    Compare(Cell(tables, row, f.filterColumn), f.comparison, f.constant)
  }

  predicate RowOk(tables: seq<Relation>, row: Row) {
    forall b :: b in row ==> b < |tables| && row[b] < tables[b].size
  }

  /** The row chooses a tuple for each of the bindings and satisfies the filters and predicates. */
  predicate Selected(tables: seq<Relation>, row: Row, bindings: set<nat>, filters: set<FilterInfo>,
                     predicates: set<PredicateInfo>) {
    && row.Keys == bindings && RowOk(tables, row)
    && (forall f :: f in filters ==> Passes(tables, row, f))
    && forall p :: p in predicates ==> Matches(tables, row, p)
  }

  // ---------------------------------------------------------------- plans

  function Bindings(op: Op): set<nat> {
    match op
    case Scan(_, b, _, _) => {b}
    case FilterScan(_, b, _, _, _) => {b}
    case Join(left, right, _, _, _, _) => Bindings(left) + Bindings(right)
    case SelfJoin(input, _, _) => Bindings(input)
  }

  function Predicates(op: Op): set<PredicateInfo> {
    match op
    case Join(left, right, p, _, _, _) => Predicates(left) + Predicates(right) + {p}
    case SelfJoin(input, p, _) => Predicates(input) + {p}
    case _ => {}
  }

  function Filters(op: Op): set<FilterInfo> {
    match op
    case Scan(_, _, _, _) => {}
    case FilterScan(_, _, filters, _, _) => set f | f in filters
    case Join(left, right, _, _, _, _) => Filters(left) + Filters(right)
    case SelfJoin(input, _, _) => Filters(input)
  }

  function Depth(op: Op): nat {
    match op
    case Join(left, right, _, _, _, _) => 1 + Depth(left) + Depth(right)
    case SelfJoin(input, _, _) => 1 + Depth(input)
    case _ => 0
  }

  /** The columns that can be resolved once the operator has run. */
  function Required(op: Op): set<SelectInfo> {
    match op
    case Scan(_, _, _, pos) => pos.Keys
    case FilterScan(_, _, _, _, pos) => pos.Keys
    case Join(_, _, _, requested, _, _) => requested
    case SelfJoin(_, _, required) => required
  }

  /** What the operator produces: its inputs' rows, put together and selected. */
  function Meaning(tables: seq<Relation>, op: Op): set<Row> {
    match op
    case Scan(relation, b, _, _) => set i: nat | i < relation.size :: map[b := i]
    case FilterScan(relation, b, filters, _, _) =>
      set i: nat | i < relation.size && (forall f :: f in filters ==> Passes(tables, map[b := i], f)) :: map[b := i]
    case Join(left, right, p, _, _, _) =>
      set l: Row, r: Row | l in Meaning(tables, left) && r in Meaning(tables, right) && Matches(tables, l + r, p) :: l + r
    case SelfJoin(input, p, _) => set row: Row | row in Meaning(tables, input) && Matches(tables, row, p)
  }

  predicate PositionsOk(tables: seq<Relation>, b: nat, columns: seq<seq<Word>>, pos: map<SelectInfo, nat>) {
    forall s :: s in pos ==>
      s.binding == b && ColumnOk(tables, s) && pos[s] < |columns| && columns[pos[s]] == tables[b].columns[s.colId]
  }

  /** Each operator is over the right relations, and has required of its inputs what was required of it. */
  ghost predicate OpOk(tables: seq<Relation>, op: Op) {
    match op
    case Scan(relation, b, columns, pos) =>
      b < |tables| && relation == tables[b] && PositionsOk(tables, b, columns, pos)
    case FilterScan(relation, b, filters, columns, pos) =>
      && b < |tables| && relation == tables[b] && PositionsOk(tables, b, columns, pos)
      && (forall f :: f in filters ==> f.filterColumn.binding == b && ColumnOk(tables, f.filterColumn))
      && forall c :: 0 <= c < |columns| ==> |columns[c]| == relation.size
    case Join(left, right, p, requested, requestedLeft, requestedRight) =>
      && OpOk(tables, left) && OpOk(tables, right) && Bindings(left) !! Bindings(right)
      && p.left.binding in Bindings(left) && p.right.binding in Bindings(right)
      && ColumnOk(tables, p.left) && ColumnOk(tables, p.right)
      && (forall s :: s in requestedLeft ==> s in Required(left))
      && (forall s :: s in requestedRight ==> s in Required(right))
      && (forall s :: s in requested <==> s in requestedLeft || s in requestedRight)
    case SelfJoin(input, p, required) =>
      && OpOk(tables, input) && p.left.binding in Bindings(input) && p.right.binding in Bindings(input)
      && ColumnOk(tables, p.left) && ColumnOk(tables, p.right) && required <= Required(input)
  }

  lemma {:induction false} RequiredAreOfBindings(tables: seq<Relation>, op: Op, s: SelectInfo)
    requires OpOk(tables, op) && s in Required(op)
    ensures s.binding in Bindings(op)
    decreases op
  {
    match op {
      case Join(left, right, _, _, requestedLeft, requestedRight) =>
        if s in requestedLeft { RequiredAreOfBindings(tables, left, s); }
        if s in requestedRight { RequiredAreOfBindings(tables, right, s); }
      case SelfJoin(input, _, _) => RequiredAreOfBindings(tables, input, s);
      case _ =>
    }
  }

  lemma CellOfPart(tables: seq<Relation>, l: Row, r: Row, s: SelectInfo)
    requires l.Keys !! r.Keys
    ensures s.binding in l ==> Cell(tables, l + r, s) == Cell(tables, l, s)
    ensures s.binding in r ==> Cell(tables, l + r, s) == Cell(tables, r, s)
  {
  }

  predicate PredicatesWithin(predicates: set<PredicateInfo>, bindings: set<nat>) {
    forall p :: p in predicates ==> p.left.binding in bindings && p.right.binding in bindings
  }

  predicate FiltersWithin(filters: set<FilterInfo>, bindings: set<nat>) {
    forall f :: f in filters ==> f.filterColumn.binding in bindings
  }

  lemma {:induction false} BindingsContain(tables: seq<Relation>, op: Op)
    requires OpOk(tables, op)
    ensures PredicatesWithin(Predicates(op), Bindings(op)) && FiltersWithin(Filters(op), Bindings(op))
    decreases op
  {
    match op {
      case Join(left, right, _, _, _, _) =>
        BindingsContain(tables, left);
        BindingsContain(tables, right);
      case SelfJoin(input, _, _) => BindingsContain(tables, input);
      case _ =>
    }
  }

  /** Selecting rows of two separate parts is selecting the parts. */
  lemma SelectedParts(tables: seq<Relation>, l: Row, r: Row, bl: set<nat>, br: set<nat>, fl: set<FilterInfo>,
                      fr: set<FilterInfo>, pl: set<PredicateInfo>, pr: set<PredicateInfo>)
    requires l.Keys == bl && r.Keys == br && bl !! br
    requires PredicatesWithin(pl, bl) && PredicatesWithin(pr, br) && FiltersWithin(fl, bl) && FiltersWithin(fr, br)
    ensures Selected(tables, l + r, bl + br, fl + fr, pl + pr)
       <==> Selected(tables, l, bl, fl, pl) && Selected(tables, r, br, fr, pr)
  {
    forall f | f in fl ensures Passes(tables, l + r, f) <==> Passes(tables, l, f) { CellOfPart(tables, l, r, f.filterColumn); }
    forall f | f in fr ensures Passes(tables, l + r, f) <==> Passes(tables, r, f) { CellOfPart(tables, l, r, f.filterColumn); }
    forall p | p in pl ensures Matches(tables, l + r, p) <==> Matches(tables, l, p) {
      CellOfPart(tables, l, r, p.left);
      CellOfPart(tables, l, r, p.right);
    }
    forall p | p in pr ensures Matches(tables, l + r, p) <==> Matches(tables, r, p) {
      CellOfPart(tables, l, r, p.left);
      CellOfPart(tables, l, r, p.right);
    }
    forall b | b in l ensures (l + r)[b] == l[b] {}
    forall b | b in r ensures (l + r)[b] == r[b] {}
  }

  function Restrict(row: Row, bindings: set<nat>): Row {
    map b | b in row && b in bindings :: row[b]
  }

  /** One more predicate. */
  lemma SelectedMore(tables: seq<Relation>, row: Row, bs: set<nat>, fs: set<FilterInfo>, ps: set<PredicateInfo>,
                     p: PredicateInfo)
    ensures Selected(tables, row, bs, fs, ps + {p}) <==> Selected(tables, row, bs, fs, ps) && Matches(tables, row, p)
  {
  }

  /** A plan means the selection from the cross product of its bindings by all its filters and predicates, wherever in
      the tree they are applied. */
  lemma {:induction false} MeaningIsSelection(tables: seq<Relation>, op: Op, row: Row)
    requires OpOk(tables, op)
    ensures row in Meaning(tables, op) <==> Selected(tables, row, Bindings(op), Filters(op), Predicates(op))
    decreases op
  {
    match op {
      case Scan(relation, b, _, _) => OneBinding(tables, row, b);
      case FilterScan(relation, b, filters, _, _) => OneBinding(tables, row, b);
      case SelfJoin(input, p, _) =>
        MeaningIsSelection(tables, input, row);
        SelectedMore(tables, row, Bindings(op), Filters(op), Predicates(input), p);
      case Join(left, right, p, _, _, _) => JoinIsSelection(tables, op, row);
    }
  }

  lemma OneBinding(tables: seq<Relation>, row: Row, b: nat)
    ensures row.Keys == {b} ==> b in row && row == map[b := row[b]]
  {
    if row.Keys == {b} {
      assert b in row.Keys;
      assert row == map[b := row[b]];
    }
  }

  lemma {:induction false} JoinIsSelection(tables: seq<Relation>, op: Op, row: Row)
    requires OpOk(tables, op) && op.Join?
    ensures row in Meaning(tables, op) <==> Selected(tables, row, Bindings(op), Filters(op), Predicates(op))
    decreases op, 1
  {
    SelectedMore(tables, row, Bindings(op), Filters(op), Predicates(op.left) + Predicates(op.right), op.pInfo);
    if row in Meaning(tables, op) {
      var l: Row, r: Row :| l in Meaning(tables, op.left) && r in Meaning(tables, op.right)
                         && Matches(tables, l + r, op.pInfo) && row == l + r;
      JoinedIsSelected(tables, op, l, r);
    }
    if Selected(tables, row, Bindings(op), Filters(op), Predicates(op.left) + Predicates(op.right)) {
      SelectedIsJoined(tables, op, row);
    }
  }

  lemma {:induction false} JoinedIsSelected(tables: seq<Relation>, op: Op, l: Row, r: Row)
    requires OpOk(tables, op) && op.Join? && l in Meaning(tables, op.left) && r in Meaning(tables, op.right)
    ensures Selected(tables, l + r, Bindings(op), Filters(op), Predicates(op.left) + Predicates(op.right))
    decreases op, 0
  {
    MeaningIsSelection(tables, op.left, l);
    MeaningIsSelection(tables, op.right, r);
    JoinParts(tables, op, l, r);
  }

  lemma {:induction false} SelectedIsJoined(tables: seq<Relation>, op: Op, row: Row)
    requires OpOk(tables, op) && op.Join?
    requires Selected(tables, row, Bindings(op), Filters(op), Predicates(op.left) + Predicates(op.right))
    ensures var l, r := Restrict(row, Bindings(op.left)), Restrict(row, Bindings(op.right));
            row == l + r && l in Meaning(tables, op.left) && r in Meaning(tables, op.right)
    decreases op, 0
  {
    var l, r := Restrict(row, Bindings(op.left)), Restrict(row, Bindings(op.right));
    assert row == l + r && l.Keys == Bindings(op.left) && r.Keys == Bindings(op.right);
    JoinParts(tables, op, l, r);
    MeaningIsSelection(tables, op.left, l);
    MeaningIsSelection(tables, op.right, r);
  }

  lemma JoinParts(tables: seq<Relation>, op: Op, l: Row, r: Row)
    requires OpOk(tables, op) && op.Join? && l.Keys == Bindings(op.left) && r.Keys == Bindings(op.right)
    ensures Selected(tables, l + r, Bindings(op), Filters(op), Predicates(op.left) + Predicates(op.right))
       <==> && Selected(tables, l, Bindings(op.left), Filters(op.left), Predicates(op.left))
            && Selected(tables, r, Bindings(op.right), Filters(op.right), Predicates(op.right))
  {
    BindingsContain(tables, op.left);
    BindingsContain(tables, op.right);
    SelectedParts(tables, l, r, Bindings(op.left), Bindings(op.right), Filters(op.left), Filters(op.right),
                  Predicates(op.left), Predicates(op.right));
  }

  // ---------------------------------------------------------------- requiring columns

  /** The operators' `require`: the operator with the column required, and whether it has it.  The source asserts that
      the column exists. */
  function Require(op: Op, s: SelectInfo): (Op, bool) {
    match op
    case Scan(relation, b, columns, pos) =>
      if s.binding != b || s.colId >= |relation.columns| then (op, false)
      else (op.(resultColumns := columns + [relation.columns[s.colId]], pos := pos[s := |columns|]), true)
    case FilterScan(relation, b, _, columns, pos) =>
      if s.binding != b || s.colId >= |relation.columns| then (op, false)
      else if s in pos then (op, true)
      else (op.(inputData := columns + [relation.columns[s.colId]], pos := pos[s := |columns|]), true)
    case Join(left, right, _, requested, requestedLeft, requestedRight) =>
      if s in requested then (op, true)
      else
        var (left', inLeft) := Require(left, s);
        if inLeft then (op.(left := left', requested := requested + {s}, requestedLeft := requestedLeft + [s]), true)
        else
          var (right', inRight) := Require(right, s);
          if inRight then
            (op.(left := left', right := right', requested := requested + {s}, requestedRight := requestedRight + [s]), true)
          else (op.(left := left', right := right'), false)
    case SelfJoin(input, _, required) =>
      if s in required then (op, true)
      else
        var (input', found) := Require(input, s);
        if found then (op.(input := input', required := required + {s}), true) else (op.(input := input'), false)
  }

  /** Whatever columns are required, the plan stays the same. */
  predicate SamePlan(tables: seq<Relation>, a: Op, b: Op) {
    && Bindings(a) == Bindings(b) && Filters(a) == Filters(b) && Predicates(a) == Predicates(b)
    && Meaning(tables, a) == Meaning(tables, b) && Depth(a) == Depth(b)
  }

  /** The result of requiring a column of an operator. */
  ghost predicate RequireFits(tables: seq<Relation>, op: Op, s: SelectInfo, op': Op, found: bool) {
    && OpOk(tables, op') && SamePlan(tables, op, op') && (found <==> s.binding in Bindings(op))
    && Required(op') == Required(op) + (if found then {s} else {})
  }

  /** An operator has a column if and only if it has its binding, and requiring it adds exactly this column. */
  lemma {:induction false} RequireOk(tables: seq<Relation>, op: Op, s: SelectInfo)
    requires OpOk(tables, op) && ColumnOk(tables, s) && TablesOk(tables)
    ensures RequireFits(tables, op, s, Require(op, s).0, Require(op, s).1)
    decreases op
  {
    match op {
      case Scan(_, _, _, _) =>
      case FilterScan(_, _, _, _, _) =>
      case Join(left, right, _, _, _, _) =>
        RequireOk(tables, left, s);
        RequireOk(tables, right, s);
        RequireOfJoin(tables, op, s);
      case SelfJoin(input, _, _) =>
        RequireOk(tables, input, s);
        RequireOfSelfJoin(tables, op, s);
    }
  }

  lemma RequireOfSelfJoin(tables: seq<Relation>, op: Op, s: SelectInfo)
    requires OpOk(tables, op) && op.SelfJoin?
    requires RequireFits(tables, op.input, s, Require(op.input, s).0, Require(op.input, s).1)
    ensures RequireFits(tables, op, s, Require(op, s).0, Require(op, s).1)
  {
    if s in op.required { RequiredAreOfBindings(tables, op, s); }
  }

  lemma RequireOfJoin(tables: seq<Relation>, op: Op, s: SelectInfo)
    requires OpOk(tables, op) && op.Join? && ColumnOk(tables, s)
    requires RequireFits(tables, op.left, s, Require(op.left, s).0, Require(op.left, s).1)
    requires RequireFits(tables, op.right, s, Require(op.right, s).0, Require(op.right, s).1)
    ensures RequireFits(tables, op, s, Require(op, s).0, Require(op, s).1)
  {
    if s in op.requested {
      RequiredAreOfBindings(tables, op, s);
    } else if s.binding in Bindings(op.left) {
      RequireOfLeft(tables, op, s);
    } else {
      RequireOfRight(tables, op, s);
    }
  }

  lemma RequireOfLeft(tables: seq<Relation>, op: Op, s: SelectInfo)
    requires OpOk(tables, op) && op.Join? && s !in op.requested && s.binding in Bindings(op.left)
    requires RequireFits(tables, op.left, s, Require(op.left, s).0, Require(op.left, s).1)
    ensures RequireFits(tables, op, s, Require(op, s).0, Require(op, s).1)
  {
    var op' := Require(op, s).0;
    JoinStays(tables, op, op');
    assert op'.requestedLeft == op.requestedLeft + [s];
  }

  lemma RequireOfRight(tables: seq<Relation>, op: Op, s: SelectInfo)
    requires OpOk(tables, op) && op.Join? && s !in op.requested && s.binding !in Bindings(op.left)
    requires RequireFits(tables, op.left, s, Require(op.left, s).0, Require(op.left, s).1)
    requires RequireFits(tables, op.right, s, Require(op.right, s).0, Require(op.right, s).1)
    ensures RequireFits(tables, op, s, Require(op, s).0, Require(op, s).1)
  {
    var op' := Require(op, s).0;
    JoinStays(tables, op, op');
    if s.binding in Bindings(op.right) { assert op'.requestedRight == op.requestedRight + [s]; }
  }

  lemma JoinStays(tables: seq<Relation>, op: Op, op': Op)
    requires op.Join? && op'.Join? && op'.pInfo == op.pInfo
    requires SamePlan(tables, op.left, op'.left) && SamePlan(tables, op.right, op'.right)
    ensures SamePlan(tables, op, op')
  {
  }
}
