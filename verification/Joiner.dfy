/** The planner: predicate by predicate it joins trees of operators, kept in a disjoint set with path compression, until
    one tree answers the query. */
module Joiner {
  import opened QueryText
  import opened JoinPlan
  import opened Operators
  import opened NaiveQuery

  // ---------------------------------------------------------------- queries that can be planned

  function TablesOf(relations: seq<Relation>, q: Query): (tables: seq<Relation>)
    requires forall i :: 0 <= i < |q.relationIds| ==> q.relationIds[i] < |relations|
    ensures |tables| == |q.relationIds|
  {
    seq(|q.relationIds|, b requires 0 <= b < |q.relationIds| => relations[q.relationIds[b]])
  }

  function Used(ps: seq<PredicateInfo>): set<nat> {
    if ps == [] then {}
    else
      var last := ps[|ps| - 1];
      Used(ps[..|ps| - 1]) + {last.left.binding, last.right.binding}
  }

  /** A predicate between a binding inside and one outside. */
  predicate Crossed(ps: seq<PredicateInfo>, inside: set<nat>) {
    exists p :: p in ps && (p.left.binding in inside) != (p.right.binding in inside)
  }

  /** The predicates connect all bindings. */
  ghost predicate Connected(ps: seq<PredicateInfo>, n: nat) {
    forall inside {:trigger Crossed(ps, inside)} ::
      inside != {} && inside < AllBindings(n) ==> Crossed(ps, inside)
  }

  /** The columns exist and carry the relation ids of their bindings. */
  predicate SelectOk(tables: seq<Relation>, q: Query, s: SelectInfo) {
    s.binding < |q.relationIds| && s.relId == q.relationIds[s.binding] && ColumnOk(tables, s)
  }

  /** tables are the relations of the bindings, and the filters are on columns they have. */
  ghost predicate FiltersOk(relations: seq<Relation>, q: Query, tables: seq<Relation>) {
    && (forall i :: 0 <= i < |q.relationIds| ==> q.relationIds[i] < |relations|) && tables == TablesOf(relations, q)
    && forall f :: f in q.filters ==> SelectOk(tables, q, f.filterColumn)
  }

  /** What the planner relies on: relations and columns exist, and the first use of a binding is not against itself. */
  ghost predicate QueryOk(relations: seq<Relation>, q: Query) {
    && (forall i :: 0 <= i < |q.relationIds| ==> q.relationIds[i] < |relations|)
    && var tables := TablesOf(relations, q);
    && FiltersOk(relations, q, tables) && TablesOk(tables) && q.predicates != []
    && (forall s :: s in q.selections ==> SelectOk(tables, q, s))
    && (forall p :: p in q.predicates ==> SelectOk(tables, q, p.left) && SelectOk(tables, q, p.right))
    && forall i :: 0 <= i < |q.predicates| && q.predicates[i].left.binding == q.predicates[i].right.binding ==>
         q.predicates[i].left.binding in Used(q.predicates[..i])
  }

  // ---------------------------------------------------------------- the disjoint set

  function Class(rep: map<nat, nat>, r: nat): set<nat> {
    set b | b in rep && rep[b] == r
  }

  /** The class of one root goes over to another. */
  function Merged(rep: map<nat, nat>, from: nat, to: nat): map<nat, nat> {
    map b {:trigger rep[b]} | b in rep :: if rep[b] == from then to else rep[b]
  }

  /** rootId leads from every node to the representative of its class; ranks rise along it. */
  predicate NodeOk(rootId: map<nat, nat>, rep: map<nat, nat>, rank: map<nat, nat>, top: nat, b: nat) {
    && b in rootId && b in rep && b in rank && rank[b] <= top
    && rootId[b] in rootId && rootId[b] in rep && rep[rootId[b]] == rep[b]
    && rep[b] in rep && rep[rep[b]] == rep[b]
    && (rootId[b] == b <==> rep[b] == b)
    && (rootId[b] != b ==> rootId[b] in rank && rank[b] < rank[rootId[b]])
    && (rep[b] != b ==> rep[b] in rank && rank[b] < rank[rep[b]])
  }

  ghost predicate ForestOk(rootId: map<nat, nat>, rep: map<nat, nat>, rank: map<nat, nat>, top: nat) {
    && rootId.Keys == rep.Keys == rank.Keys
    && forall b {:trigger NodeOk(rootId, rep, rank, top, b)} :: b in rootId ==> NodeOk(rootId, rep, rank, top, b)
  }

  lemma CompressKeeps(rootId: map<nat, nat>, rep: map<nat, nat>, rank: map<nat, nat>, top: nat, b: nat)
    requires ForestOk(rootId, rep, rank, top) && b in rootId
    ensures b in rep && ForestOk(rootId[b := rep[b]], rep, rank, top)
  {
    assert NodeOk(rootId, rep, rank, top, b);
    var rootId' := rootId[b := rep[b]];
    forall c | c in rootId' ensures NodeOk(rootId', rep, rank, top, c) { assert NodeOk(rootId, rep, rank, top, c); }
  }

  lemma NewNodeKeeps(rootId: map<nat, nat>, rep: map<nat, nat>, rank: map<nat, nat>, top: nat, b: nat)
    requires ForestOk(rootId, rep, rank, top) && b !in rootId
    ensures ForestOk(rootId[b := b], rep[b := b], rank[b := 0], top)
  {
    var rootId', rep', rank' := rootId[b := b], rep[b := b], rank[b := 0];
    forall c | c in rootId' ensures NodeOk(rootId', rep', rank', top, c) {
      if c != b { assert NodeOk(rootId, rep, rank, top, c); }
    }
  }

  lemma RepIsRoot(rootId: map<nat, nat>, rep: map<nat, nat>, rank: map<nat, nat>, top: nat, b: nat)
    requires ForestOk(rootId, rep, rank, top) && b in rep
    ensures rep[b] in rep && rep[rep[b]] == rep[b]
  {
    assert NodeOk(rootId, rep, rank, top, b);
  }

  lemma LinkKeeps(rootId: map<nat, nat>, rep: map<nat, nat>, rank: map<nat, nat>, top: nat, from: nat, to: nat)
    requires ForestOk(rootId, rep, rank, top) && from in rep && to in rep && rep[from] == from && rep[to] == to
    requires from != to
    ensures ForestOk(rootId[from := to], Merged(rep, from, to), rank[to := top + 1], top + 1)
  {
    var rootId', rep', rank' := rootId[from := to], Merged(rep, from, to), rank[to := top + 1];
    assert NodeOk(rootId, rep, rank, top, to) && NodeOk(rootId, rep, rank, top, from);
    forall c | c in rootId' ensures NodeOk(rootId', rep', rank', top + 1, c) {
      assert NodeOk(rootId, rep, rank, top, c) && NodeOk(rootId, rep, rank, top, rootId[c]);
      LinkKeepsNode(rootId, rep, rank, top, from, to, c);
    }
  }

  lemma LinkKeepsNode(rootId: map<nat, nat>, rep: map<nat, nat>, rank: map<nat, nat>, top: nat, from: nat, to: nat, c: nat)
    requires NodeOk(rootId, rep, rank, top, c) && NodeOk(rootId, rep, rank, top, from) && NodeOk(rootId, rep, rank, top, to)
    requires NodeOk(rootId, rep, rank, top, rootId[c]) && rep[from] == from && rep[to] == to && from != to
    ensures NodeOk(rootId[from := to], Merged(rep, from, to), rank[to := top + 1], top + 1, c)
  {
  }

  /** rep, rank and top are history: the representative of each class, and a measure of how near to it a node is. */
  class DisjointSet {
    var rootId: map<nat, nat>
    var tree: map<nat, Op>
    ghost var rep: map<nat, nat>
    ghost var rank: map<nat, nat>
    ghost var top: nat

    ghost predicate Valid()
      reads this
    {
      ForestOk(rootId, rep, rank, top)
    }

    constructor ()
      ensures Valid() && rep == map[] && tree == map[]
    {
      rootId, tree, rep, rank, top := map[], map[], map[], map[], 0;
    }

    /** The root of a node's tree; every node on the way is made to point to it. */
    method GetRoot(selected: nat) returns (root: nat)
      requires Valid() && selected in rootId
      modifies this`rootId
      ensures Valid() && rootId.Keys == old(rootId.Keys) && selected in rep && root == rep[selected]
      decreases if selected in rank then top - rank[selected] else 0
    {
      assert NodeOk(rootId, rep, rank, top, selected);
      var parent := rootId[selected];
      if parent == selected {
        return parent;
      }
      assert NodeOk(rootId, rep, rank, top, parent);
      root := GetRoot(parent);
      CompressKeeps(rootId, rep, rank, top, selected);
      rootId := rootId[selected := root];
    }

    /** A new tree of one node. */
    method AddNode(b: nat, scan: Op)
      requires Valid() && b !in rootId
      modifies this
      ensures Valid() && rep == old(rep)[b := b] && tree == old(tree)[b := scan]
    {
      NewNodeKeeps(rootId, rep, rank, top, b);
      rootId := rootId[b := b];
      tree := tree[b := scan];
      rep, rank := rep[b := b], rank[b := 0];
    }

    /** The tree of the left node is moved under a join with that of the right node. */
    method UnionTwoJoinTrees(p: PredicateInfo, left: nat, right: nat) returns (root: nat)
      requires Valid() && left in rep && right in rep && rep[left] != rep[right]
      requires rep[left] in tree && rep[right] in tree
      modifies this
      ensures Valid() && root == old(rep)[right] && rep == Merged(old(rep), old(rep)[left], old(rep)[right])
      ensures tree == (old(tree) - {old(rep)[left]})[root := Join(old(tree)[old(rep)[left]], old(tree)[root], p, {}, [], [])]
    {
      var leftRoot := GetRoot(left);
      var rightRoot := GetRoot(right);
      RepIsRoot(rootId, rep, rank, top, left);
      RepIsRoot(rootId, rep, rank, top, right);
      LinkKeeps(rootId, rep, rank, top, leftRoot, rightRoot);
      var leftTree, rightTree := tree[leftRoot], tree[rightRoot];
      root := rightRoot;
      rootId := rootId[leftRoot := root];
      tree := (tree - {leftRoot})[rightRoot := Join(leftTree, rightTree, p, {}, [], [])];
      rep, rank, top := Merged(rep, leftRoot, rightRoot), rank[rightRoot := top + 1], top + 1;
    }
  }

  // ---------------------------------------------------------------- what the trees stand for

  function FiltersOf(q: Query, bindings: set<nat>): set<FilterInfo> {
    set f | f in q.filters && f.filterColumn.binding in bindings
  }

  function PredicatesOf(ps: seq<PredicateInfo>, bindings: set<nat>): set<PredicateInfo> {
    set p | p in ps && p.left.binding in bindings
  }

  /** The tree covers the bindings, with all their filters and all predicates so far between them. */
  ghost predicate TreeOk(tables: seq<Relation>, q: Query, op: Op, bindings: set<nat>, ps: seq<PredicateInfo>) {
    && OpOk(tables, op) && Bindings(op) == bindings
    && Filters(op) == FiltersOf(q, bindings) && Predicates(op) == PredicatesOf(ps, bindings)
  }

  ghost predicate RootOk(tables: seq<Relation>, q: Query, rep: map<nat, nat>, tree: map<nat, Op>, ps: seq<PredicateInfo>,
                         r: nat) {
    r in tree && TreeOk(tables, q, tree[r], Class(rep, r), ps)
  }

  predicate Within(rep: map<nat, nat>, p: PredicateInfo) {
    p.left.binding in rep && p.right.binding in rep && rep[p.left.binding] == rep[p.right.binding]
  }

  /** A class is not split by a set of bindings that no predicate crosses. */
  ghost predicate Unsplit(rep: map<nat, nat>, ps: seq<PredicateInfo>, inside: set<nat>) {
    !Crossed(ps, inside) ==> forall b, c :: b in rep && c in rep && rep[b] == rep[c] ==> (b in inside <==> c in inside)
  }

  /** Every class has its tree, the predicates so far are within classes, and they connect each class. */
  ghost predicate PlanOk(tables: seq<Relation>, q: Query, rep: map<nat, nat>, tree: map<nat, Op>, ps: seq<PredicateInfo>) {
    && (forall b :: b in rep ==> rep[b] in rep && rep[rep[b]] == rep[b])
    && (forall p :: p in ps ==> Within(rep, p))
    && (forall inside {:trigger Unsplit(rep, ps, inside)} :: Unsplit(rep, ps, inside))
    && forall r {:trigger RootOk(tables, q, rep, tree, ps, r)} :: r in rep && rep[r] == r ==>
         RootOk(tables, q, rep, tree, ps, r)
  }

  lemma ScanKeeps(tables: seq<Relation>, q: Query, rep: map<nat, nat>, tree: map<nat, Op>, ps: seq<PredicateInfo>, b: nat,
                  scan: Op)
    requires PlanOk(tables, q, rep, tree, ps) && b !in rep
    requires OpOk(tables, scan) && Bindings(scan) == {b} && Filters(scan) == FiltersOf(q, {b}) && Predicates(scan) == {}
    ensures PlanOk(tables, q, rep[b := b], tree[b := scan], ps)
  {
    var rep', tree' := rep[b := b], tree[b := scan];
    forall p | p in ps ensures Within(rep', p) { assert Within(rep, p); }
    forall inside ensures Unsplit(rep', ps, inside) { assert Unsplit(rep, ps, inside); }
    forall r | r in rep' && rep'[r] == r ensures RootOk(tables, q, rep', tree', ps, r) {
      if r == b {
        assert Class(rep', b) == {b};
        forall p | p in ps ensures p.left.binding != b { assert Within(rep, p); }
        assert PredicatesOf(ps, {b}) == {};
      } else {
        assert RootOk(tables, q, rep, tree, ps, r) && Class(rep', r) == Class(rep, r);
      }
    }
  }

  /** Putting two trees together with a predicate between them. */
  lemma JoinTreeOk(tables: seq<Relation>, q: Query, left: Op, right: Op, bl: set<nat>, br: set<nat>,
                   ps: seq<PredicateInfo>, p: PredicateInfo)
    requires TreeOk(tables, q, left, bl, ps) && TreeOk(tables, q, right, br, ps) && bl !! br
    requires p.left.binding in bl && p.right.binding in br && ColumnOk(tables, p.left) && ColumnOk(tables, p.right)
    ensures TreeOk(tables, q, Join(left, right, p, {}, [], []), bl + br, ps + [p])
  {
    assert FiltersOf(q, bl + br) == FiltersOf(q, bl) + FiltersOf(q, br);
    forall x ensures x in PredicatesOf(ps + [p], bl + br)
                <==> x in PredicatesOf(ps, bl) + PredicatesOf(ps, br) + {p} {}
    assert PredicatesOf(ps + [p], bl + br) == PredicatesOf(ps, bl) + PredicatesOf(ps, br) + {p};
  }

  lemma OtherTreeOk(tables: seq<Relation>, q: Query, op: Op, bs: set<nat>, ps: seq<PredicateInfo>, p: PredicateInfo)
    requires TreeOk(tables, q, op, bs, ps) && p.left.binding !in bs
    ensures TreeOk(tables, q, op, bs, ps + [p])
  {
    forall x ensures x in PredicatesOf(ps + [p], bs) <==> x in PredicatesOf(ps, bs) {}
    assert PredicatesOf(ps + [p], bs) == PredicatesOf(ps, bs);
  }

  lemma MergedClass(rep: map<nat, nat>, from: nat, to: nat, r: nat)
    requires from != to
    ensures Class(Merged(rep, from, to), to) == Class(rep, from) + Class(rep, to)
    ensures r != from && r != to ==> Class(Merged(rep, from, to), r) == Class(rep, r)
  {
  }

  lemma CrossedMore(ps: seq<PredicateInfo>, p: PredicateInfo, inside: set<nat>)
    ensures Crossed(ps + [p], inside) <==> Crossed(ps, inside) || (p.left.binding in inside) != (p.right.binding in inside)
  {
    if Crossed(ps, inside) {
      var x :| x in ps && (x.left.binding in inside) != (x.right.binding in inside);
      assert x in ps + [p];
    }
    assert p in ps + [p];
  }

  lemma UnionUnsplit(rep: map<nat, nat>, ps: seq<PredicateInfo>, p: PredicateInfo, inside: set<nat>)
    requires p.left.binding in rep && p.right.binding in rep && Unsplit(rep, ps, inside)
    ensures Unsplit(Merged(rep, rep[p.left.binding], rep[p.right.binding]), ps + [p], inside)
  {
    CrossedMore(ps, p, inside);
  }

  lemma UnionKeeps(tables: seq<Relation>, q: Query, rep: map<nat, nat>, tree: map<nat, Op>, ps: seq<PredicateInfo>,
                   p: PredicateInfo)
    requires PlanOk(tables, q, rep, tree, ps) && p.left.binding in rep && p.right.binding in rep
    requires rep[p.left.binding] != rep[p.right.binding] && ColumnOk(tables, p.left) && ColumnOk(tables, p.right)
    ensures var from, to := rep[p.left.binding], rep[p.right.binding];
            && from in tree && to in tree
            && PlanOk(tables, q, Merged(rep, from, to),
                      (tree - {from})[to := Join(tree[from], tree[to], p, {}, [], [])], ps + [p])
  {
    var from, to := rep[p.left.binding], rep[p.right.binding];
    assert RootOk(tables, q, rep, tree, ps, from) && RootOk(tables, q, rep, tree, ps, to);
    var rep' := Merged(rep, from, to);
    var tree' := (tree - {from})[to := Join(tree[from], tree[to], p, {}, [], [])];
    forall x | x in ps + [p] ensures Within(rep', x) {
      if x in ps { assert Within(rep, x); }
    }
    forall inside ensures Unsplit(rep', ps + [p], inside) { UnionUnsplit(rep, ps, p, inside); }
    forall r | r in rep' && rep'[r] == r ensures RootOk(tables, q, rep', tree', ps + [p], r) {
      MergedClass(rep, from, to, r);
      if r == to {
        JoinTreeOk(tables, q, tree[from], tree[to], Class(rep, from), Class(rep, to), ps, p);
      } else {
        assert RootOk(tables, q, rep, tree, ps, r);
        OtherTreeOk(tables, q, tree[r], Class(rep, r), ps, p);
      }
    }
  }

  lemma SelfJoinKeeps(tables: seq<Relation>, q: Query, rep: map<nat, nat>, tree: map<nat, Op>, ps: seq<PredicateInfo>,
                      p: PredicateInfo)
    requires PlanOk(tables, q, rep, tree, ps) && Within(rep, p) && ColumnOk(tables, p.left) && ColumnOk(tables, p.right)
    ensures var root := rep[p.left.binding];
            root in tree && PlanOk(tables, q, rep, tree[root := SelfJoin(tree[root], p, {})], ps + [p])
  {
    var root := rep[p.left.binding];
    assert RootOk(tables, q, rep, tree, ps, root);
    var tree', bs := tree[root := SelfJoin(tree[root], p, {})], Class(rep, root);
    forall inside ensures Unsplit(rep, ps + [p], inside) {
      CrossedMore(ps, p, inside);
      assert Unsplit(rep, ps, inside);
    }
    forall r | r in rep && rep[r] == r ensures RootOk(tables, q, rep, tree', ps + [p], r) {
      assert RootOk(tables, q, rep, tree, ps, r);
      if r == root {
        forall x ensures x in PredicatesOf(ps + [p], bs) <==> x in PredicatesOf(ps, bs) + {p} {}
        assert PredicatesOf(ps + [p], bs) == PredicatesOf(ps, bs) + {p};
      } else {
        OtherTreeOk(tables, q, tree[r], Class(rep, r), ps, p);
      }
    }
  }

  /** At the end one class is left if and only if the predicates connect all bindings. */
  lemma OneClassLeft(tables: seq<Relation>, q: Query, rep: map<nat, nat>, tree: map<nat, Op>, b: nat)
    requires PlanOk(tables, q, rep, tree, q.predicates) && b in rep && rep.Keys <= AllBindings(|tables|)
    ensures Class(rep, rep[b]) == AllBindings(|tables|) <==> Connected(q.predicates, |tables|)
  {
    var all, covered := AllBindings(|tables|), Class(rep, rep[b]);
    assert b in covered && covered <= rep.Keys;
    NotCrossed(rep, q.predicates, rep[b]);
    if Connected(q.predicates, |tables|) {
      assert !(covered < all);
    }
    if covered == all {
      forall inside: set<nat> | inside != {} && inside < all ensures Crossed(q.predicates, inside) {
        var x :| x in inside;
        var y :| y in all && y !in inside;
        assert x in covered && y in covered && Unsplit(rep, q.predicates, inside);
      }
    }
  }

  lemma NotCrossed(rep: map<nat, nat>, ps: seq<PredicateInfo>, r: nat)
    requires forall p :: p in ps ==> Within(rep, p)
    ensures !Crossed(ps, Class(rep, r))
  {
    forall p | p in ps ensures (p.left.binding in Class(rep, r)) == (p.right.binding in Class(rep, r)) {
      assert Within(rep, p);
    }
  }

  /** The final tree means the naive result. */
  lemma FinalTree(tables: seq<Relation>, q: Query, op: Op, row: Row)
    requires TreeOk(tables, q, op, AllBindings(|tables|), q.predicates)
    requires (forall f :: f in q.filters ==> f.filterColumn.binding < |tables|)
    requires (forall p :: p in q.predicates ==> p.left.binding < |tables|)
    ensures row in Meaning(tables, op) <==> row in NaiveRows(tables, q)
  {
    MeaningIsSelection(tables, op, row);
    NaiveRowsAre(tables, q);
    assert FiltersOf(q, AllBindings(|tables|)) == set f | f in q.filters;
    assert PredicatesOf(q.predicates, AllBindings(|tables|)) == set p | p in q.predicates;
  }

  // ---------------------------------------------------------------- planning

  datatype QueryGraphProvides = AddScanLeft | AddScanRight | AddScanBoth | NeedConnect | AlreadyConnected

  /** Which inputs of a join are planned already, and whether they are connected. */
  method AnalyzeInputOfJoin(d: DisjointSet, left: SelectInfo, right: SelectInfo) returns (need: QueryGraphProvides)
    requires d.Valid()
    modifies d`rootId
    ensures d.Valid() && d.rootId.Keys == old(d.rootId.Keys)
    ensures need.AddScanLeft? <==> left.binding !in d.rep && right.binding in d.rep
    ensures need.AddScanRight? <==> left.binding in d.rep && right.binding !in d.rep
    ensures need.AddScanBoth? <==> left.binding !in d.rep && right.binding !in d.rep
    ensures need.NeedConnect? <==>
              left.binding in d.rep && right.binding in d.rep && d.rep[left.binding] != d.rep[right.binding]
  {
    var usedLeft, usedRight := left.binding in d.rootId, right.binding in d.rootId;
    if usedLeft != usedRight {
      return if usedLeft then AddScanRight else AddScanLeft;
    }
    if !(usedLeft && usedRight) {
      return AddScanBoth;
    }
    var leftRoot := d.GetRoot(left.binding);
    var rightRoot := d.GetRoot(right.binding);
    return if leftRoot == rightRoot then AlreadyConnected else NeedConnect;
  }

  /** A scan of the relation, with the query's filters on the binding if there are any. */
  method AddScan(ghost tables: seq<Relation>, d: DisjointSet, relations: seq<Relation>, info: SelectInfo, q: Query,
                 ghost ps: seq<PredicateInfo>)
    requires d.Valid() && FiltersOk(relations, q, tables) && SelectOk(tables, q, info) && info.binding !in d.rep
    requires PlanOk(tables, q, d.rep, d.tree, ps)
    modifies d
    ensures d.Valid() && d.rep == old(d.rep)[info.binding := info.binding] && PlanOk(tables, q, d.rep, d.tree, ps)
  {
    var filters: seq<FilterInfo> := [];
    for i := 0 to |q.filters|
      invariant forall f :: f in filters <==> f in q.filters[..i] && f.filterColumn.binding == info.binding
    {
      assert q.filters[..i + 1] == q.filters[..i] + [q.filters[i]];
      if q.filters[i].filterColumn.binding == info.binding {
        filters := filters + [q.filters[i]];
      }
    }
    assert q.filters[..|q.filters|] == q.filters;
    var relation := relations[info.relId];
    var scan := if filters != [] then FilterScan(relation, filters[0].filterColumn.binding, filters, [], map[])
                else Scan(relation, info.binding, [], map[]);
    ScanOk(tables, q, info.binding, filters, relation);
    ScanKeeps(tables, q, d.rep, d.tree, ps, info.binding, scan);
    d.AddNode(info.binding, scan);
  }

  lemma ScanOk(tables: seq<Relation>, q: Query, b: nat, filters: seq<FilterInfo>, relation: Relation)
    requires b < |tables| && relation == tables[b]
    requires forall f :: f in filters <==> f in q.filters && f.filterColumn.binding == b
    requires forall f :: f in q.filters ==> SelectOk(tables, q, f.filterColumn)
    ensures filters != [] ==> filters[0].filterColumn.binding == b
    ensures var scan := if filters != [] then FilterScan(relation, b, filters, [], map[]) else Scan(relation, b, [], map[]);
            OpOk(tables, scan) && Bindings(scan) == {b} && Filters(scan) == FiltersOf(q, {b}) && Predicates(scan) == {}
  {
    assert filters != [] ==> filters[0] in filters;
    if filters == [] {
      assert FiltersOf(q, {b}) == {};
    } else {
      assert (set f | f in filters) == FiltersOf(q, {b});
    }
  }

  /** The two trees of the predicate's bindings are joined, or their one tree is filtered. */
  method Connect(ghost tables: seq<Relation>, d: DisjointSet, q: Query, ghost ps: seq<PredicateInfo>, p: PredicateInfo,
                 connected: bool) returns (root: nat)
    requires d.Valid() && PlanOk(tables, q, d.rep, d.tree, ps) && ColumnOk(tables, p.left) && ColumnOk(tables, p.right)
    requires p.left.binding in d.rep && p.right.binding in d.rep
    requires connected <==> d.rep[p.left.binding] == d.rep[p.right.binding]
    modifies d
    ensures d.Valid() && PlanOk(tables, q, d.rep, d.tree, ps + [p]) && d.rep.Keys == old(d.rep.Keys)
    ensures p.left.binding in d.rep && root == d.rep[p.left.binding]
  {
    if connected {
      SelfJoinKeeps(tables, q, d.rep, d.tree, ps, p);
      root := d.GetRoot(p.left.binding);
      d.tree := d.tree[root := SelfJoin(d.tree[root], p, {})];
    } else {
      UnionKeeps(tables, q, d.rep, d.tree, ps, p);
      root := d.UnionTwoJoinTrees(p, p.left.binding, p.right.binding);
    }
  }

  /** The scans that are missing for a predicate are added. */
  method AddScans(ghost tables: seq<Relation>, d: DisjointSet, relations: seq<Relation>, q: Query,
                  ghost ps: seq<PredicateInfo>, p: PredicateInfo) returns (connected: bool)
    requires d.Valid() && FiltersOk(relations, q, tables) && PlanOk(tables, q, d.rep, d.tree, ps)
    requires SelectOk(tables, q, p.left) && SelectOk(tables, q, p.right)
    requires p.left.binding == p.right.binding ==> p.left.binding in d.rep
    modifies d
    ensures d.Valid() && PlanOk(tables, q, d.rep, d.tree, ps)
    ensures d.rep.Keys == old(d.rep.Keys) + {p.left.binding, p.right.binding}
    ensures connected <==> d.rep[p.left.binding] == d.rep[p.right.binding]
  {
    var need := AnalyzeInputOfJoin(d, p.left, p.right);
    if need.AddScanLeft? || need.AddScanBoth? {
      NewClass(d.rep, p.left.binding, p.right.binding);
      AddScan(tables, d, relations, p.left, q, ps);
    }
    if need.AddScanRight? || need.AddScanBoth? {
      NewClass(d.rep, p.right.binding, p.left.binding);
      AddScan(tables, d, relations, p.right, q, ps);
    }
    connected := need.AlreadyConnected?;
  }

  /** One predicate: the missing scans are added, and its two trees are joined or its one tree is filtered. */
  method AddPredicate(ghost tables: seq<Relation>, d: DisjointSet, relations: seq<Relation>, q: Query,
                      ghost ps: seq<PredicateInfo>, p: PredicateInfo) returns (root: nat)
    requires d.Valid() && FiltersOk(relations, q, tables) && PlanOk(tables, q, d.rep, d.tree, ps)
    requires SelectOk(tables, q, p.left) && SelectOk(tables, q, p.right)
    requires p.left.binding == p.right.binding ==> p.left.binding in d.rep
    modifies d
    ensures d.Valid() && PlanOk(tables, q, d.rep, d.tree, ps + [p])
    ensures d.rep.Keys == old(d.rep.Keys) + {p.left.binding, p.right.binding}
    ensures p.left.binding in d.rep && root == d.rep[p.left.binding]
  {
    var connected := AddScans(tables, d, relations, q, ps, p);
    root := Connect(tables, d, q, ps, p, connected);
  }

  /** A new node is in a class of its own. */
  lemma NewClass(rep: map<nat, nat>, b: nat, c: nat)
    requires b !in rep && b != c && forall x :: x in rep ==> rep[x] in rep
    ensures c in rep ==> rep[b := b][b] != rep[b := b][c]
  {
  }

  lemma NextPredicate(relations: seq<Relation>, q: Query, i: nat)
    requires QueryOk(relations, q) && i < |q.predicates|
    ensures var p, ps, tables := q.predicates[i], q.predicates[..i], TablesOf(relations, q);
            && q.predicates[..i + 1] == ps + [p] && Used(ps + [p]) == Used(ps) + {p.left.binding, p.right.binding}
            && SelectOk(tables, q, p.left) && SelectOk(tables, q, p.right)
            && {p.left.binding, p.right.binding} <= AllBindings(|tables|)
            && (p.left.binding == p.right.binding ==> p.left.binding in Used(ps))
  {
    assert q.predicates[i] in q.predicates;
    assert q.predicates[..i + 1][..i] == q.predicates[..i];
  }

  /** The class of any binding used, and its tree, at the end. */
  lemma FinalRoot(tables: seq<Relation>, q: Query, rep: map<nat, nat>, tree: map<nat, Op>, b: nat)
    requires PlanOk(tables, q, rep, tree, q.predicates) && b in rep && rep.Keys <= AllBindings(|tables|)
    ensures rep[b] in tree && TreeOk(tables, q, tree[rep[b]], Bindings(tree[rep[b]]), q.predicates)
    ensures Bindings(tree[rep[b]]) == AllBindings(|tables|) <==> Connected(q.predicates, |tables|)
  {
    OneClassLeft(tables, q, rep, tree, b);
    assert RootOk(tables, q, rep, tree, q.predicates, rep[b]);
  }

  /** The plan of the whole query: a tree with all filters and predicates on its bindings, which are all bindings of the
      query if and only if the predicates connect them. */
  method Plan(relations: seq<Relation>, q: Query) returns (op: Op)
    requires QueryOk(relations, q)
    ensures TreeOk(TablesOf(relations, q), q, op, Bindings(op), q.predicates)
    ensures Bindings(op) == AllBindings(|q.relationIds|) <==> Connected(q.predicates, |q.relationIds|)
  {
    ghost var tables := TablesOf(relations, q);
    var d := new DisjointSet();
    var root := 0;
    for i := 0 to |q.predicates|
      invariant d.Valid() && PlanOk(tables, q, d.rep, d.tree, q.predicates[..i]) && fresh(d)
      invariant d.rep.Keys == Used(q.predicates[..i]) && d.rep.Keys <= AllBindings(|tables|)
      invariant i > 0 ==> q.predicates[i - 1].left.binding in d.rep && root == d.rep[q.predicates[i - 1].left.binding]
    {
      NextPredicate(relations, q, i);
      root := AddPredicate(tables, d, relations, q, q.predicates[..i], q.predicates[i]);
    }
    assert q.predicates[..|q.predicates|] == q.predicates;
    FinalRoot(tables, q, d.rep, d.tree, q.predicates[|q.predicates| - 1].left.binding);
    op := d.tree[root];
  }

  // ---------------------------------------------------------------- the result, outright

  /** The value of a column in a row, from the relation that the query names. */
  function Value(relations: seq<Relation>, q: Query, row: Row, s: SelectInfo): int
    requires s.binding < |q.relationIds| && q.relationIds[s.binding] < |relations| && s.binding in row
    requires s.colId < |relations[q.relationIds[s.binding]].columns|
    requires row[s.binding] < |relations[q.relationIds[s.binding]].columns[s.colId]|
  {
    relations[q.relationIds[s.binding]].columns[s.colId][row[s.binding]]
  }

  /** The row takes one tuple of each relation of the query. */
  ghost predicate IsRow(relations: seq<Relation>, q: Query, row: Row) {
    && (forall b :: b in row <==> 0 <= b < |q.relationIds|)
    && forall b :: 0 <= b < |q.relationIds| ==> q.relationIds[b] < |relations| && row[b] < relations[q.relationIds[b]].size
  }

  /** The row is counted: it satisfies every comparison and every equality in the query. */
  ghost predicate Counted(relations: seq<Relation>, q: Query, row: Row)
    requires QueryOk(relations, q)
  {
    && IsRow(relations, q, row)
    && (forall f :: f in q.filters ==>
          var x := Value(relations, q, row, f.filterColumn);
          && (f.comparison == Less ==> x < f.constant)
          && (f.comparison == Greater ==> x > f.constant)
          && (f.comparison == Equal ==> x == f.constant))
    && forall p :: p in q.predicates ==> Value(relations, q, row, p.left) == Value(relations, q, row, p.right)
  }

  function Sum(values: seq<int>): int {
    if values == [] then 0 else values[0] + Sum(values[1..])
  }

  /** The values of a selected column in the rows. */
  ghost function Values(relations: seq<Relation>, q: Query, rows: seq<Row>, s: SelectInfo): seq<int>
    requires QueryOk(relations, q) && s in q.selections && forall row :: row in rows ==> IsRow(relations, q, row)
  {
    seq(|rows|, i requires 0 <= i < |rows| =>
      assert rows[i] in rows;
      HasCell(relations, q, rows[i], s);
      Value(relations, q, rows[i], s))
  }

  /** The line tells, for every selection, the sum of the rows' values modulo 2^64, or NULL if there are none. */
  ghost predicate Tells(relations: seq<Relation>, q: Query, rows: seq<Row>, line: string)
    requires QueryOk(relations, q)
  {
    && (forall row :: row in rows <==> Counted(relations, q, row)) && NoDuplicates(rows)
    && exists parts: seq<string> ::
         && |parts| == |q.selections| && line == JoinTexts(parts, ' ') + "\n"
         && forall k :: 0 <= k < |parts| ==>
              parts[k] == if rows == [] then "NULL"
                          else ToString(Sum(Values(relations, q, rows, q.selections[k])) % 0x1_0000_0000_0000_0000)
  }

  lemma {:induction false} SumSnoc(values: seq<int>, x: int)
    ensures Sum(values + [x]) == Sum(values) + x
  {
    if values != [] {
      assert (values + [x])[1..] == values[1..] + [x];
      SumSnoc(values[1..], x);
    }
  }

  lemma HasCell(relations: seq<Relation>, q: Query, row: Row, s: SelectInfo)
    requires QueryOk(relations, q) && IsRow(relations, q, row) && SelectOk(TablesOf(relations, q), q, s)
    ensures s.binding in row && q.relationIds[s.binding] < |relations|
    ensures s.colId < |relations[q.relationIds[s.binding]].columns|
    ensures row[s.binding] < |relations[q.relationIds[s.binding]].columns[s.colId]|
  {
    assert RelationOk(TablesOf(relations, q)[s.binding]);
  }

  lemma CellIsValue(relations: seq<Relation>, q: Query, row: Row, s: SelectInfo)
    requires QueryOk(relations, q) && IsRow(relations, q, row) && SelectOk(TablesOf(relations, q), q, s)
    ensures s.binding in row && q.relationIds[s.binding] < |relations|
    ensures s.colId < |relations[q.relationIds[s.binding]].columns|
    ensures row[s.binding] < |relations[q.relationIds[s.binding]].columns[s.colId]|
    ensures Cell(TablesOf(relations, q), row, s) == Value(relations, q, row, s)
  {
    HasCell(relations, q, row, s);
  }

  lemma {:induction false} TotalIsSum(relations: seq<Relation>, q: Query, rows: seq<Row>, s: SelectInfo)
    requires QueryOk(relations, q) && s in q.selections && forall row :: row in rows ==> IsRow(relations, q, row)
    ensures Total(TablesOf(relations, q), rows, s) == Sum(Values(relations, q, rows, s))
  {
    if rows != [] {
      var before, last := rows[..|rows| - 1], rows[|rows| - 1];
      assert last in rows && forall row :: row in before ==> row in rows;
      TotalIsSum(relations, q, before, s);
      CellIsValue(relations, q, last, s);
      assert Values(relations, q, rows, s) == Values(relations, q, before, s) + [Value(relations, q, last, s)];
      SumSnoc(Values(relations, q, before, s), Value(relations, q, last, s));
    }
  }

  lemma IsRowIff(relations: seq<Relation>, q: Query, row: Row)
    requires QueryOk(relations, q)
    ensures IsRow(relations, q, row) <==> row.Keys == AllBindings(|q.relationIds|) && RowOk(TablesOf(relations, q), row)
  {
    assert row.Keys == AllBindings(|q.relationIds|) <==> forall b :: b in row <==> 0 <= b < |q.relationIds|;
  }

  lemma PassesIff(relations: seq<Relation>, q: Query, row: Row, f: FilterInfo)
    requires QueryOk(relations, q) && IsRow(relations, q, row) && f in q.filters
    ensures SelectOk(TablesOf(relations, q), q, f.filterColumn)
    ensures var x := Cell(TablesOf(relations, q), row, f.filterColumn);
            Passes(TablesOf(relations, q), row, f) <==>
              && (f.comparison == Less ==> x < f.constant)
              && (f.comparison == Greater ==> x > f.constant)
              && (f.comparison == Equal ==> x == f.constant)
  {
  }

  /** The naive rows are the rows that are counted. */
  lemma CountedIff(relations: seq<Relation>, q: Query, row: Row)
    requires QueryOk(relations, q)
    ensures Counted(relations, q, row) <==> row in NaiveRows(TablesOf(relations, q), q)
  {
    var tables := TablesOf(relations, q);
    NaiveRowsAre(tables, q);
    IsRowIff(relations, q, row);
    if IsRow(relations, q, row) {
      forall f | f in q.filters
        ensures SelectOk(tables, q, f.filterColumn)
        ensures var x := Cell(tables, row, f.filterColumn);
                Passes(tables, row, f) <==>
                  && (f.comparison == Less ==> x < f.constant)
                  && (f.comparison == Greater ==> x > f.constant)
                  && (f.comparison == Equal ==> x == f.constant)
        ensures Cell(tables, row, f.filterColumn) == Value(relations, q, row, f.filterColumn)
      {
        PassesIff(relations, q, row, f);
        CellIsValue(relations, q, row, f.filterColumn);
      }
      forall p | p in q.predicates
        ensures Matches(tables, row, p) <==> Value(relations, q, row, p.left) == Value(relations, q, row, p.right)
      {
        CellIsValue(relations, q, row, p.left);
        CellIsValue(relations, q, row, p.right);
      }
    }
  }

  /** The naive result, outright. */
  lemma NaiveResultTells(relations: seq<Relation>, q: Query)
    requires QueryOk(relations, q)
    ensures Tells(relations, q, NaiveRows(TablesOf(relations, q), q), NaiveResult(TablesOf(relations, q), q))
  {
    var tables := TablesOf(relations, q);
    var rows := NaiveRows(tables, q);
    NaiveRowsAre(tables, q);
    forall row ensures row in rows <==> Counted(relations, q, row) { CountedIff(relations, q, row); }
    var parts := Texts(s => SumText(tables, rows, s), q.selections);
    forall k | 0 <= k < |parts|
      ensures parts[k] == if rows == [] then "NULL"
                          else ToString(Sum(Values(relations, q, rows, q.selections[k])) % 0x1_0000_0000_0000_0000)
    {
      assert q.selections[k] in q.selections;
      TotalIsSum(relations, q, rows, q.selections[k]);
    }
  }

  /** Executes a join query: the line it prints is the one for the naive result, and tells the sums in 64 bits over all
      rows of the relations that satisfy every filter and predicate. */
  method JoinQuery(relations: seq<Relation>, q: Query) returns (line: string)
    requires QueryOk(relations, q) && Connected(q.predicates, |q.relationIds|)
    ensures line == NaiveResult(TablesOf(relations, q), q)
    ensures exists rows :: Tells(relations, q, rows, line)
  {
    ghost var tables := TablesOf(relations, q);
    var op := Plan(relations, q);
    forall k | 0 <= k < |q.selections| ensures SelectOk(tables, q, q.selections[k]) { assert q.selections[k] in q.selections; }
    var results, resultSize;
    ghost var rows;
    results, resultSize, rows := Checksum(tables, op, q.selections);
    var parts: seq<string> := [];
    for i := 0 to |results|
      invariant parts == Texts(s => SumText(tables, rows, s), q.selections[..i])
    {
      parts := parts + [if resultSize == 0 then "NULL" else ToString(results[i])];
    }
    assert q.selections[..|results|] == q.selections;
    line := JoinTexts(parts, ' ') + "\n";
    forall row ensures row in rows <==> row in NaiveRows(tables, q) { FinalTree(tables, q, op, row); }
    SameResult(tables, q, rows);
    NaiveResultTells(relations, q);
  }

  lemma SameResult(tables: seq<Relation>, q: Query, rows: seq<Row>)
    requires NoDuplicates(rows) && forall row :: row in rows <==> row in NaiveRows(tables, q)
    ensures ResultText(tables, rows, q.selections) == NaiveResult(tables, q)
  {
    NaiveRowsAre(tables, q);
    forall s ensures SumText(tables, rows, s) == SumText(tables, NaiveRows(tables, q), s) {
      SameRowsSameTotal(tables, rows, NaiveRows(tables, q), s);
    }
    assert Texts(s => SumText(tables, rows, s), q.selections)
        == Texts(s => SumText(tables, NaiveRows(tables, q), s), q.selections);
  }
}
