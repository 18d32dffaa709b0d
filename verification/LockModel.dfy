/** The lock table of the two-phase-locking engine, as values.

    A record's lock list is a sequence of entries from head to tail; a transaction's chain is the sequence of
    the records on which it has a lock object, oldest first.  An object is named by its transaction and its
    record: `Inv` below contains that this name is unique. */
module LockModel {

  import opened Options

  datatype Mode = Read | Write

  datatype Entry = Entry(txn: nat, mode: Mode, locked: bool)

  datatype Locks = Locks(queues: seq<seq<Entry>>, chains: seq<seq<nat>>)

  datatype Node = Node(txn: nat, rec: nat)

  // ---------------------------------------------------------------- structure

  predicate HasTxn(q: seq<Entry>, t: nat) {
    exists i :: 0 <= i < |q| && q[i].txn == t
  }

  predicate OnePerTxn(q: seq<Entry>) {
    forall i, j :: 0 <= i < j < |q| ==> q[i].txn != q[j].txn
  }

  predicate NoRepeats(c: seq<nat>) {
    forall i, j :: 0 <= i < j < |c| ==> c[i] != c[j]
  }

  /** The two tables describe the same lock objects, one per transaction and record. */
  ghost predicate WellFormed(s: Locks) {
    && (forall r :: 0 <= r < |s.queues| ==> OnePerTxn(s.queues[r]))
    && (forall t :: 0 <= t < |s.chains| ==> NoRepeats(s.chains[t]))
    && (forall r, i :: 0 <= r < |s.queues| && 0 <= i < |s.queues[r]| ==> s.queues[r][i].txn < |s.chains|)
    && (forall t, r :: 0 <= t < |s.chains| && r in s.chains[t] ==> r < |s.queues|)
    && (forall t, r :: 0 <= t < |s.chains| && 0 <= r < |s.queues| ==>
          (r in s.chains[t] <==> HasTxn(s.queues[r], t)))
  }

  // ---------------------------------------------------------------- granting

  /** The lock at position i may be held: it heads the list, or it and all before it are readers. */
  predicate Granted(q: seq<Entry>, i: nat)
    requires i < |q|
  {
    i == 0 || forall j :: 0 <= j <= i ==> q[j].mode == Read
  }

  predicate GrantOk(q: seq<Entry>) {
    forall i :: 0 <= i < |q| ==> (q[i].locked <==> !Granted(q, i))
  }

  /** Transaction t has a lock object on r that is still spinning. */
  predicate LockedAt(s: Locks, t: nat, r: nat)
    requires r < |s.queues|
  {
    exists i :: 0 <= i < |s.queues[r]| && s.queues[r][i].txn == t && s.queues[r][i].locked
  }

  /** Transaction t waits: its newest lock object is still locked. */
  predicate Waiting(s: Locks, t: nat)
    requires t < |s.chains|
  {
    var c := s.chains[t];
    c != [] && c[|c| - 1] < |s.queues| && LockedAt(s, t, c[|c| - 1])
  }

  /** Only the newest lock object of a transaction can be locked. */
  ghost predicate OneOutstanding(s: Locks) {
    forall t, k :: 0 <= t < |s.chains| && 0 <= k < |s.chains[t]| - 1 ==>
      s.chains[t][k] < |s.queues| && !LockedAt(s, t, s.chains[t][k])
  }

  // ---------------------------------------------------------------- the wait-for graph

  /** b's object is right before a's in the same lock list (the `prev` pointer). */
  predicate PrevEdge(s: Locks, a: Node, b: Node) {
    && a.rec == b.rec < |s.queues|
    && exists i :: 0 < i < |s.queues[a.rec]| && s.queues[a.rec][i].txn == a.txn && s.queues[a.rec][i - 1].txn == b.txn
  }

  /** b's object is the one its transaction made right after a's (the `nextInTxn` pointer). */
  predicate ChainEdge(s: Locks, a: Node, b: Node) {
    && a.txn == b.txn < |s.chains|
    && exists k :: 0 < k < |s.chains[a.txn]| && s.chains[a.txn][k] == b.rec && s.chains[a.txn][k - 1] == a.rec
  }

  predicate Edge(s: Locks, a: Node, b: Node) {
    PrevEdge(s, a, b) || ChainEdge(s, a, b)
  }

  predicate IsPath(s: Locks, p: seq<Node>) {
    p != [] && forall i :: 0 < i < |p| ==> Edge(s, p[i - 1], p[i])
  }

  ghost predicate Reaches(s: Locks, a: Node, b: Node) {
    exists p :: IsPath(s, p) && p[0] == a && p[|p| - 1] == b
  }

  function Tail(s: Locks, r: nat): Node
    requires r < |s.queues| && s.queues[r] != []
  {
    Node(s.queues[r][|s.queues[r]| - 1].txn, r)
  }

  /** What the breadth-first search decides: an object of t is reachable from the tail of r's list. */
  ghost predicate Deadlock(s: Locks, t: nat, r: nat)
    requires r < |s.queues|
  {
    s.queues[r] != [] && exists b: Node :: b.txn == t && Reaches(s, Tail(s, r), b)
  }

  /** rank decreases along every edge, so the graph has no cycle. */
  ghost predicate RankOk(s: Locks, rank: map<Node, nat>, bound: nat) {
    && (forall n :: n in rank ==> rank[n] < bound)
    && (forall a, b :: Edge(s, a, b) ==> a in rank && b in rank && rank[b] < rank[a])
  }

  ghost predicate Acyclic(s: Locks) {
    exists rank: map<Node, nat>, bound: nat :: RankOk(s, rank, bound)
  }

  /** What holds of the lock table between any two sections under the global mutex. */
  ghost predicate Inv(s: Locks) {
    && WellFormed(s)
    && (forall r :: 0 <= r < |s.queues| ==> GrantOk(s.queues[r]))
    && OneOutstanding(s)
    && Acyclic(s)
  }

  // ---------------------------------------------------------------- the two operations

  predicate WriterIn(q: seq<Entry>) {
    exists j :: 0 <= j < |q| && q[j].mode == Write
  }

  predicate MustWait(q: seq<Entry>, m: Mode) {
    if m == Write then q != [] else WriterIn(q)
  }

  /** e is a new last object of record r and of its transaction. */
  function Appended(s: Locks, r: nat, e: Entry): Locks
    requires e.txn < |s.chains| && r < |s.queues|
  {
    Locks(s.queues[r := s.queues[r] + [e]], s.chains[e.txn := s.chains[e.txn] + [r]])
  }

  /** `addReaderLock` and `addWriterLock`: refused, or a new object at the end of both lists. */
  ghost function Request(s: Locks, t: nat, r: nat, m: Mode): Option<Locks>
    requires t < |s.chains| && r < |s.queues|
  {
    if Deadlock(s, t, r) then None
    else Some(Appended(s, r, Entry(t, m, MustWait(s.queues[r], m))))
  }

  /** The place of t's entry. */
  function IndexOf(q: seq<Entry>, t: nat): (i: nat)
    ensures HasTxn(q, t) ==> i < |q| && q[i].txn == t
    ensures forall j :: 0 <= j < i < |q| ==> q[j].txn != t
  {
    if q == [] then 0
    else if q[0].txn == t then 0
    else
      assert HasTxn(q, t) ==> HasTxn(q[1..], t) by {
        if HasTxn(q, t) {
          var i :| 0 <= i < |q| && q[i].txn == t;
          assert q[1..][i - 1].txn == t;
        }
      }
      1 + IndexOf(q[1..], t)
  }

  /** Whoever may hold the lock now is woken. */
  function Wake(q: seq<Entry>): (w: seq<Entry>)
    ensures |w| == |q|
  {
    seq(|q|, k requires 0 <= k < |q| => if Granted(q, k) then q[k].(locked := false) else q[k])
  }

  function Without(q: seq<Entry>, i: nat): seq<Entry>
    requires i < |q|
  {
    q[..i] + q[i + 1..]
  }

  /** One list after the object at position i left: the successors of a head are woken. */
  function Release(q: seq<Entry>, i: nat): seq<Entry>
    requires i < |q|
  {
    if i == 0 then Wake(Without(q, i)) else Without(q, i)
  }

  function ReleaseTxn(q: seq<Entry>, t: nat): seq<Entry> {
    if HasTxn(q, t) then Release(q, IndexOf(q, t)) else q
  }

  /** `unlock`: all of t's objects leave. */
  function Unlock(s: Locks, t: nat): (u: Locks)
    requires t < |s.chains|
    ensures |u.queues| == |s.queues| && |u.chains| == |s.chains|
  {
    Locks(seq(|s.queues|, r requires 0 <= r < |s.queues| =>
              if r in s.chains[t] then ReleaseTxn(s.queues[r], t) else s.queues[r]),
          s.chains[t := []])
  }

  // ---------------------------------------------------------------- paths

  lemma PathExtends(s: Locks, a: Node, b: Node, c: Node)
    requires Reaches(s, a, b) && Edge(s, b, c)
    ensures Reaches(s, a, c)
  {
    var p :| IsPath(s, p) && p[0] == a && p[|p| - 1] == b;
    var q := p + [c];
    assert forall i :: 0 <= i < |p| ==> q[i] == p[i];
    assert IsPath(s, q) && q[0] == a && q[|q| - 1] == c;
  }

  lemma PathRefl(s: Locks, a: Node)
    ensures Reaches(s, a, a)
  {
    assert IsPath(s, [a]) && [a][0] == a && [a][|[a]| - 1] == a;
  }

  /** A set closed under the edges contains every path that starts in it. */
  lemma {:induction false} ClosedSetKeepsPaths(s: Locks, d: set<Node>, p: seq<Node>, k: nat)
    requires IsPath(s, p) && p[0] in d && k < |p|
    requires forall a, b :: a in d && Edge(s, a, b) ==> b in d
    ensures p[k] in d
  {
    if k > 0 {
      ClosedSetKeepsPaths(s, d, p, k - 1);
      assert Edge(s, p[k - 1], p[k]);
    }
  }

  /** Ranks fall along a path, so no path returns to its start. */
  lemma {:induction false} RankFalls(s: Locks, rank: map<Node, nat>, bound: nat, p: seq<Node>)
    requires RankOk(s, rank, bound) && IsPath(s, p) && |p| >= 2
    ensures p[0] in rank && p[|p| - 1] in rank && rank[p[|p| - 1]] < rank[p[0]]
  {
    assert Edge(s, p[|p| - 2], p[|p| - 1]);
    if |p| > 2 {
      var q := p[..|p| - 1];
      assert forall i :: 0 <= i < |q| ==> q[i] == p[i];
      RankFalls(s, rank, bound, q);
    }
  }

  /** The wait-for graph of a reachable lock table has no cycle. */
  lemma NoCycle(s: Locks, p: seq<Node>)
    requires Inv(s) && IsPath(s, p) && |p| >= 2
    ensures p[0] != p[|p| - 1]
  {
    var rank: map<Node, nat>, bound: nat :| RankOk(s, rank, bound);
    RankFalls(s, rank, bound, p);
  }

  // ---------------------------------------------------------------- re-locking is refused

  lemma {:induction false} TailReachesList(s: Locks, r: nat, i: nat)
    requires r < |s.queues| && i < |s.queues[r]|
    ensures Reaches(s, Tail(s, r), Node(s.queues[r][i].txn, r))
    decreases |s.queues[r]| - i
  {
    var q := s.queues[r];
    if i == |q| - 1 {
      PathRefl(s, Tail(s, r));
    } else {
      TailReachesList(s, r, i + 1);
      var a, b := Node(q[i + 1].txn, r), Node(q[i].txn, r);
      assert PrevEdge(s, a, b) by { assert q[i + 1].txn == a.txn && q[i + 1 - 1].txn == b.txn; }
      PathExtends(s, Tail(s, r), a, b);
    }
  }

  /** A transaction that already has a lock object on a record is refused a second one. */
  lemma RelockRefused(s: Locks, t: nat, r: nat, m: Mode)
    requires t < |s.chains| && r < |s.queues| && HasTxn(s.queues[r], t)
    ensures Request(s, t, r, m).None?
  {
    var i :| 0 <= i < |s.queues[r]| && s.queues[r][i].txn == t;
    TailReachesList(s, r, i);
  }

  // ---------------------------------------------------------------- Request keeps the invariant

  function LiveNodes(s: Locks): set<Node> {
    set t, k | 0 <= t < |s.chains| && 0 <= k < |s.chains[t]| :: Node(t, s.chains[t][k])
  }

  lemma EdgeIsLive(s: Locks, a: Node, b: Node)
    requires WellFormed(s) && Edge(s, a, b)
    ensures a in LiveNodes(s) && b in LiveNodes(s)
  {
    if PrevEdge(s, a, b) {
      var q := s.queues[a.rec];
      var i :| 0 < i < |q| && q[i].txn == a.txn && q[i - 1].txn == b.txn;
      assert HasTxn(q, a.txn) && HasTxn(q, b.txn);
      assert a.rec in s.chains[a.txn] && b.rec in s.chains[b.txn];
    }
  }

  lemma LiveIff(s: Locks, n: Node)
    requires WellFormed(s)
    ensures n in LiveNodes(s) <==> n.rec < |s.queues| && HasTxn(s.queues[n.rec], n.txn)
  {
    if n in LiveNodes(s) {
      assert n.rec in s.chains[n.txn];
    }
    if n.rec < |s.queues| && HasTxn(s.queues[n.rec], n.txn) {
      var i :| 0 <= i < |s.queues[n.rec]| && s.queues[n.rec][i].txn == n.txn;
      assert n.rec in s.chains[n.txn];
    }
  }

  lemma AppendedWellFormed(s: Locks, r: nat, e: Entry)
    requires WellFormed(s) && e.txn < |s.chains| && r < |s.queues| && !HasTxn(s.queues[r], e.txn)
    ensures WellFormed(Appended(s, r, e))
  {
    var s' := Appended(s, r, e);
    var q, q' := s.queues[r], s'.queues[r];
    assert r !in s.chains[e.txn];
    assert q'[|q|].txn == e.txn;
    forall u, x | 0 <= u < |s'.chains| && 0 <= x < |s'.queues|
      ensures x in s'.chains[u] <==> HasTxn(s'.queues[x], u)
    {
      assert x in s.chains[u] <==> HasTxn(s.queues[x], u);
      if x == r && HasTxn(q, u) {
        var i :| 0 <= i < |q| && q[i].txn == u;
        assert q'[i].txn == u;
      }
    }
  }

  lemma FlagsKeepWellFormed(s: Locks, r: nat, q: seq<Entry>)
    requires WellFormed(s) && r < |s.queues| && |q| == |s.queues[r]|
    requires forall i :: 0 <= i < |q| ==> q[i].txn == s.queues[r][i].txn
    ensures WellFormed(s.(queues := s.queues[r := q]))
  {
    forall t | 0 <= t < |s.chains| ensures HasTxn(q, t) <==> HasTxn(s.queues[r], t) {
      if HasTxn(s.queues[r], t) {
        var i :| 0 <= i < |q| && s.queues[r][i].txn == t;
        assert q[i].txn == t;
      }
    }
  }

  lemma RequestWellFormed(s: Locks, t: nat, r: nat, m: Mode)
    requires WellFormed(s) && t < |s.chains| && r < |s.queues| && Request(s, t, r, m).Some?
    ensures WellFormed(Request(s, t, r, m).value)
  {
    if HasTxn(s.queues[r], t) { RelockRefused(s, t, r, m); }
    AppendedWellFormed(s, r, Entry(t, m, MustWait(s.queues[r], m)));
  }

  lemma RequestGrants(q: seq<Entry>, t: nat, m: Mode)
    requires GrantOk(q)
    ensures GrantOk(q + [Entry(t, m, MustWait(q, m))])
  {
    var q' := q + [Entry(t, m, MustWait(q, m))];
    forall i | 0 <= i < |q'| ensures q'[i].locked <==> !Granted(q', i) {
      if i < |q| {
        assert forall j :: 0 <= j <= i ==> q'[j] == q[j];
        assert Granted(q', i) <==> Granted(q, i);
      } else {
        assert forall j :: 0 <= j < |q| ==> q'[j] == q[j];
        if q != [] && m == Read && !MustWait(q, m) {
          assert forall j :: 0 <= j < |q| ==> q[j].mode == Read;
          assert forall j :: 0 <= j <= i ==> q'[j].mode == Read;
        }
        if MustWait(q, m) && m == Read {
          var j :| 0 <= j < |q| && q[j].mode == Write;
          assert q'[j].mode == Write;
        }
        if m == Write {
          assert q'[i].mode == Write;
        }
      }
    }
  }

  /** The edges of the table after a request: the old ones, and two at the new object. */
  lemma RequestEdges(s: Locks, t: nat, r: nat, m: Mode, a: Node, b: Node)
    requires WellFormed(s) && t < |s.chains| && r < |s.queues| && Request(s, t, r, m).Some?
    requires Edge(Request(s, t, r, m).value, a, b)
    ensures || Edge(s, a, b)
            || (a == Node(t, r) && s.queues[r] != [] && b == Tail(s, r))
            || (b == Node(t, r) && a.txn == t && a in LiveNodes(s))
  {
    var s' := Request(s, t, r, m).value;
    if PrevEdge(s', a, b) {
      var i :| 0 < i < |s'.queues[a.rec]| && s'.queues[a.rec][i].txn == a.txn && s'.queues[a.rec][i - 1].txn == b.txn;
      if a.rec != r || i < |s.queues[r]| {
        assert s.queues[a.rec][i].txn == a.txn && s.queues[a.rec][i - 1].txn == b.txn;
        assert PrevEdge(s, a, b);
      }
    } else {
      var k :| 0 < k < |s'.chains[a.txn]| && s'.chains[a.txn][k] == b.rec && s'.chains[a.txn][k - 1] == a.rec;
      if a.txn != t || k < |s.chains[t]| {
        assert s.chains[a.txn][k] == b.rec && s.chains[a.txn][k - 1] == a.rec;
        assert ChainEdge(s, a, b);
      }
    }
  }

  ghost function Behind(s: Locks, r: nat): set<Node>
    requires r < |s.queues|
  {
    if s.queues[r] == [] then {} else set n | n in LiveNodes(s) && Reaches(s, Tail(s, r), n)
  }

  ghost function NewRank(s: Locks, t: nat, r: nat, rank: map<Node, nat>, bound: nat): map<Node, nat>
    requires r < |s.queues|
  {
    map n | n in rank.Keys + LiveNodes(s) + {Node(t, r)} ::
      if n == Node(t, r) then bound + 1
      else (if n in rank then rank[n] else 0) + (if n in Behind(s, r) then 0 else bound + 2)
  }

  lemma BehindIsClosed(s: Locks, r: nat, a: Node, b: Node)
    requires WellFormed(s) && r < |s.queues| && a in Behind(s, r) && Edge(s, a, b)
    ensures b in Behind(s, r)
  {
    EdgeIsLive(s, a, b);
    PathExtends(s, Tail(s, r), a, b);
  }

  lemma TailIsBehind(s: Locks, r: nat)
    requires WellFormed(s) && r < |s.queues| && s.queues[r] != []
    ensures Tail(s, r) in Behind(s, r)
  {
    var q := s.queues[r];
    PathRefl(s, Tail(s, r));
    assert HasTxn(q, q[|q| - 1].txn);
    LiveIff(s, Tail(s, r));
  }

  lemma RequestEdgeFalls(s: Locks, t: nat, r: nat, m: Mode, rank: map<Node, nat>, bound: nat, a: Node, b: Node)
    requires WellFormed(s) && RankOk(s, rank, bound) && t < |s.chains| && r < |s.queues|
    requires Request(s, t, r, m).Some? && Edge(Request(s, t, r, m).value, a, b)
    ensures var rank' := NewRank(s, t, r, rank, bound); a in rank' && b in rank' && rank'[b] < rank'[a]
  {
    RequestEdges(s, t, r, m, a, b);
    LiveIff(s, Node(t, r));
    if HasTxn(s.queues[r], t) { RelockRefused(s, t, r, m); }
    if Edge(s, a, b) {
      EdgeIsLive(s, a, b);
      if a in Behind(s, r) { BehindIsClosed(s, r, a, b); }
    } else if a == Node(t, r) {
      TailIsBehind(s, r);
    } else {
      assert a !in Behind(s, r);
    }
  }

  /** Refusal is what keeps the graph acyclic: what the tail reaches stays below the new object, and all of
      the requester's objects go above it. */
  lemma RequestAcyclic(s: Locks, t: nat, r: nat, m: Mode)
    requires WellFormed(s) && Acyclic(s) && t < |s.chains| && r < |s.queues| && Request(s, t, r, m).Some?
    ensures Acyclic(Request(s, t, r, m).value)
  {
    var rank: map<Node, nat>, bound: nat :| RankOk(s, rank, bound);
    var rank', bound' := NewRank(s, t, r, rank, bound), 2 * bound + 3;
    var s' := Request(s, t, r, m).value;
    forall a, b | Edge(s', a, b) ensures a in rank' && b in rank' && rank'[b] < rank'[a] {
      RequestEdgeFalls(s, t, r, m, rank, bound, a, b);
    }
    assert RankOk(s', rank', bound');
  }

  lemma RequestLockedAt(s: Locks, t: nat, r: nat, m: Mode, u: nat, x: nat)
    requires WellFormed(s) && t < |s.chains| && r < |s.queues| && x < |s.queues| && Request(s, t, r, m).Some?
    requires u != t || x != r
    ensures LockedAt(Request(s, t, r, m).value, u, x) <==> LockedAt(s, u, x)
  {
    var s' := Request(s, t, r, m).value;
    if LockedAt(s, u, x) {
      var i :| 0 <= i < |s.queues[x]| && s.queues[x][i].txn == u && s.queues[x][i].locked;
      assert s'.queues[x][i] == s.queues[x][i];
    }
    if LockedAt(s', u, x) {
      var i :| 0 <= i < |s'.queues[x]| && s'.queues[x][i].txn == u && s'.queues[x][i].locked;
      assert s.queues[x][i] == s'.queues[x][i];
    }
  }

  /** Every admitted request keeps all of the invariant, acyclicity included. */
  lemma RequestKeepsInv(s: Locks, t: nat, r: nat, m: Mode)
    requires Inv(s) && t < |s.chains| && r < |s.queues| && !Waiting(s, t) && Request(s, t, r, m).Some?
    ensures Inv(Request(s, t, r, m).value)
  {
    var s' := Request(s, t, r, m).value;
    RequestWellFormed(s, t, r, m);
    RequestAcyclic(s, t, r, m);
    forall x | 0 <= x < |s'.queues| ensures GrantOk(s'.queues[x]) {
      if x == r { RequestGrants(s.queues[r], t, m); }
    }
    forall u, k | 0 <= u < |s'.chains| && 0 <= k < |s'.chains[u]| - 1
      ensures s'.chains[u][k] < |s'.queues| && !LockedAt(s', u, s'.chains[u][k])
    {
      var x := s'.chains[u][k];
      assert x == s.chains[u][k] && x in s.chains[u];
      if u == t && x == r { RelockRefused(s, t, r, m); }
      RequestLockedAt(s, t, r, m, u, x);
    }
  }

  // ---------------------------------------------------------------- Unlock keeps the invariant

  lemma IndexOfUnique(q: seq<Entry>, t: nat, i: nat)
    requires OnePerTxn(q) && i < |q| && q[i].txn == t
    ensures IndexOf(q, t) == i
  {
    assert HasTxn(q, t);
    var j := IndexOf(q, t);
    assert q[j].txn == q[i].txn;
  }

  /** Position k of a released list came from this position of the list before. */
  function Origin(i: nat, k: nat): nat {
    if k < i then k else k + 1
  }

  lemma ReleaseAt(q: seq<Entry>, i: nat, k: nat)
    requires i < |q| && k < |q| - 1
    ensures |Release(q, i)| == |q| - 1
    ensures Release(q, i)[k].txn == q[Origin(i, k)].txn
    ensures Release(q, i)[k].mode == q[Origin(i, k)].mode
    ensures Release(q, i)[k].locked ==> q[Origin(i, k)].locked
    ensures i > 0 ==> Release(q, i)[k] == q[Origin(i, k)]
  {
    assert Without(q, i)[k] == q[Origin(i, k)];
  }

  lemma ReleaseHasTxn(q: seq<Entry>, t: nat, u: nat)
    requires OnePerTxn(q)
    ensures HasTxn(ReleaseTxn(q, t), u) <==> u != t && HasTxn(q, u)
    ensures OnePerTxn(ReleaseTxn(q, t))
  {
    if HasTxn(q, t) {
      var i := IndexOf(q, t);
      var q' := ReleaseTxn(q, t);
      assert |q'| == |q| - 1;
      forall k | 0 <= k < |q'| ensures q'[k].txn == q[Origin(i, k)].txn { ReleaseAt(q, i, k); }
      if u != t && HasTxn(q, u) {
        var j :| 0 <= j < |q| && q[j].txn == u;
        var k := if j < i then j else j - 1;
        assert Origin(i, k) == j && q'[k].txn == u;
      }
      if HasTxn(q', u) {
        var k :| 0 <= k < |q'| && q'[k].txn == u;
        assert q[Origin(i, k)].txn == u;
      }
    }
  }

  lemma WithoutGranted(q: seq<Entry>, i: nat, k: nat)
    requires i < |q| && Granted(q, i) && k < |q| - 1
    ensures i > 0 ==> (Granted(Without(q, i), k) <==> Granted(q, Origin(i, k)))
    ensures Granted(q, k + 1) ==> Granted(Without(q, i), k)
  {
    var w := Without(q, i);
    assert forall j :: 0 <= j < |w| ==> w[j] == q[Origin(i, j)];
    if i > 0 && k > 0 && Granted(w, k) {
      forall j | 0 <= j <= Origin(i, k) ensures q[j].mode == Read {
        if j > i { assert w[j - 1] == q[j]; }
      }
    }
  }

  /** No wake-up is lost and none is premature, provided the leaving lock was held. */
  lemma ReleaseGrants(q: seq<Entry>, i: nat)
    requires GrantOk(q) && i < |q| && !q[i].locked
    ensures GrantOk(Release(q, i))
  {
    var q' := Release(q, i);
    var w := Without(q, i);
    forall k | 0 <= k < |q'| ensures q'[k].locked <==> !Granted(q', k) {
      ReleaseAt(q, i, k);
      WithoutGranted(q, i, k);
      assert forall j :: 0 <= j < |w| ==> q'[j].mode == w[j].mode;
      assert Granted(q', k) <==> Granted(w, k);
      assert w[k] == q[Origin(i, k)];
    }
  }

  lemma HeldEntry(s: Locks, t: nat, r: nat)
    requires Inv(s) && t < |s.chains| && !Waiting(s, t) && r in s.chains[t]
    ensures r < |s.queues| && HasTxn(s.queues[r], t) && !s.queues[r][IndexOf(s.queues[r], t)].locked
  {
    var k :| 0 <= k < |s.chains[t]| && s.chains[t][k] == r;
    assert !LockedAt(s, t, r);
  }

  lemma UnlockQueue(s: Locks, t: nat, r: nat)
    requires Inv(s) && t < |s.chains| && r < |s.queues|
    ensures Unlock(s, t).queues[r] == ReleaseTxn(s.queues[r], t)
  {
    assert r in s.chains[t] <==> HasTxn(s.queues[r], t);
  }

  lemma UnlockWellFormed(s: Locks, t: nat)
    requires Inv(s) && t < |s.chains|
    ensures WellFormed(Unlock(s, t))
  {
    var s' := Unlock(s, t);
    forall r | 0 <= r < |s'.queues|
      ensures s'.queues[r] == ReleaseTxn(s.queues[r], t) && OnePerTxn(s'.queues[r])
    {
      UnlockQueue(s, t, r);
      ReleaseHasTxn(s.queues[r], t, t);
    }
    forall r, i | 0 <= r < |s'.queues| && 0 <= i < |s'.queues[r]| ensures s'.queues[r][i].txn < |s'.chains| {
      var u := s'.queues[r][i].txn;
      assert HasTxn(s'.queues[r], u);
      ReleaseHasTxn(s.queues[r], t, u);
      var j :| 0 <= j < |s.queues[r]| && s.queues[r][j].txn == u;
    }
    forall u, r | 0 <= u < |s'.chains| && 0 <= r < |s'.queues|
      ensures r in s'.chains[u] <==> HasTxn(s'.queues[r], u)
    {
      ReleaseHasTxn(s.queues[r], t, u);
      assert r in s.chains[u] <==> HasTxn(s.queues[r], u);
    }
  }

  lemma ReleaseNeighbours(s: Locks, t: nat, r: nat, k: nat)
    requires r < |s.queues| && 0 < k < |ReleaseTxn(s.queues[r], t)|
    ensures var q' := ReleaseTxn(s.queues[r], t);
            var a, b := Node(q'[k].txn, r), Node(q'[k - 1].txn, r);
            Edge(s, a, b) || (Edge(s, a, Node(t, r)) && Edge(s, Node(t, r), b))
  {
    var q := s.queues[r];
    var q' := ReleaseTxn(q, t);
    var a, b := Node(q'[k].txn, r), Node(q'[k - 1].txn, r);
    if HasTxn(q, t) {
      var i := IndexOf(q, t);
      ReleaseAt(q, i, k);
      ReleaseAt(q, i, k - 1);
      if k == i {
        assert q[k + 1].txn == a.txn && q[k + 1 - 1].txn == t && q[k - 1].txn == b.txn;
        assert PrevEdge(s, a, Node(t, r)) && PrevEdge(s, Node(t, r), b);
      } else {
        var j := Origin(i, k);
        assert q[j].txn == a.txn && q[j - 1].txn == b.txn;
        assert PrevEdge(s, a, b);
      }
    } else {
      assert PrevEdge(s, a, b);
    }
  }

  /** An edge after `unlock` is an edge, or two edges over a spliced-out object, before it. */
  lemma UnlockEdges(s: Locks, t: nat, a: Node, b: Node)
    requires Inv(s) && t < |s.chains| && Edge(Unlock(s, t), a, b)
    ensures Edge(s, a, b) || (Edge(s, a, Node(t, a.rec)) && Edge(s, Node(t, a.rec), b))
  {
    var s' := Unlock(s, t);
    if PrevEdge(s', a, b) {
      var q' := s'.queues[a.rec];
      var k :| 0 < k < |q'| && q'[k].txn == a.txn && q'[k - 1].txn == b.txn;
      UnlockQueue(s, t, a.rec);
      ReleaseNeighbours(s, t, a.rec, k);
    } else {
      var k :| 0 < k < |s'.chains[a.txn]| && s'.chains[a.txn][k] == b.rec && s'.chains[a.txn][k - 1] == a.rec;
      assert ChainEdge(s, a, b);
    }
  }

  lemma UnlockAcyclic(s: Locks, t: nat)
    requires Inv(s) && t < |s.chains|
    ensures Acyclic(Unlock(s, t))
  {
    var rank: map<Node, nat>, bound: nat :| RankOk(s, rank, bound);
    forall a, b | Edge(Unlock(s, t), a, b) ensures a in rank && b in rank && rank[b] < rank[a] {
      UnlockEdges(s, t, a, b);
    }
    assert RankOk(Unlock(s, t), rank, bound);
  }

  lemma UnlockLockedAt(s: Locks, t: nat, u: nat, r: nat)
    requires Inv(s) && t < |s.chains| && r < |s.queues| && LockedAt(Unlock(s, t), u, r)
    ensures LockedAt(s, u, r)
  {
    var s' := Unlock(s, t);
    var q := s.queues[r];
    UnlockQueue(s, t, r);
    var k :| 0 <= k < |s'.queues[r]| && s'.queues[r][k].txn == u && s'.queues[r][k].locked;
    if HasTxn(q, t) {
      var i := IndexOf(q, t);
      ReleaseAt(q, i, k);
      assert q[Origin(i, k)].txn == u && q[Origin(i, k)].locked;
    }
  }

  /** `unlock` keeps all of the invariant: in particular every list is granted exactly as it should be. */
  lemma UnlockKeepsInv(s: Locks, t: nat)
    requires Inv(s) && t < |s.chains| && !Waiting(s, t)
    ensures Inv(Unlock(s, t))
  {
    var s' := Unlock(s, t);
    UnlockWellFormed(s, t);
    UnlockAcyclic(s, t);
    forall r | 0 <= r < |s'.queues| ensures GrantOk(s'.queues[r]) {
      UnlockQueue(s, t, r);
      if HasTxn(s.queues[r], t) {
        assert r in s.chains[t];
        HeldEntry(s, t, r);
        ReleaseGrants(s.queues[r], IndexOf(s.queues[r], t));
      }
    }
    forall u, k | 0 <= u < |s'.chains| && 0 <= k < |s'.chains[u]| - 1
      ensures s'.chains[u][k] < |s'.queues| && !LockedAt(s', u, s'.chains[u][k])
    {
      var x := s'.chains[u][k];
      assert x == s.chains[u][k];
      if LockedAt(s', u, x) { UnlockLockedAt(s, t, u, x); }
    }
  }
}
