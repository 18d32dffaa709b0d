/** What the lock table guarantees in every state that satisfies `LockModel.Inv`. */
module LockTheorems {
  import opened Options
  import opened LockModel

  predicate Holds(s: Locks, t: nat, r: nat)
    requires r < |s.queues|
  {
    HasTxn(s.queues[r], t) && !LockedAt(s, t, r)
  }

  /** When a request is refused: when links lead from the newest object of the record to one of the transaction's.
      Otherwise it is queued behind all others, unlocked iff it would not conflict with any of them. */
  lemma RefusedIff(s: Locks, t: nat, r: nat, m: Mode)
    requires t < |s.chains| && r < |s.queues|
    ensures Request(s, t, r, m).None? <==> s.queues[r] != [] && LinksLead(s, Node(s.queues[r][|s.queues[r]| - 1].txn, r), t)
    ensures Request(s, t, r, m).Some? ==>
              var s', q := Request(s, t, r, m).value, s.queues[r];
              var conflict := exists j :: 0 <= j < |q| && (q[j].mode == Write || m == Write);
              && s'.queues == s.queues[r := q + [Entry(t, m, conflict)]]
              && s'.chains == s.chains[t := s.chains[t] + [r]]
  {
    var q := s.queues[r];
    if q != [] {
      if Deadlock(s, t, r) {
        var b: Node :| b.txn == t && Reaches(s, Tail(s, r), b);
        var p :| IsPath(s, p) && p[0] == Tail(s, r) && p[|p| - 1] == b;
        assert LinksLead(s, Tail(s, r), t);
      }
      if LinksLead(s, Tail(s, r), t) {
        var p: seq<Node> :| p != [] && p[0] == Tail(s, r) && p[|p| - 1].txn == t
              && forall i :: 0 < i < |p| ==> PrevEdge(s, p[i - 1], p[i]) || ChainEdge(s, p[i - 1], p[i]);
        assert IsPath(s, p) && Reaches(s, Tail(s, r), p[|p| - 1]);
      }
      assert q[0].mode == Write || m != Write || m == Write;
    }
    if WriterIn(q) {
      var j :| 0 <= j < |q| && q[j].mode == Write;
      assert q[j].mode == Write || m == Write;
    }
  }

  ghost predicate LinksLead(s: Locks, a: Node, t: nat) {
    exists p: seq<Node> ::
      && p != [] && p[0] == a && p[|p| - 1].txn == t
      && forall i :: 0 < i < |p| ==> PrevEdge(s, p[i - 1], p[i]) || ChainEdge(s, p[i - 1], p[i])
  }

  /** A transaction that has no lock object is never refused. */
  lemma FirstRequestIsQueued(s: Locks, t: nat, r: nat, m: Mode)
    requires WellFormed(s) && t < |s.chains| && r < |s.queues| && s.chains[t] == []
    ensures Request(s, t, r, m).Some?
  {
    forall x | 0 <= x < |s.queues| ensures !HasTxn(s.queues[x], t) {}
    if Deadlock(s, t, r) {
      var b: Node :| b.txn == t && Reaches(s, Tail(s, r), b);
      var p :| IsPath(s, p) && p[0] == Tail(s, r) && p[|p| - 1] == b;
      var n := |p| - 1;
      assert n > 0 ==> Edge(s, p[n - 1], p[n]);
      NothingLeadsTo(s, t, p[if n > 0 then n - 1 else 0], b);
    }
  }

  lemma NothingLeadsTo(s: Locks, t: nat, a: Node, b: Node)
    requires t < |s.chains| && s.chains[t] == [] && b.txn == t
    requires forall x :: 0 <= x < |s.queues| ==> !HasTxn(s.queues[x], t)
    ensures !Edge(s, a, b)
  {
  }

  /** Holders of a record are one writer or only readers. */
  lemma HoldersAreCompatible(s: Locks, r: nat, i: nat, j: nat)
    requires Inv(s) && r < |s.queues| && i < |s.queues[r]| && j < |s.queues[r]| && i != j
    requires !s.queues[r][i].locked && !s.queues[r][j].locked
    ensures s.queues[r][i].mode == Read && s.queues[r][j].mode == Read
  {
    var q := s.queues[r];
    assert GrantOk(q);
    var k := if i < j then j else i;
    assert Granted(q, k) && k != 0;
  }

  /** While a writer holds the record, every other object in its list is locked. */
  lemma WriterIsAlone(s: Locks, r: nat, i: nat, j: nat)
    requires Inv(s) && r < |s.queues| && i < |s.queues[r]| && j < |s.queues[r]| && i != j
    requires !s.queues[r][i].locked && s.queues[r][i].mode == Write
    ensures s.queues[r][j].locked
  {
    var q := s.queues[r];
    assert GrantOk(q);
    var k := if i < j then j else i;
    assert q[k].locked <==> !Granted(q, k);
  }

  /** A lock is granted before all that came after it, and with all readers right behind it. */
  lemma GrantsAreFifo(s: Locks, r: nat, i: nat, j: nat)
    requires Inv(s) && r < |s.queues| && i <= j < |s.queues[r]|
    ensures !s.queues[r][j].locked ==> !s.queues[r][i].locked
    ensures (forall k :: 0 <= k <= j ==> s.queues[r][k].mode == Read) ==> !s.queues[r][j].locked
  {
    var q := s.queues[r];
    assert GrantOk(q);
    assert Granted(q, j) ==> Granted(q, i);
  }

  /** Nobody spins in vain: ahead of a waiter another transaction holds the lock, and there is a conflict. */
  lemma WaiterIsBlocked(s: Locks, r: nat, i: nat)
    requires Inv(s) && r < |s.queues| && i < |s.queues[r]| && s.queues[r][i].locked
    ensures i > 0 && !s.queues[r][0].locked && s.queues[r][0].txn != s.queues[r][i].txn
    ensures exists j :: 0 <= j <= i && s.queues[r][j].mode == Write
  {
    var q := s.queues[r];
    assert GrantOk(q) && OnePerTxn(q) && Granted(q, 0);
    assert !Granted(q, i);
  }

  /** A granted lock stays granted until its own transaction unlocks. */
  lemma GrantStaysOnRequest(s: Locks, t: nat, x: nat, m: Mode, u: nat, r: nat)
    requires Inv(s) && t < |s.chains| && x < |s.queues| && r < |s.queues| && Request(s, t, x, m).Some?
    requires Holds(s, u, r)
    ensures Holds(Request(s, t, x, m).value, u, r)
  {
    if u == t && x == r { RelockRefused(s, t, x, m); }
    RequestLockedAt(s, t, x, m, u, r);
    var i :| 0 <= i < |s.queues[r]| && s.queues[r][i].txn == u;
    assert Request(s, t, x, m).value.queues[r][i].txn == u;
  }

  lemma GrantStaysOnUnlock(s: Locks, t: nat, u: nat, r: nat)
    requires Inv(s) && t < |s.chains| && r < |s.queues| && u != t && Holds(s, u, r)
    ensures Holds(Unlock(s, t), u, r)
  {
    if LockedAt(Unlock(s, t), u, r) { UnlockLockedAt(s, t, u, r); }
    UnlockQueue(s, t, r);
    ReleaseHasTxn(s.queues[r], t, u);
  }

  /** `unlock` removes exactly its transaction's objects. */
  lemma UnlockRemovesExactly(s: Locks, t: nat, u: nat, r: nat)
    requires Inv(s) && t < |s.chains| && r < |s.queues|
    ensures HasTxn(Unlock(s, t).queues[r], u) <==> u != t && HasTxn(s.queues[r], u)
  {
    UnlockQueue(s, t, r);
    ReleaseHasTxn(s.queues[r], t, u);
  }

  /** Two entries come one after the other, with these transactions and modes. */
  predicate InOrder(q: seq<Entry>, a: Entry, b: Entry) {
    exists i, j :: 0 <= i < j < |q| && SameRequest(q[i], a) && SameRequest(q[j], b)
  }

  predicate SameRequest(a: Entry, b: Entry) {
    a.txn == b.txn && a.mode == b.mode
  }

  lemma ReleaseKeepsOrder(q: seq<Entry>, x: nat, i: nat, j: nat)
    requires x < |q| && i < j < |q| && i != x && j != x
    ensures InOrder(Release(q, x), q[i], q[j])
  {
    var i' := if i < x then i else i - 1;
    var j' := if j < x then j else j - 1;
    assert Origin(x, i') == i && Origin(x, j') == j;
    ReleaseAt(q, x, i');
    ReleaseAt(q, x, j');
    assert SameRequest(Release(q, x)[i'], q[i]) && SameRequest(Release(q, x)[j'], q[j]);
  }

  /** The other objects of a list keep their order and their modes. */
  lemma UnlockKeepsOrder(s: Locks, t: nat, r: nat, i: nat, j: nat)
    requires Inv(s) && t < |s.chains| && r < |s.queues|
    requires i < j < |s.queues[r]| && s.queues[r][i].txn != t && s.queues[r][j].txn != t
    ensures InOrder(Unlock(s, t).queues[r], s.queues[r][i], s.queues[r][j])
  {
    var q := s.queues[r];
    UnlockQueue(s, t, r);
    if HasTxn(q, t) {
      ReleaseKeepsOrder(q, IndexOf(q, t), i, j);
    } else {
      assert SameRequest(q[i], q[i]) && SameRequest(q[j], q[j]);
    }
  }

  // ---------------------------------------------------------------- no deadlock

  function Last(s: Locks, t: nat): Node
    requires t < |s.chains| && s.chains[t] != []
  {
    Node(t, s.chains[t][|s.chains[t]| - 1])
  }

  /** From any object the newest object of the same transaction is reachable. */
  lemma {:induction false} ChainReachesLast(s: Locks, t: nat, k: nat)
    requires t < |s.chains| && k < |s.chains[t]|
    ensures Reaches(s, Node(t, s.chains[t][k]), Last(s, t))
    decreases |s.chains[t]| - k
  {
    var a := Node(t, s.chains[t][k]);
    if k == |s.chains[t]| - 1 {
      PathRefl(s, a);
    } else {
      ChainReachesLast(s, t, k + 1);
      var b := Node(t, s.chains[t][k + 1]);
      assert s.chains[t][k + 1] == b.rec && s.chains[t][k + 1 - 1] == a.rec;
      assert ChainEdge(s, a, b);
      ReachesBefore(s, a, b, Last(s, t));
    }
  }

  lemma ReachesBefore(s: Locks, a: Node, b: Node, c: Node)
    requires Edge(s, a, b) && Reaches(s, b, c)
    ensures Reaches(s, a, c)
  {
    var p :| IsPath(s, p) && p[0] == b && p[|p| - 1] == c;
    var q := [a] + p;
    forall i | 0 < i < |q| ensures Edge(s, q[i - 1], q[i]) {
      if i > 1 { assert q[i - 1] == p[i - 1 - 1] && q[i] == p[i - 1]; }
    }
    assert IsPath(s, q) && q[0] == a && q[|q| - 1] == c;
  }

  lemma {:induction false} ReachesJoin(s: Locks, p: seq<Node>, c: Node)
    requires IsPath(s, p) && Reaches(s, p[|p| - 1], c)
    ensures Reaches(s, p[0], c)
    decreases |p|
  {
    if |p| > 1 {
      var p' := p[1..];
      forall i | 0 < i < |p'| ensures Edge(s, p'[i - 1], p'[i]) { assert p'[i - 1] == p[i + 1 - 1] && p'[i] == p[i + 1]; }
      ReachesJoin(s, p', c);
      assert Edge(s, p[1 - 1], p[1]);
      ReachesBefore(s, p[0], p[1], c);
    }
  }

  lemma RankFallsTo(s: Locks, rank: map<Node, nat>, bound: nat, a: Node, b: Node)
    requires RankOk(s, rank, bound) && Reaches(s, a, b) && a in rank
    ensures b in rank && rank[b] <= rank[a]
  {
    var p :| IsPath(s, p) && p[0] == a && p[|p| - 1] == b;
    if |p| > 1 { RankFalls(s, rank, bound, p); }
  }

  /** The object in front of a waiting transaction's newest object. */
  lemma WaitsBehind(s: Locks, t: nat) returns (b: Node)
    requires Inv(s) && t < |s.chains| && Waiting(s, t)
    ensures PrevEdge(s, Last(s, t), b) && b.txn != t && b.txn < |s.chains| && b.rec in s.chains[b.txn]
  {
    var r := Last(s, t).rec;
    var q := s.queues[r];
    var i :| 0 <= i < |q| && q[i].txn == t && q[i].locked;
    WaiterIsBlocked(s, r, i);
    b := Node(q[i - 1].txn, r);
    assert q[i].txn == Last(s, t).txn && q[i - 1].txn == b.txn;
    assert HasTxn(q, b.txn) && OnePerTxn(q);
  }

  /** A waiting transaction waits, over the wait-for graph, for one that is not waiting and holds its newest
      lock: no set of transactions can block itself. */
  lemma {:induction false} SomeoneRuns(s: Locks, rank: map<Node, nat>, bound: nat, t: nat) returns (u: nat)
    requires Inv(s) && RankOk(s, rank, bound) && t < |s.chains| && Waiting(s, t)
    ensures u < |s.chains| && u != t && s.chains[u] != [] && !Waiting(s, u)
    ensures Reaches(s, Last(s, t), Last(s, u))
    decreases if Last(s, t) in rank then rank[Last(s, t)] else 0
  {
    var a := Last(s, t);
    var b := WaitsBehind(s, t);
    var v := b.txn;
    var k :| 0 <= k < |s.chains[v]| && s.chains[v][k] == b.rec;
    ChainReachesLast(s, v, k);
    assert Edge(s, a, b);
    RankFallsTo(s, rank, bound, b, Last(s, v));
    ReachesBefore(s, a, b, Last(s, v));
    if Waiting(s, v) {
      u := SomeoneRuns(s, rank, bound, v);
      var p :| IsPath(s, p) && p[0] == a && p[|p| - 1] == Last(s, v);
      ReachesJoin(s, p, Last(s, u));
      RankFallsTo(s, rank, bound, Last(s, v), Last(s, u));
    } else {
      u := v;
    }
  }

  /** Deadlock freedom of the lock table. */
  lemma NoDeadlock(s: Locks, t: nat)
    requires Inv(s) && t < |s.chains| && Waiting(s, t)
    ensures exists u :: 0 <= u < |s.chains| && u != t && s.chains[u] != [] && !Waiting(s, u)
                     && Reaches(s, Last(s, t), Last(s, u))
  {
    var rank: map<Node, nat>, bound: nat :| RankOk(s, rank, bound);
    var u := SomeoneRuns(s, rank, bound, t);
  }

  const SharedRead := Locks([[Entry(0, Read, false), Entry(1, Read, false)], [Entry(1, Read, false)]], [[0], [1, 0]])

  lemma SharedReadEdges(a: Node, b: Node)
    requires Edge(SharedRead, a, b)
    ensures (a == Node(1, 0) && b == Node(0, 0)) || (a == Node(1, 1) && b == Node(1, 0))
  {
    var s := SharedRead;
    if PrevEdge(s, a, b) {
      var i :| 0 < i < |s.queues[a.rec]| && s.queues[a.rec][i].txn == a.txn && s.queues[a.rec][i - 1].txn == b.txn;
      assert a.rec == 0 && i == 1;
    } else {
      var k :| 0 < k < |s.chains[a.txn]| && s.chains[a.txn][k] == b.rec && s.chains[a.txn][k - 1] == a.rec;
      assert a.txn == 1 && k == 1;
    }
  }

  lemma SharedReadWellFormed()
    ensures WellFormed(SharedRead)
  {
    var s := SharedRead;
    forall t, r | 0 <= t < 2 && 0 <= r < 2 ensures r in s.chains[t] <==> HasTxn(s.queues[r], t) {
      if t == 0 && r == 0 { assert s.queues[r][0].txn == t; }
      if t == 1 && r == 0 { assert s.queues[r][1].txn == t; }
      if t == 1 && r == 1 { assert s.queues[r][0].txn == t; }
    }
  }

  lemma SharedReadInv()
    ensures Inv(SharedRead)
  {
    var s := SharedRead;
    var rank := map[Node(1, 1) := 2, Node(1, 0) := 1, Node(0, 0) := 0];
    forall a, b | Edge(s, a, b) ensures a in rank && b in rank && rank[b] < rank[a] {
      SharedReadEdges(a, b);
    }
    assert RankOk(s, rank, 3);
    SharedReadWellFormed();
  }

  lemma SharedReadPath()
    ensures Deadlock(SharedRead, 0, 1)
  {
    var s := SharedRead;
    assert s.chains[1][1] == 0 && s.chains[1][1 - 1] == 1;
    assert ChainEdge(s, Node(1, 1), Node(1, 0));
    assert s.queues[0][1].txn == 1 && s.queues[0][1 - 1].txn == 0;
    assert PrevEdge(s, Node(1, 0), Node(0, 0));
    PathRefl(s, Tail(s, 1));
    PathExtends(s, Tail(s, 1), Node(1, 1), Node(1, 0));
    PathExtends(s, Tail(s, 1), Node(1, 0), Node(0, 0));
  }

  /** The refusal test is conservative: here every lock is held, nobody waits, and transaction 0 is still
      refused a read it would not have to wait for, because it shares a reader list with transaction 1. */
  lemma RefusalIsConservative()
    ensures Inv(SharedRead) && !Waiting(SharedRead, 0) && !Waiting(SharedRead, 1)
    ensures Request(SharedRead, 0, 1, Read).None? && !MustWait(SharedRead.queues[1], Read)
  {
    SharedReadInv();
    SharedReadPath();
  }
}
