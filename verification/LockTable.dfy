/** The lock table as it is in memory: doubly linked lock lists per record, a deque per transaction and the
    `nextInTxn` links.  Every method is proved to do to the linked structure what `LockModel` says on values. */
module LockTable {
  import opened Options
  import opened LockModel

  class LockNode {
    var locked: bool
    const lockMode: Mode
    const txnId: nat
    const recordId: nat
    var nextInTxn: LockNode?
    var prev: LockNode?
    var next: LockNode?

    constructor (lockMode: Mode, txnId: nat, recordId: nat)
      ensures !locked && this.lockMode == lockMode && this.txnId == txnId && this.recordId == recordId
      ensures nextInTxn == null && prev == null && next == null
    {
      this.locked := false;
      this.lockMode := lockMode;
      this.txnId := txnId;
      this.recordId := recordId;
      this.nextInTxn := null;
      this.prev := null;
      this.next := null;
    }

    ghost function Id(): Node {
      Node(txnId, recordId)
    }
  }

  datatype LockList = LockList(head: LockNode?, tail: LockNode?)

  /** l, from head to tail, is the linked list that starts and ends at h; q are its entries. */
  ghost predicate IsList(l: seq<LockNode>, q: seq<Entry>, h: LockList, r: nat)
    reads l
  {
    && |l| == |q|
    && h == (if l == [] then LockList(null, null) else LockList(l[0], l[|l| - 1]))
    && (forall i :: 0 <= i < |l| ==> l[i].recordId == r)
    && (forall i :: 0 <= i < |l| ==> q[i] == Entry(l[i].txnId, l[i].lockMode, l[i].locked))
    && (l != [] ==> l[0].prev == null && l[|l| - 1].next == null)
    && (forall i :: 0 < i < |l| ==> LinkedAt(l, i))
  }

  ghost predicate LinkedAt(l: seq<LockNode>, i: nat)
    reads l
  {
    0 < i < |l| && l[i].prev == l[i - 1] && l[i - 1].next == l[i]
  }

  /** The place of n in l. */
  ghost function At(l: seq<LockNode>, n: LockNode): (i: nat)
    requires n in l
    ensures i < |l| && l[i] == n
  {
    var i :| 0 <= i < |l| && l[i] == n;
    i
  }

  /** c is transaction t's deque; its objects are linked by `nextInTxn`. */
  ghost predicate IsChain(c: seq<LockNode>, recs: seq<nat>, t: nat)
    reads c
  {
    && |c| == |recs|
    && (forall k :: 0 <= k < |c| ==> c[k].txnId == t && c[k].recordId == recs[k])
    && (c != [] ==> c[|c| - 1].nextInTxn == null)
    && (forall k :: 0 < k < |c| ==> c[k - 1].nextInTxn == c[k])
  }

  class LockTable {
    var lockPerTxn: seq<seq<LockNode>>
    var lockPerRecord: seq<LockList>
    ghost var lists: seq<seq<LockNode>>
    ghost var nodes: set<LockNode>
    ghost var model: Locks

    ghost predicate ListsOk()
      reads this, nodes
    {
      && |lists| == |lockPerRecord| == |model.queues|
      && (forall r, i :: 0 <= r < |lists| && 0 <= i < |lists[r]| ==> lists[r][i] in nodes)
      && (forall n :: n in nodes ==> n.recordId < |lists| && n in lists[n.recordId])
      && (forall r :: 0 <= r < |lists| ==> IsList(lists[r], model.queues[r], lockPerRecord[r], r))
      && (forall r :: 0 <= r < |lists| ==> OnePerTxn(model.queues[r]))
    }

    ghost predicate ChainsOk()
      reads this, nodes
    {
      && |lockPerTxn| == |model.chains|
      && (forall t, k :: 0 <= t < |lockPerTxn| && 0 <= k < |lockPerTxn[t]| ==> lockPerTxn[t][k] in nodes)
      && (forall t :: 0 <= t < |lockPerTxn| ==> IsChain(lockPerTxn[t], model.chains[t], t))
    }

    /** The links are those of `model`, and no link, head, tail or deque entry leaves the live objects. */
    ghost predicate Valid()
      reads this, nodes
    {
      ListsOk() && ChainsOk() && WellFormed(model)
    }

    constructor (numRecord: nat, numTxn: nat)
      ensures Valid() && Inv(model) && nodes == {}
      ensures model == Locks(seq(numRecord + 1, _ => []), seq(numTxn + 1, _ => []))
    {
      lockPerTxn := seq(numTxn + 1, _ => []);
      lockPerRecord := seq(numRecord + 1, _ => LockList(null, null));
      lists := seq(numRecord + 1, _ => []);
      nodes := {};
      model := Locks(seq(numRecord + 1, _ => []), seq(numTxn + 1, _ => []));
      new;
      assert RankOk(model, map[], 0);
    }

    lemma NodeAt(n: LockNode, i: nat)
      requires ListsOk() && n in nodes && i < |lists[n.recordId]| && lists[n.recordId][i].txnId == n.txnId
      ensures lists[n.recordId][i] == n
    {
      var l, q := lists[n.recordId], model.queues[n.recordId];
      var j :| 0 <= j < |l| && l[j] == n;
      assert q[i].txn == q[j].txn;
    }

    /** Two live objects with the same name are the same object. */
    lemma SameId(n: LockNode, m: LockNode)
      requires ListsOk() && n in nodes && m in nodes && n.Id() == m.Id()
      ensures n == m
    {
      var j :| 0 <= j < |lists[m.recordId]| && lists[m.recordId][j] == m;
      NodeAt(n, j);
    }

    lemma PlaceInList(n: LockNode) returns (i: nat)
      requires Valid() && n in nodes
      ensures n.recordId < |lists| && i < |lists[n.recordId]| && lists[n.recordId][i] == n
      ensures n.txnId < |lockPerTxn| && model.queues[n.recordId][i].txn == n.txnId
    {
      i :| 0 <= i < |lists[n.recordId]| && lists[n.recordId][i] == n;
      assert IsList(lists[n.recordId], model.queues[n.recordId], lockPerRecord[n.recordId], n.recordId);
      assert model.queues[n.recordId][i].txn == n.txnId;
    }

    lemma PlaceInChain(n: LockNode) returns (k: nat)
      requires Valid() && n in nodes
      ensures n.txnId < |lockPerTxn| && k < |lockPerTxn[n.txnId]| && lockPerTxn[n.txnId][k] == n
    {
      var i := PlaceInList(n);
      var t := n.txnId;
      assert HasTxn(model.queues[n.recordId], t);
      assert IsChain(lockPerTxn[t], model.chains[t], t);
      k :| 0 <= k < |lockPerTxn[t]| && model.chains[t][k] == n.recordId;
      SameId(n, lockPerTxn[t][k]);
    }

    lemma PrevIsEdge(n: LockNode)
      requires Valid() && n in nodes && n.prev != null
      ensures n.prev in nodes && Edge(model, n.Id(), n.prev.Id())
    {
      var i := PlaceInList(n);
      var l, q := lists[n.recordId], model.queues[n.recordId];
      assert IsList(l, q, lockPerRecord[n.recordId], n.recordId);
      assert i > 0 ==> LinkedAt(l, i);
      assert lists[n.recordId][i - 1] in nodes;
      assert q[i].txn == n.txnId && q[i - 1].txn == l[i - 1].txnId;
      assert PrevEdge(model, n.Id(), l[i - 1].Id());
    }

    lemma NextInTxnIsEdge(n: LockNode)
      requires Valid() && n in nodes && n.nextInTxn != null
      ensures n.nextInTxn in nodes && Edge(model, n.Id(), n.nextInTxn.Id())
    {
      var k := PlaceInChain(n);
      var t := n.txnId;
      var c := lockPerTxn[t];
      assert IsChain(c, model.chains[t], t);
      assert lockPerTxn[t][k + 1] in nodes;
      assert model.chains[t][k + 1] == c[k + 1].recordId && model.chains[t][k + 1 - 1] == n.recordId;
      assert ChainEdge(model, n.Id(), c[k + 1].Id());
    }

    lemma LinksAreEdges(n: LockNode)
      requires Valid() && n in nodes
      ensures n.prev != null ==> n.prev in nodes && Edge(model, n.Id(), n.prev.Id())
      ensures n.nextInTxn != null ==> n.nextInTxn in nodes && Edge(model, n.Id(), n.nextInTxn.Id())
    {
      if n.prev != null { PrevIsEdge(n); }
      if n.nextInTxn != null { NextInTxnIsEdge(n); }
    }

    lemma EdgeIsPrev(n: LockNode, b: Node)
      requires ListsOk() && n in nodes && PrevEdge(model, n.Id(), b)
      ensures n.prev != null && b == n.prev.Id()
    {
      var r := n.recordId;
      var l, q := lists[r], model.queues[r];
      var i :| 0 < i < |q| && q[i].txn == n.txnId && q[i - 1].txn == b.txn;
      assert IsList(l, q, lockPerRecord[r], r);
      NodeAt(n, i);
      assert LinkedAt(l, i);
      assert q[i - 1].txn == l[i - 1].txnId;
    }

    lemma EdgeIsNextInTxn(n: LockNode, b: Node)
      requires ListsOk() && ChainsOk() && n in nodes && ChainEdge(model, n.Id(), b)
      ensures n.nextInTxn != null && b == n.nextInTxn.Id()
    {
      var t := n.txnId;
      var c, recs := lockPerTxn[t], model.chains[t];
      var k :| 0 < k < |recs| && recs[k] == b.rec && recs[k - 1] == n.recordId;
      assert IsChain(c, recs, t);
      assert c[k - 1] in nodes;
      SameId(n, c[k - 1]);
    }

    lemma EdgesAreLinks(n: LockNode, b: Node)
      requires Valid() && n in nodes && Edge(model, n.Id(), b)
      ensures (n.prev != null && b == n.prev.Id()) || (n.nextInTxn != null && b == n.nextInTxn.Id())
    {
      if PrevEdge(model, n.Id(), b) { EdgeIsPrev(n, b); } else { EdgeIsNextInTxn(n, b); }
    }

    // -------------------------------------------------------------- checkDeadlock

    ghost function RankOf(n: LockNode, rank: map<Node, nat>): nat {
      if n.Id() in rank then rank[n.Id()] else 0
    }

    /** The number of queue entries the search still makes from n: what the missing visited set costs. */
    ghost function Weight(n: LockNode?, rank: map<Node, nat>, bound: nat): (w: nat)
      requires Valid() && RankOk(model, rank, bound) && (n != null ==> n in nodes)
      reads this, nodes
      decreases if n == null then 0 else RankOf(n, rank) + 1
    {
      if n == null then 1
      else
        LinksAreEdges(n);
        1 + Weight(n.prev, rank, bound) + Weight(n.nextInTxn, rank, bound)
    }

    ghost predicate Live(q: seq<LockNode?>)
      reads this
    {
      forall k :: 0 <= k < |q| && q[k] != null ==> q[k] in nodes
    }

    ghost function QueueWeight(q: seq<LockNode?>, rank: map<Node, nat>, bound: nat): nat
      requires Valid() && RankOk(model, rank, bound)
      requires Live(q)
      reads this, nodes
    {
      if q == [] then 0 else Weight(q[0], rank, bound) + QueueWeight(q[1..], rank, bound)
    }

    lemma {:induction false} QueueWeightPush(q: seq<LockNode?>, n: LockNode?, rank: map<Node, nat>, bound: nat)
      requires Valid() && RankOk(model, rank, bound) && (n != null ==> n in nodes)
      requires Live(q)
      ensures QueueWeight(q + [n], rank, bound) == QueueWeight(q, rank, bound) + Weight(n, rank, bound)
      decreases |q|
    {
      if q == [] {
        assert q + [n] == [n];
        assert QueueWeight([n][1..], rank, bound) == 0;
      } else {
        assert (q + [n])[1..] == q[1..] + [n];
        QueueWeightPush(q[1..], n, rank, bound);
      }
    }

    ghost predicate InQueue(q: seq<LockNode?>, b: Node) {
      exists k :: 0 <= k < |q| && q[k] != null && q[k].Id() == b
    }

    /** Every queued object is live and reachable from the start of the search. */
    ghost predicate Reached(start: Node, q: seq<LockNode?>)
      reads this, nodes
    {
      forall k :: 0 <= k < |q| && q[k] != null ==> q[k] in nodes && Reaches(model, start, q[k].Id())
    }

    /** Every edge out of an object already taken from the queue leads to one taken or queued. */
    ghost predicate Covered(seen: set<Node>, q: seq<LockNode?>)
      reads this
    {
      forall a, b :: a in seen && Edge(model, a, b) ==> b in seen || InQueue(q, b)
    }

    lemma QueuePops(q: seq<LockNode?>, b: Node)
      requires q != [] && InQueue(q, b)
      ensures InQueue(q[1..], b) || (q[0] != null && b == q[0].Id())
    {
      var k :| 0 <= k < |q| && q[k] != null && q[k].Id() == b;
      if k > 0 { assert q[1..][k - 1] == q[k]; }
    }

    lemma QueueGrows(q: seq<LockNode?>, x: LockNode?, y: LockNode?, b: Node)
      requires InQueue(q, b) || (x != null && b == x.Id()) || (y != null && b == y.Id())
      ensures InQueue(q + [x] + [y], b)
    {
      var q' := q + [x] + [y];
      if InQueue(q, b) {
        var k :| 0 <= k < |q| && q[k] != null && q[k].Id() == b;
        assert q'[k] == q[k];
      } else {
        assert q'[|q|] == x && q'[|q| + 1] == y;
      }
    }

    lemma ExpandCovers(seen: set<Node>, q: seq<LockNode?>)
      requires Valid() && Covered(seen, q) && q != [] && q[0] != null && q[0] in nodes
      ensures Covered(seen + {q[0].Id()}, q[1..] + [q[0].prev] + [q[0].nextInTxn])
    {
      var n: LockNode := q[0];
      forall a, b | a in seen + {n.Id()} && Edge(model, a, b)
        ensures b in seen + {n.Id()} || InQueue(q[1..] + [n.prev] + [n.nextInTxn], b)
      {
        if a == n.Id() {
          EdgesAreLinks(n, b);
          QueueGrows(q[1..], n.prev, n.nextInTxn, b);
        } else if b !in seen {
          QueuePops(q, b);
          if b != n.Id() { QueueGrows(q[1..], n.prev, n.nextInTxn, b); }
        }
      }
    }

    lemma SkipCovers(seen: set<Node>, q: seq<LockNode?>)
      requires Covered(seen, q) && q != [] && q[0] == null
      ensures Covered(seen, q[1..])
    {
      forall a, b | a in seen && Edge(model, a, b) ensures b in seen || InQueue(q[1..], b) {
        if b !in seen { QueuePops(q, b); }
      }
    }

    lemma ReachedPush(start: Node, q: seq<LockNode?>, x: LockNode?)
      requires Reached(start, q) && (x != null ==> x in nodes && Reaches(model, start, x.Id()))
      ensures Reached(start, q + [x])
    {
    }

    lemma LinksAreReached(start: Node, n: LockNode)
      requires Valid() && n in nodes && Reaches(model, start, n.Id())
      ensures n.prev != null ==> n.prev in nodes && Reaches(model, start, n.prev.Id())
      ensures n.nextInTxn != null ==> n.nextInTxn in nodes && Reaches(model, start, n.nextInTxn.Id())
    {
      LinksAreEdges(n);
      if n.prev != null { PathExtends(model, start, n.Id(), n.prev.Id()); }
      if n.nextInTxn != null { PathExtends(model, start, n.Id(), n.nextInTxn.Id()); }
    }

    lemma ExpandReaches(start: Node, q: seq<LockNode?>)
      requires Valid() && Reached(start, q) && q != [] && q[0] != null
      ensures Reached(start, q[1..] + [q[0].prev] + [q[0].nextInTxn])
    {
      LinksAreReached(start, q[0]);
      ReachedPush(start, q[1..], q[0].prev);
      ReachedPush(start, q[1..] + [q[0].prev], q[0].nextInTxn);
    }

    lemma ExpandWeighs(q: seq<LockNode?>, rank: map<Node, nat>, bound: nat)
      requires Valid() && RankOk(model, rank, bound) && q != [] && q[0] != null
      requires Live(q)
      ensures q[0].prev != null ==> q[0].prev in nodes
      ensures q[0].nextInTxn != null ==> q[0].nextInTxn in nodes
      ensures QueueWeight(q[1..] + [q[0].prev] + [q[0].nextInTxn], rank, bound) == QueueWeight(q, rank, bound) - 1
    {
      var n: LockNode := q[0];
      LinksAreEdges(n);
      QueueWeightPush(q[1..], n.prev, rank, bound);
      QueueWeightPush(q[1..] + [n.prev], n.nextInTxn, rank, bound);
    }

    /** A search for txnId from the tail of recordId's list, with seen taken from the queue and q still in it. */
    ghost predicate Searching(txnId: nat, recordId: nat, seen: set<Node>, q: seq<LockNode?>)
      requires recordId < |model.queues|
      reads this, nodes
    {
      && Covered(seen, q)
      && (forall a :: a in seen ==> a.txn != txnId)
      && (if model.queues[recordId] == [] then forall k :: 0 <= k < |q| ==> q[k] == null
          else
            var start := LockModel.Tail(model, recordId);
            Reached(start, q) && (start in seen || InQueue(q, start)))
    }

    lemma SearchStarts(txnId: nat, recordId: nat)
      requires Valid() && recordId < |lockPerRecord|
      ensures Searching(txnId, recordId, {}, [lockPerRecord[recordId].tail])
    {
      var q, tail := model.queues[recordId], lockPerRecord[recordId].tail;
      assert IsList(lists[recordId], q, lockPerRecord[recordId], recordId);
      if q != [] {
        assert lists[recordId][|q| - 1] in nodes;
        assert tail.Id() == LockModel.Tail(model, recordId);
        PathRefl(model, tail.Id());
        assert [tail][0] == tail;
        assert InQueue([tail], tail.Id());
      }
    }

    lemma SearchExpands(txnId: nat, recordId: nat, seen: set<Node>, q: seq<LockNode?>)
      requires Valid() && recordId < |lockPerRecord| && Searching(txnId, recordId, seen, q)
      requires q != [] && q[0] != null && q[0].txnId != txnId
      ensures Searching(txnId, recordId, seen + {q[0].Id()}, q[1..] + [q[0].prev] + [q[0].nextInTxn])
    {
      assert model.queues[recordId] != [];
      var start := LockModel.Tail(model, recordId);
      ExpandReaches(start, q);
      ExpandCovers(seen, q);
      if start !in seen + {q[0].Id()} {
        QueuePops(q, start);
        QueueGrows(q[1..], q[0].prev, q[0].nextInTxn, start);
      }
    }

    lemma SearchSkips(txnId: nat, recordId: nat, seen: set<Node>, q: seq<LockNode?>)
      requires recordId < |model.queues| && Searching(txnId, recordId, seen, q) && q != [] && q[0] == null
      ensures Searching(txnId, recordId, seen, q[1..])
    {
      SkipCovers(seen, q);
      if model.queues[recordId] != [] {
        var start := LockModel.Tail(model, recordId);
        if start !in seen { QueuePops(q, start); }
      }
    }

    lemma SearchFinds(txnId: nat, recordId: nat, seen: set<Node>, q: seq<LockNode?>)
      requires recordId < |model.queues| && Searching(txnId, recordId, seen, q)
      requires q != [] && q[0] != null && q[0].txnId == txnId
      ensures Deadlock(model, txnId, recordId)
    {
      assert q[0].Id().txn == txnId;
      assert Reaches(model, LockModel.Tail(model, recordId), q[0].Id());
    }

    /** A search that ran dry has seen everything reachable. */
    lemma SearchEnds(txnId: nat, recordId: nat, seen: set<Node>)
      requires recordId < |model.queues| && Searching(txnId, recordId, seen, [])
      ensures !Deadlock(model, txnId, recordId)
    {
      if Deadlock(model, txnId, recordId) {
        var start := LockModel.Tail(model, recordId);
        var b: Node :| b.txn == txnId && Reaches(model, start, b);
        var p :| IsPath(model, p) && p[0] == start && p[|p| - 1] == b;
        assert forall c :: !InQueue([], c);
        ClosedSetKeepsPaths(model, seen, p, |p| - 1);
      }
    }

    lemma QueuedAreLive(txnId: nat, recordId: nat, seen: set<Node>, q: seq<LockNode?>)
      requires recordId < |model.queues| && Searching(txnId, recordId, seen, q)
      ensures Live(q)
    {
    }

    /** One round of the search keeps what it knows of the graph, and makes the queue lighter. */
    lemma RoundExpands(txnId: nat, recordId: nat, seen: set<Node>, q: seq<LockNode?>, rank: map<Node, nat>, bound: nat)
      requires Valid() && RankOk(model, rank, bound) && recordId < |lockPerRecord|
      requires Searching(txnId, recordId, seen, q) && q != [] && q[0] != null && q[0].txnId != txnId
      ensures var n, q' := q[0], q[1..] + [q[0].prev] + [q[0].nextInTxn];
              && Searching(txnId, recordId, seen + {n.Id()}, q')
              && Live(q)
              && Live(q')
              && QueueWeight(q', rank, bound) < QueueWeight(q, rank, bound)
    {
      QueuedAreLive(txnId, recordId, seen, q);
      SearchExpands(txnId, recordId, seen, q);
      QueuedAreLive(txnId, recordId, seen + {q[0].Id()}, q[1..] + [q[0].prev] + [q[0].nextInTxn]);
      ExpandWeighs(q, rank, bound);
    }

    /** The breadth-first search over `prev` and `nextInTxn`, which keeps no visited set: the weight of the
        queue drops by one at every step, because the graph has no cycle. */
    method CheckDeadlock(txnId: nat, recordId: nat) returns (found: bool)
      requires Valid() && Acyclic(model) && recordId < |lockPerRecord|
      ensures found <==> Deadlock(model, txnId, recordId)
    {
      var lockList := lockPerRecord[recordId];
      var waitQueue: seq<LockNode?> := [lockList.tail];
      ghost var rank: map<Node, nat>, bound: nat :| RankOk(model, rank, bound);
      ghost var seen: set<Node> := {};
      SearchStarts(txnId, recordId);
      while waitQueue != []
        invariant Searching(txnId, recordId, seen, waitQueue)
        invariant Live(waitQueue)
        decreases QueueWeight(waitQueue, rank, bound)
      {
        var current := waitQueue[0];
        ghost var before := waitQueue;
        waitQueue := waitQueue[1..];
        if current != null {
          if current.txnId == txnId {
            SearchFinds(txnId, recordId, seen, before);
            return true;
          }
          RoundExpands(txnId, recordId, seen, before, rank, bound);
          waitQueue := waitQueue + [current.prev];
          waitQueue := waitQueue + [current.nextInTxn];
          seen := seen + {current.Id()};
        } else {
          SearchSkips(txnId, recordId, seen, before);
        }
      }
      SearchEnds(txnId, recordId, seen);
      return false;
    }

    // -------------------------------------------------------------- addReaderLock, addWriterLock

    /** Objects of other lists keep what the lists are made of. */
    twostate lemma ListStays(x: nat)
      requires old(ListsOk()) && x < |old(lists)| && |lists| == |old(lists)| == |model.queues| == |lockPerRecord|
      requires lists[x] == old(lists[x]) && model.queues[x] == old(model.queues[x])
      requires lockPerRecord[x] == old(lockPerRecord[x])
      requires forall n :: n in old(nodes) && n.recordId == x ==>
                 n.prev == old(n.prev) && n.next == old(n.next) && n.locked == old(n.locked)
      ensures IsList(lists[x], model.queues[x], lockPerRecord[x], x)
    {
      assert old(IsList(lists[x], model.queues[x], lockPerRecord[x], x));
      var l := old(lists[x]);
      forall i | 0 <= i < |l|
        ensures l[i].prev == old(l[i].prev) && l[i].next == old(l[i].next) && l[i].locked == old(l[i].locked)
      {
        assert old(lists[x][i]) in old(nodes);
      }
      forall i | 0 < i < |l| ensures LinkedAt(l, i) { assert old(LinkedAt(lists[x], i)); }
    }

    twostate lemma OtherListsStay(r: nat)
      requires old(ListsOk()) && |lists| == |old(lists)| == |model.queues| == |lockPerRecord|
      requires forall x :: 0 <= x < |lists| && x != r ==> lists[x] == old(lists[x])
      requires forall x :: 0 <= x < |lists| && x != r ==> model.queues[x] == old(model.queues[x])
      requires forall x :: 0 <= x < |lists| && x != r ==> lockPerRecord[x] == old(lockPerRecord[x])
      requires forall n :: n in old(nodes) && n.recordId != r ==>
                 n.prev == old(n.prev) && n.next == old(n.next) && n.locked == old(n.locked)
      ensures forall x :: 0 <= x < |lists| && x != r ==> IsList(lists[x], model.queues[x], lockPerRecord[x], x)
    {
      forall x | 0 <= x < |lists| && x != r ensures IsList(lists[x], model.queues[x], lockPerRecord[x], x) {
        ListStays(x);
      }
    }

    twostate lemma ChainsStay()
      requires old(ChainsOk()) && lockPerTxn == old(lockPerTxn) && model.chains == old(model.chains)
      requires forall n :: n in old(nodes) ==> n in nodes && n.nextInTxn == old(n.nextInTxn)
      ensures ChainsOk()
    {
      forall t | 0 <= t < |lockPerTxn| ensures IsChain(lockPerTxn[t], model.chains[t], t) {
        assert old(IsChain(lockPerTxn[t], model.chains[t], t));
        var c := lockPerTxn[t];
        forall k | 0 <= k < |c| ensures c[k] in old(nodes) { assert old(lockPerTxn[t][k]) in old(nodes); }
      }
    }

    lemma TailOf(r: nat)
      requires ListsOk() && r < |lockPerRecord|
      ensures lockPerRecord[r].tail == null <==> lists[r] == []
      ensures lists[r] != [] ==> lockPerRecord[r].tail == lists[r][|lists[r]| - 1] && lockPerRecord[r].tail in nodes
      ensures lists[r] != [] ==> lockPerRecord[r].head == lists[r][0] && lockPerRecord[r].head in nodes
      ensures forall n :: n in lists[r] ==> n in nodes && n.recordId == r
    {
      assert IsList(lists[r], model.queues[r], lockPerRecord[r], r);
    }

    /** The list of record r, with an object linked behind it. */
    twostate lemma ListGrew(r: nat)
      requires old(ListsOk()) && r < |old(lists)|
      requires |lists| == |old(lists)| == |model.queues| == |lockPerRecord|
      requires |lists[r]| == |old(lists[r])| + 1 && lists[r][..|lists[r]| - 1] == old(lists[r])
      requires var n := lists[r][|lists[r]| - 1];
               && n.recordId == r && n !in old(nodes) && n.next == null && n.prev == old(lockPerRecord[r].tail)
               && (n.prev != null ==> n.prev.next == n)
               && model.queues[r] == old(model.queues[r]) + [Entry(n.txnId, n.lockMode, n.locked)]
               && lockPerRecord[r].tail == n
               && lockPerRecord[r].head == (if old(lists[r]) == [] then n else old(lockPerRecord[r].head))
               && forall m :: m in old(nodes) && m != n.prev ==> m.next == old(m.next)
      requires forall m :: m in old(nodes) ==> m.prev == old(m.prev) && m.locked == old(m.locked)
      ensures IsList(lists[r], model.queues[r], lockPerRecord[r], r)
    {
      assert old(IsList(lists[r], model.queues[r], lockPerRecord[r], r));
      var l, n := old(lists[r]), lists[r][|lists[r]| - 1];
      assert lists[r] == l + [n];
      forall i | 0 <= i < |l| ensures l[i] in old(nodes) && (i < |l| - 1 ==> l[i] != l[|l| - 1]) {
        assert old(lists[r][i]) in old(nodes);
        var q := old(model.queues[r]);
        assert i < |l| - 1 ==> q[i].txn != q[|l| - 1].txn;
      }
      forall i | 0 < i < |lists[r]| ensures LinkedAt(lists[r], i) {
        if i < |l| { assert old(LinkedAt(lists[r], i)); }
      }
    }

    lemma OnePerTxnGrows(q: seq<Entry>, e: Entry)
      requires OnePerTxn(q) && !HasTxn(q, e.txn)
      ensures OnePerTxn(q + [e])
    {
    }

    twostate lemma ListsGrew(r: nat)
      requires old(ListsOk()) && r < |old(lists)| == |lists|
      requires |lists[r]| == |old(lists[r])| + 1 && lists[r][..|lists[r]| - 1] == old(lists[r])
      requires var n := lists[r][|lists[r]| - 1];
               && n.recordId == r && n !in old(nodes) && n.next == null && n.prev == old(lockPerRecord[r].tail)
               && (n.prev != null ==> n.prev.next == n)
               && !HasTxn(old(model.queues[r]), n.txnId)
               && model.queues == old(model.queues)[r :=
                    old(model.queues[r]) + [Entry(n.txnId, n.lockMode, n.locked)]]
               && lockPerRecord == old(lockPerRecord)[r :=
                    LockList(if old(lists[r]) == [] then n else old(lockPerRecord[r].head), n)]
               && lists == old(lists)[r := lists[r]]
               && nodes == old(nodes) + {n}
               && (forall m :: m in old(nodes) && m != n.prev ==> m.next == old(m.next))
      requires forall m :: m in old(nodes) ==> m.prev == old(m.prev) && m.locked == old(m.locked)
      ensures ListsOk()
    {
      var n := lists[r][|lists[r]| - 1];
      ListGrew(r);
      assert n.prev != null ==> n.prev.recordId == r by { assert old(IsList(lists[r], model.queues[r], lockPerRecord[r], r)); }
      OtherListsStay(r);
      OnePerTxnGrows(old(model.queues[r]), Entry(n.txnId, n.lockMode, n.locked));
      assert lists[r] == old(lists[r]) + [n];
      forall m | m in nodes ensures m.recordId < |lists| && m in lists[m.recordId] {
        if m != n { assert m in old(lists)[m.recordId]; }
      }
    }

    method LinkBehindTail(newLock: LockNode)
      requires ListsOk() && newLock !in nodes && newLock.recordId < |lockPerRecord| && newLock.prev == null
      modifies this`lockPerRecord, newLock`prev, nodes`next
      ensures newLock.prev == old(lockPerRecord[newLock.recordId].tail)
      ensures newLock.prev != null ==> newLock.prev in nodes && newLock.prev.next == newLock
      ensures forall m :: m in nodes && m != newLock.prev ==> m.next == old(m.next)
      ensures lockPerRecord == old(lockPerRecord)[newLock.recordId :=
                LockList(if lists[newLock.recordId] == [] then newLock else old(lockPerRecord[newLock.recordId].head),
                         newLock)]
    {
      var r := newLock.recordId;
      TailOf(r);
      var lockList := lockPerRecord[r];
      if lockList.tail == null {
        lockPerRecord := lockPerRecord[r := LockList(newLock, newLock)];
      } else {
        newLock.prev := lockList.tail;
        lockList.tail.next := newLock;
        lockPerRecord := lockPerRecord[r := LockList(lockList.head, newLock)];
      }
    }

    /** Step 2 of both add functions: the new object goes behind the tail of its record's list. */
    method PushToRecord(newLock: LockNode)
      requires ListsOk() && newLock !in nodes && newLock.recordId < |lockPerRecord|
      requires newLock.prev == null && newLock.next == null
      requires !HasTxn(model.queues[newLock.recordId], newLock.txnId)
      modifies this`lockPerRecord, this`lists, this`nodes, this`model, newLock`prev, nodes`next
      ensures ListsOk() && nodes == old(nodes) + {newLock} && model.chains == old(model.chains)
      ensures model.queues == old(model.queues)[newLock.recordId :=
                old(model.queues)[newLock.recordId] + [Entry(newLock.txnId, newLock.lockMode, newLock.locked)]]
      ensures lists == old(lists)[newLock.recordId := old(lists)[newLock.recordId] + [newLock]]
      ensures lockPerRecord[newLock.recordId].tail == newLock
    {
      var r := newLock.recordId;
      LinkBehindTail(newLock);
      lists := lists[r := lists[r] + [newLock]];
      nodes := nodes + {newLock};
      model := model.(queues := model.queues[r :=
        model.queues[r] + [Entry(newLock.txnId, newLock.lockMode, newLock.locked)]]);
      ListsGrew(r);
    }

    twostate lemma ListsStay()
      requires old(ListsOk()) && lists == old(lists) && nodes == old(nodes)
      requires model.queues == old(model.queues) && lockPerRecord == old(lockPerRecord)
      requires forall n :: n in nodes ==> n.prev == old(n.prev) && n.next == old(n.next) && n.locked == old(n.locked)
      ensures ListsOk()
    {
      OtherListsStay(|lists|);
    }

    twostate lemma OtherChainsStay(t: nat)
      requires old(ChainsOk()) && |lockPerTxn| == |old(lockPerTxn)| == |model.chains|
      requires forall u :: 0 <= u < |lockPerTxn| && u != t ==> lockPerTxn[u] == old(lockPerTxn[u])
      requires forall u :: 0 <= u < |lockPerTxn| && u != t ==> model.chains[u] == old(model.chains[u])
      requires forall n :: n in old(nodes) && n.txnId != t ==> n.nextInTxn == old(n.nextInTxn)
      ensures forall u :: 0 <= u < |lockPerTxn| && u != t ==> IsChain(lockPerTxn[u], model.chains[u], u)
    {
      forall u | 0 <= u < |lockPerTxn| && u != t ensures IsChain(lockPerTxn[u], model.chains[u], u) {
        assert old(IsChain(lockPerTxn[u], model.chains[u], u));
        var c := old(lockPerTxn[u]);
        forall k | 0 <= k < |c| ensures c[k].nextInTxn == old(c[k].nextInTxn) {
          assert old(lockPerTxn[u][k]) in old(nodes);
        }
      }
    }

    twostate lemma ChainsGrew(t: nat)
      requires old(ChainsOk()) && t < |old(lockPerTxn)| == |lockPerTxn| && nodes == old(nodes)
      requires |lockPerTxn[t]| == |old(lockPerTxn[t])| + 1 && lockPerTxn[t][..|lockPerTxn[t]| - 1] == old(lockPerTxn[t])
      requires var n := lockPerTxn[t][|lockPerTxn[t]| - 1];
               var c := old(lockPerTxn[t]);
               && n.txnId == t && n in nodes && n !in c && n.nextInTxn == null
               && (c != [] ==> c[|c| - 1].nextInTxn == n)
               && model.chains == old(model.chains)[t := old(model.chains[t]) + [n.recordId]]
               && lockPerTxn == old(lockPerTxn)[t := lockPerTxn[t]]
               && NoRepeats(old(model.chains[t]))
               && (forall m :: m in nodes && (c == [] || m != c[|c| - 1]) ==> m.nextInTxn == old(m.nextInTxn))
      ensures ChainsOk()
    {
      var c, n := old(lockPerTxn[t]), lockPerTxn[t][|lockPerTxn[t]| - 1];
      assert old(IsChain(lockPerTxn[t], model.chains[t], t));
      assert lockPerTxn[t] == c + [n];
      forall k | 0 <= k < |c| ensures c[k] in nodes && (k < |c| - 1 ==> c[k] != c[|c| - 1]) {
        assert old(lockPerTxn[t][k]) in nodes;
        var recs := old(model.chains[t]);
        assert k < |c| - 1 ==> recs[k] != recs[|c| - 1];
      }
      OtherChainsStay(t);
    }

    /** Step 1 of both add functions and the final push into the deque. */
    method PushToTxn(newLock: LockNode)
      requires ChainsOk() && newLock in nodes && newLock.txnId < |lockPerTxn|
      requires newLock.nextInTxn == null && newLock !in lockPerTxn[newLock.txnId]
      requires NoRepeats(model.chains[newLock.txnId])
      modifies this`lockPerTxn, this`model, nodes`nextInTxn
      ensures ChainsOk()
      ensures model.queues == old(model.queues)
      ensures model.chains == old(model.chains)[newLock.txnId :=
                old(model.chains)[newLock.txnId] + [newLock.recordId]]
    {
      var t := newLock.txnId;
      var lockInTxn := lockPerTxn[t];
      if lockInTxn != [] {
        assert lockPerTxn[t][|lockInTxn| - 1] in nodes;
        lockInTxn[|lockInTxn| - 1].nextInTxn := newLock;
      }
      lockPerTxn := lockPerTxn[t := lockInTxn + [newLock]];
      model := model.(chains := model.chains[t := model.chains[t] + [newLock.recordId]]);
      ChainsGrew(t);
    }

    /** Only flags of record r's objects changed, and the entries follow them. */
    twostate lemma FlagsChanged(r: nat)
      requires old(ListsOk()) && r < |old(lists)|
      requires lists == old(lists) && nodes == old(nodes) && lockPerRecord == old(lockPerRecord)
      requires |model.queues| == |old(model.queues)| && |model.queues[r]| == |lists[r]|
      requires forall x :: 0 <= x < |lists| && x != r ==> model.queues[x] == old(model.queues[x])
      requires forall i :: 0 <= i < |lists[r]| ==>
                 model.queues[r][i] == Entry(lists[r][i].txnId, lists[r][i].lockMode, lists[r][i].locked)
      requires forall n :: n in nodes ==> n.prev == old(n.prev) && n.next == old(n.next)
      requires forall n :: n in nodes && n.recordId != r ==> n.locked == old(n.locked)
      ensures ListsOk()
    {
      var l := old(lists[r]);
      assert old(IsList(lists[r], model.queues[r], lockPerRecord[r], r));
      forall i | 0 <= i < |l| ensures l[i].prev == old(l[i].prev) && l[i].next == old(l[i].next) {
        assert old(lists[r][i]) in nodes;
      }
      forall i | 0 < i < |l| ensures LinkedAt(l, i) { assert old(LinkedAt(lists[r], i)); }
      assert IsList(l, model.queues[r], lockPerRecord[r], r);
      assert OnePerTxn(model.queues[r]) by {
        var q, q' := old(model.queues[r]), model.queues[r];
        assert old(IsList(lists[r], model.queues[r], lockPerRecord[r], r));
        forall i, j | 0 <= i < j < |q'| ensures q'[i].txn != q'[j].txn {
          assert q[i].txn == q'[i].txn && q[j].txn == q'[j].txn;
        }
      }
      OtherListsStay(r);
    }

    lemma NodesAreDistinct(r: nat, i: nat, j: nat)
      requires ListsOk() && r < |lists| && i < |lists[r]| && j < |lists[r]| && i != j
      ensures lists[r][i] != lists[r][j] && model.queues[r][i].txn != model.queues[r][j].txn
    {
      assert IsList(lists[r], model.queues[r], lockPerRecord[r], r);
      var q := model.queues[r];
      if i < j { assert q[i].txn != q[j].txn; } else { assert q[j].txn != q[i].txn; }
    }

    /** Both add functions link the new object behind the transaction's newest one and behind the tail. */
    method Link(newLock: LockNode)
      requires ListsOk() && ChainsOk() && newLock !in nodes
      requires newLock.prev == null && newLock.next == null && newLock.nextInTxn == null
      requires newLock.txnId < |lockPerTxn| && newLock.recordId < |lockPerRecord|
      requires !HasTxn(model.queues[newLock.recordId], newLock.txnId) && NoRepeats(model.chains[newLock.txnId])
      modifies this, nodes, newLock
      ensures ListsOk() && ChainsOk() && nodes == old(nodes) + {newLock}
      ensures model == Appended(old(model), newLock.recordId, Entry(newLock.txnId, newLock.lockMode, newLock.locked))
      ensures lists[newLock.recordId] != [] && lockPerRecord[newLock.recordId].tail == newLock
      ensures newLock.locked == old(newLock.locked)
    {
      assert newLock !in lockPerTxn[newLock.txnId];
      PushToRecord(newLock);
      ChainsStay();
      label InRecord:
      PushToTxn(newLock);
      ListsStay@InRecord();
    }

    method Append(newLock: LockNode)
      requires Valid() && newLock !in nodes
      requires newLock.prev == null && newLock.next == null && newLock.nextInTxn == null
      requires newLock.txnId < |lockPerTxn| && newLock.recordId < |lockPerRecord|
      requires !HasTxn(model.queues[newLock.recordId], newLock.txnId)
      modifies this, nodes, newLock
      ensures Valid() && nodes == old(nodes) + {newLock}
      ensures model == Appended(old(model), newLock.recordId, Entry(newLock.txnId, newLock.lockMode, newLock.locked))
      ensures lockPerRecord[newLock.recordId].tail == newLock && newLock.locked == old(newLock.locked)
    {
      AppendedWellFormed(model, newLock.recordId, Entry(newLock.txnId, newLock.lockMode, newLock.locked));
      Link(newLock);
    }

    /** The newest object of a list starts to wait. */
    method SetFlag(newLock: LockNode, locked: bool)
      requires ListsOk() && ChainsOk() && newLock in nodes && !newLock.locked
      requires newLock.recordId < |lockPerRecord| && lockPerRecord[newLock.recordId].tail == newLock
      modifies newLock`locked, this`model
      ensures ListsOk() && ChainsOk() && newLock.locked == locked
      ensures |old(model.queues)[newLock.recordId]| > 0 && model == LastFlag(old(model), newLock.recordId, locked)
    {
      var r := newLock.recordId;
      ghost var q, l := model.queues[r], lists[r];
      TailOf(r);
      assert IsList(l, q, lockPerRecord[r], r);
      forall i | 0 <= i < |l| - 1 ensures l[i] != newLock { NodesAreDistinct(r, i, |l| - 1); }
      if locked {
        newLock.locked := true;
      }
      model := LastFlag(model, r, locked);
      FlagsChanged(r);
      ChainsStay();
    }

    method SetLocked(newLock: LockNode, locked: bool)
      requires Valid() && newLock in nodes && !newLock.locked
      requires newLock.recordId < |lockPerRecord| && lockPerRecord[newLock.recordId].tail == newLock
      modifies newLock`locked, this`model
      ensures Valid() && newLock.locked == locked
      ensures |old(model.queues)[newLock.recordId]| > 0 && model == LastFlag(old(model), newLock.recordId, locked)
    {
      ghost var r, q := newLock.recordId, model.queues[newLock.recordId];
      TailOf(r);
      assert IsList(lists[r], q, lockPerRecord[r], r);
      FlagsKeepWellFormed(model, r, q[|q| - 1 := q[|q| - 1].(locked := locked)]);
      SetFlag(newLock, locked);
    }

    /** The reader's walk from the tail: is there a writer in the list? */
    method HasWriter(recordId: nat) returns (found: bool)
      requires ListsOk() && recordId < |lockPerRecord|
      ensures found <==> WriterIn(model.queues[recordId])
    {
      ghost var l, q := lists[recordId], model.queues[recordId];
      assert IsList(l, q, lockPerRecord[recordId], recordId);
      var iter := lockPerRecord[recordId].tail;
      ghost var i := |l| - 1;
      while iter != null
        invariant -1 <= i < |l| && iter == if i < 0 then null else l[i]
        invariant forall j :: i < j < |l| ==> q[j].mode == Read
        decreases i
      {
        if iter.lockMode == Write {
          assert q[i].mode == Write;
          return true;
        }
        assert i > 0 ==> LinkedAt(l, i);
        iter := iter.prev;
        i := i - 1;
      }
      return false;
    }

    lemma WriterBefore(q: seq<Entry>, e: Entry)
      requires e.mode == Read
      ensures WriterIn(q + [e]) <==> WriterIn(q)
    {
      var q' := q + [e];
      if WriterIn(q) {
        var j :| 0 <= j < |q| && q[j].mode == Write;
        assert q'[j].mode == Write;
      }
      if WriterIn(q') {
        var j :| 0 <= j < |q'| && q'[j].mode == Write;
        assert q[j].mode == Write;
      }
    }

    function LastFlag(s: Locks, r: nat, flag: bool): Locks
      requires r < |s.queues| && s.queues[r] != []
    {
      var q := s.queues[r];
      s.(queues := s.queues[r := q[|q| - 1 := q[|q| - 1].(locked := flag)]])
    }

    lemma AppendedFlag(s: Locks, r: nat, e: Entry, flag: bool)
      requires e.txn < |s.chains| && r < |s.queues|
      ensures LastFlag(Appended(s, r, e), r, flag) == Appended(s, r, e.(locked := flag))
    {
      var q := Appended(s, r, e).queues[r];
      assert q[|q| - 1 := q[|q| - 1].(locked := flag)] == s.queues[r] + [e.(locked := flag)];
    }

    /** The second half of InsertReader: the appended object is locked if there is a writer before it. */
    method LockIfWriter(newLock: LockNode, ghost before: Locks)
      requires Valid() && newLock in nodes && !newLock.locked && newLock.lockMode == Read
      requires newLock.recordId < |lockPerRecord| && lockPerRecord[newLock.recordId].tail == newLock
      requires newLock.txnId < |before.chains| && newLock.recordId < |before.queues|
      requires model == Appended(before, newLock.recordId, Entry(newLock.txnId, Read, false))
      modifies newLock`locked, this`model
      ensures Valid() && newLock.locked == MustWait(before.queues[newLock.recordId], Read)
      ensures model == Appended(before, newLock.recordId, Entry(newLock.txnId, Read, newLock.locked))
    {
      ghost var q, e := before.queues[newLock.recordId], Entry(newLock.txnId, Read, false);
      WriterBefore(q, e);
      assert model.queues[newLock.recordId] == q + [e];
      var mustWait := HasWriter(newLock.recordId);
      SetLocked(newLock, mustWait);
      AppendedFlag(before, newLock.recordId, e, mustWait);
    }

    /** The part of `addReaderLock` behind the deadlock test. */
    method InsertReader(txnId: nat, recordId: nat) returns (newLock: LockNode)
      requires Valid() && txnId < |lockPerTxn| && recordId < |lockPerRecord|
      requires !HasTxn(model.queues[recordId], txnId)
      modifies this, nodes
      ensures Valid() && fresh(newLock) && nodes == old(nodes) + {newLock} && |lockPerTxn| == old(|lockPerTxn|)
      ensures newLock.Id() == Node(txnId, recordId) && newLock.lockMode == Read
      ensures newLock.locked == MustWait(old(model.queues[recordId]), Read)
      ensures model == Appended(old(model), recordId, Entry(txnId, Read, newLock.locked))
    {
      newLock := new LockNode(Read, txnId, recordId);
      Append(newLock);
      LockIfWriter(newLock, old(model));
    }

    method AddReaderLock(txnId: nat, recordId: nat) returns (newLock: LockNode?)
      requires Valid() && Inv(model) && txnId < |lockPerTxn| && recordId < |lockPerRecord| && !Waiting(model, txnId)
      modifies this, nodes
      ensures Valid() && Inv(model)
      ensures match Request(old(model), txnId, recordId, Read)
              case None => newLock == null && model == old(model) && nodes == old(nodes)
              case Some(m) =>
                && model == m && newLock != null && fresh(newLock) && nodes == old(nodes) + {newLock}
                && newLock.Id() == Node(txnId, recordId) && newLock.lockMode == Read
                && newLock.locked == MustWait(old(model).queues[recordId], Read)
      ensures newLock == null <==> Deadlock(old(model), txnId, recordId)
    {
      var deadlock := CheckDeadlock(txnId, recordId);
      if deadlock {
        return null;
      }
      if HasTxn(model.queues[recordId], txnId) { RelockRefused(model, txnId, recordId, Read); }
      RequestKeepsInv(model, txnId, recordId, Read);
      newLock := InsertReader(txnId, recordId);
    }

    /** The part of `addWriterLock` behind the deadlock test. */
    method InsertWriter(txnId: nat, recordId: nat) returns (newLock: LockNode)
      requires Valid() && txnId < |lockPerTxn| && recordId < |lockPerRecord|
      requires !HasTxn(model.queues[recordId], txnId)
      modifies this, nodes
      ensures Valid() && fresh(newLock) && nodes == old(nodes) + {newLock} && |lockPerTxn| == old(|lockPerTxn|)
      ensures newLock.Id() == Node(txnId, recordId) && newLock.lockMode == Write
      ensures newLock.locked == MustWait(old(model.queues[recordId]), Write)
      ensures model == Appended(old(model), recordId, Entry(txnId, Write, newLock.locked))
    {
      newLock := new LockNode(Write, txnId, recordId);
      TailOf(recordId);
      assert IsList(lists[recordId], model.queues[recordId], lockPerRecord[recordId], recordId);
      var empty := lockPerRecord[recordId].tail == null;
      Append(newLock);
      SetLocked(newLock, !empty);
      AppendedFlag(old(model), recordId, Entry(txnId, Write, false), !empty);
    }

    method AddWriterLock(txnId: nat, recordId: nat) returns (newLock: LockNode?)
      requires Valid() && Inv(model) && txnId < |lockPerTxn| && recordId < |lockPerRecord| && !Waiting(model, txnId)
      modifies this, nodes
      ensures Valid() && Inv(model)
      ensures match Request(old(model), txnId, recordId, Write)
              case None => newLock == null && model == old(model) && nodes == old(nodes)
              case Some(m) =>
                && model == m && newLock != null && fresh(newLock) && nodes == old(nodes) + {newLock}
                && newLock.Id() == Node(txnId, recordId) && newLock.lockMode == Write
                && newLock.locked == MustWait(old(model).queues[recordId], Write)
      ensures newLock == null <==> Deadlock(old(model), txnId, recordId)
    {
      var deadlock := CheckDeadlock(txnId, recordId);
      if deadlock {
        return null;
      }
      if HasTxn(model.queues[recordId], txnId) { RelockRefused(model, txnId, recordId, Write); }
      RequestKeepsInv(model, txnId, recordId, Write);
      newLock := InsertWriter(txnId, recordId);
    }

    // -------------------------------------------------------------- unlock

    lemma NeighboursOf(r: nat, i: nat)
      requires ListsOk() && r < |lists| && i < |lists[r]|
      ensures var l, n := lists[r], lists[r][i];
              && n in nodes && n.recordId == r
              && n.prev == (if i == 0 then null else l[i - 1]) && n.next == (if i == |l| - 1 then null else l[i + 1])
              && (n.prev != null ==> n.prev in nodes) && (n.next != null ==> n.next in nodes)
              && lockPerRecord[r] == LockList(l[0], l[|l| - 1]) && (i > 0 ==> n != l[0])
    {
      var l := lists[r];
      assert IsList(l, model.queues[r], lockPerRecord[r], r);
      if i > 0 {
        assert LinkedAt(l, i);
        assert lists[r][i - 1] in nodes;
        NodesAreDistinct(r, 0, i);
      }
      if i < |l| - 1 {
        assert LinkedAt(l, i + 1);
        assert lists[r][i + 1] in nodes;
      }
    }

    /** myLock's neighbours, or the ends of the list, are connected around it. */
    method Unlink(myLock: LockNode)
      requires ListsOk() && myLock in nodes && myLock.recordId < |lists| && myLock in lists[myLock.recordId]
      modifies this`lockPerRecord, nodes`prev, nodes`next
      ensures var p, n, h := old(myLock.prev), old(myLock.next), old(lockPerRecord)[myLock.recordId];
              && (p != null ==> p.next == n) && (n != null ==> n.prev == p)
              && (forall m :: m in nodes && m != n ==> m.prev == old(m.prev))
              && (forall m :: m in nodes && m != p ==> m.next == old(m.next))
              && lockPerRecord == old(lockPerRecord)[myLock.recordId :=
                   LockList(if p == null then n else h.head, if n == null then p else h.tail)]
    {
      var r := myLock.recordId;
      NeighboursOf(r, At(lists[r], myLock));
      var lockList, prevLock, nextLock := lockPerRecord[r], myLock.prev, myLock.next;
      if lockList.head == myLock {
        if nextLock != null {
          lockPerRecord := lockPerRecord[r := LockList(nextLock, lockList.tail)];
          nextLock.prev := null;
        } else {
          lockPerRecord := lockPerRecord[r := LockList(null, null)];
        }
      } else {
        prevLock.next := nextLock;
        if nextLock != null {
          nextLock.prev := prevLock;
        } else {
          lockPerRecord := lockPerRecord[r := LockList(lockList.head, prevLock)];
        }
      }
    }

    /** The links of l skip its object at i. */
    ghost predicate Skips(l: seq<LockNode>, i: nat, h: LockList)
      requires i < |l|
      reads l
    {
      && (forall k :: 0 < k < |l| && k != i && k != i + 1 ==> LinkedAt(l, k))
      && (i > 0 ==> l[0].prev == null && h.head == l[0])
      && (i < |l| - 1 ==> l[|l| - 1].next == null && h.tail == l[|l| - 1])
      && (i == 0 ==> if |l| == 1 then h.head == null else h.head == l[1] && l[1].prev == null)
      && (i == |l| - 1 ==> if i == 0 then h.tail == null else h.tail == l[i - 1] && l[i - 1].next == null)
      && (0 < i < |l| - 1 ==> l[i + 1].prev == l[i - 1] && l[i - 1].next == l[i + 1])
    }

    lemma SkippedIsList(l: seq<LockNode>, q: seq<Entry>, i: nat, h: LockList, r: nat)
      requires i < |l| == |q| && Skips(l, i, h)
      requires forall k :: 0 <= k < |l| ==> l[k].recordId == r && q[k] == Entry(l[k].txnId, l[k].lockMode, l[k].locked)
      ensures IsList(l[..i] + l[i + 1..], Without(q, i), h, r)
    {
      var l', q' := l[..i] + l[i + 1..], Without(q, i);
      assert forall k :: 0 <= k < |l'| ==> l'[k] == l[Origin(i, k)] && q'[k] == q[Origin(i, k)];
      forall k | 0 < k < |l'| ensures LinkedAt(l', k) {
        var a := Origin(i, k);
        if k != i { assert LinkedAt(l, a); }
        assert l'[k] == l[a] && l'[k - 1] == if k == i then l[i - 1] else l[a - 1];
      }
    }

    /** After `Unlink` the list skips myLock. */
    method SkipOver(myLock: LockNode)
      requires ListsOk() && myLock in nodes && myLock.recordId < |lists| && myLock in lists[myLock.recordId]
      modifies this`lockPerRecord, nodes`prev, nodes`next
      ensures var r, i := myLock.recordId, At(lists[myLock.recordId], myLock);
              && |lockPerRecord| == |old(lockPerRecord)|
              && (forall x :: 0 <= x < |lockPerRecord| && x != r ==> lockPerRecord[x] == old(lockPerRecord)[x])
              && Skips(lists[r], i, lockPerRecord[r])
      ensures forall m :: m in nodes && m.recordId != myLock.recordId ==> m.prev == old(m.prev) && m.next == old(m.next)
    {
      var r := myLock.recordId;
      ghost var l, i := lists[r], At(lists[r], myLock);
      ghost var p, n := myLock.prev, myLock.next;
      NeighboursOf(r, i);
      assert IsList(l, model.queues[r], lockPerRecord[r], r);
      forall k | 0 <= k < |l|
        ensures l[k] in nodes && (k != i + 1 ==> l[k] != n) && (k + 1 != i ==> l[k] != p)
      {
        assert lists[r][k] in nodes;
        if 0 < i && k != i - 1 { NodesAreDistinct(r, i - 1, k); }
        if i < |l| - 1 && k != i + 1 { NodesAreDistinct(r, i + 1, k); }
      }
      assert n != null ==> n.recordId == r;
      assert p != null ==> p.recordId == r;
      Unlink(myLock);
      forall k | 0 < k < |l| && k != i && k != i + 1 ensures LinkedAt(l, k) {
        assert old(LinkedAt(l, k));
      }
    }

    /** The record's list after `Unlink`. */
    method Relink(myLock: LockNode) returns (ghost l: seq<LockNode>, ghost q: seq<Entry>)
      requires ListsOk() && myLock in nodes && myLock.recordId < |lists| && myLock in lists[myLock.recordId]
      modifies this`lockPerRecord, nodes`prev, nodes`next
      ensures |lockPerRecord| == |old(lockPerRecord)| && |model.queues[myLock.recordId]| == |lists[myLock.recordId]|
      ensures var r, i := myLock.recordId, At(lists[myLock.recordId], myLock);
              && l == lists[r][..i] + lists[r][i + 1..] && q == Without(model.queues[r], i)
              && IsList(l, q, lockPerRecord[r], r)
              && (forall x :: 0 <= x < |lockPerRecord| && x != r ==> lockPerRecord[x] == old(lockPerRecord)[x])
      ensures forall m :: m in nodes && m.recordId != myLock.recordId ==> m.prev == old(m.prev) && m.next == old(m.next)
    {
      var r := myLock.recordId;
      ghost var l0, q0, i := lists[r], model.queues[r], At(lists[r], myLock);
      assert IsList(l0, q0, lockPerRecord[r], r);
      SkipOver(myLock);
      SkippedIsList(l0, q0, i, lockPerRecord[r], r);
      l, q := l0[..i] + l0[i + 1..], Without(q0, i);
    }

    twostate lemma ListsShrank(gone: LockNode)
      requires old(ListsOk()) && gone.recordId < |old(lists)| == |lockPerRecord| && gone in old(lists[gone.recordId])
      requires |old(model.queues[gone.recordId])| == |old(lists[gone.recordId])|
      requires nodes == old(nodes) - {gone}
      requires var r, l := gone.recordId, old(lists[gone.recordId]);
               var i := At(l, gone);
               && lists == old(lists)[r := l[..i] + l[i + 1..]]
               && model.queues == old(model.queues)[r := Without(old(model.queues[r]), i)]
               && IsList(lists[r], model.queues[r], lockPerRecord[r], r)
               && (forall x :: 0 <= x < |lists| && x != r ==> lockPerRecord[x] == old(lockPerRecord[x]))
               && forall m :: m in old(nodes) && m.recordId != r ==>
                    m.prev == old(m.prev) && m.next == old(m.next) && m.locked == old(m.locked)
      ensures ListsOk()
    {
      var r := gone.recordId;
      var l, q := old(lists[r]), old(model.queues[r]);
      var i := At(l, gone);
      OtherListsStay(r);
      assert old(IsList(lists[r], model.queues[r], lockPerRecord[r], r));
      WithoutKeepsOnePerTxn(q, i);
      forall x, k | 0 <= x < |lists| && 0 <= k < |lists[x]| ensures lists[x][k] in nodes {
        if x == r {
          var j := Origin(i, k);
          assert lists[x][k] == l[j] && old(lists[r][j]) in old(nodes);
          assert q[j].txn == l[j].txnId && q[i].txn == l[i].txnId && q[j].txn != q[i].txn;
        } else {
          assert old(lists[x][k]) in old(nodes);
        }
      }
      forall n | n in nodes ensures n.recordId < |lists| && n in lists[n.recordId] {
        assert old(n in nodes && n in lists[n.recordId]);
        if n.recordId == r { WithoutKeepsOthers(l, i, n); }
      }
    }

    lemma WithoutKeepsOnePerTxn(q: seq<Entry>, i: nat)
      requires i < |q| && OnePerTxn(q)
      ensures OnePerTxn(Without(q, i))
    {
      var q' := Without(q, i);
      assert forall k :: 0 <= k < |q'| ==> q'[k] == q[Origin(i, k)];
    }

    lemma WithoutKeepsOthers(l: seq<LockNode>, i: nat, n: LockNode)
      requires i < |l| && n in l && n != l[i]
      ensures n in l[..i] + l[i + 1..]
    {
      var j :| 0 <= j < |l| && l[j] == n;
      if j < i {
        assert (l[..i] + l[i + 1..])[j] == n;
      } else {
        assert (l[..i] + l[i + 1..])[j - 1] == n;
      }
    }

    /** myLock leaves its list and is no longer live. */
    method Splice(myLock: LockNode)
      requires ListsOk() && myLock in nodes && myLock.recordId < |lists| && myLock in lists[myLock.recordId]
      modifies this`lockPerRecord, this`lists, this`nodes, this`model, nodes`prev, nodes`next
      ensures ListsOk() && nodes == old(nodes) - {myLock} && model.chains == old(model.chains)
      ensures |old(model.queues)[myLock.recordId]| == |old(lists)[myLock.recordId]|
      ensures model.queues == old(model.queues)[myLock.recordId :=
                Without(old(model.queues)[myLock.recordId], At(old(lists)[myLock.recordId], myLock))]
    {
      var r := myLock.recordId;
      ghost var l, q := Relink(myLock);
      lists := lists[r := l];
      nodes := nodes - {myLock};
      model := model.(queues := model.queues[r := q]);
      assert lists[r] == l && model.queues[r] == q;
      assert IsList(l, q, lockPerRecord[r], r);
      ListsShrank(myLock);
    }

    static lemma WakeAt(q: seq<Entry>, k: nat, i: nat)
      requires 0 < i <= |q| && k < |q| && (forall j :: 0 <= j < i ==> q[j].mode == Read)
      requires i < |q| ==> q[i].mode == Write
      ensures Wake(q)[k] == if k < i then q[k].(locked := false) else q[k]
    {
      if i <= k { assert q[i].mode != Read; }
    }

    /** All consecutive readers from the head are woken. */
    static method WakeReaders(nextLock: LockNode, ghost l: seq<LockNode>, ghost q: seq<Entry>, ghost h: LockList, ghost r: nat)
      requires IsList(l, q, h, r) && h.head == nextLock && nextLock.lockMode == Read
      requires forall j, k :: 0 <= j < k < |l| ==> l[j] != l[k]
      modifies l`locked
      ensures forall k :: 0 <= k < |l| ==> Wake(q)[k] == Entry(l[k].txnId, l[k].lockMode, l[k].locked)
    {
      assert q[0].mode == Read;
      var iter: LockNode? := nextLock;
      ghost var i := 0;
      while iter != null && iter.lockMode == Read
        invariant 0 <= i <= |l| && iter == (if i == |l| then null else l[i])
        invariant forall k :: 0 <= k < i ==> q[k].mode == Read
        invariant forall k :: 0 <= k < |l| ==> l[k].locked == (if k < i then false else q[k].locked)
        decreases |l| - i
      {
        iter.locked := false;
        assert i + 1 < |l| ==> old(LinkedAt(l, i + 1));
        iter := iter.next;
        i := i + 1;
      }
      forall k | 0 <= k < |q| ensures Wake(q)[k] == Entry(l[k].txnId, l[k].lockMode, l[k].locked) {
        WakeAt(q, k, i);
      }
    }

    /** The new head is woken; if it reads, so are all readers right behind it. */
    method WakeNext(recordId: nat)
      requires ListsOk() && recordId < |lists| && lists[recordId] != []
      modifies nodes`locked, this`model
      ensures ListsOk() && model.chains == old(model.chains)
      ensures model.queues == old(model.queues)[recordId := Wake(old(model.queues)[recordId])]
    {
      ghost var l, q := lists[recordId], model.queues[recordId];
      assert IsList(l, q, lockPerRecord[recordId], recordId);
      forall k | 0 <= k < |l| ensures l[k] in nodes { assert lists[recordId][k] in nodes; }
      forall j, k | 0 <= j < k < |l| ensures l[j] != l[k] { NodesAreDistinct(recordId, j, k); }
      var nextLock := lockPerRecord[recordId].head;
      if nextLock.lockMode == Write {
        WakeWriter(q);
        nextLock.locked := false;
      } else {
        WakeReaders(nextLock, l, q, lockPerRecord[recordId], recordId);
      }
      model := model.(queues := model.queues[recordId := Wake(q)]);
      FlagsChanged(recordId);
    }

    static lemma WakeWriter(q: seq<Entry>)
      requires q != [] && q[0].mode == Write
      ensures Wake(q) == q[0 := q[0].(locked := false)]
    {
      forall k | 0 < k < |q| ensures !Granted(q, k) { assert q[0].mode != Read; }
    }

    /** The object is where its transaction is in the list, and at the head if that is the first place. */
    lemma AtIsIndexOf(n: LockNode)
      requires ListsOk() && n in nodes
      ensures |model.queues[n.recordId]| == |lists[n.recordId]| && HasTxn(model.queues[n.recordId], n.txnId)
      ensures At(lists[n.recordId], n) == IndexOf(model.queues[n.recordId], n.txnId)
      ensures lockPerRecord[n.recordId].head == n <==> IndexOf(model.queues[n.recordId], n.txnId) == 0
    {
      var r := n.recordId;
      assert IsList(lists[r], model.queues[r], lockPerRecord[r], r);
      var i := At(lists[r], n);
      assert model.queues[r][i].txn == n.txnId;
      IndexOfUnique(model.queues[r], n.txnId, i);
      NeighboursOf(r, i);
    }

    /** The wake-up sequence, when the object that left was the head and has a successor. */
    method WakeIfHead(recordId: nat, wasHead: bool)
      requires ListsOk() && recordId < |lists|
      modifies nodes`locked, this`model
      ensures ListsOk() && model.chains == old(model.chains)
      ensures var q := old(model.queues)[recordId];
              model.queues == old(model.queues)[recordId := if wasHead then Wake(q) else q]
    {
      TailOf(recordId);
      assert IsList(lists[recordId], model.queues[recordId], lockPerRecord[recordId], recordId);
      if wasHead && lockPerRecord[recordId].head != null {
        WakeNext(recordId);
      }
    }

    static lemma ReleasedQueues(queues: seq<seq<Entry>>, r: nat, t: nat, wasHead: bool)
      requires r < |queues| && HasTxn(queues[r], t) && (wasHead <==> IndexOf(queues[r], t) == 0)
      ensures var spliced := queues[r := Without(queues[r], IndexOf(queues[r], t))];
              spliced[r := if wasHead then Wake(spliced[r]) else spliced[r]] == queues[r := ReleaseTxn(queues[r], t)]
    {
    }

    /** One round of the loop in `unlock`: myLock leaves its list, and whoever waited for it is woken. */
    method ReleaseLock(myLock: LockNode)
      requires ListsOk() && myLock in nodes && myLock.recordId < |lists|
      modifies this`lockPerRecord, this`lists, this`nodes, this`model, nodes`prev, nodes`next, nodes`locked
      ensures ListsOk() && nodes == old(nodes) - {myLock} && model.chains == old(model.chains)
      ensures model.queues == old(model.queues)[myLock.recordId :=
                ReleaseTxn(old(model.queues)[myLock.recordId], myLock.txnId)]
    {
      var r := myLock.recordId;
      AtIsIndexOf(myLock);
      var wasHead := lockPerRecord[r].head == myLock;
      ReleasedQueues(model.queues, r, myLock.txnId, wasHead);
      Splice(myLock);
      WakeIfHead(r, wasHead);
    }

    /** The tables after the first k objects of t's deque were released. */
    ghost predicate Releasing(before: Locks, live: set<LockNode>, t: nat, k: nat)
      requires t < |before.chains|
      reads this, nodes
    {
      && ListsOk() && t < |lockPerTxn| && k <= |lockPerTxn[t]| == |before.chains[t]|
      && model.chains == before.chains && |model.queues| == |before.queues|
      && nodes == live - (set n | n in lockPerTxn[t][..k])
      && forall r :: 0 <= r < |before.queues| ==>
           model.queues[r] == if r in before.chains[t][..k] then ReleaseTxn(before.queues[r], t) else before.queues[r]
    }

    /** What is to be released is there, and fits the chain. */
    ghost predicate ToRelease(before: Locks, live: set<LockNode>, t: nat)
      requires t < |before.chains|
      reads this`lockPerTxn
    {
      && t < |lockPerTxn| && |lockPerTxn[t]| == |before.chains[t]| && NoRepeats(before.chains[t])
      && forall k :: 0 <= k < |lockPerTxn[t]| ==>
           lockPerTxn[t][k] in live && lockPerTxn[t][k].txnId == t && lockPerTxn[t][k].recordId == before.chains[t][k]
    }

    lemma NextIsLive(before: Locks, live: set<LockNode>, t: nat, k: nat)
      requires t < |before.chains| && Releasing(before, live, t, k) && k < |lockPerTxn[t]|
      requires ToRelease(before, live, t)
      ensures lockPerTxn[t][k] in nodes && lockPerTxn[t][k].recordId !in before.chains[t][..k]
    {
      var c := lockPerTxn[t];
      forall j | 0 <= j < k ensures c[j] != c[k] && before.chains[t][j] != c[k].recordId {
        assert c[j].recordId == before.chains[t][j] && c[k].recordId == before.chains[t][k];
      }
    }

    lemma ReleasedOneMore(before: Locks, live: set<LockNode>, t: nat, k: nat, n: LockNode)
      requires t < |before.chains| && ListsOk() && t < |lockPerTxn| && k < |lockPerTxn[t]| == |before.chains[t]|
      requires n == lockPerTxn[t][k] && n.recordId == before.chains[t][k] && NoRepeats(before.chains[t])
      requires model.chains == before.chains && |model.queues| == |before.queues| && n.recordId < |before.queues|
      requires nodes == live - (set m | m in lockPerTxn[t][..k]) - {n}
      requires forall r :: 0 <= r < |before.queues| ==>
                 model.queues[r] == if r == n.recordId || r in before.chains[t][..k] then ReleaseTxn(before.queues[r], t)
                                    else before.queues[r]
      ensures Releasing(before, live, t, k + 1)
    {
      assert lockPerTxn[t][..k + 1] == lockPerTxn[t][..k] + [n];
      assert before.chains[t][..k + 1] == before.chains[t][..k] + [n.recordId];
    }

    method ReleaseRound(txnId: nat, k: nat, ghost before: Locks, ghost live: set<LockNode>)
      requires txnId < |before.chains| && ToRelease(before, live, txnId)
      requires Releasing(before, live, txnId, k) && k < |lockPerTxn[txnId]|
      modifies this`lockPerRecord, this`lists, this`nodes, this`model, nodes`prev, nodes`next, nodes`locked
      ensures Releasing(before, live, txnId, k + 1) && ToRelease(before, live, txnId) && nodes <= old(nodes)
    {
      NextIsLive(before, live, txnId, k);
      var myLock := lockPerTxn[txnId][k];
      ReleaseLock(myLock);
      ReleasedOneMore(before, live, txnId, k, myLock);
    }

    lemma ReleasingStart(t: nat)
      requires Valid() && t < |lockPerTxn|
      ensures t < |model.chains| && Releasing(model, nodes, t, 0) && ToRelease(model, nodes, t)
    {
      assert IsChain(lockPerTxn[t], model.chains[t], t);
      assert lockPerTxn[t][..0] == [] && model.chains[t][..0] == [];
    }

    /** The rest of the loop of `unlock`, from the k-th object on. */
    method ReleaseFrom(txnId: nat, k: nat, ghost before: Locks, ghost live: set<LockNode>)
      requires txnId < |before.chains| && Releasing(before, live, txnId, k) && ToRelease(before, live, txnId)
      modifies this`lockPerRecord, this`lists, this`nodes, this`model, nodes`prev, nodes`next, nodes`locked
      ensures Releasing(before, live, txnId, |lockPerTxn[txnId]|)
    {
      for i := k to |lockPerTxn[txnId]|
        invariant Releasing(before, live, txnId, i) && ToRelease(before, live, txnId) && nodes <= old(nodes)
      {
        ReleaseRound(txnId, i, before, live);
      }
    }

    /** The deques after the loop in `unlock` and its final clear. */
    twostate lemma ChainsCleared(t: nat)
      requires old(ChainsOk()) && t < |old(lockPerTxn)|
      requires lockPerTxn == old(lockPerTxn)[t := []] && model.chains == old(model.chains)[t := []]
      requires nodes == old(nodes) - set n | n in old(lockPerTxn[t])
      requires forall n :: n in old(nodes) ==> n.nextInTxn == old(n.nextInTxn)
      ensures ChainsOk()
    {
      OtherChainsStay(t);
      assert old(IsChain(lockPerTxn[t], model.chains[t], t));
      forall u, k | 0 <= u < |lockPerTxn| && 0 <= k < |lockPerTxn[u]| ensures lockPerTxn[u][k] in nodes {
        assert old(IsChain(lockPerTxn[u], model.chains[u], u)) && old(lockPerTxn[u][k]) in old(nodes);
        assert old(lockPerTxn[u][k]).txnId == u;
      }
    }

    lemma AllReleased(before: Locks, live: set<LockNode>, t: nat)
      requires t < |before.chains| && WellFormed(before)
      requires t < |lockPerTxn| && Releasing(before, live, t, |lockPerTxn[t]|)
      ensures model.queues == LockModel.Unlock(before, t).queues && model.chains == before.chains
      ensures nodes == live - set n | n in lockPerTxn[t]
    {
      var c, recs := lockPerTxn[t], before.chains[t];
      assert c[..|c|] == c && recs[..|c|] == recs;
    }

    /** The loop of `unlock`. */
    method ReleaseAll(txnId: nat)
      requires Valid() && txnId < |lockPerTxn|
      modifies this`lockPerRecord, this`lists, this`nodes, this`model, nodes`prev, nodes`next, nodes`locked
      ensures ListsOk() && nodes == old(nodes) - (set n | n in lockPerTxn[txnId])
      ensures txnId < |old(model).chains| && model.chains == old(model).chains
      ensures model.queues == LockModel.Unlock(old(model), txnId).queues
    {
      ReleasingStart(txnId);
      ReleaseFrom(txnId, 0, model, nodes);
      AllReleased(old(model), old(nodes), txnId);
    }

    /** The loop, and the clear of the deque after it. */
    method UnlockLinks(txnId: nat)
      requires Valid() && txnId < |lockPerTxn|
      modifies this, nodes`prev, nodes`next, nodes`locked
      ensures ListsOk() && ChainsOk() && model == LockModel.Unlock(old(model), txnId)
      ensures nodes == old(nodes) - set n | n in old(lockPerTxn)[txnId]
    {
      ReleaseAll(txnId);
      label Released:
      lockPerTxn := lockPerTxn[txnId := []];
      model := model.(chains := model.chains[txnId := []]);
      ListsStay@Released();
      ChainsCleared(txnId);
    }

    /** All lock objects of the transaction leave, and those that can be granted now are woken. */
    method Unlock(txnId: nat)
      requires Valid() && Inv(model) && txnId < |lockPerTxn|
      modifies this, nodes`prev, nodes`next, nodes`locked
      ensures Valid() && model == LockModel.Unlock(old(model), txnId)
      ensures nodes == old(nodes) - set n | n in old(lockPerTxn)[txnId]
      ensures !Waiting(old(model), txnId) ==> Inv(model)
    {
      UnlockWellFormed(model, txnId);
      if !Waiting(model, txnId) { UnlockKeepsInv(model, txnId); }
      UnlockLinks(txnId);
    }

    /** No pointer of a live object, and no head, tail or deque entry, leads out of the live objects. */
    lemma NothingDangles(n: LockNode, r: nat, t: nat, k: nat)
      requires Valid() && n in nodes && r < |lockPerRecord| && t < |lockPerTxn| && k < |lockPerTxn[t]|
      ensures n.prev != null ==> n.prev in nodes
      ensures n.next != null ==> n.next in nodes
      ensures n.nextInTxn != null ==> n.nextInTxn in nodes
      ensures lockPerRecord[r].head != null ==> lockPerRecord[r].head in nodes
      ensures lockPerRecord[r].tail != null ==> lockPerRecord[r].tail in nodes
      ensures lockPerTxn[t][k] in nodes
    {
      LinksAreEdges(n);
      var i := PlaceInList(n);
      NeighboursOf(n.recordId, i);
      TailOf(r);
      assert IsList(lists[r], model.queues[r], lockPerRecord[r], r);
    }
  }
}
