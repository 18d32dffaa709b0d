/** What the list variants have in common: the set they should behave like, and the sorted chain of nodes between two
    sentinels, described by the set of nodes that are in it. */
module SetSpec {

  datatype Op = Add | Remove | Contains

  /** A call that took effect: call is its number, result what it returns. */
  datatype Event = Event(call: nat, op: Op, key: int, result: bool)

  /** A call under way.  node is the node malloc'ed by an add; since is history: how many calls had taken effect when it
      was invoked. */
  datatype Call = Call(id: nat, op: Op, key: int, node: nat, since: nat)

  datatype Returned = Returned(call: Call, result: bool, at: nat, end: nat)

  /** The call is in the log, between its invocation and end, with this result. */
  predicate TookEffect(log: seq<Event>, call: Call, result: bool, at: nat, end: nat) {
    call.since <= at < end <= |log| && log[at] == Event(call.id, call.op, call.key, result)
  }

  /** What a set answers. */
  function Answer(contents: set<int>, op: Op, key: int): bool {
    match op
    case Add => key !in contents
    case Remove => key in contents
    case Contains => key in contents
  }

  function Apply(contents: set<int>, op: Op, key: int): set<int> {
    match op
    case Add => contents + {key}
    case Remove => contents - {key}
    case Contains => contents
  }

  /** The contents of an initially empty set after the calls in the log. */
  function Replay(log: seq<Event>): set<int> {
    if log == [] then {}
    else
      var last := log[|log| - 1];
      Apply(Replay(log[..|log| - 1]), last.op, last.key)
  }

  /** Every call in the log returns what the set would, and no call is there twice. */
  ghost predicate Legal(log: seq<Event>) {
    && (forall k :: 0 <= k < |log| ==> log[k].result == Answer(Replay(log[..k]), log[k].op, log[k].key))
    && forall j, k :: 0 <= j < k < |log| ==> log[j].call != log[k].call
  }

  /** Of the first n calls in the log, one adds the key, and none after that removes it. */
  predicate Present(log: seq<Event>, n: nat, key: int) {
    exists i :: 0 <= i < n && i < |log| && log[i].op.Add? && log[i].key == key && NotRemoved(log, i, n, key)
  }

  predicate NotRemoved(log: seq<Event>, i: nat, n: nat, key: int) {
    forall j :: i < j < n && j < |log| && log[j].op.Remove? ==> log[j].key != key
  }

  /** After n calls, add succeeds iff the key is not there, and remove and contains iff it is. */
  predicate RightAnswer(log: seq<Event>, n: nat, op: Op, key: int, result: bool) {
    if op.Add? then result == !Present(log, n, key) else result == Present(log, n, key)
  }

  lemma {:induction false} ReplayIsPresent(log: seq<Event>, n: nat, key: int)
    requires n <= |log|
    ensures key in Replay(log[..n]) <==> Present(log, n, key)
  {
    if n > 0 {
      ReplayIsPresent(log, n - 1, key);
      assert log[..n][..n - 1] == log[..n - 1];
      var last := log[n - 1];
      if Present(log, n - 1, key) && !(last.op.Remove? && last.key == key) {
        var i :| 0 <= i < n - 1 && log[i].op.Add? && log[i].key == key && NotRemoved(log, i, n - 1, key);
        assert NotRemoved(log, i, n, key);
      }
      if last.op.Add? && last.key == key { assert NotRemoved(log, n - 1, n, key); }
      if Present(log, n, key) {
        var i :| 0 <= i < n && log[i].op.Add? && log[i].key == key && NotRemoved(log, i, n, key);
        if i < n - 1 { assert NotRemoved(log, i, n - 1, key); }
      }
    }
  }

  /** What the answers in a legal log are, without the set: a key is there if it was added and not removed since. */
  lemma AnswersOfASet(log: seq<Event>, n: nat)
    requires Legal(log) && n < |log|
    ensures RightAnswer(log, n, log[n].op, log[n].key, log[n].result)
  {
    ReplayIsPresent(log, n, log[n].key);
  }

  /** The i-th call in the log was made, with this operation and key, before it took effect. */
  predicate WasMade(log: seq<Event>, made: seq<Call>, i: nat) {
    && i < |log| && log[i].call < |made|
    && var call := made[log[i].call];
       call.id == log[i].call && call.op == log[i].op && call.key == log[i].key && call.since <= i
  }

  /** The log is that of a set with these contents now, and of calls that were made. */
  ghost predicate LogOk(log: seq<Event>, made: seq<Call>, contents: set<int>) {
    Legal(log) && Replay(log) == contents && forall i :: 0 <= i < |log| ==> WasMade(log, made, i)
  }

  lemma MadeStays(log: seq<Event>, made: seq<Call>, made': seq<Call>, contents: set<int>)
    requires LogOk(log, made, contents) && made <= made'
    ensures LogOk(log, made', contents)
  {
    forall i | 0 <= i < |log| ensures WasMade(log, made', i) { assert WasMade(log, made, i); }
  }

  lemma ReplayAppend(log: seq<Event>, e: Event)
    ensures Replay(log + [e]) == Apply(Replay(log), e.op, e.key)
  {
    assert (log + [e])[..|log|] == log;
  }

  lemma LegalAppend(log: seq<Event>, e: Event)
    requires Legal(log) && e.result == Answer(Replay(log), e.op, e.key)
    requires forall k :: 0 <= k < |log| ==> log[k].call != e.call
    ensures Legal(log + [e])
  {
    var longer := log + [e];
    forall k | 0 <= k < |longer| ensures longer[k].result == Answer(Replay(longer[..k]), longer[k].op, longer[k].key) {
      assert longer[..k] == log[..k];
      if k == |log| { assert log[..k] == log; }
    }
  }

  /** A call takes effect. */
  lemma LogGrows(log: seq<Event>, made: seq<Call>, contents: set<int>, call: Call, result: bool)
    requires LogOk(log, made, contents) && result == Answer(contents, call.op, call.key)
    requires call.id < |made| && made[call.id] == call && call.since <= |log|
    requires forall i :: 0 <= i < |log| ==> log[i].call != call.id
    ensures LogOk(log + [Event(call.id, call.op, call.key, result)], made, Apply(contents, call.op, call.key))
  {
    var e := Event(call.id, call.op, call.key, result);
    LegalAppend(log, e);
    ReplayAppend(log, e);
    forall i | 0 <= i < |log| + 1 ensures WasMade(log + [e], made, i) {
      if i < |log| { assert WasMade(log, made, i); }
    }
  }
}

module SortedChain {
  import opened SetSpec

  type Addr = nat

  const HEAD: Addr := 0
  const TAIL: Addr := 1
  const INT_MIN := -0x8000_0000
  const INT_MAX := 0x7fff_ffff

  /** The place of a node in the order: its key, and the head before all, even before a key equal to its own. */
  function Rank(key: map<Addr, int>, x: Addr): int
    requires x in key
  {
    if x == HEAD then INT_MIN - 1 else key[x]
  }

  /** next of x is the node with the least greater key. */
  ghost predicate Follows(key: map<Addr, int>, next: map<Addr, Addr>, live: set<Addr>, x: Addr)
    requires live <= key.Keys && x in key
  {
    && x in next && next[x] in live && Rank(key, x) < Rank(key, next[x])
    && forall y :: y in live && Rank(key, x) < Rank(key, y) ==> Rank(key, next[x]) <= Rank(key, y)
  }

  /** live is a chain of nodes from HEAD to TAIL, in strictly ascending order of keys. */
  ghost predicate ChainOk(key: map<Addr, int>, next: map<Addr, Addr>, live: set<Addr>) {
    && live <= key.Keys && HEAD in live && TAIL in live && key[HEAD] == INT_MIN && key[TAIL] == INT_MAX
    && (forall x :: x in live && x != HEAD && x != TAIL ==> INT_MIN <= key[x] < INT_MAX)
    && (forall x, y :: x in live && y in live && Rank(key, x) == Rank(key, y) ==> x == y)
    && forall x {:trigger Follows(key, next, live, x)} :: x in live && x != TAIL ==> Follows(key, next, live, x)
  }

  /** The keys between the sentinels. */
  function Contents(key: map<Addr, int>, live: set<Addr>): set<int>
    requires live <= key.Keys
  {
    set x | x in live && x != HEAD && x != TAIL :: key[x]
  }

  /** The nodes passed on the way from x to TAIL. */
  ghost function NodesFrom(key: map<Addr, int>, next: map<Addr, Addr>, live: set<Addr>, x: Addr): seq<Addr>
    requires ChainOk(key, next, live) && x in live
    decreases INT_MAX - Rank(key, x)
  {
    if x == TAIL then [x]
    else
      assert Follows(key, next, live, x);
      [x] + NodesFrom(key, next, live, next[x])
  }

  /** The chain really is one: the walk from x along next ends at TAIL, meets the nodes with keys from x's on and no
      others, and meets them in strictly ascending order. */
  lemma {:induction false} WalkMeetsAll(key: map<Addr, int>, next: map<Addr, Addr>, live: set<Addr>, x: Addr)
    requires ChainOk(key, next, live) && x in live
    ensures var w := NodesFrom(key, next, live, x);
            && w[|w| - 1] == TAIL
            && (forall y :: y in w <==> y in live && Rank(key, x) <= Rank(key, y))
            && forall i, j :: 0 <= i < j < |w| ==> w[i] in key && w[j] in key && Rank(key, w[i]) < Rank(key, w[j])
    decreases INT_MAX - Rank(key, x)
  {
    if x != TAIL {
      assert Follows(key, next, live, x);
      var rest := NodesFrom(key, next, live, next[x]);
      WalkMeetsAll(key, next, live, next[x]);
      var w := NodesFrom(key, next, live, x);
      assert w == [x] + rest;
      forall i, j | 0 <= i < j < |w| ensures w[i] in key && w[j] in key && Rank(key, w[i]) < Rank(key, w[j]) {
        assert w[j] == rest[j - 1] && rest[j - 1] in rest;
        if i > 0 { assert w[i] == rest[i - 1]; }
      }
    }
  }

  /** Between neighbours there is at most the key of the second. */
  lemma FoundIff(key: map<Addr, int>, next: map<Addr, Addr>, live: set<Addr>, prev: Addr, k: int)
    requires ChainOk(key, next, live) && prev in live && prev != TAIL && prev in next && next[prev] in key
    requires Rank(key, prev) < k <= Rank(key, next[prev]) && k < INT_MAX
    ensures k in Contents(key, live) <==> key[next[prev]] == k
  {
    assert Follows(key, next, live, prev);
    if k in Contents(key, live) {
      var x :| x in live && x != HEAD && x != TAIL && key[x] == k;
    }
    if key[next[prev]] == k {
      assert next[prev] in live && next[prev] != HEAD && next[prev] != TAIL;
    }
  }

  /** Taking the key of the second neighbour for an answer is right for every key but that of the tail, which is always
      found though no set of keys below it has it. */
  lemma FoundUnlessMax(key: map<Addr, int>, next: map<Addr, Addr>, live: set<Addr>, prev: Addr, k: int)
    requires ChainOk(key, next, live) && prev in live && prev != TAIL && prev in next && next[prev] in key
    requires Rank(key, prev) < k <= Rank(key, next[prev])
    ensures (k in Contents(key, live) <==> key[next[prev]] == k) <==> k != INT_MAX
  {
    assert Follows(key, next, live, prev);
    if k == INT_MAX {
      assert key[next[prev]] == k;
      forall x | x in live && x != HEAD && x != TAIL ensures key[x] != k {}
    } else {
      FoundIff(key, next, live, prev, k);
    }
  }

  lemma HasNext(key: map<Addr, int>, next: map<Addr, Addr>, live: set<Addr>, x: Addr)
    requires ChainOk(key, next, live) && x in live && x != TAIL
    ensures x in next
  {
    assert Follows(key, next, live, x);
  }

  /** A remove that finds that key would unlink the tail: its predecessor gets the null link of the tail, so that no
      nodes with this predecessor among them are a chain any more. */
  lemma RemovingMaxBreaks(key: map<Addr, int>, next: map<Addr, Addr>, live: set<Addr>, prev: Addr)
    requires ChainOk(key, next, live) && prev in live && prev != TAIL && prev in next && next[prev] in key
    requires Rank(key, prev) < INT_MAX <= Rank(key, next[prev])
    ensures next[prev] == TAIL && key[TAIL] == INT_MAX
    ensures forall left :: prev in left ==> !ChainOk(key, next - {prev}, left)
  {
    assert Follows(key, next, live, prev);
    forall left | prev in left ensures !ChainOk(key, next - {prev}, left) {
      if ChainOk(key, next - {prev}, left) { HasNext(key, next - {prev}, left, prev); }
    }
  }

  /** No node of the chain lies between a node and its next. */
  lemma NoneBetween(key: map<Addr, int>, next: map<Addr, Addr>, live: set<Addr>, x: Addr, y: Addr)
    requires ChainOk(key, next, live) && x in live && x != TAIL && y in live
    ensures x in next && next[x] in live && Rank(key, x) < Rank(key, next[x])
    ensures y == x || Rank(key, y) < Rank(key, x) || Rank(key, next[x]) <= Rank(key, y)
  {
    assert Follows(key, next, live, x);
  }

  /** A node is the next of one node only. */
  lemma OnePredecessor(key: map<Addr, int>, next: map<Addr, Addr>, live: set<Addr>, x: Addr, y: Addr)
    requires ChainOk(key, next, live) && x in live && y in live && x != TAIL && y != TAIL
    requires x in next && y in next && next[x] == next[y]
    ensures x == y
  {
    NoneBetween(key, next, live, x, y);
    NoneBetween(key, next, live, y, x);
  }

  /** Linking a node between neighbours. */
  lemma InsertKeeps(key: map<Addr, int>, next: map<Addr, Addr>, live: set<Addr>, prev: Addr, node: Addr)
    requires ChainOk(key, next, live) && prev in live && prev != TAIL && prev in next && next[prev] in key
    requires node in key && node !in live && node in next && next[node] == next[prev]
    requires Rank(key, prev) < key[node] < key[next[prev]]
    ensures ChainOk(key, next[prev := node], live + {node})
    ensures Contents(key, live + {node}) == Contents(key, live) + {key[node]}
  {
    var live', next' := live + {node}, next[prev := node];
    NewKey(key, next, live, prev, node);
    forall x | x in live' && x != TAIL ensures Follows(key, next', live', x) {
      if x == node { NodeFollows(key, next, live, prev, node); } else { InsertFollows(key, next, live, prev, node, x); }
    }
    InsertDistinct(key, live, node);
    ContentsInsert(key, live, node);
  }

  lemma InsertDistinct(key: map<Addr, int>, live: set<Addr>, node: Addr)
    requires live <= key.Keys && node in key && node != HEAD && forall x :: x in live ==> Rank(key, x) != key[node]
    requires forall x, y :: x in live && y in live && Rank(key, x) == Rank(key, y) ==> x == y
    ensures forall x, y :: x in live + {node} && y in live + {node} && Rank(key, x) == Rank(key, y) ==> x == y
  {
  }

  lemma NodeFollows(key: map<Addr, int>, next: map<Addr, Addr>, live: set<Addr>, prev: Addr, node: Addr)
    requires ChainOk(key, next, live) && prev in live && prev != TAIL && prev in next && next[prev] in key
    requires node in key && node !in live && node in next && next[node] == next[prev] && node != HEAD
    requires Rank(key, prev) < key[node] < key[next[prev]]
    ensures Follows(key, next[prev := node], live + {node}, node)
  {
    assert Follows(key, next, live, prev);
  }

  lemma InsertFollows(key: map<Addr, int>, next: map<Addr, Addr>, live: set<Addr>, prev: Addr, node: Addr, x: Addr)
    requires ChainOk(key, next, live) && prev in live && prev != TAIL && prev in next && next[prev] in key
    requires node in key && node !in live && Rank(key, prev) < key[node] < key[next[prev]] && x in live && x != TAIL
    ensures Follows(key, next[prev := node], live + {node}, x)
  {
    NoneBetween(key, next, live, prev, x);
    NoneBetween(key, next, live, x, prev);
    assert Follows(key, next, live, x);
  }

  lemma NewKey(key: map<Addr, int>, next: map<Addr, Addr>, live: set<Addr>, prev: Addr, node: Addr)
    requires ChainOk(key, next, live) && prev in live && prev != TAIL && prev in next && next[prev] in key
    requires node in key && node !in live && Rank(key, prev) < key[node] < key[next[prev]]
    ensures node != HEAD && INT_MIN <= key[node] < INT_MAX && forall x :: x in live ==> Rank(key, x) != key[node]
  {
    NoneBetween(key, next, live, prev, HEAD);
    forall x | x in live ensures Rank(key, x) != key[node] { NoneBetween(key, next, live, prev, x); }
    assert key[next[prev]] <= INT_MAX && INT_MIN <= key[prev];
    assert Follows(key, next, live, prev);
  }

  lemma ContentsInsert(key: map<Addr, int>, live: set<Addr>, node: Addr)
    requires live <= key.Keys && node in key && node != HEAD && node != TAIL
    ensures Contents(key, live + {node}) == Contents(key, live) + {key[node]}
  {
    var live' := live + {node};
    assert node in live';
    forall k | k in Contents(key, live) ensures k in Contents(key, live') {
      var x :| x in live && x != HEAD && x != TAIL && key[x] == k;
      assert x in live';
    }
  }

  /** Unlinking the node after prev. */
  lemma RemoveKeeps(key: map<Addr, int>, next: map<Addr, Addr>, live: set<Addr>, prev: Addr, node: Addr)
    requires ChainOk(key, next, live) && prev in live && prev != TAIL && prev in next && next[prev] == node
    requires node in next && node != TAIL
    ensures node in live && ChainOk(key, next[prev := next[node]], live - {node})
    ensures Contents(key, live - {node}) == Contents(key, live) - {key[node]}
  {
    assert Follows(key, next, live, prev) && Follows(key, next, live, node);
    var live', next' := live - {node}, next[prev := next[node]];
    forall x | x in live' && x != TAIL ensures Follows(key, next', live', x) {
      assert Follows(key, next, live, x);
      if next[x] == node { OnePredecessor(key, next, live, x, prev); }
    }
    ContentsRemove(key, live, node);
  }

  lemma ContentsRemove(key: map<Addr, int>, live: set<Addr>, node: Addr)
    requires live <= key.Keys && node in live && node != HEAD && node != TAIL
    requires forall x, y :: x in live && y in live && Rank(key, x) == Rank(key, y) ==> x == y
    ensures Contents(key, live - {node}) == Contents(key, live) - {key[node]}
  {
    var live' := live - {node};
    forall k | k in Contents(key, live) - {key[node]} ensures k in Contents(key, live') {
      var x :| x in live && x != HEAD && x != TAIL && key[x] == k;
      assert x in live';
    }
    forall k | k in Contents(key, live') ensures k in Contents(key, live) - {key[node]} {
      var x :| x in live' && x != HEAD && x != TAIL && key[x] == k;
      assert x in live;
    }
  }

  // ---------------------------------------------------------------- nodes outside the chain come and go

  lemma FollowsStays(key: map<Addr, int>, key': map<Addr, int>, next: map<Addr, Addr>, live: set<Addr>, x: Addr)
    requires live <= key.Keys && (forall y :: y in live ==> y in key' && key'[y] == key[y])
    requires x in live && Follows(key, next, live, x)
    ensures live <= key'.Keys && Follows(key', next, live, x)
  {
    forall y | y in live ensures Rank(key', y) == Rank(key, y) {}
  }

  lemma ContentsStay(key: map<Addr, int>, key': map<Addr, int>, live: set<Addr>)
    requires live <= key.Keys && forall y :: y in live ==> y in key' && key'[y] == key[y]
    ensures live <= key'.Keys && Contents(key', live) == Contents(key, live)
  {
    forall k ensures k in Contents(key', live) <==> k in Contents(key, live) {
      if k in Contents(key, live) {
        var x :| x in live && x != HEAD && x != TAIL && key[x] == k;
        assert key'[x] == k;
      }
    }
  }

  /** malloc and free of nodes outside the chain. */
  lemma ChainStays(key: map<Addr, int>, key': map<Addr, int>, next: map<Addr, Addr>, live: set<Addr>)
    requires ChainOk(key, next, live) && forall y :: y in live ==> y in key' && key'[y] == key[y]
    ensures ChainOk(key', next, live)
  {
    forall x | x in live && x != TAIL ensures Follows(key', next, live, x) {
      assert Follows(key, next, live, x);
      FollowsStays(key, key', next, live, x);
    }
    forall x, y | x in live && y in live && Rank(key', x) == Rank(key', y) ensures x == y {
      assert Rank(key, x) == Rank(key, y);
    }
  }
}
