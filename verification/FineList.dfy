/** The sorted list with hand-over-hand locking: a call holds at most two neighbouring nodes and moves along, and a
    removed node is really freed, so its address may be malloc'ed again.  Every lock, unlock, malloc, free and every
    read or write of a next pointer is one step of one thread. */
module FineList {
  import opened Options
  import opened CallHistory
  import opened SetSpec
  import opened SortedChain

  /** What a call returns; at is history: where in the log it took effect. */
  datatype Outcome = Outcome(result: bool, at: nat)

  /** The next step. */
  datatype Pc =
    | LockHead
    | LockNext(prev: Addr, curr: Addr)                   // holds prev, is to lock curr
    | Test(prev: Addr, curr: Addr)                       // holds both
    | Advance(prev: Addr)                                // holds prev, is to read its next
    | SetNext(prev: Addr, curr: Addr)                    // add: prev->next is the node, node->next still unset
    | Unlink(prev: Addr, curr: Addr, succ: Addr)         // remove: succ was read from curr->next
    | UnlockPrev(prev: Addr, curr: Addr, ret: Outcome)
    | UnlockCurr(curr: Addr, ret: Outcome)
    | Free(curr: Addr, ret: Outcome)

  datatype Thread = Idle | Busy(call: Call, pc: Pc)

  /** The heap is key and next: an allocated node has a key, and a next once one was written.  live, chain, log, results
      and made are history: the nodes of the list, its links as they are outside the middle of an add, the calls in
      the order they took effect, those that returned, and all calls made. */
  datatype State = State(key: map<Addr, int>, next: map<Addr, Addr>, locks: map<Addr, nat>, threads: seq<Thread>,
                         live: set<Addr>, chain: map<Addr, Addr>, log: seq<Event>, results: seq<Returned>,
                         made: seq<Call>)

  datatype Action = Invoke(op: Op, key: int, node: Addr) | Step

  // ---------------------------------------------------------------- steps

  function Init(numThread: nat): State {
    State(map[HEAD := INT_MIN, TAIL := INT_MAX], map[HEAD := TAIL], map[], seq(numThread, _ => Idle),
          {HEAD, TAIL}, map[HEAD := TAIL], [], [], [])
  }

  /** The node whose mutex the next step locks. */
  function Wanted(pc: Pc): set<Addr> {
    match pc
    case LockHead => {HEAD}
    case LockNext(_, curr) => {curr}
    case _ => {}
  }

  predicate Waiting(s: State, t: nat)
    requires t < |s.threads|
  {
    s.threads[t].Busy? && exists x :: x in Wanted(s.threads[t].pc) && x in s.locks
  }

  /** The nodes the next step touches are allocated, and what it reads was written. */
  predicate Accessible(s: State, call: Call, pc: Pc) {
    match pc
    case LockHead => HEAD in s.key
    case LockNext(_, curr) => curr in s.key
    case Test(prev, curr) =>
      prev in s.key && curr in s.key && (call.op.Remove? && s.key[curr] == call.key ==> curr in s.next)
    case Advance(prev) => prev in s.key && prev in s.next
    case SetNext(prev, _) => prev in s.key && call.node in s.key
    case Unlink(prev, _, _) => prev in s.key
    case UnlockPrev(prev, _, _) => prev in s.key
    case UnlockCurr(curr, _) => curr in s.key
    case Free(curr, _) => curr in s.key
  }

  /** malloc returns a node that is not allocated, perhaps one that was freed. */
  predicate Enabled(s: State, t: nat, a: Action) {
    && t < |s.threads|
    && match a
       case Invoke(op, key, node) => s.threads[t].Idle? && INT_MIN <= key < INT_MAX && node !in s.key
       case Step => s.threads[t].Busy? && !Waiting(s, t) && Accessible(s, s.threads[t].call, s.threads[t].pc)
  }

  function Goto(s: State, t: nat, pc: Pc): State
    requires t < |s.threads| && s.threads[t].Busy?
  {
    s.(threads := s.threads[t := s.threads[t].(pc := pc)])
  }

  function Effect(s: State, t: nat, prev: Addr, curr: Addr, result: bool): State
    requires t < |s.threads| && s.threads[t].Busy?
  {
    var call := s.threads[t].call;
    Goto(s, t, UnlockPrev(prev, curr, Outcome(result, |s.log|)))
      .(log := s.log + [Event(call.id, call.op, call.key, result)])
  }

  /** Holding two neighbours: move on while curr has a smaller key, then do the operation. */
  function TestStep(s: State, t: nat, prev: Addr, curr: Addr): State
    requires Enabled(s, t, Step) && s.threads[t].pc == Test(prev, curr)
  {
    var call := s.threads[t].call;
    if s.key[curr] < call.key then Goto(s, t, Advance(curr)).(locks := s.locks - {prev})
    else
      match call.op
      case Contains => Effect(s, t, prev, curr, s.key[curr] == call.key)
      case Add =>
        if s.key[curr] == call.key then Effect(s, t, prev, curr, false)
        else Goto(s, t, SetNext(prev, curr)).(next := s.next[prev := call.node])
      case Remove =>
        if s.key[curr] != call.key then Effect(s, t, prev, curr, false)
        else Goto(s, t, Unlink(prev, curr, s.next[curr]))
  }

  function Return(s: State, t: nat, ret: Outcome): State
    requires t < |s.threads| && s.threads[t].Busy?
  {
    s.(threads := s.threads[t := Idle],
       results := s.results + [Returned(s.threads[t].call, ret.result, ret.at, |s.log|)])
  }

  function StepOf(s: State, t: nat): State
    requires Enabled(s, t, Step)
  {
    var call := s.threads[t].call;
    match s.threads[t].pc
    case LockHead => Goto(s, t, Advance(HEAD)).(locks := s.locks[HEAD := t])
    case Advance(prev) => Goto(s, t, LockNext(prev, s.next[prev]))
    case LockNext(prev, curr) => Goto(s, t, Test(prev, curr)).(locks := s.locks[curr := t])
    case Test(prev, curr) => TestStep(s, t, prev, curr)
    case SetNext(prev, curr) =>
      Effect(s, t, prev, curr, true)
        .(next := s.next[call.node := curr], live := s.live + {call.node},
          chain := s.chain[call.node := curr][prev := call.node])
    case Unlink(prev, curr, succ) =>
      Effect(s, t, prev, curr, true)
        .(next := s.next[prev := succ], live := s.live - {curr}, chain := s.chain[prev := succ])
    case UnlockPrev(prev, curr, ret) => Goto(s, t, UnlockCurr(curr, ret)).(locks := s.locks - {prev})
    case UnlockCurr(curr, ret) =>
      var s' := s.(locks := s.locks - {curr});
      if call.op.Remove? && ret.result then Goto(s', t, Free(curr, ret))
      else Return(s', t, ret)
    case Free(curr, ret) =>
      Return(s, t, ret).(key := s.key - {curr}, next := s.next - {curr})
  }

  function InvokeOf(s: State, t: nat, op: Op, key: int, node: Addr): State
    requires Enabled(s, t, Invoke(op, key, node))
  {
    var call := Call(|s.made|, op, key, node, |s.log|);
    s.(threads := s.threads[t := Busy(call, LockHead)], made := s.made + [call],
       key := if op.Add? then s.key[node := key] else s.key)
  }

  function Next(s: State, t: nat, a: Action): State
    requires Enabled(s, t, a)
  {
    match a
    case Invoke(op, key, node) => InvokeOf(s, t, op, key, node)
    case Step => StepOf(s, t)
  }

  ghost predicate IsStep(s: State, s': State) {
    exists t, a :: Enabled(s, t, a) && s' == Next(s, t, a)
  }

  /** Any interleaving of the calls of any number of threads. */
  ghost predicate IsRun(run: seq<State>, numThread: nat) {
    run != [] && run[0] == Init(numThread) && forall i :: 0 < i < |run| ==> StepAt(run, i)
  }

  ghost predicate StepAt(run: seq<State>, i: nat) {
    0 < i < |run| && IsStep(run[i - 1], run[i])
  }

  // ---------------------------------------------------------------- invariant

  predicate Owns(s: State, t: nat, x: Addr) {
    x in s.locks && s.locks[x] == t
  }

  predicate Finished(pc: Pc) {
    pc.UnlockPrev? || pc.UnlockCurr? || pc.Free?
  }

  /** The nodes a thread holds locked. */
  function Held(thread: Thread): set<Addr> {
    if thread.Idle? then {}
    else
      match thread.pc
      case LockNext(prev, _) => {prev}
      case Test(prev, curr) => {prev, curr}
      case Advance(prev) => {prev}
      case SetNext(prev, curr) => {prev, curr}
      case Unlink(prev, curr, _) => {prev, curr}
      case UnlockPrev(prev, curr, _) => {prev, curr}
      case UnlockCurr(curr, _) => {curr}
      case _ => {}
  }

  /** The node only this thread knows: the new one of an add that is not linked yet, the old one of a remove that is not
      freed yet. */
  function Private(thread: Thread): set<Addr> {
    if thread.Idle? then {}
    else if thread.call.op.Add? && !Finished(thread.pc) then {thread.call.node}
    else if thread.call.op.Remove? && Finished(thread.pc) && thread.pc.ret.result then
      {thread.pc.curr}
    else {}
  }

  /** Every node a thread still has a pointer to that it may follow. */
  function Pointers(thread: Thread): set<Addr> {
    if thread.Idle? then {} else Held(thread) + Private(thread) + Wanted(thread.pc)
  }

  /** In the list, locked, and before the key. */
  predicate Standing(s: State, t: nat, call: Call, prev: Addr) {
    prev in s.live && Owns(s, t, prev) && prev in s.key && Rank(s.key, prev) < call.key
  }

  predicate Neighbours(s: State, t: nat, call: Call, prev: Addr, curr: Addr) {
    Standing(s, t, call, prev) && prev in s.chain && s.chain[prev] == curr && Owns(s, t, curr)
  }

  predicate PcOk(s: State, t: nat, call: Call, pc: Pc) {
    match pc
    case LockHead => true
    case Advance(prev) => Standing(s, t, call, prev)
    case LockNext(prev, curr) => Standing(s, t, call, prev) && prev in s.chain && s.chain[prev] == curr
    case Test(prev, curr) => Neighbours(s, t, call, prev, curr)
    case SetNext(prev, curr) =>
      && Neighbours(s, t, call, prev, curr) && call.op.Add? && curr in s.key && call.key < s.key[curr]
      && prev in s.next && s.next[prev] == call.node
    case Unlink(prev, curr, succ) =>
      && Neighbours(s, t, call, prev, curr) && call.op.Remove? && curr in s.key && s.key[curr] == call.key
      && curr in s.chain && s.chain[curr] == succ
    case UnlockPrev(prev, curr, ret) => prev != curr && prev in s.live && Owns(s, t, prev) && Owns(s, t, curr)
    case UnlockCurr(curr, ret) => Owns(s, t, curr)
    case Free(curr, ret) => call.op.Remove? && ret.result
  }

  /** The call has taken effect once, since it was invoked, if it has finished, and not at all before. */
  ghost predicate CallOk(s: State, call: Call, pc: Pc) {
    && call.id < |s.made| && s.made[call.id] == call && call.since <= |s.log| && INT_MIN <= call.key < INT_MAX
    && (call.op.Add? && !Finished(pc) ==> call.node in s.key && s.key[call.node] == call.key)
    && (Finished(pc) ==> TookEffect(s.log, call, pc.ret.result, pc.ret.at, |s.log|))
    && (!Finished(pc) ==> forall i :: 0 <= i < |s.log| ==> s.log[i].call != call.id)
  }

  /** What the thread holds is in the list or its own, and its own is allocated and not in the list. */
  ghost predicate NodesOk(s: State, thread: Thread) {
    && Held(thread) <= s.live + Private(thread)
    && Private(thread) !! s.live && Private(thread) <= s.key.Keys
  }

  ghost predicate ThreadOk(s: State, t: nat) {
    && t < |s.threads| && NodesOk(s, s.threads[t])
    && (s.threads[t].Busy? ==>
          CallOk(s, s.threads[t].call, s.threads[t].pc) && PcOk(s, t, s.threads[t].call, s.threads[t].pc))
  }

  predicate HolderOk(s: State, x: Addr) {
    x in s.locks && s.locks[x] < |s.threads| && x in Held(s.threads[s.locks[x]])
  }

  /** next is the link of the list, unless an add is between its two writes. */
  predicate LinkOk(s: State, x: Addr) {
    x in s.chain && x in s.next && (s.next[x] == s.chain[x] || HalfLinked(s, x))
  }

  predicate HalfLinked(s: State, x: Addr) {
    && x in s.locks && s.locks[x] < |s.threads|
    && var thread := s.threads[s.locks[x]];
       thread.Busy? && thread.pc.SetNext? && thread.pc.prev == x
  }

  predicate Apart(a: Thread, b: Thread) {
    Private(a) !! Private(b) && (a.Busy? && b.Busy? ==> a.call.id != b.call.id)
  }

  ghost predicate Inv(s: State) {
    && ChainOk(s.key, s.chain, s.live) && LogOk(s.log, s.made, Contents(s.key, s.live))
    && TAIL !in s.next && (forall x {:trigger LinkOk(s, x)} :: x in s.live && x != TAIL ==> LinkOk(s, x))
    && (forall t :: 0 <= t < |s.threads| ==> ThreadOk(s, t))
    && (forall x {:trigger HolderOk(s, x)} :: x in s.locks ==> HolderOk(s, x))
    && (forall t, u :: 0 <= t < |s.threads| && 0 <= u < |s.threads| && t != u ==> Apart(s.threads[t], s.threads[u]))
    && forall i :: 0 <= i < |s.results| ==> ReturnOk(s, s.results[i])
  }

  predicate ReturnOk(s: State, r: Returned) {
    TookEffect(s.log, r.call, r.result, r.at, r.end)
  }

  // ---------------------------------------------------------------- what a step of one thread leaves the others

  predicate SameAt(m: map<Addr, Addr>, m': map<Addr, Addr>, x: Addr) {
    (x in m <==> x in m') && (x in m ==> m'[x] == m[x])
  }

  /** t changes the list and its links only at nodes it holds, and frees only its own node. */
  ghost predicate Frame(s: State, s': State, t: nat) {
    && t < |s.threads| && |s'.threads| == |s.threads|
    && (forall u :: 0 <= u < |s.threads| && u != t ==> s'.threads[u] == s.threads[u])
    && (forall x :: x in s.key && x !in Private(s.threads[t]) ==> x in s'.key && s'.key[x] == s.key[x])
    && s'.live <= s.live + Private(s.threads[t])
    && (forall x {:trigger Undisturbed(s, s', x)} :: x in s.locks && s.locks[x] != t ==> Undisturbed(s, s', x))
    && s.log <= s'.log && (forall i :: |s.log| <= i < |s'.log| ==> IsCallOf(s, t, s'.log[i].call))
    && s.made <= s'.made
  }

  predicate Undisturbed(s: State, s': State, x: Addr) {
    && x in s.locks && Owns(s', s.locks[x], x) && (x in s.live <==> x in s'.live)
    && (x in s.live ==> SameAt(s.chain, s'.chain, x) && SameAt(s.next, s'.next, x))
  }

  predicate IsCallOf(s: State, t: nat, id: nat) {
    t < |s.threads| && s.threads[t].Busy? && s.threads[t].call.id == id
  }

  lemma OtherNodes(s: State, s': State, t: nat, u: nat)
    requires Frame(s, s', t) && ThreadOk(s, u) && u != t && Apart(s.threads[t], s.threads[u])
    requires forall x :: x in Held(s.threads[u]) ==> Owns(s, u, x)
    ensures NodesOk(s', s.threads[u])
  {
    forall x | x in Held(s.threads[u]) ensures x in s'.live + Private(s.threads[u]) {
      assert Undisturbed(s, s', x);
    }
  }

  lemma OtherCall(s: State, s': State, t: nat, u: nat)
    requires Frame(s, s', t) && ThreadOk(s, u) && u != t && Apart(s.threads[t], s.threads[u])
    requires s.threads[u].Busy?
    ensures CallOk(s', s.threads[u].call, s.threads[u].pc)
  {
    var call, pc := s.threads[u].call, s.threads[u].pc;
    if Finished(pc) {
      assert s'.log[pc.ret.at] == s.log[pc.ret.at];
    } else {
      forall i | 0 <= i < |s'.log| ensures s'.log[i].call != call.id {
        if i < |s.log| { assert s'.log[i] == s.log[i]; }
      }
    }
    if call.op.Add? && !Finished(pc) { assert call.node in Private(s.threads[u]); }
  }

  /** What a thread holds stays as it is, so the thread stays where it is. */
  lemma OtherPlace(s: State, s': State, t: nat, u: nat)
    requires Frame(s, s', t) && ThreadOk(s, u) && u != t && s.threads[u].Busy?
    requires ChainOk(s.key, s.chain, s.live)
    requires forall x :: x in Private(s.threads[t]) ==> x !in s.live
    ensures PcOk(s', u, s.threads[u].call, s.threads[u].pc)
  {
    match s.threads[u].pc {
      case LockHead =>
      case Advance(prev) => assert Undisturbed(s, s', prev);
      case LockNext(prev, _) => assert Undisturbed(s, s', prev);
      case Test(prev, curr) => assert Undisturbed(s, s', prev) && Undisturbed(s, s', curr);
      case SetNext(prev, curr) =>
        assert Undisturbed(s, s', prev) && Undisturbed(s, s', curr) && Follows(s.key, s.chain, s.live, prev);
      case Unlink(prev, curr, _) =>
        assert Undisturbed(s, s', prev) && Undisturbed(s, s', curr) && Follows(s.key, s.chain, s.live, prev);
      case UnlockPrev(prev, curr, _) => assert Undisturbed(s, s', prev) && Undisturbed(s, s', curr);
      case UnlockCurr(curr, _) => assert Undisturbed(s, s', curr);
      case Free(_, _) =>
    }
  }

  // ---------------------------------------------------------------- every step keeps the invariant

  /** Locks are taken and released by their holders only. */
  ghost predicate LocksMove(s: State, s': State, t: nat) {
    && t < |s'.threads|
    && (forall x :: x in s'.locks ==>
          (s'.locks[x] == t && x in Held(s'.threads[t])) || (x in s.locks && s.locks[x] != t && s'.locks[x] == s.locks[x]))
    && (forall x :: x in Held(s'.threads[t]) ==> Owns(s', t, x))
  }

  /** Holding a node and having it locked is the same. */
  lemma HeldIsLocked(s: State, t: nat, x: Addr)
    requires Inv(s) && t < |s.threads|
    ensures x in Held(s.threads[t]) <==> Owns(s, t, x)
  {
    assert ThreadOk(s, t);
    if Owns(s, t, x) { assert HolderOk(s, x); }
  }

  lemma HoldersStay(s: State, s': State, t: nat)
    requires Inv(s) && LocksMove(s, s', t) && |s'.threads| == |s.threads|
    requires forall u :: 0 <= u < |s.threads| && u != t ==> s'.threads[u] == s.threads[u]
    ensures forall x {:trigger HolderOk(s', x)} :: x in s'.locks ==> HolderOk(s', x)
  {
    forall x | x in s'.locks ensures HolderOk(s', x) {
      if s'.locks[x] != t { assert HolderOk(s, x); }
    }
  }

  lemma SameLocks(s: State, s': State, t: nat)
    requires Inv(s) && t < |s.threads| && t < |s'.threads| && s'.locks == s.locks
    requires Held(s'.threads[t]) == Held(s.threads[t])
    ensures LocksMove(s, s', t)
  {
    forall x | x in s.locks || x in Held(s.threads[t]) ensures x in Held(s.threads[t]) <==> Owns(s, t, x) {
      HeldIsLocked(s, t, x);
    }
  }

  /** From what a step by t does to its own thread and to the list, the invariant. */
  lemma StepKeeps(s: State, s': State, t: nat)
    requires Inv(s) && Frame(s, s', t) && LocksMove(s, s', t) && ThreadOk(s', t)
    requires ChainOk(s'.key, s'.chain, s'.live) && LogOk(s'.log, s'.made, Contents(s'.key, s'.live))
    requires TAIL !in s'.next && forall x {:trigger LinkOk(s', x)} :: x in s'.live && x != TAIL ==> LinkOk(s', x)
    requires forall u :: 0 <= u < |s.threads| && u != t ==> Apart(s'.threads[t], s.threads[u])
    requires forall i :: 0 <= i < |s'.results| ==> ReturnOk(s', s'.results[i])
    ensures Inv(s')
  {
    HoldersStay(s, s', t);
    assert ThreadOk(s, t);
    forall u | 0 <= u < |s'.threads| ensures ThreadOk(s', u) {
      if u != t { OtherStays(s, s', t, u); }
    }
    forall u, v | 0 <= u < |s'.threads| && 0 <= v < |s'.threads| && u != v ensures Apart(s'.threads[u], s'.threads[v]) {
      if u != t && v != t { assert Apart(s.threads[u], s.threads[v]); }
    }
  }

  lemma OtherStays(s: State, s': State, t: nat, u: nat)
    requires Inv(s) && Frame(s, s', t) && u != t && u < |s.threads|
    ensures ThreadOk(s', u)
  {
    assert ThreadOk(s, u) && ThreadOk(s, t);
    assert Apart(s.threads[t], s.threads[u]);
    forall x | x in Held(s.threads[u]) ensures Owns(s, u, x) { HeldIsLocked(s, u, x); }
    OtherNodes(s, s', t, u);
    if s.threads[u].Busy? {
      OtherCall(s, s', t, u);
      OtherPlace(s, s', t, u);
    }
  }

  lemma OthersApart(s: State, s': State, t: nat)
    requires Inv(s) && t < |s.threads| && t < |s'.threads| && Private(s'.threads[t]) <= Private(s.threads[t])
    requires s'.threads[t].Busy? ==> s.threads[t].Busy? && s'.threads[t].call == s.threads[t].call
    ensures forall u :: 0 <= u < |s.threads| && u != t ==> Apart(s'.threads[t], s.threads[u])
  {
    forall u | 0 <= u < |s.threads| && u != t ensures Apart(s'.threads[t], s.threads[u]) {
      assert Apart(s.threads[t], s.threads[u]);
    }
  }

  lemma ResultsStay(s: State, s': State)
    requires Inv(s) && s.log <= s'.log && s'.results == s.results
    ensures forall i :: 0 <= i < |s'.results| ==> ReturnOk(s', s'.results[i])
  {
    forall i | 0 <= i < |s'.results| ensures ReturnOk(s', s'.results[i]) {
      assert ReturnOk(s, s.results[i]);
      assert s'.log[s.results[i].at] == s.log[s.results[i].at];
    }
  }

  /** The links are left alone, so they are still right unless t was between its two writes. */
  lemma LinksStay(s: State, s': State, t: nat)
    requires Inv(s) && t < |s.threads| && LocksMove(s, s', t) && s'.threads == s.threads[t := s'.threads[t]]
    requires s'.next == s.next && s'.chain == s.chain && s'.live == s.live
    requires forall x :: x in s.locks && s.locks[x] != t ==> Owns(s', s.locks[x], x)
    requires !(s.threads[t].Busy? && s.threads[t].pc.SetNext?)
    ensures forall x {:trigger LinkOk(s', x)} :: x in s'.live && x != TAIL ==> LinkOk(s', x)
  {
    forall x | x in s'.live && x != TAIL ensures LinkOk(s', x) { assert LinkOk(s, x); }
  }

  lemma QuietFrame(s: State, s': State, t: nat)
    requires t < |s.threads| && t < |s'.threads| && s'.threads == s.threads[t := s'.threads[t]]
    requires s'.next == s.next && s'.chain == s.chain && s'.live == s.live && s.made <= s'.made
    requires forall x :: x in s.key ==> x in s'.key && s'.key[x] == s.key[x]
    requires forall x :: x in s.locks && s.locks[x] != t ==> Owns(s', s.locks[x], x)
    requires s.log <= s'.log && forall i :: |s.log| <= i < |s'.log| ==> IsCallOf(s, t, s'.log[i].call)
    ensures Frame(s, s', t)
  {
  }

  /** A step that changes no more than locks and the place in the program. */
  lemma LocalKeeps(s: State, s': State, t: nat, pc: Pc)
    requires Inv(s) && t < |s.threads| && s.threads[t].Busy? && s' == Goto(s, t, pc).(locks := s'.locks)
    requires !s.threads[t].pc.SetNext? && LocksMove(s, s', t) && PcOk(s', t, s.threads[t].call, pc)
    requires forall x :: x in s.locks && s.locks[x] != t ==> Owns(s', s.locks[x], x)
    requires Finished(pc) == Finished(s.threads[t].pc) && (Finished(pc) ==> pc.ret == s.threads[t].pc.ret)
    requires Private(s'.threads[t]) == Private(s.threads[t]) && Held(s'.threads[t]) <= s.live + Private(s.threads[t])
    ensures Inv(s')
  {
    assert ThreadOk(s, t);
    LinksStay(s, s', t);
    OthersApart(s, s', t);
    ResultsStay(s, s');
    StepKeeps(s, s', t);
  }

  lemma LockHeadKeeps(s: State, t: nat)
    requires Inv(s) && Enabled(s, t, Step) && s.threads[t].pc.LockHead?
    ensures Inv(StepOf(s, t))
  {
    assert ThreadOk(s, t);
    forall x | x in s.locks ensures x in Held(s.threads[t]) <==> Owns(s, t, x) { HeldIsLocked(s, t, x); }
    LocalKeeps(s, StepOf(s, t), t, Advance(HEAD));
  }

  lemma AdvanceKeeps(s: State, t: nat)
    requires Inv(s) && Enabled(s, t, Step) && s.threads[t].pc.Advance?
    ensures Inv(StepOf(s, t))
  {
    assert ThreadOk(s, t);
    assert LinkOk(s, s.threads[t].pc.prev);
    SameLocks(s, StepOf(s, t), t);
    LocalKeeps(s, StepOf(s, t), t, StepOf(s, t).threads[t].pc);
  }

  lemma LockNextKeeps(s: State, t: nat)
    requires Inv(s) && Enabled(s, t, Step) && s.threads[t].pc.LockNext?
    ensures Inv(StepOf(s, t))
  {
    assert ThreadOk(s, t);
    assert Follows(s.key, s.chain, s.live, s.threads[t].pc.prev);
    forall x | x in s.locks || x in Held(s.threads[t]) ensures x in Held(s.threads[t]) <==> Owns(s, t, x) {
      HeldIsLocked(s, t, x);
    }
    LocalKeeps(s, StepOf(s, t), t, StepOf(s, t).threads[t].pc);
  }

  /** Moving on: the lock of prev is released. */
  lemma MoveKeeps(s: State, t: nat, prev: Addr, curr: Addr)
    requires Inv(s) && Enabled(s, t, Step) && s.threads[t].pc == Test(prev, curr) && s.key[curr] < s.threads[t].call.key
    ensures Inv(StepOf(s, t))
  {
    assert ThreadOk(s, t);
    assert Follows(s.key, s.chain, s.live, prev);
    forall x | x in s.locks || x in Held(s.threads[t]) ensures x in Held(s.threads[t]) <==> Owns(s, t, x) {
      HeldIsLocked(s, t, x);
    }
    LocalKeeps(s, StepOf(s, t), t, Advance(curr));
  }

  lemma HeldAreOwned(s: State, t: nat)
    requires Inv(s) && t < |s.threads|
    ensures forall x :: x in s.locks || x in Held(s.threads[t]) ==> (x in Held(s.threads[t]) <==> Owns(s, t, x))
  {
    forall x | x in s.locks || x in Held(s.threads[t]) ensures x in Held(s.threads[t]) <==> Owns(s, t, x) {
      HeldIsLocked(s, t, x);
    }
  }

  lemma UnlockPrevKeeps(s: State, t: nat)
    requires Inv(s) && Enabled(s, t, Step) && s.threads[t].pc.UnlockPrev?
    ensures Inv(StepOf(s, t))
  {
    assert ThreadOk(s, t);
    HeldAreOwned(s, t);
    LocalKeeps(s, StepOf(s, t), t, StepOf(s, t).threads[t].pc);
  }

  lemma EffectThread(s: State, s': State, t: nat, prev: Addr, curr: Addr, result: bool)
    requires ThreadOk(s, t) && s.threads[t].Busy? && !Finished(s.threads[t].pc) && prev != curr && prev in s'.live
    requires s' == Effect(s, t, prev, curr, result).(next := s'.next, live := s'.live, chain := s'.chain)
    requires Owns(s, t, prev) && Owns(s, t, curr) && NodesOk(s', s'.threads[t])
    ensures ThreadOk(s', t)
  {
  }

  /** The call takes effect: what remains to be shown of the new state is the list. */
  lemma EffectKeeps(s: State, s': State, t: nat, prev: Addr, curr: Addr, result: bool)
    requires Inv(s) && t < |s.threads| && s.threads[t].Busy? && !Finished(s.threads[t].pc)
    requires Held(s.threads[t]) == {prev, curr} && prev != curr && prev in s'.live
    requires s' == Effect(s, t, prev, curr, result).(next := s'.next, live := s'.live, chain := s'.chain)
    requires Frame(s, s', t) && ChainOk(s'.key, s'.chain, s'.live) && NodesOk(s', s'.threads[t])
    requires TAIL !in s'.next && forall x {:trigger LinkOk(s', x)} :: x in s'.live && x != TAIL ==> LinkOk(s', x)
    requires result == Answer(Contents(s.key, s.live), s.threads[t].call.op, s.threads[t].call.key)
    requires Contents(s'.key, s'.live) == Apply(Contents(s.key, s.live), s.threads[t].call.op, s.threads[t].call.key)
    requires forall u :: 0 <= u < |s.threads| && u != t ==> Apart(s'.threads[t], s.threads[u])
    ensures Inv(s')
  {
    assert ThreadOk(s, t);
    var call := s.threads[t].call;
    LogGrows(s.log, s.made, Contents(s.key, s.live), call, result);
    HeldIsLocked(s, t, prev);
    HeldIsLocked(s, t, curr);
    EffectThread(s, s', t, prev, curr, result);
    SameLocks(s, s', t);
    ResultsStay(s, s');
    StepKeeps(s, s', t);
  }

  /** An answer that changes nothing. */
  lemma AnswerKeeps(s: State, t: nat, prev: Addr, curr: Addr, result: bool)
    requires Inv(s) && t < |s.threads| && s.threads[t].Busy? && s.threads[t].pc == Test(prev, curr)
    requires result == Answer(Contents(s.key, s.live), s.threads[t].call.op, s.threads[t].call.key)
    requires Apply(Contents(s.key, s.live), s.threads[t].call.op, s.threads[t].call.key) == Contents(s.key, s.live)
    requires s.threads[t].call.op.Remove? ==> !result
    ensures Inv(Effect(s, t, prev, curr, result))
  {
    assert ThreadOk(s, t);
    assert Follows(s.key, s.chain, s.live, prev);
    var s' := Effect(s, t, prev, curr, result);
    SameLocks(s, s', t);
    QuietFrame(s, s', t);
    LinksStay(s, s', t);
    OthersApart(s, s', t);
    EffectKeeps(s, s', t, prev, curr, result);
  }

  lemma HalfLinkLinks(s: State, t: nat, prev: Addr, curr: Addr)
    requires Inv(s) && Enabled(s, t, Step) && s.threads[t].pc == Test(prev, curr)
    requires s.threads[t].call.op.Add? && s.threads[t].call.key < s.key[curr]
    ensures var s' := StepOf(s, t);
            TAIL !in s'.next && forall x {:trigger LinkOk(s', x)} :: x in s'.live && x != TAIL ==> LinkOk(s', x)
  {
    assert ThreadOk(s, t);
    var s' := StepOf(s, t);
    forall x | x in s'.live && x != TAIL ensures LinkOk(s', x) { assert LinkOk(s, x); }
  }

  /** prev->next = node: the node is linked by one end. */
  lemma HalfLinkKeeps(s: State, t: nat, prev: Addr, curr: Addr)
    requires Inv(s) && Enabled(s, t, Step) && s.threads[t].pc == Test(prev, curr)
    requires s.threads[t].call.op.Add? && s.threads[t].call.key < s.key[curr]
    ensures Inv(StepOf(s, t))
  {
    assert ThreadOk(s, t);
    assert Follows(s.key, s.chain, s.live, prev);
    var s' := StepOf(s, t);
    SameLocks(s, s', t);
    HalfLinkLinks(s, t, prev, curr);
    OthersApart(s, s', t);
    ResultsStay(s, s');
    StepKeeps(s, s', t);
  }

  lemma TestKeeps(s: State, t: nat)
    requires Inv(s) && Enabled(s, t, Step) && s.threads[t].pc.Test?
    ensures Inv(StepOf(s, t))
  {
    assert ThreadOk(s, t);
    var call, prev, curr := s.threads[t].call, s.threads[t].pc.prev, s.threads[t].pc.curr;
    if s.key[curr] < call.key {
      MoveKeeps(s, t, prev, curr);
    } else {
      assert Follows(s.key, s.chain, s.live, prev);
      FoundIff(s.key, s.chain, s.live, prev, call.key);
      if call.op.Add? && s.key[curr] != call.key {
        HalfLinkKeeps(s, t, prev, curr);
      } else if call.op.Remove? && s.key[curr] == call.key {
        assert Follows(s.key, s.chain, s.live, prev) && LinkOk(s, curr);
        SameLocks(s, StepOf(s, t), t);
        LocalKeeps(s, StepOf(s, t), t, Unlink(prev, curr, s.next[curr]));
      } else {
        AnswerKeeps(s, t, prev, curr, s.key[curr] == call.key && !call.op.Add?);
      }
    }
  }

  lemma OwnIsOwn(s: State, t: nat, u: nat, x: Addr)
    requires Inv(s) && t < |s.threads| && u < |s.threads| && x in Private(s.threads[t]) && x in Private(s.threads[u])
    ensures t == u
  {
    assert t == u || Apart(s.threads[t], s.threads[u]);
  }

  lemma NobodyLocks(s: State, t: nat, x: Addr)
    requires Inv(s) && t < |s.threads| && x in Private(s.threads[t]) && x !in Held(s.threads[t])
    ensures x !in s.locks
  {
    assert ThreadOk(s, t);
    if x in s.locks {
      assert HolderOk(s, x) && ThreadOk(s, s.locks[x]);
      OwnIsOwn(s, t, s.locks[x], x);
    }
  }

  /** node->next = curr: the node is in the list. */
  lemma SetNextKeeps(s: State, t: nat)
    requires Inv(s) && Enabled(s, t, Step) && s.threads[t].pc.SetNext?
    ensures Inv(StepOf(s, t))
  {
    assert ThreadOk(s, t);
    var s', call := StepOf(s, t), s.threads[t].call;
    var SetNext(prev, curr) := s.threads[t].pc;
    assert call.node in Private(s.threads[t]);
    assert Follows(s.key, s.chain, s.live, prev);
    InsertLogical(s, prev, call.node, curr);
    SetNextLinks(s, t);
    OthersApart(s, s', t);
    EffectKeeps(s, s', t, prev, curr, true);
  }

  lemma SetNextLinks(s: State, t: nat)
    requires Inv(s) && Enabled(s, t, Step) && s.threads[t].pc.SetNext?
    ensures var s' := StepOf(s, t);
            && Frame(s, s', t) && TAIL !in s'.next
            && forall x {:trigger LinkOk(s', x)} :: x in s'.live && x != TAIL ==> LinkOk(s', x)
  {
    assert ThreadOk(s, t);
    var s', node := StepOf(s, t), s.threads[t].call.node;
    assert node in Private(s.threads[t]);
    NobodyLocks(s, t, node);
    forall x | x in s'.live && x != TAIL ensures LinkOk(s', x) {
      if x != node { assert LinkOk(s, x); }
    }
  }

  lemma InsertLogical(s: State, prev: Addr, node: Addr, curr: Addr)
    requires ChainOk(s.key, s.chain, s.live) && prev in s.live && prev != TAIL && prev in s.chain
    requires s.chain[prev] == curr
    requires node in s.key && node !in s.live && curr in s.key && Rank(s.key, prev) < s.key[node] < s.key[curr]
    ensures ChainOk(s.key, s.chain[node := curr][prev := node], s.live + {node})
    ensures s.key[node] !in Contents(s.key, s.live)
    ensures Contents(s.key, s.live + {node}) == Contents(s.key, s.live) + {s.key[node]}
  {
    NewKey(s.key, s.chain, s.live, prev, node);
    FoundIff(s.key, s.chain, s.live, prev, s.key[node]);
    var chain := s.chain[node := curr];
    forall x | x in s.live && x != TAIL ensures Follows(s.key, chain, s.live, x) {
      assert Follows(s.key, s.chain, s.live, x);
    }
    InsertKeeps(s.key, chain, s.live, prev, node);
  }

  lemma UnlinkFrame(s: State, t: nat)
    requires Inv(s) && Enabled(s, t, Step) && s.threads[t].pc.Unlink?
    ensures var s' := StepOf(s, t);
            && Frame(s, s', t) && TAIL !in s'.next
            && forall x {:trigger LinkOk(s', x)} :: x in s'.live && x != TAIL ==> LinkOk(s', x)
  {
    assert ThreadOk(s, t);
    assert Follows(s.key, s.chain, s.live, s.threads[t].pc.prev);
    UnlinkLinks(s, t);
  }

  lemma UnlinkLinks(s: State, t: nat)
    requires Inv(s) && Enabled(s, t, Step) && s.threads[t].pc.Unlink?
    ensures var s' := StepOf(s, t); forall x {:trigger LinkOk(s', x)} :: x in s'.live && x != TAIL ==> LinkOk(s', x)
  {
    assert ThreadOk(s, t);
    var s' := StepOf(s, t);
    forall x | x in s'.live && x != TAIL ensures LinkOk(s', x) { assert LinkOk(s, x); }
  }

  /** The removed node becomes the remover's own. */
  lemma UnlinkOwn(s: State, t: nat)
    requires Inv(s) && Enabled(s, t, Step) && s.threads[t].pc.Unlink?
    ensures var s' := StepOf(s, t);
            && NodesOk(s', s'.threads[t])
            && forall u :: 0 <= u < |s.threads| && u != t ==> Apart(s'.threads[t], s.threads[u])
  {
    assert ThreadOk(s, t);
    var s' := StepOf(s, t);
    var Unlink(prev, curr, succ) := s.threads[t].pc;
    assert Follows(s.key, s.chain, s.live, prev);
    forall u | 0 <= u < |s.threads| && u != t ensures Apart(s'.threads[t], s.threads[u]) {
      assert ThreadOk(s, u) && Apart(s.threads[t], s.threads[u]);
    }
  }

  lemma UnlinkKeeps(s: State, t: nat)
    requires Inv(s) && Enabled(s, t, Step) && s.threads[t].pc.Unlink?
    ensures Inv(StepOf(s, t))
  {
    assert ThreadOk(s, t);
    var Unlink(prev, curr, succ) := s.threads[t].pc;
    assert Follows(s.key, s.chain, s.live, prev) && Follows(s.key, s.chain, s.live, curr);
    FoundIff(s.key, s.chain, s.live, prev, s.threads[t].call.key);
    RemoveKeeps(s.key, s.chain, s.live, prev, curr);
    UnlinkFrame(s, t);
    UnlinkOwn(s, t);
    EffectKeeps(s, StepOf(s, t), t, prev, curr, true);
  }

  lemma UnlockCurrKeeps(s: State, t: nat)
    requires Inv(s) && Enabled(s, t, Step) && s.threads[t].pc.UnlockCurr?
    ensures Inv(StepOf(s, t))
  {
    assert ThreadOk(s, t);
    var pc := s.threads[t].pc;
    if s.threads[t].call.op.Remove? && pc.ret.result {
      HeldAreOwned(s, t);
      LocalKeeps(s, StepOf(s, t), t, Free(pc.curr, pc.ret));
    } else {
      ReturnKeeps(s, t);
    }
  }

  lemma ReturnKeeps(s: State, t: nat)
    requires Inv(s) && Enabled(s, t, Step) && s.threads[t].pc.UnlockCurr?
    requires !(s.threads[t].call.op.Remove? && s.threads[t].pc.ret.result)
    ensures Inv(StepOf(s, t))
  {
    assert ThreadOk(s, t);
    var s' := StepOf(s, t);
    HeldAreOwned(s, t);
    QuietFrame(s, s', t);
    LinksStay(s, s', t);
    OthersApart(s, s', t);
    ResultAdded(s, t, s.threads[t].pc.ret, s');
    StepKeeps(s, s', t);
  }

  lemma ResultAdded(s: State, t: nat, ret: Outcome, s': State)
    requires Inv(s) && t < |s.threads| && s.threads[t].Busy? && Finished(s.threads[t].pc) && s.threads[t].pc.ret == ret
    requires s'.results == Return(s, t, ret).results && s'.log == s.log
    ensures forall i :: 0 <= i < |s'.results| ==> ReturnOk(s', s'.results[i])
  {
    assert ThreadOk(s, t);
    forall i | 0 <= i < |s'.results| ensures ReturnOk(s', s'.results[i]) {
      if i < |s.results| { assert ReturnOk(s, s.results[i]); }
    }
  }

  /** free(curr): only the list's own nodes and other threads' own nodes are left, and curr is neither. */
  lemma FreeKeeps(s: State, t: nat)
    requires Inv(s) && Enabled(s, t, Step) && s.threads[t].pc.Free?
    ensures Inv(StepOf(s, t))
  {
    assert ThreadOk(s, t);
    var s', curr := StepOf(s, t), s.threads[t].pc.curr;
    forall x | x in s.locks || x in Held(s.threads[t]) ensures x in Held(s.threads[t]) <==> Owns(s, t, x) {
      HeldIsLocked(s, t, x);
    }
    ChainStays(s.key, s'.key, s.chain, s.live);
    ContentsStay(s.key, s'.key, s.live);
    forall x | x in s'.live && x != TAIL ensures LinkOk(s', x) { assert LinkOk(s, x); }
    OthersApart(s, s', t);
    ResultAdded(s, t, s.threads[t].pc.ret, s');
    forall x | x in s.locks && s.locks[x] != t ensures Undisturbed(s, s', x) {
      assert HolderOk(s, x) && ThreadOk(s, s.locks[x]);
    }
    StepKeeps(s, s', t);
  }

  lemma InvokeCall(s: State, t: nat, op: Op, key: int, node: Addr)
    requires Inv(s) && Enabled(s, t, Invoke(op, key, node))
    ensures ThreadOk(InvokeOf(s, t, op, key, node), t)
  {
    assert ThreadOk(s, t);
    forall i | 0 <= i < |s.log| ensures s.log[i].call != |s.made| { assert WasMade(s.log, s.made, i); }
  }

  lemma InvokeKeeps(s: State, t: nat, op: Op, key: int, node: Addr)
    requires Inv(s) && Enabled(s, t, Invoke(op, key, node))
    ensures Inv(InvokeOf(s, t, op, key, node))
  {
    var s' := InvokeOf(s, t, op, key, node);
    assert ThreadOk(s, t);
    SameLocks(s, s', t);
    ChainStays(s.key, s'.key, s.chain, s.live);
    ContentsStay(s.key, s'.key, s.live);
    MadeStays(s.log, s.made, s'.made, Contents(s.key, s.live));
    QuietFrame(s, s', t);
    LinksStay(s, s', t);
    InvokeCall(s, t, op, key, node);
    forall u | 0 <= u < |s.threads| && u != t ensures Apart(s'.threads[t], s.threads[u]) { assert ThreadOk(s, u); }
    ResultsStay(s, s');
    StepKeeps(s, s', t);
  }

  lemma StepOfKeeps(s: State, t: nat)
    requires Inv(s) && Enabled(s, t, Step)
    ensures Inv(StepOf(s, t))
  {
    match s.threads[t].pc {
      case LockHead => LockHeadKeeps(s, t);
      case LockNext(_, _) => LockNextKeeps(s, t);
      case Test(_, _) => TestKeeps(s, t);
      case Advance(_) => AdvanceKeeps(s, t);
      case SetNext(_, _) => SetNextKeeps(s, t);
      case Unlink(_, _, _) => UnlinkKeeps(s, t);
      case UnlockPrev(_, _, _) => UnlockPrevKeeps(s, t);
      case UnlockCurr(_, _) => UnlockCurrKeeps(s, t);
      case Free(_, _) => FreeKeeps(s, t);
    }
  }

  lemma NextKeeps(s: State, t: nat, a: Action)
    requires Inv(s) && Enabled(s, t, a)
    ensures Inv(Next(s, t, a))
  {
    match a {
      case Invoke(op, key, node) => InvokeKeeps(s, t, op, key, node);
      case Step => StepOfKeeps(s, t);
    }
  }

  lemma InitHolds(numThread: nat)
    ensures Inv(Init(numThread))
  {
    var s := Init(numThread);
    assert Follows(s.key, s.chain, s.live, HEAD);
    assert Contents(s.key, s.live) == {};
  }

  lemma AnyStepKeeps(s: State, s': State)
    requires Inv(s) && IsStep(s, s')
    ensures Inv(s')
  {
    var t, a :| Enabled(s, t, a) && s' == Next(s, t, a);
    NextKeeps(s, t, a);
  }

  lemma {:induction false} RunKeeps(run: seq<State>, numThread: nat, i: nat)
    requires IsRun(run, numThread) && i < |run|
    ensures Inv(run[i])
  {
    if i == 0 {
      InitHolds(numThread);
    } else {
      RunKeeps(run, numThread, i - 1);
      assert StepAt(run, i);
      AnyStepKeeps(run[i - 1], run[i]);
    }
  }

  // ---------------------------------------------------------------- what becomes of a call

  /** The calls the threads are in, and those that returned. */
  function Open(threads: seq<Thread>): (open: seq<Option<Call>>)
    ensures |open| == |threads|
  {
    seq(|threads|, t requires 0 <= t < |threads| => if threads[t].Busy? then Some(threads[t].call) else None)
  }

  function Answered(results: seq<Returned>): (calls: seq<Call>)
    ensures |calls| == |results|
  {
    seq(|results|, k requires 0 <= k < |results| => results[k].call)
  }

  ghost predicate CallsOk(s: State) {
    Accounted(s.made, Open(s.threads), Answered(s.results)) && forall i :: 0 <= i < |s.made| ==> s.made[i].id == i
  }

  /** The thread goes on with its call, or returns from it. */
  predicate GoesOn(s: State, s': State, t: nat)
    requires t < |s.threads| && s.threads[t].Busy?
  {
    && t < |s'.threads| && s'.made == s.made && s'.threads == s.threads[t := s'.threads[t]]
    && if s'.threads[t].Busy? then s'.threads[t].call == s.threads[t].call && s'.results == s.results
       else |s'.results| == |s.results| + 1 && s'.results[..|s.results|] == s.results
            && s'.results[|s.results|].call == s.threads[t].call
  }

  lemma TestGoesOn(s: State, t: nat)
    requires Enabled(s, t, Step) && s.threads[t].pc.Test?
    ensures GoesOn(s, StepOf(s, t), t)
  {
  }

  lemma WriteGoesOn(s: State, t: nat)
    requires Enabled(s, t, Step) && (s.threads[t].pc.SetNext? || s.threads[t].pc.Unlink?)
    ensures GoesOn(s, StepOf(s, t), t)
  {
  }

  lemma OtherGoesOn(s: State, t: nat)
    requires Enabled(s, t, Step) && !s.threads[t].pc.Test? && !s.threads[t].pc.SetNext? && !s.threads[t].pc.Unlink?
    ensures GoesOn(s, StepOf(s, t), t)
  {
  }

  lemma StepGoesOn(s: State, t: nat)
    requires Enabled(s, t, Step)
    ensures GoesOn(s, StepOf(s, t), t)
  {
    var pc := s.threads[t].pc;
    if pc.Test? { TestGoesOn(s, t); } else if pc.SetNext? || pc.Unlink? { WriteGoesOn(s, t); } else { OtherGoesOn(s, t); }
  }

  lemma StepAccounts(s: State, s': State, t: nat)
    requires CallsOk(s) && t < |s.threads| && s.threads[t].Busy? && GoesOn(s, s', t)
    ensures CallsOk(s')
  {
    if s'.threads[t].Busy? {
      assert Open(s'.threads) == Open(s.threads);
    } else {
      CallReturned(s.made, Open(s.threads), Answered(s.results), t);
      assert Open(s'.threads) == Open(s.threads)[t := None];
      assert Answered(s'.results) == Answered(s.results) + [s.threads[t].call];
    }
  }

  /** The call is recorded as it was made, with the present time, and is the one the thread is in. */
  predicate Records(s: State, s': State, t: nat, op: Op, key: int) {
    && |s'.made| == |s.made| + 1 && s'.made[..|s.made|] == s.made && t < |s'.threads| && s'.threads[t].Busy?
    && var call := s'.made[|s.made|];
       call == s'.threads[t].call && call.id == |s.made| && call.op == op && call.key == key && call.since == |s.log|
  }

  lemma InvokeAccounts(s: State, t: nat, op: Op, key: int, node: Addr)
    requires CallsOk(s) && Enabled(s, t, Invoke(op, key, node))
    ensures CallsOk(InvokeOf(s, t, op, key, node)) && Records(s, InvokeOf(s, t, op, key, node), t, op, key)
  {
    var s' := InvokeOf(s, t, op, key, node);
    var call := s'.threads[t].call;
    CallInvoked(s.made, Open(s.threads), Answered(s.results), t, call);
    assert Open(s'.threads) == Open(s.threads)[t := Some(call)];
  }

  lemma AnyStepAccounts(s: State, s': State)
    requires CallsOk(s) && IsStep(s, s')
    ensures CallsOk(s')
  {
    var t, a :| Enabled(s, t, a) && s' == Next(s, t, a);
    match a {
      case Invoke(op, key, node) => InvokeAccounts(s, t, op, key, node);
      case Step =>
        StepGoesOn(s, t);
        StepAccounts(s, s', t);
    }
  }

  lemma {:induction false} RunAccounts(run: seq<State>, numThread: nat, i: nat)
    requires IsRun(run, numThread) && i < |run|
    ensures CallsOk(run[i])
  {
    if i > 0 {
      RunAccounts(run, numThread, i - 1);
      assert StepAt(run, i);
      AnyStepAccounts(run[i - 1], run[i]);
    }
  }

  // ---------------------------------------------------------------- theorems

  /** Linearizability: in every run, every call that returned took effect at one instant between its invocation and its
      return; the log of these effects, which holds no call twice and only calls that were made, with their operations
      and keys and after their invocations, is answered as a set would answer it. */
  lemma Linearizable(run: seq<State>, numThread: nat, i: nat)
    requires IsRun(run, numThread) && i < |run|
    ensures Legal(run[i].log) && forall j :: 0 <= j < |run[i].log| ==> WasMade(run[i].log, run[i].made, j)
    ensures forall k :: 0 <= k < |run[i].results| ==>
              var s, r := run[i], run[i].results[k];
              && r.call.since <= r.at < r.end <= |s.log|
              && s.log[r.at] == Event(r.call.id, r.call.op, r.call.key, r.result)
              && RightAnswer(s.log, r.at, r.call.op, r.call.key, r.result)
    ensures Accounted(run[i].made, Open(run[i].threads), Answered(run[i].results))
    ensures forall t, op, key, node :: Enabled(run[i], t, Invoke(op, key, node)) ==>
              Records(run[i], Next(run[i], t, Invoke(op, key, node)), t, op, key)
  {
    RunAccounts(run, numThread, i);
    RunKeeps(run, numThread, i);
    forall k | 0 <= k < |run[i].results|
      ensures var s, r := run[i], run[i].results[k];
              ReturnOk(s, r) && RightAnswer(s.log, r.at, r.call.op, r.call.key, r.result)
    {
      assert ReturnOk(run[i], run[i].results[k]);
      AnswersOfASet(run[i].log, run[i].results[k].at);
    }
  }

  /** w passes exactly the keys of the set, in strictly ascending order. */
  ghost predicate WalksTheSet(s: State, w: seq<Addr>) {
    && (forall j :: 0 <= j < |w| ==> w[j] in s.key)
    && (forall j, k :: 0 <= j < k < |w| ==> Rank(s.key, w[j]) < Rank(s.key, w[k]))
    && (set x | x in w && x != HEAD && x != TAIL :: s.key[x]) == Replay(s.log)
  }

  /** At all times a walk along the list's links passes exactly the keys of that set, in strictly ascending order; and
      the next pointers are these links, except that the locked prev of an add between its two writes leads to a node
      that is not in the list yet. */
  lemma ListIsTheSet(run: seq<State>, numThread: nat, i: nat)
    requires IsRun(run, numThread) && i < |run|
    ensures ChainOk(run[i].key, run[i].chain, run[i].live)
    ensures WalksTheSet(run[i], NodesFrom(run[i].key, run[i].chain, run[i].live, HEAD))
    ensures forall x :: x in run[i].live && x != TAIL ==> LinkOk(run[i], x)
  {
    RunKeeps(run, numThread, i);
    var s := run[i];
    var w := NodesFrom(s.key, s.chain, s.live, HEAD);
    WalkMeetsAll(s.key, s.chain, s.live, HEAD);
    assert forall j :: 0 <= j < |w| ==> w[j] in w;
    assert forall x :: x in w <==> x in s.live;
  }

  /** So when no add is between its two writes, the walk along the next pointers passes the set. */
  lemma PointersAreTheSet(run: seq<State>, numThread: nat, i: nat)
    requires IsRun(run, numThread) && i < |run|
    requires forall t :: 0 <= t < |run[i].threads| && run[i].threads[t].Busy? ==> !run[i].threads[t].pc.SetNext?
    ensures ChainOk(run[i].key, run[i].next, run[i].live)
    ensures WalksTheSet(run[i], NodesFrom(run[i].key, run[i].next, run[i].live, HEAD))
  {
    RunKeeps(run, numThread, i);
    var s := run[i];
    forall x | x in s.live && x != TAIL ensures Follows(s.key, s.next, s.live, x) {
      assert LinkOk(s, x) && Follows(s.key, s.chain, s.live, x);
    }
    var w := NodesFrom(s.key, s.next, s.live, HEAD);
    WalkMeetsAll(s.key, s.next, s.live, HEAD);
    assert forall j :: 0 <= j < |w| ==> w[j] in w;
    assert forall x :: x in w <==> x in s.live;
  }

  /** Where a thread may point: into the list or at its own node. */
  lemma PointersOk(s: State, t: nat)
    requires Inv(s) && t < |s.threads|
    ensures Pointers(s.threads[t]) <= s.live + Private(s.threads[t])
  {
    assert ThreadOk(s, t);
    if s.threads[t].Busy? && s.threads[t].pc.LockNext? {
      assert Follows(s.key, s.chain, s.live, s.threads[t].pc.prev);
    }
  }

  /** Reclamation is safe: when a node is freed, nobody has it locked, no other thread holds it, waits for it or has a
      pointer to it, and no node of the list leads to it. */
  lemma FreedIsUnreferenced(run: seq<State>, numThread: nat, i: nat, t: nat, u: nat)
    requires IsRun(run, numThread) && i < |run| && t < |run[i].threads| && u < |run[i].threads| && u != t
    requires run[i].threads[t].Busy? && run[i].threads[t].pc.Free?
    ensures var s, curr := run[i], run[i].threads[t].pc.curr;
            && curr in s.key && curr !in s.locks && curr !in Pointers(s.threads[u]) && curr !in s.live
            && forall x :: x in s.live && x in s.next ==> s.next[x] != curr
  {
    RunKeeps(run, numThread, i);
    var s, curr := run[i], run[i].threads[t].pc.curr;
    assert ThreadOk(s, t) && curr in Private(s.threads[t]);
    PointersOk(s, u);
    OthersApart(s, s, t);
    assert Apart(s.threads[t], s.threads[u]);
    NobodyLocks(s, t, curr);
    forall x | x in s.live && x in s.next ensures s.next[x] != curr {
      LinkStaysInside(s, t, x, curr);
    }
  }

  lemma LinkStaysInside(s: State, t: nat, x: Addr, curr: Addr)
    requires Inv(s) && t < |s.threads| && s.threads[t].Busy? && s.threads[t].pc.Free? && s.threads[t].pc.curr == curr
    requires x in s.live && x in s.next
    ensures s.next[x] != curr
  {
    assert ThreadOk(s, t) && curr in Private(s.threads[t]);
    if x != TAIL {
      assert LinkOk(s, x) && Follows(s.key, s.chain, s.live, x);
      if s.next[x] != s.chain[x] {
        var u := s.locks[x];
        assert ThreadOk(s, u) && s.next[x] in Private(s.threads[u]);
        assert s.next[x] == curr ==> t == u by { if s.next[x] == curr { OwnIsOwn(s, t, u, curr); } }
      }
    }
  }

  /** No step touches a node that is not allocated or a next pointer that was never written. */
  lemma AccessesAreSafe(run: seq<State>, numThread: nat, i: nat, t: nat)
    requires IsRun(run, numThread) && i < |run| && t < |run[i].threads| && run[i].threads[t].Busy?
    ensures Accessible(run[i], run[i].threads[t].call, run[i].threads[t].pc)
  {
    RunKeeps(run, numThread, i);
    StepIsSafe(run[i], t);
  }

  lemma StepIsSafe(s: State, t: nat)
    requires Inv(s) && t < |s.threads| && s.threads[t].Busy?
    ensures Accessible(s, s.threads[t].call, s.threads[t].pc)
  {
    assert ThreadOk(s, t);
    match s.threads[t].pc {
      case Advance(prev) => assert LinkOk(s, prev);
      case LockNext(prev, _) => assert Follows(s.key, s.chain, s.live, prev);
      case Test(prev, curr) =>
        assert Follows(s.key, s.chain, s.live, prev);
        if curr != TAIL { assert LinkOk(s, curr); }
      case _ =>
    }
  }

  /** The steps a call still has before it, at most: three for each key it may still pass, and a few at the end. */
  function StepsLeft(key: map<Addr, int>, thread: Thread): int {
    if thread.Idle? then 0
    else
      match thread.pc
      case LockHead => 11 + 3 * (INT_MAX - INT_MIN + 1)
      case Advance(prev) => 10 + 3 * KeysAhead(key, prev)
      case LockNext(prev, _) => 9 + 3 * KeysAhead(key, prev)
      case Test(prev, _) => 8 + 3 * KeysAhead(key, prev)
      case SetNext(_, _) => 4
      case Unlink(_, _, _) => 4
      case UnlockPrev(_, _, _) => 3
      case UnlockCurr(_, _) => 2
      case Free(_, _) => 1
  }

  function KeysAhead(key: map<Addr, int>, x: Addr): int {
    if x in key then INT_MAX - Rank(key, x) else 0
  }

  /** The node the walk of a call stands on, which it has locked. */
  predicate StandsOn(thread: Thread, x: Addr) {
    thread.Busy? && match thread.pc
                    case Advance(prev) => prev == x
                    case LockNext(prev, _) => prev == x
                    case Test(prev, _) => prev == x
                    case _ => false
  }

  /** A round of the loop moves on to a greater key. */
  lemma OwnStepShortens(s: State, t: nat)
    requires Enabled(s, t, Step) && HEAD in s.key
    requires s.threads[t].pc.Test? ==>
               var prev, curr := s.threads[t].pc.prev, s.threads[t].pc.curr;
               prev in s.key && curr in s.key && Rank(s.key, prev) < Rank(s.key, curr) <= INT_MAX
    requires forall x :: StandsOn(s.threads[t], x) ==> KeysAhead(s.key, x) > 0
    ensures StepsLeft(StepOf(s, t).key, StepOf(s, t).threads[t]) < StepsLeft(s.key, s.threads[t])
  {
    var pc := s.threads[t].pc;
    if pc.Test? || pc.Advance? || pc.LockNext? { assert StandsOn(s.threads[t], pc.prev); }
  }

  /** A node that another thread stands on is not freed. */
  lemma OtherStepLeaves(s: State, u: nat, a: Action, t: nat)
    requires Enabled(s, u, a) && t < |s.threads| && u != t
    requires forall x :: StandsOn(s.threads[t], x) ==> x in s.key
    requires a.Step? && s.threads[u].pc.Free? ==> !StandsOn(s.threads[t], s.threads[u].pc.curr)
    ensures var s' := Next(s, u, a);
            |s'.threads| == |s.threads| && s'.threads[t] == s.threads[t]
            && StepsLeft(s'.key, s.threads[t]) == StepsLeft(s.key, s.threads[t])
  {
    KeyChanges(s, u, a);
    if a.Step? { StepGoesOn(s, u); }
    var thread := s.threads[t];
    if thread.Busy? && (thread.pc.Test? || thread.pc.Advance? || thread.pc.LockNext?) {
      assert StandsOn(thread, thread.pc.prev);
    }
  }

  lemma KeyChanges(s: State, u: nat, a: Action)
    requires Enabled(s, u, a)
    ensures var key := Next(s, u, a).key;
            || key == s.key || (a.Invoke? && a.node !in s.key && key == s.key[a.node := a.key])
            || (a.Step? && s.threads[u].pc.Free? && key == s.key - {s.threads[u].pc.curr})
  {
  }

  lemma StandsInList(s: State, t: nat, x: Addr)
    requires Inv(s) && t < |s.threads| && StandsOn(s.threads[t], x)
    ensures x in s.live && x in s.key && KeysAhead(s.key, x) > 0
  {
    assert ThreadOk(s, t);
  }

  /** A call ends after a bounded number of its own steps, of which each round of its walk leaves three fewer, whatever
      the others do. */
  lemma CallsEnd(run: seq<State>, numThread: nat, i: nat, t: nat)
    requires IsRun(run, numThread) && i < |run| && t < |run[i].threads|
    ensures run[i].threads[t].Busy? ==> 0 < StepsLeft(run[i].key, run[i].threads[t]) <= 11 + 3 * (INT_MAX - INT_MIN + 1)
    ensures Enabled(run[i], t, Step) ==>
              var s' := Next(run[i], t, Step);
              StepsLeft(s'.key, s'.threads[t]) < StepsLeft(run[i].key, run[i].threads[t])
    ensures forall u, a :: Enabled(run[i], u, a) && u != t ==>
              var s' := Next(run[i], u, a);
              |s'.threads| == |run[i].threads| && s'.threads[t] == run[i].threads[t]
              && StepsLeft(s'.key, s'.threads[t]) == StepsLeft(run[i].key, run[i].threads[t])
  {
    RunKeeps(run, numThread, i);
    var s := run[i];
    forall x | StandsOn(s.threads[t], x) ensures x in s.live && x in s.key && KeysAhead(s.key, x) > 0 {
      StandsInList(s, t, x);
    }
    if Enabled(s, t, Step) { CallShortens(s, t); }
    forall u, a | Enabled(s, u, a) && u != t
      ensures var s' := Next(s, u, a);
              |s'.threads| == |s.threads| && s'.threads[t] == s.threads[t]
              && StepsLeft(s'.key, s'.threads[t]) == StepsLeft(s.key, s.threads[t])
    {
      assert ThreadOk(s, u);
      OtherStepLeaves(s, u, a, t);
    }
  }

  lemma CallShortens(s: State, t: nat)
    requires Inv(s) && Enabled(s, t, Step)
    ensures StepsLeft(StepOf(s, t).key, StepOf(s, t).threads[t]) < StepsLeft(s.key, s.threads[t])
  {
    assert ThreadOk(s, t);
    if s.threads[t].pc.Test? { assert Follows(s.key, s.chain, s.live, s.threads[t].pc.prev); }
    forall x | StandsOn(s.threads[t], x) ensures KeysAhead(s.key, x) > 0 { StandsInList(s, t, x); }
    OwnStepShortens(s, t);
  }

  /** How far up a waiting thread is. */
  function WaitRank(s: State, t: nat): int
    requires t < |s.threads| && s.threads[t].Busy?
  {
    match s.threads[t].pc
    case LockNext(_, curr) => if curr in s.key then INT_MAX - Rank(s.key, curr) else 0
    case _ => INT_MAX - INT_MIN + 2
  }

  /** Locks are taken in ascending order of keys: following the holders of the locks waited for leads to a thread that
      can step. */
  lemma {:induction false} HolderCanRun(s: State, t: nat) returns (u: nat)
    requires Inv(s) && t < |s.threads| && s.threads[t].Busy?
    ensures Enabled(s, u, Step)
    decreases WaitRank(s, t)
  {
    StepIsSafe(s, t);
    if Waiting(s, t) {
      var x :| x in Wanted(s.threads[t].pc) && x in s.locks;
      u := s.locks[x];
      assert HolderOk(s, x) && ThreadOk(s, u) && ThreadOk(s, t);
      StepIsSafe(s, u);
      if Waiting(s, u) {
        assert s.threads[u].pc.LockNext? && Follows(s.key, s.chain, s.live, x);
        u := HolderCanRun(s, u);
      }
    } else {
      u := t;
    }
  }

  /** Deadlock freedom: whenever a call is under way, some thread can take its next step. */
  lemma DeadlockFree(run: seq<State>, numThread: nat, i: nat, t: nat)
    requires IsRun(run, numThread) && i < |run| && t < |run[i].threads| && run[i].threads[t].Busy?
    ensures exists u :: Enabled(run[i], u, Step)
  {
    RunKeeps(run, numThread, i);
    var u := HolderCanRun(run[i], t);
  }

  // What is left on the heap.

  /** What is the thread's: its private node, or the node of its add that found the key there, which it drops. */
  function Mine(thread: Thread): set<Addr> {
    Private(thread)
    + if thread.Busy? && thread.call.op.Add? && Finished(thread.pc) && !thread.pc.ret.result then {thread.call.node} else {}
  }

  predicate IsMine(s: State, t: nat, x: Addr) {
    t < |s.threads| && x in Mine(s.threads[t])
  }

  /** The node of an add that returned false. */
  predicate Dropped(results: seq<Returned>, k: nat, x: Addr) {
    k < |results| && results[k].call.op.Add? && !results[k].result && results[k].call.node == x
  }

  ghost predicate Kept(s: State, x: Addr) {
    x in s.live || (exists t :: IsMine(s, t, x)) || exists k :: Dropped(s.results, k, x)
  }

  lemma TestKept(s: State, t: nat, x: Addr)
    requires Enabled(s, t, Step) && s.threads[t].pc.Test? && (x in s.live || IsMine(s, t, x))
    ensures var s' := StepOf(s, t); x in s'.live || IsMine(s', t, x)
  {
  }

  lemma OwnKept(s: State, t: nat, x: Addr)
    requires Enabled(s, t, Step) && PcOk(s, t, s.threads[t].call, s.threads[t].pc)
    requires x in StepOf(s, t).key && (x in s.live || IsMine(s, t, x))
    ensures var s' := StepOf(s, t); x in s'.live || IsMine(s', t, x) || Dropped(s'.results, |s.results|, x)
  {
    if s.threads[t].pc.Test? { TestKept(s, t, x); } else { StepKept(s, t, x); }
  }

  lemma StepKept(s: State, t: nat, x: Addr)
    requires Enabled(s, t, Step) && PcOk(s, t, s.threads[t].call, s.threads[t].pc) && !s.threads[t].pc.Test?
    requires x in StepOf(s, t).key && (x in s.live || IsMine(s, t, x))
    ensures var s' := StepOf(s, t); x in s'.live || IsMine(s', t, x) || Dropped(s'.results, |s.results|, x)
  {
  }

  lemma OtherKept(s: State, s': State, t: nat, x: Addr)
    requires t < |s.threads| && t < |s'.threads| && s'.threads == s.threads[t := s'.threads[t]] && s.results <= s'.results
    requires Kept(s, x) && x !in s.live && !IsMine(s, t, x)
    ensures Kept(s', x)
  {
    if u :| IsMine(s, u, x) {
      assert IsMine(s', u, x);
    } else {
      var k :| Dropped(s.results, k, x);
      assert Dropped(s'.results, k, x);
    }
  }

  lemma StepFrame(s: State, t: nat)
    requires Enabled(s, t, Step)
    ensures s.results <= StepOf(s, t).results && StepOf(s, t).key.Keys <= s.key.Keys
  {
    StepGoesOn(s, t);
    assert forall k :: 0 <= k < |s.results| ==> StepOf(s, t).results[..|s.results|][k] == s.results[k];
  }

  lemma AllKept(s: State, s': State, t: nat, a: Action)
    requires Inv(s) && Enabled(s, t, a) && s' == Next(s, t, a) && forall x :: x in s.key ==> Kept(s, x)
    ensures forall x :: x in s'.key ==> Kept(s', x)
  {
    assert ThreadOk(s, t);
    if a.Step? {
      StepFrame(s, t);
      StepGoesOn(s, t);
    }
    forall x | x in s'.key ensures Kept(s', x) {
      if x !in s.key {
        assert IsMine(s', t, x);
      } else if x in s.live || IsMine(s, t, x) {
        if a.Step? { OwnKept(s, t, x); }
      } else {
        OtherKept(s, s', t, x);
      }
    }
  }

  lemma AnyStepKeepsNodes(s: State, s': State)
    requires Inv(s) && IsStep(s, s') && forall x :: x in s.key ==> Kept(s, x)
    ensures forall x :: x in s'.key ==> Kept(s', x)
  {
    var t, a :| Enabled(s, t, a) && s' == Next(s, t, a);
    AllKept(s, s', t, a);
  }

  /** Nothing else leaks: every allocated node is in the list, is that of a call under way, or is that of an add that
      returned false, which the source does not free.  So the node of a remove is free once it has returned. */
  lemma {:induction false} WhatIsAllocated(run: seq<State>, numThread: nat, i: nat)
    requires IsRun(run, numThread) && i < |run|
    ensures forall x :: x in run[i].key ==> Kept(run[i], x)
  {
    if i > 0 {
      WhatIsAllocated(run, numThread, i - 1);
      RunKeeps(run, numThread, i - 1);
      assert StepAt(run, i);
      AnyStepKeepsNodes(run[i - 1], run[i]);
    }
  }
}
