/** The sorted list with optimistic synchronization: a call walks without locks, locks two nodes, and then walks again
    to validate that they are still neighbours.  Nodes that were unlinked stay readable.  Every read or write of a
    next pointer, every lock and every unlock is one step of one thread. */
module OptimisticList {
  import opened Options
  import opened CallHistory
  import opened SetSpec
  import opened SortedChain

  /** How a locked section ends; at is history: where in the log the call took effect. */
  datatype Ret = Retry | Done(result: bool, at: nat)

  /** The next step.  gone is history: the nodes that were unlinked before validation began. */
  datatype Pc =
    | Start
    | Walk(prev: Addr, curr: Addr)
    | LockPrev(prev: Addr, curr: Addr)
    | LockCurr(prev: Addr, curr: Addr)
    | Validate(prev: Addr, curr: Addr, it: Addr, gone: set<Addr>)
    | Act(prev: Addr, curr: Addr)
    | Link(prev: Addr, curr: Addr)
    | Unlink(prev: Addr, curr: Addr, succ: Addr)
    | UnlockPrev(prev: Addr, curr: Addr, ret: Ret)
    | UnlockCurr(curr: Addr, ret: Ret)

  datatype Thread = Idle | Busy(call: Call, pc: Pc)

  /** The heap is key and next, with no next where it is NULL or was never written; locks maps a locked node to its
      holder.  live, removed, log, results and made are history: the nodes in the chain, the nodes that left it, the
      calls in the order they took effect, those that returned, and all calls made. */
  datatype State = State(key: map<Addr, int>, next: map<Addr, Addr>, locks: map<Addr, nat>, threads: seq<Thread>,
                         live: set<Addr>, removed: set<Addr>, log: seq<Event>, results: seq<Returned>,
                         made: seq<Call>)

  datatype Action = Invoke(op: Op, key: int, node: Addr) | Step

  // ---------------------------------------------------------------- steps

  function Init(numThread: nat): State {
    State(map[HEAD := INT_MIN, TAIL := INT_MAX], map[HEAD := TAIL], map[], seq(numThread, _ => Idle),
          {HEAD, TAIL}, {}, [], [], [])
  }

  /** A thread that has to wait for a mutex. */
  predicate Waiting(s: State, t: nat)
    requires t < |s.threads|
  {
    s.threads[t].Busy? &&
    match s.threads[t].pc
    case LockPrev(prev, _) => prev in s.locks
    case LockCurr(_, curr) => curr in s.locks
    case _ => false
  }

  /** The nodes the next step reads are there. */
  predicate Readable(s: State, call: Call, pc: Pc) {
    match pc
    case Start => HEAD in s.next
    case Walk(_, curr) => curr in s.key && (s.key[curr] < call.key ==> curr in s.next)
    case Validate(prev, _, it, _) => it in s.key && prev in s.key && (s.key[it] <= s.key[prev] ==> it in s.next)
    case Act(_, curr) => curr in s.key && (call.op.Remove? && s.key[curr] == call.key ==> curr in s.next)
    case _ => true
  }

  predicate Enabled(s: State, t: nat, a: Action) {
    && t < |s.threads|
    && match a
       case Invoke(op, key, node) =>
         s.threads[t].Idle? && INT_MIN <= key < INT_MAX && node !in s.key
       case Step => s.threads[t].Busy? && !Waiting(s, t) && Readable(s, s.threads[t].call, s.threads[t].pc)
  }

  function Goto(s: State, t: nat, pc: Pc): State
    requires t < |s.threads| && s.threads[t].Busy?
  {
    s.(threads := s.threads[t := s.threads[t].(pc := pc)])
  }

  /** The call takes effect with this result. */
  function Effect(s: State, t: nat, prev: Addr, curr: Addr, result: bool): State
    requires t < |s.threads| && s.threads[t].Busy?
  {
    var call := s.threads[t].call;
    Goto(s, t, UnlockPrev(prev, curr, Done(result, |s.log|)))
      .(log := s.log + [Event(call.id, call.op, call.key, result)])
  }

  /** The two nodes are locked and validated. */
  function ActStep(s: State, t: nat, prev: Addr, curr: Addr): State
    requires Enabled(s, t, Step) && s.threads[t].pc == Act(prev, curr)
  {
    var call := s.threads[t].call;
    match call.op
    case Contains => Effect(s, t, prev, curr, s.key[curr] == call.key)
    case Add =>
      if s.key[curr] == call.key then Effect(s, t, prev, curr, false)
      else Goto(s, t, Link(prev, curr)).(next := s.next[call.node := curr])
    case Remove =>
      if s.key[curr] != call.key then Effect(s, t, prev, curr, false)
      else Goto(s, t, Unlink(prev, curr, s.next[curr]))
  }

  function StepOf(s: State, t: nat): State
    requires Enabled(s, t, Step)
  {
    var call := s.threads[t].call;
    match s.threads[t].pc
    case Start => Goto(s, t, Walk(HEAD, s.next[HEAD]))
    case Walk(prev, curr) =>
      if s.key[curr] < call.key then Goto(s, t, Walk(curr, s.next[curr])) else Goto(s, t, LockPrev(prev, curr))
    case LockPrev(prev, curr) => Goto(s, t, LockCurr(prev, curr)).(locks := s.locks[prev := t])
    case LockCurr(prev, curr) => Goto(s, t, Validate(prev, curr, HEAD, s.removed)).(locks := s.locks[curr := t])
    case Validate(prev, curr, it, gone) =>
      if s.key[it] > s.key[prev] then Goto(s, t, UnlockPrev(prev, curr, Retry))
      else if it != prev then Goto(s, t, Validate(prev, curr, s.next[it], gone))
      else if s.next[it] == curr then Goto(s, t, Act(prev, curr))
      else Goto(s, t, UnlockPrev(prev, curr, Retry))
    case Act(prev, curr) => ActStep(s, t, prev, curr)
    case Link(prev, curr) =>
      Effect(s, t, prev, curr, true).(next := s.next[prev := call.node], live := s.live + {call.node})
    case Unlink(prev, curr, succ) =>
      Effect(s, t, prev, curr, true)
        .(next := s.next[prev := succ], live := s.live - {curr}, removed := s.removed + {curr})
    case UnlockPrev(prev, curr, ret) => Goto(s, t, UnlockCurr(curr, ret)).(locks := s.locks - {prev})
    case UnlockCurr(curr, Retry) => Goto(s, t, Start).(locks := s.locks - {curr})
    case UnlockCurr(curr, Done(result, at)) =>
      s.(locks := s.locks - {curr}, threads := s.threads[t := Idle],
         results := s.results + [Returned(call, result, at, |s.log|)])
  }

  function InvokeOf(s: State, t: nat, op: Op, key: int, node: Addr): State
    requires Enabled(s, t, Invoke(op, key, node))
  {
    var call := Call(|s.made|, op, key, node, |s.log|);
    s.(threads := s.threads[t := Busy(call, Start)], made := s.made + [call],
       key := if op.Add? then s.key[node := key] else s.key)
  }

  function Next(s: State, t: nat, a: Action): State
    requires Enabled(s, t, a)
  {
    match a
    case Invoke(op, key, node) => InvokeOf(s, t, op, key, node)
    case Step => StepOf(s, t)
  }

  ghost predicate IsStep(s: State, s': State) {
    exists t, a :: Enabled(s, t, a) && s' == Next(s, t, a)
  }

  /** Any interleaving of the calls of any number of threads. */
  ghost predicate IsRun(run: seq<State>, numThread: nat) {
    run != [] && run[0] == Init(numThread) && forall i :: 0 < i < |run| ==> StepAt(run, i)
  }

  ghost predicate StepAt(run: seq<State>, i: nat) {
    0 < i < |run| && IsStep(run[i - 1], run[i])
  }

  // ---------------------------------------------------------------- invariant

  /** In the chain now or once. */
  predicate Linked(s: State, x: Addr) {
    x in s.live || x in s.removed
  }

  /** Keys ascend along next, and an unlinked node still leads back into what was linked. */
  ghost predicate HeapOk(key: map<Addr, int>, next: map<Addr, Addr>, live: set<Addr>, removed: set<Addr>) {
    && ChainOk(key, next, live) && live !! removed && removed <= key.Keys
    && forall x {:trigger NextOk(key, next, live, removed, x)} ::
         (x in live || x in removed) && x != TAIL ==> NextOk(key, next, live, removed, x)
  }

  ghost predicate NextOk(key: map<Addr, int>, next: map<Addr, Addr>, live: set<Addr>, removed: set<Addr>, x: Addr) {
    x in key && x in next && next[x] in key && (next[x] in live || next[x] in removed)
    && next[x] != HEAD && INT_MIN - 1 <= Rank(key, x) < key[next[x]] <= INT_MAX
  }

  /** From a linked node outside gone, next does not lead into gone. */
  ghost predicate Closed(next: map<Addr, Addr>, live: set<Addr>, removed: set<Addr>, gone: set<Addr>) {
    forall x {:trigger Avoids(next, gone, x)} ::
      (x in live || x in removed) && x !in gone && x != TAIL ==> Avoids(next, gone, x)
  }

  ghost predicate Avoids(next: map<Addr, Addr>, gone: set<Addr>, x: Addr) {
    x in next && next[x] !in gone
  }

  predicate Owns(s: State, t: nat, x: Addr) {
    x in s.locks && s.locks[x] == t
  }

  predicate Finished(pc: Pc) {
    (pc.UnlockPrev? || pc.UnlockCurr?) && pc.ret.Done?
  }

  /** The key belongs after prev and not after curr. */
  predicate Found(s: State, call: Call, prev: Addr, curr: Addr) {
    && Linked(s, prev) && Linked(s, curr) && prev in s.key && curr in s.key
    && Rank(s.key, prev) < call.key <= Rank(s.key, curr)
  }

  predicate LockedNeighbours(s: State, t: nat, call: Call, prev: Addr, curr: Addr) {
    Found(s, call, prev, curr) && Owns(s, t, prev) && Owns(s, t, curr) && prev in s.live && prev in s.next
    && s.next[prev] == curr
  }

  ghost predicate PcOk(s: State, t: nat, call: Call, pc: Pc) {
    match pc
    case Start => true
    case Walk(prev, curr) =>
      && Linked(s, prev) && Linked(s, curr) && prev in s.key && curr in s.key && curr != HEAD
      && Rank(s.key, prev) < call.key
    case LockPrev(prev, curr) => Found(s, call, prev, curr)
    case LockCurr(prev, curr) => Found(s, call, prev, curr) && Owns(s, t, prev)
    case Validate(prev, curr, it, gone) =>
      && Found(s, call, prev, curr) && Owns(s, t, prev) && Owns(s, t, curr)
      && Linked(s, it) && it !in gone && gone <= s.removed && (prev in s.removed ==> prev in gone)
      && Closed(s.next, s.live, s.removed, gone)
    case Act(prev, curr) => LockedNeighbours(s, t, call, prev, curr)
    case Link(prev, curr) =>
      && LockedNeighbours(s, t, call, prev, curr) && call.op.Add? && call.key < s.key[curr]
      && call.node in s.next && s.next[call.node] == curr
    case Unlink(prev, curr, succ) =>
      && LockedNeighbours(s, t, call, prev, curr) && call.op.Remove? && s.key[curr] == call.key
      && curr in s.next && s.next[curr] == succ
    case UnlockPrev(prev, curr, _) =>
      prev != curr && Linked(s, prev) && Linked(s, curr) && Owns(s, t, prev) && Owns(s, t, curr)
    case UnlockCurr(curr, _) => Linked(s, curr) && Owns(s, t, curr)
  }

  /** The call has taken effect once, since it was invoked, if it has finished, and not at all before. */
  ghost predicate CallOk(s: State, call: Call, pc: Pc) {
    && call.id < |s.made| && s.made[call.id] == call && call.since <= |s.log| && INT_MIN <= call.key < INT_MAX
    && (call.op.Add? ==> call.node in s.key && s.key[call.node] == call.key && (!Finished(pc) ==> !Linked(s, call.node)))
    && (Finished(pc) ==> TookEffect(s.log, call, pc.ret.result, pc.ret.at, |s.log|))
    && (!Finished(pc) ==> forall i :: 0 <= i < |s.log| ==> s.log[i].call != call.id)
  }

  ghost predicate ThreadOk(s: State, t: nat) {
    t < |s.threads| && (s.threads[t].Busy? ==>
      CallOk(s, s.threads[t].call, s.threads[t].pc) && PcOk(s, t, s.threads[t].call, s.threads[t].pc))
  }

  /** The nodes a thread holds locked. */
  function Held(thread: Thread): set<Addr> {
    if thread.Idle? then {}
    else
      match thread.pc
      case LockCurr(prev, _) => {prev}
      case Validate(prev, curr, _, _) => {prev, curr}
      case Act(prev, curr) => {prev, curr}
      case Link(prev, curr) => {prev, curr}
      case Unlink(prev, curr, _) => {prev, curr}
      case UnlockPrev(prev, curr, _) => {prev, curr}
      case UnlockCurr(curr, _) => {curr}
      case _ => {}
  }

  predicate HolderOk(s: State, x: Addr) {
    x in s.locks && s.locks[x] < |s.threads| && x in Held(s.threads[s.locks[x]])
  }

  /** Different calls, and different nodes for two adds. */
  predicate Apart(a: Thread, b: Thread) {
    a.Busy? && b.Busy? ==>
      a.call.id != b.call.id && (a.call.op.Add? && b.call.op.Add? ==> a.call.node != b.call.node)
  }

  ghost predicate Inv(s: State) {
    && HeapOk(s.key, s.next, s.live, s.removed) && LogOk(s.log, s.made, Contents(s.key, s.live))
    && (forall t :: 0 <= t < |s.threads| ==> ThreadOk(s, t))
    && (forall x {:trigger HolderOk(s, x)} :: x in s.locks ==> HolderOk(s, x))
    && (forall t, u :: 0 <= t < u < |s.threads| ==> Apart(s.threads[t], s.threads[u]))
    && forall i :: 0 <= i < |s.results| ==> ReturnOk(s, s.results[i])
  }

  predicate ReturnOk(s: State, r: Returned) {
    TookEffect(s.log, r.call, r.result, r.at, r.end)
  }

  // ---------------------------------------------------------------- what a step of one thread leaves the others

  predicate SameNext(s: State, s': State, x: Addr) {
    (x in s.next <==> x in s'.next) && (x in s.next ==> s'.next[x] == s.next[x])
  }

  /** Whether a node belongs to an add of t that has not linked it. */
  predicate IsNodeOf(s: State, t: nat, x: Addr) {
    t < |s.threads| && s.threads[t].Busy? && s.threads[t].call.op.Add? && s.threads[t].call.node == x
  }

  /** What t may change: the next pointers of nodes it has locked or has not linked, and the chain at its own nodes. */
  ghost predicate Frame(s: State, s': State, t: nat) {
    && |s'.threads| == |s.threads| && (forall u :: 0 <= u < |s.threads| && u != t ==> s'.threads[u] == s.threads[u])
    && (forall x :: x in s.key ==> x in s'.key && s'.key[x] == s.key[x])
    && s.removed <= s'.removed && s'.live !! s'.removed
    && (forall x :: Linked(s, x) ==> Linked(s', x))
    && (forall x :: Linked(s', x) ==> Linked(s, x) || IsNodeOf(s, t, x))
    && (forall x :: x in s.locks && s.locks[x] != t ==>
          Owns(s', s.locks[x], x) && (x in s.live <==> x in s'.live) && SameNext(s, s', x))
    && (forall x :: x in s.key && !Linked(s, x) && !IsNodeOf(s, t, x) ==> SameNext(s, s', x))
    && s.log <= s'.log && (forall i :: |s.log| <= i < |s'.log| ==> IsCallOf(s, t, s'.log[i].call))
    && s.made <= s'.made
    && (forall x :: Linked(s', x) && x != TAIL ==> x in s'.next && (OldNext(s, s', x) || s'.next[x] !in s.removed))
  }

  predicate OldNext(s: State, s': State, x: Addr) {
    Linked(s, x) && SameNext(s, s', x)
  }

  predicate IsCallOf(s: State, t: nat, id: nat) {
    t < |s.threads| && s.threads[t].Busy? && s.threads[t].call.id == id
  }

  lemma ClosedStays(s: State, s': State, t: nat, gone: set<Addr>)
    requires Frame(s, s', t) && Closed(s.next, s.live, s.removed, gone) && gone <= s.removed
    ensures Closed(s'.next, s'.live, s'.removed, gone)
  {
    forall x | Linked(s', x) && x !in gone && x != TAIL ensures Avoids(s'.next, gone, x) {
      if OldNext(s, s', x) { assert Avoids(s.next, gone, x); }
    }
  }

  lemma OtherCall(s: State, s': State, t: nat, u: nat)
    requires Frame(s, s', t) && ThreadOk(s, u) && u != t && t < |s.threads| && Apart(s.threads[t], s.threads[u])
    requires s.threads[u].Busy?
    ensures CallOk(s', s.threads[u].call, s.threads[u].pc)
  {
    var call, pc := s.threads[u].call, s.threads[u].pc;
    if Finished(pc) {
      assert s'.log[pc.ret.at] == s.log[pc.ret.at];
    } else {
      forall i | 0 <= i < |s'.log| ensures s'.log[i].call != call.id {
        if i < |s.log| { assert s'.log[i] == s.log[i]; }
      }
    }
  }

  lemma OtherStays(s: State, s': State, t: nat, u: nat)
    requires Frame(s, s', t) && ThreadOk(s, u) && u != t && t < |s.threads| && Apart(s.threads[t], s.threads[u])
    ensures ThreadOk(s', u)
  {
    if s.threads[u].Busy? {
      var call, pc := s.threads[u].call, s.threads[u].pc;
      OtherCall(s, s', t, u);
      match pc {
        case Validate(prev, _, _, gone) =>
          ClosedStays(s, s', t, gone);
          assert Linked(s, prev) && Linked(s', prev);
        case Link(_, _) =>
          assert SameNext(s, s', call.node);
        case _ =>
      }
    }
  }

  // ---------------------------------------------------------------- every step keeps the invariant

  /** Locks are taken and released by their holders only. */
  ghost predicate LocksMove(s: State, s': State, t: nat) {
    && t < |s'.threads|
    && (forall x :: x in s'.locks ==>
          (s'.locks[x] == t && x in Held(s'.threads[t])) || (x in s.locks && s.locks[x] != t && s'.locks[x] == s.locks[x]))
    && (forall x :: x in s.locks && s.locks[x] != t ==> Owns(s', s.locks[x], x))
  }

  lemma HoldersStay(s: State, s': State, t: nat)
    requires Inv(s) && LocksMove(s, s', t) && |s'.threads| == |s.threads|
    requires forall u :: 0 <= u < |s.threads| && u != t ==> s'.threads[u] == s.threads[u]
    ensures forall x {:trigger HolderOk(s', x)} :: x in s'.locks ==> HolderOk(s', x)
  {
    forall x | x in s'.locks ensures HolderOk(s', x) {
      if s'.locks[x] != t { assert HolderOk(s, x); }
    }
  }

  /** A step by t that keeps the call of t. */
  lemma CallGoesOn(s: State, s': State, t: nat)
    requires Inv(s) && Frame(s, s', t) && LocksMove(s, s', t)
    requires HeapOk(s'.key, s'.next, s'.live, s'.removed) && LogOk(s'.log, s'.made, Contents(s'.key, s'.live))
    requires ThreadOk(s', t)
    requires s.threads[t].Busy? && s'.threads[t].Busy? && s'.threads[t].call == s.threads[t].call
    requires s'.results == s.results
    ensures Inv(s')
  {
    HoldersStay(s, s', t);
    forall u | 0 <= u < |s'.threads| ensures ThreadOk(s', u) {
      if u != t {
        assert ThreadOk(s, u) && (if t < u then Apart(s.threads[t], s.threads[u]) else Apart(s.threads[u], s.threads[t]));
        OtherStays(s, s', t, u);
      }
    }
    forall u, v | 0 <= u < v < |s'.threads| ensures Apart(s'.threads[u], s'.threads[v]) {
      assert Apart(s.threads[u], s.threads[v]);
    }
    ResultsStay(s, s');
  }

  lemma ResultsStay(s: State, s': State)
    requires Inv(s) && s.log <= s'.log && s'.results == s.results
    ensures forall i :: 0 <= i < |s'.results| ==> ReturnOk(s', s'.results[i])
  {
    forall i | 0 <= i < |s'.results| ensures ReturnOk(s', s'.results[i]) {
      assert ReturnOk(s, s.results[i]);
      assert s'.log[s.results[i].at] == s.log[s.results[i].at];
    }
  }

  /** A step that leaves the heap and the chain alone. */
  lemma SameHeap(s: State, s': State, t: nat)
    requires Inv(s) && t < |s.threads| && LocksMove(s, s', t) && s'.threads == s.threads[t := s'.threads[t]]
    requires s'.key == s.key && s'.next == s.next && s'.live == s.live && s'.removed == s.removed && s.made <= s'.made
    requires s.log <= s'.log && forall i :: |s.log| <= i < |s'.log| ==> IsCallOf(s, t, s'.log[i].call)
    ensures Frame(s, s', t)
  {
    forall x | Linked(s', x) && x != TAIL ensures x in s'.next && OldNext(s, s', x) {
      assert Linked(s, x) && NextOk(s.key, s.next, s.live, s.removed, x);
    }
  }

  /** A step that changes no more than locks and the place in the program. */
  lemma LocalKeeps(s: State, s': State, t: nat, pc: Pc)
    requires Inv(s) && t < |s.threads| && s.threads[t].Busy? && s' == Goto(s, t, pc).(locks := s'.locks)
    requires LocksMove(s, s', t) && PcOk(s', t, s.threads[t].call, pc)
    requires Finished(pc) == Finished(s.threads[t].pc) && (Finished(pc) ==> pc.ret == s.threads[t].pc.ret)
    ensures Inv(s')
  {
    assert ThreadOk(s, t);
    SameHeap(s, s', t);
    CallGoesOn(s, s', t);
  }

  lemma SameLocks(s: State, s': State, t: nat)
    requires Inv(s) && t < |s.threads| && t < |s'.threads| && s'.locks == s.locks
    requires Held(s'.threads[t]) == Held(s.threads[t])
    ensures LocksMove(s, s', t)
  {
    forall x | x in s.locks ensures HolderOk(s, x) {}
  }

  lemma WalkKeeps(s: State, t: nat)
    requires Inv(s) && Enabled(s, t, Step) && (s.threads[t].pc.Start? || s.threads[t].pc.Walk?)
    ensures Inv(StepOf(s, t))
  {
    assert ThreadOk(s, t);
    match s.threads[t].pc {
      case Start =>
        assert NextOk(s.key, s.next, s.live, s.removed, HEAD);
      case Walk(_, curr) =>
        if s.key[curr] < s.threads[t].call.key { assert NextOk(s.key, s.next, s.live, s.removed, curr); }
    }
    SameLocks(s, StepOf(s, t), t);
    LocalKeeps(s, StepOf(s, t), t, StepOf(s, t).threads[t].pc);
  }

  lemma LockKeeps(s: State, t: nat)
    requires Inv(s) && Enabled(s, t, Step) && (s.threads[t].pc.LockPrev? || s.threads[t].pc.LockCurr?)
    ensures Inv(StepOf(s, t))
  {
    assert ThreadOk(s, t);
    var s' := StepOf(s, t);
    forall x | x in s.locks ensures HolderOk(s, x) {}
    if s.threads[t].pc.LockCurr? { StartsClosed(s); }
    LocalKeeps(s, s', t, s'.threads[t].pc);
  }

  /** At the start of validation: nodes in the chain do not lead out of it. */
  lemma StartsClosed(s: State)
    requires HeapOk(s.key, s.next, s.live, s.removed)
    ensures Closed(s.next, s.live, s.removed, s.removed)
  {
    forall x | Linked(s, x) && x !in s.removed && x != TAIL ensures Avoids(s.next, s.removed, x) {
      assert Follows(s.key, s.next, s.live, x);
    }
  }

  /** The heart of it: validation meets only nodes that were in the chain at some time since it began, so when it meets
      prev, which nobody could unlink meanwhile, prev is in the chain now. */
  lemma ValidateKeeps(s: State, t: nat)
    requires Inv(s) && Enabled(s, t, Step) && s.threads[t].pc.Validate?
    ensures Inv(StepOf(s, t))
  {
    assert ThreadOk(s, t);
    var Validate(prev, curr, it, gone) := s.threads[t].pc;
    if it != TAIL { assert NextOk(s.key, s.next, s.live, s.removed, it) && Avoids(s.next, gone, it); }
    SameLocks(s, StepOf(s, t), t);
    LocalKeeps(s, StepOf(s, t), t, StepOf(s, t).threads[t].pc);
  }

  lemma UnlockKeeps(s: State, t: nat)
    requires Inv(s) && Enabled(s, t, Step)
    requires s.threads[t].pc.UnlockPrev? || (s.threads[t].pc.UnlockCurr? && s.threads[t].pc.ret.Retry?)
    ensures Inv(StepOf(s, t))
  {
    assert ThreadOk(s, t);
    forall x | x in s.locks ensures HolderOk(s, x) {}
    LocalKeeps(s, StepOf(s, t), t, StepOf(s, t).threads[t].pc);
  }

  lemma EffectThread(s: State, s': State, t: nat, prev: Addr, curr: Addr, result: bool)
    requires ThreadOk(s, t) && s.threads[t].Busy? && Linked(s', prev) && Linked(s', curr) && prev != curr
    requires s' == Effect(s, t, prev, curr, result).(next := s'.next, live := s'.live, removed := s'.removed)
    requires Owns(s, t, prev) && Owns(s, t, curr)
    ensures ThreadOk(s', t)
  {
  }

  /** The call takes effect: what remains to be shown of the new state is the chain. */
  lemma EffectKeeps(s: State, s': State, t: nat, prev: Addr, curr: Addr, result: bool)
    requires Inv(s) && t < |s.threads| && s.threads[t].Busy? && !Finished(s.threads[t].pc)
    requires Held(s.threads[t]) == {prev, curr} && Linked(s, prev) && Linked(s, curr) && prev != curr
    requires s' == Effect(s, t, prev, curr, result).(next := s'.next, live := s'.live, removed := s'.removed)
    requires Frame(s, s', t) && HeapOk(s'.key, s'.next, s'.live, s'.removed)
    requires result == Answer(Contents(s.key, s.live), s.threads[t].call.op, s.threads[t].call.key)
    requires Contents(s'.key, s'.live) == Apply(Contents(s.key, s.live), s.threads[t].call.op, s.threads[t].call.key)
    requires Owns(s, t, prev) && Owns(s, t, curr)
    ensures Inv(s')
  {
    assert ThreadOk(s, t);
    var call := s.threads[t].call;
    LogGrows(s.log, s.made, Contents(s.key, s.live), call, result);
    EffectThread(s, s', t, prev, curr, result);
    SameLocks(s, s', t);
    CallGoesOn(s, s', t);
  }

  /** An answer that changes nothing. */
  lemma AnswerKeeps(s: State, t: nat, prev: Addr, curr: Addr, result: bool)
    requires Inv(s) && t < |s.threads| && s.threads[t].Busy? && s.threads[t].pc == Act(prev, curr)
    requires result == Answer(Contents(s.key, s.live), s.threads[t].call.op, s.threads[t].call.key)
    requires Apply(Contents(s.key, s.live), s.threads[t].call.op, s.threads[t].call.key) == Contents(s.key, s.live)
    ensures Inv(Effect(s, t, prev, curr, result))
  {
    assert ThreadOk(s, t);
    var s' := Effect(s, t, prev, curr, result);
    SameLocks(s, s', t);
    SameHeap(s, s', t);
    EffectKeeps(s, s', t, prev, curr, result);
  }

  lemma ActKeeps(s: State, t: nat)
    requires Inv(s) && Enabled(s, t, Step) && s.threads[t].pc.Act?
    ensures Inv(StepOf(s, t))
  {
    assert ThreadOk(s, t);
    var call, prev, curr := s.threads[t].call, s.threads[t].pc.prev, s.threads[t].pc.curr;
    FoundIff(s.key, s.next, s.live, prev, call.key);
    if call.op.Add? && s.key[curr] != call.key {
      SetNextKeeps(s, t, prev, curr);
    } else if call.op.Remove? && s.key[curr] == call.key {
      SameLocks(s, StepOf(s, t), t);
      LocalKeeps(s, StepOf(s, t), t, Unlink(prev, curr, s.next[curr]));
    } else {
      AnswerKeeps(s, t, prev, curr, s.key[curr] == call.key && !call.op.Add?);
    }
  }

  lemma PrivateNext(s: State, node: Addr, curr: Addr)
    requires HeapOk(s.key, s.next, s.live, s.removed) && !Linked(s, node)
    ensures HeapOk(s.key, s.next[node := curr], s.live, s.removed)
  {
    var next' := s.next[node := curr];
    forall x | Linked(s, x) && x != TAIL ensures NextOk(s.key, next', s.live, s.removed, x) {
      assert NextOk(s.key, s.next, s.live, s.removed, x);
    }
    forall x | x in s.live && x != TAIL ensures Follows(s.key, next', s.live, x) {
      assert Follows(s.key, s.next, s.live, x);
    }
  }

  /** node->next = curr, while the node is still private. */
  lemma SetNextKeeps(s: State, t: nat, prev: Addr, curr: Addr)
    requires Inv(s) && Enabled(s, t, Step) && s.threads[t].pc == Act(prev, curr)
    requires s.threads[t].call.op.Add? && s.key[curr] != s.threads[t].call.key
    ensures Inv(StepOf(s, t))
  {
    assert ThreadOk(s, t);
    var s', node := StepOf(s, t), s.threads[t].call.node;
    SameLocks(s, s', t);
    HoldersLinked(s);
    PrivateNext(s, node, curr);
    forall x | Linked(s', x) && x != TAIL ensures x in s'.next && OldNext(s, s', x) {
      assert Linked(s, x) && NextOk(s.key, s.next, s.live, s.removed, x);
    }
    CallGoesOn(s, s', t);
  }

  /** Only linked nodes are locked. */
  lemma HoldersLinked(s: State)
    requires Inv(s)
    ensures forall x :: x in s.locks ==> Linked(s, x)
  {
    forall x | x in s.locks ensures Linked(s, x) {
      assert HolderOk(s, x) && ThreadOk(s, s.locks[x]);
    }
  }

  lemma LinkKeeps(s: State, t: nat)
    requires Inv(s) && Enabled(s, t, Step) && s.threads[t].pc.Link?
    ensures Inv(StepOf(s, t))
  {
    assert ThreadOk(s, t);
    var s', call := StepOf(s, t), s.threads[t].call;
    var Link(prev, curr) := s.threads[t].pc;
    FoundIff(s.key, s.next, s.live, prev, call.key);
    InsertKeeps(s.key, s.next, s.live, prev, call.node);
    assert NextOk(s.key, s.next, s.live, s.removed, prev);
    forall x | Linked(s', x) && x != TAIL ensures NextOk(s'.key, s'.next, s'.live, s'.removed, x) {
      if x != call.node { assert Linked(s, x) && NextOk(s.key, s.next, s.live, s.removed, x); }
    }
    LinkFrame(s, t);
    EffectKeeps(s, s', t, prev, curr, true);
  }

  lemma LinkFrame(s: State, t: nat)
    requires Inv(s) && Enabled(s, t, Step) && s.threads[t].pc.Link?
    ensures Frame(s, StepOf(s, t), t)
  {
    assert ThreadOk(s, t);
    var s', call := StepOf(s, t), s.threads[t].call;
    var Link(prev, curr) := s.threads[t].pc;
    HoldersLinked(s);
    assert Follows(s.key, s.next, s.live, prev);
    forall x | Linked(s', x) && x != TAIL ensures x in s'.next && (OldNext(s, s', x) || s'.next[x] !in s.removed) {
      if x != call.node { assert Linked(s, x) && NextOk(s.key, s.next, s.live, s.removed, x); }
    }
  }

  lemma UnlinkHeap(s: State, prev: Addr, curr: Addr)
    requires HeapOk(s.key, s.next, s.live, s.removed) && prev in s.live && prev != TAIL && prev in s.next
    requires s.next[prev] == curr && curr in s.next && curr != TAIL
    ensures HeapOk(s.key, s.next[prev := s.next[curr]], s.live - {curr}, s.removed + {curr})
    ensures Contents(s.key, s.live - {curr}) == Contents(s.key, s.live) - {s.key[curr]}
  {
    var next', live', removed' := s.next[prev := s.next[curr]], s.live - {curr}, s.removed + {curr};
    RemoveKeeps(s.key, s.next, s.live, prev, curr);
    assert Follows(s.key, s.next, s.live, prev) && Follows(s.key, s.next, s.live, curr);
    assert NextOk(s.key, s.next, s.live, s.removed, curr);
    forall x | (x in live' || x in removed') && x != TAIL ensures NextOk(s.key, next', live', removed', x) {
      assert NextOk(s.key, s.next, s.live, s.removed, x);
    }
  }

  lemma UnlinkKeeps(s: State, t: nat)
    requires Inv(s) && Enabled(s, t, Step) && s.threads[t].pc.Unlink?
    ensures Inv(StepOf(s, t))
  {
    assert ThreadOk(s, t);
    var Unlink(prev, curr, succ) := s.threads[t].pc;
    FoundIff(s.key, s.next, s.live, prev, s.threads[t].call.key);
    UnlinkHeap(s, prev, curr);
    UnlinkFrame(s, t);
    EffectKeeps(s, StepOf(s, t), t, prev, curr, true);
  }

  lemma UnlinkFrame(s: State, t: nat)
    requires Inv(s) && Enabled(s, t, Step) && s.threads[t].pc.Unlink?
    ensures Frame(s, StepOf(s, t), t)
  {
    assert ThreadOk(s, t);
    var s', call := StepOf(s, t), s.threads[t].call;
    var Unlink(prev, curr, succ) := s.threads[t].pc;
    assert Follows(s.key, s.next, s.live, prev) && Follows(s.key, s.next, s.live, curr);
    forall x | Linked(s', x) && x != TAIL ensures x in s'.next && (OldNext(s, s', x) || s'.next[x] !in s.removed) {
      assert Linked(s, x) && NextOk(s.key, s.next, s.live, s.removed, x);
    }
  }

  /** The thread's call ends or begins. */
  lemma ThreadChanges(s: State, s': State, t: nat)
    requires Inv(s) && Frame(s, s', t) && LocksMove(s, s', t) && HeapOk(s'.key, s'.next, s'.live, s'.removed)
    requires LogOk(s'.log, s'.made, Contents(s'.key, s'.live))
    requires t < |s.threads| && ThreadOk(s', t)
    requires forall u :: 0 <= u < |s.threads| && u != t ==> Apart(s'.threads[t], s.threads[u])
    requires forall i :: 0 <= i < |s'.results| ==> ReturnOk(s', s'.results[i])
    ensures Inv(s')
  {
    HoldersStay(s, s', t);
    forall u | 0 <= u < |s'.threads| ensures ThreadOk(s', u) {
      if u != t {
        assert ThreadOk(s, u) && (if t < u then Apart(s.threads[t], s.threads[u]) else Apart(s.threads[u], s.threads[t]));
        OtherStays(s, s', t, u);
      }
    }
    forall u, v | 0 <= u < v < |s'.threads| ensures Apart(s'.threads[u], s'.threads[v]) {
      if u != t && v != t { assert Apart(s.threads[u], s.threads[v]); }
    }
  }

  lemma ReturnKeeps(s: State, t: nat)
    requires Inv(s) && Enabled(s, t, Step) && s.threads[t].pc.UnlockCurr? && s.threads[t].pc.ret.Done?
    ensures Inv(StepOf(s, t))
  {
    assert ThreadOk(s, t);
    var s' := StepOf(s, t);
    forall x | x in s.locks ensures HolderOk(s, x) {}
    SameHeap(s, s', t);
    forall i | 0 <= i < |s'.results| ensures ReturnOk(s', s'.results[i]) {
      if i < |s.results| { assert ReturnOk(s, s.results[i]); }
    }
    ThreadChanges(s, s', t);
  }

  lemma InvokeFrame(s: State, t: nat, op: Op, key: int, node: Addr)
    requires Inv(s) && Enabled(s, t, Invoke(op, key, node))
    ensures var s' := InvokeOf(s, t, op, key, node); Frame(s, s', t) && LocksMove(s, s', t)
  {
    var s' := InvokeOf(s, t, op, key, node);
    forall x | x in s.locks ensures HolderOk(s, x) {}
    forall x | Linked(s', x) && x != TAIL ensures x in s'.next && OldNext(s, s', x) {
      assert Linked(s, x) && NextOk(s.key, s.next, s.live, s.removed, x);
    }
  }

  lemma InvokeCall(s: State, t: nat, op: Op, key: int, node: Addr)
    requires Inv(s) && Enabled(s, t, Invoke(op, key, node))
    ensures ThreadOk(InvokeOf(s, t, op, key, node), t)
  {
    forall i | 0 <= i < |s.log| ensures s.log[i].call != |s.made| { assert WasMade(s.log, s.made, i); }
  }

  lemma InvokeKeeps(s: State, t: nat, op: Op, key: int, node: Addr)
    requires Inv(s) && Enabled(s, t, Invoke(op, key, node))
    ensures Inv(InvokeOf(s, t, op, key, node))
  {
    var s' := InvokeOf(s, t, op, key, node);
    MallocKeeps(s, s'.key);
    MadeStays(s.log, s.made, s'.made, Contents(s.key, s.live));
    InvokeFrame(s, t, op, key, node);
    InvokeCall(s, t, op, key, node);
    forall u | 0 <= u < |s.threads| && u != t ensures Apart(s'.threads[t], s.threads[u]) { assert ThreadOk(s, u); }
    ResultsStay(s, s');
    ThreadChanges(s, s', t);
  }

  lemma MallocKeeps(s: State, key': map<Addr, int>)
    requires Inv(s) && forall x :: x in s.key ==> x in key' && key'[x] == s.key[x]
    ensures HeapOk(key', s.next, s.live, s.removed) && Contents(key', s.live) == Contents(s.key, s.live)
  {
    forall x | Linked(s, x) && x != TAIL ensures NextOk(key', s.next, s.live, s.removed, x) {
      assert NextOk(s.key, s.next, s.live, s.removed, x);
    }
    ChainStays(s.key, key', s.next, s.live);
    ContentsStay(s.key, key', s.live);
  }

  lemma StepOfKeeps(s: State, t: nat)
    requires Inv(s) && Enabled(s, t, Step)
    ensures Inv(StepOf(s, t))
  {
    match s.threads[t].pc {
      case Start => WalkKeeps(s, t);
      case Walk(_, _) => WalkKeeps(s, t);
      case LockPrev(_, _) => LockKeeps(s, t);
      case LockCurr(_, _) => LockKeeps(s, t);
      case Validate(_, _, _, _) => ValidateKeeps(s, t);
      case Act(_, _) => ActKeeps(s, t);
      case Link(_, _) => LinkKeeps(s, t);
      case Unlink(_, _, _) => UnlinkKeeps(s, t);
      case UnlockPrev(_, _, _) => UnlockKeeps(s, t);
      case UnlockCurr(_, ret) => if ret.Done? { ReturnKeeps(s, t); } else { UnlockKeeps(s, t); }
    }
  }

  lemma NextKeeps(s: State, t: nat, a: Action)
    requires Inv(s) && Enabled(s, t, a)
    ensures Inv(Next(s, t, a))
  {
    match a {
      case Invoke(op, key, node) => InvokeKeeps(s, t, op, key, node);
      case Step => StepOfKeeps(s, t);
    }
  }

  /** A step of t changes no other thread. */
  ghost predicate OnlyThread(s: State, s': State, t: nat) {
    t < |s.threads| && t < |s'.threads| && s'.threads == s.threads[t := s'.threads[t]]
  }

  lemma ActThreads(s: State, t: nat, prev: Addr, curr: Addr)
    requires Enabled(s, t, Step) && s.threads[t].pc == Act(prev, curr)
    ensures OnlyThread(s, ActStep(s, t, prev, curr), t)
  {
  }

  lemma StepThreads(s: State, t: nat)
    requires Enabled(s, t, Step)
    ensures OnlyThread(s, StepOf(s, t), t)
  {
    match s.threads[t].pc {
      case Act(prev, curr) => ActThreads(s, t, prev, curr);
      case UnlockCurr(_, _) =>
      case Link(_, _) =>
      case _ =>
    }
  }

  lemma ThreadsStay(s: State, t: nat, a: Action)
    requires Enabled(s, t, a)
    ensures OnlyThread(s, Next(s, t, a), t)
  {
    if a.Step? { StepThreads(s, t); }
  }

  lemma KeysStay(s: State, t: nat, a: Action)
    requires Enabled(s, t, a)
    ensures forall x :: x in s.key ==> x in Next(s, t, a).key && Next(s, t, a).key[x] == s.key[x]
  {
  }

  lemma InitHolds(numThread: nat)
    ensures Inv(Init(numThread))
  {
    var s := Init(numThread);
    assert Follows(s.key, s.next, s.live, HEAD);
    assert NextOk(s.key, s.next, s.live, s.removed, HEAD);
    assert Contents(s.key, s.live) == {};
  }

  lemma {:induction false} RunKeeps(run: seq<State>, numThread: nat, i: nat)
    requires IsRun(run, numThread) && i < |run|
    ensures Inv(run[i]) && |run[i].threads| == numThread
  {
    if i == 0 {
      InitHolds(numThread);
    } else {
      RunKeeps(run, numThread, i - 1);
      assert StepAt(run, i);
      AnyStepKeeps(run[i - 1], run[i]);
    }
  }

  lemma AnyStepKeeps(s: State, s': State)
    requires Inv(s) && IsStep(s, s')
    ensures Inv(s') && |s'.threads| == |s.threads|
  {
    var t, a :| Enabled(s, t, a) && s' == Next(s, t, a);
    NextKeeps(s, t, a);
    ThreadsStay(s, t, a);
  }

  // ---------------------------------------------------------------- what becomes of a call

  /** The calls the threads are in, and those that returned. */
  function Open(threads: seq<Thread>): (open: seq<Option<Call>>)
    ensures |open| == |threads|
  {
    seq(|threads|, t requires 0 <= t < |threads| => if threads[t].Busy? then Some(threads[t].call) else None)
  }

  function Answered(results: seq<Returned>): (calls: seq<Call>)
    ensures |calls| == |results|
  {
    seq(|results|, k requires 0 <= k < |results| => results[k].call)
  }

  ghost predicate CallsOk(s: State) {
    Accounted(s.made, Open(s.threads), Answered(s.results)) && forall i :: 0 <= i < |s.made| ==> s.made[i].id == i
  }

  /** The thread goes on with its call, or returns from it. */
  predicate GoesOn(s: State, s': State, t: nat)
    requires t < |s.threads| && s.threads[t].Busy?
  {
    && t < |s'.threads| && s'.made == s.made && s'.threads == s.threads[t := s'.threads[t]]
    && if s'.threads[t].Busy? then s'.threads[t].call == s.threads[t].call && s'.results == s.results
       else |s'.results| == |s.results| + 1 && s'.results[..|s.results|] == s.results
            && s'.results[|s.results|].call == s.threads[t].call
  }

  lemma ActGoesOn(s: State, t: nat)
    requires Enabled(s, t, Step) && s.threads[t].pc.Act?
    ensures GoesOn(s, StepOf(s, t), t)
  {
  }

  lemma OtherGoesOn(s: State, t: nat)
    requires Enabled(s, t, Step) && !s.threads[t].pc.Act?
    ensures GoesOn(s, StepOf(s, t), t)
  {
  }

  lemma StepGoesOn(s: State, t: nat)
    requires Enabled(s, t, Step)
    ensures GoesOn(s, StepOf(s, t), t)
  {
    if s.threads[t].pc.Act? { ActGoesOn(s, t); } else { OtherGoesOn(s, t); }
  }

  lemma StepAccounts(s: State, s': State, t: nat)
    requires CallsOk(s) && t < |s.threads| && s.threads[t].Busy? && GoesOn(s, s', t)
    ensures CallsOk(s')
  {
    if s'.threads[t].Busy? {
      assert Open(s'.threads) == Open(s.threads);
    } else {
      CallReturned(s.made, Open(s.threads), Answered(s.results), t);
      assert Open(s'.threads) == Open(s.threads)[t := None];
      assert Answered(s'.results) == Answered(s.results) + [s.threads[t].call];
    }
  }

  /** The call is recorded as it was made, with the present time, and is the one the thread is in. */
  predicate Records(s: State, s': State, t: nat, op: Op, key: int) {
    && |s'.made| == |s.made| + 1 && s'.made[..|s.made|] == s.made && t < |s'.threads| && s'.threads[t].Busy?
    && var call := s'.made[|s.made|];
       call == s'.threads[t].call && call.id == |s.made| && call.op == op && call.key == key && call.since == |s.log|
  }

  lemma InvokeAccounts(s: State, t: nat, op: Op, key: int, node: Addr)
    requires CallsOk(s) && Enabled(s, t, Invoke(op, key, node))
    ensures CallsOk(InvokeOf(s, t, op, key, node)) && Records(s, InvokeOf(s, t, op, key, node), t, op, key)
  {
    var s' := InvokeOf(s, t, op, key, node);
    var call := s'.threads[t].call;
    CallInvoked(s.made, Open(s.threads), Answered(s.results), t, call);
    assert Open(s'.threads) == Open(s.threads)[t := Some(call)];
  }

  lemma AnyStepAccounts(s: State, s': State)
    requires CallsOk(s) && IsStep(s, s')
    ensures CallsOk(s')
  {
    var t, a :| Enabled(s, t, a) && s' == Next(s, t, a);
    match a {
      case Invoke(op, key, node) => InvokeAccounts(s, t, op, key, node);
      case Step =>
        StepGoesOn(s, t);
        StepAccounts(s, s', t);
    }
  }

  lemma {:induction false} RunAccounts(run: seq<State>, numThread: nat, i: nat)
    requires IsRun(run, numThread) && i < |run|
    ensures CallsOk(run[i])
  {
    if i > 0 {
      RunAccounts(run, numThread, i - 1);
      assert StepAt(run, i);
      AnyStepAccounts(run[i - 1], run[i]);
    }
  }

  // ---------------------------------------------------------------- theorems

  /** Linearizability: in every run, every call that returned took effect at one instant between its invocation and its
      return; the log of these effects, which holds no call twice and only calls that were made, with their operations
      and keys and after their invocations, is answered as a set would answer it. */
  lemma Linearizable(run: seq<State>, numThread: nat, i: nat)
    requires IsRun(run, numThread) && i < |run|
    ensures Legal(run[i].log) && forall j :: 0 <= j < |run[i].log| ==> WasMade(run[i].log, run[i].made, j)
    ensures forall k :: 0 <= k < |run[i].results| ==>
              var s, r := run[i], run[i].results[k];
              && r.call.since <= r.at < r.end <= |s.log|
              && s.log[r.at] == Event(r.call.id, r.call.op, r.call.key, r.result)
              && RightAnswer(s.log, r.at, r.call.op, r.call.key, r.result)
    ensures Accounted(run[i].made, Open(run[i].threads), Answered(run[i].results))
    ensures forall t, op, key, node :: Enabled(run[i], t, Invoke(op, key, node)) ==>
              Records(run[i], Next(run[i], t, Invoke(op, key, node)), t, op, key)
  {
    RunAccounts(run, numThread, i);
    RunKeeps(run, numThread, i);
    forall k | 0 <= k < |run[i].results|
      ensures var s, r := run[i], run[i].results[k];
              ReturnOk(s, r) && RightAnswer(s.log, r.at, r.call.op, r.call.key, r.result)
    {
      assert ReturnOk(run[i], run[i].results[k]);
      AnswersOfASet(run[i].log, run[i].results[k].at);
    }
  }

  /** At all times a walk from the head passes exactly the keys of that set, in strictly ascending order. */
  lemma ListIsTheSet(run: seq<State>, numThread: nat, i: nat)
    requires IsRun(run, numThread) && i < |run|
    ensures ChainOk(run[i].key, run[i].next, run[i].live)
    ensures var s, w := run[i], NodesFrom(run[i].key, run[i].next, run[i].live, HEAD);
            && (forall j :: 0 <= j < |w| ==> w[j] in s.key)
            && (forall j, k :: 0 <= j < k < |w| ==> Rank(s.key, w[j]) < Rank(s.key, w[k]))
            && (set x | x in w && x != HEAD && x != TAIL :: s.key[x]) == Replay(s.log)
  {
    RunKeeps(run, numThread, i);
    var s, w := run[i], NodesFrom(run[i].key, run[i].next, run[i].live, HEAD);
    WalkMeetsAll(s.key, s.next, s.live, HEAD);
    assert forall j :: 0 <= j < |w| ==> w[j] in w;
    assert forall x :: x in w <==> x in s.live;
  }

  /** No step reads a node or a next pointer that is not there. */
  lemma ReadsAreSafe(run: seq<State>, numThread: nat, i: nat, t: nat)
    requires IsRun(run, numThread) && i < |run| && t < |run[i].threads| && run[i].threads[t].Busy?
    ensures Readable(run[i], run[i].threads[t].call, run[i].threads[t].pc)
  {
    RunKeeps(run, numThread, i);
    StepIsSafe(run[i], t);
  }

  lemma StepIsSafe(s: State, t: nat)
    requires Inv(s) && t < |s.threads| && s.threads[t].Busy?
    ensures Readable(s, s.threads[t].call, s.threads[t].pc)
  {
    assert ThreadOk(s, t);
    match s.threads[t].pc {
      case Start => assert NextOk(s.key, s.next, s.live, s.removed, HEAD);
      case Walk(_, curr) => if curr != TAIL { assert NextOk(s.key, s.next, s.live, s.removed, curr); }
      case Validate(_, _, it, _) => if it != TAIL { assert NextOk(s.key, s.next, s.live, s.removed, it); }
      case Act(_, curr) => if curr != TAIL { assert NextOk(s.key, s.next, s.live, s.removed, curr); }
      case _ =>
    }
  }

  /** The keys a loop still has before it; other threads' steps do not add to them. */
  function LoopMeasure(s: State, pc: Pc): int {
    match pc
    case Walk(_, curr) => if curr in s.key then INT_MAX - Rank(s.key, curr) else 0
    case Validate(_, _, it, _) => if it in s.key then INT_MAX - Rank(s.key, it) else 0
    case _ => 0
  }

  /** The walking loops end, whatever the other threads do: each round passes on to a greater key, and the others
      neither move the loop nor change the keys. */
  lemma LoopsEnd(run: seq<State>, numThread: nat, i: nat, t: nat)
    requires IsRun(run, numThread) && i < |run| && t < |run[i].threads| && Enabled(run[i], t, Step)
    requires run[i].threads[t].pc.Walk? || run[i].threads[t].pc.Validate?
    ensures var pc, s' := run[i].threads[t].pc, Next(run[i], t, Step);
            && 0 <= LoopMeasure(run[i], pc)
            && ((pc.Walk? && s'.threads[t].pc.Walk?) || (pc.Validate? && s'.threads[t].pc.Validate?) ==>
                  LoopMeasure(s', s'.threads[t].pc) < LoopMeasure(run[i], pc))
    ensures forall u, a :: Enabled(run[i], u, a) && u != t ==> LoopUndisturbed(run[i], Next(run[i], u, a), t)
  {
    RunKeeps(run, numThread, i);
    var s := run[i];
    assert ThreadOk(s, t);
    match s.threads[t].pc {
      case Walk(_, curr) => if curr != TAIL { assert NextOk(s.key, s.next, s.live, s.removed, curr); }
      case Validate(_, _, it, _) => if it != TAIL { assert NextOk(s.key, s.next, s.live, s.removed, it); }
    }
    forall u, a | Enabled(s, u, a) && u != t ensures LoopUndisturbed(s, Next(s, u, a), t) {
      OthersDoNotDisturb(s, t, u, a);
    }
  }

  predicate LoopUndisturbed(s: State, s': State, t: nat)
    requires t < |s.threads| && s.threads[t].Busy?
  {
    t < |s'.threads| && s'.threads[t] == s.threads[t] && LoopMeasure(s', s.threads[t].pc) == LoopMeasure(s, s.threads[t].pc)
  }

  lemma OthersDoNotDisturb(s: State, t: nat, u: nat, a: Action)
    requires Inv(s) && t < |s.threads| && s.threads[t].Busy? && Enabled(s, u, a) && u != t
    ensures LoopUndisturbed(s, Next(s, u, a), t)
  {
    assert ThreadOk(s, t);
    ThreadsStay(s, u, a);
    KeysStay(s, u, a);
    if s.threads[t].pc.Validate? && s.threads[t].pc.it != TAIL {
      assert NextOk(s.key, s.next, s.live, s.removed, s.threads[t].pc.it);
    }
  }

  /** What the call has read of the list is still so, and a validation will succeed. */
  predicate UpToDate(s: State, pc: Pc) {
    match pc
    case Walk(prev, curr) => Adjacent(s, prev, curr)
    case LockPrev(prev, curr) => Adjacent(s, prev, curr)
    case LockCurr(prev, curr) => Adjacent(s, prev, curr)
    case Validate(prev, curr, it, _) =>
      Adjacent(s, prev, curr) && it in s.live && it in s.key && prev in s.key && Rank(s.key, it) <= Rank(s.key, prev)
    case _ => true
  }

  predicate Adjacent(s: State, prev: Addr, curr: Addr) {
    prev in s.live && prev != TAIL && prev in s.next && s.next[prev] == curr
  }

  const Keys := INT_MAX - INT_MIN + 2

  function KeysAhead(s: State, x: Addr): int {
    if x in s.key then INT_MAX - Rank(s.key, x) else 0
  }

  /** The steps of one round of a call, at most, from here on; if the round fails, those of the next one too. */
  function RoundLeft(s: State, pc: Pc): int {
    match pc
    case Start => 2 * Keys + 9
    case Walk(_, curr) => Keys + 8 + KeysAhead(s, curr)
    case LockPrev(_, _) => Keys + 7
    case LockCurr(_, _) => Keys + 6
    case Validate(_, _, it, _) => 5 + KeysAhead(s, it)
    case Act(_, _) => 4
    case Link(_, _) => 3
    case Unlink(_, _, _) => 3
    case UnlockPrev(_, _, Retry) => 2 * Keys + 11
    case UnlockPrev(_, _, Done(_, _)) => 2
    case UnlockCurr(_, Retry) => 2 * Keys + 10
    case UnlockCurr(_, Done(_, _)) => 1
  }

  function StepsLeft(s: State, thread: Thread): int {
    if thread.Idle? then 0
    else RoundLeft(s, thread.pc) + if UpToDate(s, thread.pc) then 0 else 2 * Keys + 12
  }

  lemma KeysAheadBounded(s: State, x: Addr)
    requires HeapOk(s.key, s.next, s.live, s.removed) && Linked(s, x)
    ensures x in s.key && 0 <= KeysAhead(s, x) < Keys
  {
    if x != TAIL { assert NextOk(s.key, s.next, s.live, s.removed, x); }
  }

  lemma WalkShortens(s: State, t: nat)
    requires Inv(s) && Enabled(s, t, Step) && (s.threads[t].pc.Start? || s.threads[t].pc.Walk?)
    ensures StepsLeft(StepOf(s, t), StepOf(s, t).threads[t]) < StepsLeft(s, s.threads[t])
  {
    assert ThreadOk(s, t);
    match s.threads[t].pc {
      case Start =>
        assert Follows(s.key, s.next, s.live, HEAD);
        KeysAheadBounded(s, s.next[HEAD]);
      case Walk(prev, curr) =>
        KeysAheadBounded(s, curr);
        if curr != TAIL { assert NextOk(s.key, s.next, s.live, s.removed, curr); }
        if Adjacent(s, prev, curr) { assert Follows(s.key, s.next, s.live, prev); }
    }
  }

  /** A validation that is up to date meets prev, with curr behind it. */
  lemma ValidateShortens(s: State, t: nat)
    requires Inv(s) && Enabled(s, t, Step) && s.threads[t].pc.Validate?
    ensures StepsLeft(StepOf(s, t), StepOf(s, t).threads[t]) < StepsLeft(s, s.threads[t])
  {
    assert ThreadOk(s, t);
    var Validate(prev, curr, it, _) := s.threads[t].pc;
    KeysAheadBounded(s, it);
    if it != TAIL { assert NextOk(s.key, s.next, s.live, s.removed, it); }
    if UpToDate(s, s.threads[t].pc) {
      assert it != prev ==> Rank(s.key, it) < Rank(s.key, prev);
      assert Follows(s.key, s.next, s.live, it);
    }
  }

  lemma LockShortens(s: State, t: nat)
    requires Inv(s) && Enabled(s, t, Step) && (s.threads[t].pc.LockPrev? || s.threads[t].pc.LockCurr?)
    ensures StepsLeft(StepOf(s, t), StepOf(s, t).threads[t]) < StepsLeft(s, s.threads[t])
  {
    assert ThreadOk(s, t);
    KeysAheadBounded(s, HEAD);
  }

  lemma RestShortens(s: State, t: nat)
    requires Enabled(s, t, Step)
    requires var pc := s.threads[t].pc; pc.Act? || pc.Link? || pc.Unlink? || pc.UnlockPrev? || pc.UnlockCurr?
    ensures StepsLeft(StepOf(s, t), StepOf(s, t).threads[t]) < StepsLeft(s, s.threads[t])
  {
  }

  lemma AnyShortens(s: State, t: nat)
    requires Inv(s) && Enabled(s, t, Step)
    ensures StepsLeft(StepOf(s, t), StepOf(s, t).threads[t]) < StepsLeft(s, s.threads[t])
  {
    var pc := s.threads[t].pc;
    if pc.Start? || pc.Walk? { WalkShortens(s, t); }
    else if pc.LockPrev? || pc.LockCurr? { LockShortens(s, t); }
    else if pc.Validate? { ValidateShortens(s, t); }
    else { RestShortens(s, t); }
  }

  /** A call that is let run alone returns: each of its own steps lowers a bound of the steps it has left, which is that
      of one round and, as long as what it has read may be out of date, of a second one. */
  lemma AloneItEnds(run: seq<State>, numThread: nat, i: nat, t: nat)
    requires IsRun(run, numThread) && i < |run| && t < |run[i].threads|
    ensures run[i].threads[t].Busy? ==> 0 < StepsLeft(run[i], run[i].threads[t]) <= 4 * Keys + 23
    ensures Enabled(run[i], t, Step) ==>
              var s' := Next(run[i], t, Step); StepsLeft(s', s'.threads[t]) < StepsLeft(run[i], run[i].threads[t])
  {
    RunKeeps(run, numThread, i);
    var s := run[i];
    assert ThreadOk(s, t);
    if Enabled(s, t, Step) { AnyShortens(s, t); }
    if s.threads[t].Busy? {
      match s.threads[t].pc {
        case Walk(_, curr) => KeysAheadBounded(s, curr);
        case Validate(_, _, it, _) => KeysAheadBounded(s, it);
        case _ =>
      }
    }
  }

  /** The node a thread waits for. */
  function Wanted(s: State, t: nat): Addr
    requires t < |s.threads| && Waiting(s, t)
  {
    match s.threads[t].pc
    case LockPrev(prev, _) => prev
    case LockCurr(_, curr) => curr
  }

  /** Locks are taken in ascending order of keys: following the holders of the locks waited for leads to a thread that
      can step. */
  lemma {:induction false} HolderCanRun(s: State, t: nat) returns (u: nat)
    requires Inv(s) && t < |s.threads| && s.threads[t].Busy?
    ensures Enabled(s, u, Step)
    decreases if Waiting(s, t) && Wanted(s, t) in s.key then INT_MAX + 1 - Rank(s.key, Wanted(s, t)) else INT_MAX + 3 - INT_MIN
  {
    assert ThreadOk(s, t);
    if Waiting(s, t) {
      var x := Wanted(s, t);
      u := s.locks[x];
      assert HolderOk(s, x) && ThreadOk(s, u);
      if Waiting(s, u) {
        u := HolderCanRun(s, u);
      } else {
        StepIsSafe(s, u);
      }
    } else {
      u := t;
      StepIsSafe(s, t);
    }
  }

  /** Deadlock freedom: whenever a call is under way, some thread can take its next step. */
  lemma DeadlockFree(run: seq<State>, numThread: nat, i: nat, t: nat)
    requires IsRun(run, numThread) && i < |run| && t < |run[i].threads| && run[i].threads[t].Busy?
    ensures exists u :: Enabled(run[i], u, Step)
  {
    RunKeeps(run, numThread, i);
    var u := HolderCanRun(run[i], t);
  }
}
