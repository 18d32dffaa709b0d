/** The CLH queue lock and the loop that increments a shared counter under it: a thread swaps its node into tail, spins on
    its predecessor's node, and on unlocking clears its own node and takes over the predecessor's.  Every load, store
    and swap is one step of one thread. */
module ClhLock {

  type Addr = nat

  /** The next step.  k is history: the number of the thread's swap. */
  datatype Pc =
    | SetNode                                  // *myNode = 1
    | Swap                                     // pred = swap(&tail, myNode)
    | Spin(pred: Addr, k: nat)                 // while (*pred)
    | Load(pred: Addr, k: nat)                 // cnt_global++ in the critical section: load, then store
    | Store(pred: Addr, k: nat, cnt: nat)
    | Clear(pred: Addr, k: nat)                // *myNode = 0
    | Recycle(pred: Addr)                      // myNode = pred

  datatype Thread = Thread(myNode: Addr, pc: Pc)

  /** cell is what the nodes hold, true for 1.  line, swaps, entries, exits and increments are history: the nodes in the
      order they were tail, the threads in the order of their swaps and in the order they entered the critical section,
      the number of stores of 0, and the number of stores to the counter. */
  datatype State = State(cell: map<Addr, bool>, tail: Addr, cnt: nat, threads: seq<Thread>,
                         line: seq<Addr>, swaps: seq<nat>, entries: seq<nat>, exits: nat, increments: nat)

  // ---------------------------------------------------------------- steps

  /** Nodes 0 to n, of which only node 0 holds 0. */
  function Cells(n: nat): (m: map<Addr, bool>)
    ensures forall x: nat :: x in m <==> x <= n
    ensures forall x :: x in m ==> (m[x] <==> x > 0)
  {
    if n == 0 then map[0 := false] else Cells(n - 1)[n := true]
  }

  /** The lock's node is 0; thread t brings node t + 1. */
  function Init(numThread: nat): State {
    State(Cells(numThread), 0, 0, seq(numThread, (t: nat) => Thread(t + 1, SetNode)), [0], [], [], 0, 0)
  }

  predicate Enabled(s: State, t: nat) {
    && t < |s.threads|
    && (s.threads[t].pc.Spin? ==> s.threads[t].pc.pred in s.cell)
  }

  function Goto(s: State, t: nat, pc: Pc): State
    requires t < |s.threads|
  {
    s.(threads := s.threads[t := s.threads[t].(pc := pc)])
  }

  function Next(s: State, t: nat): State
    requires Enabled(s, t)
  {
    var my := s.threads[t].myNode;
    match s.threads[t].pc
    case SetNode => Goto(s, t, Swap).(cell := s.cell[my := true])
    case Swap => Goto(s, t, Spin(s.tail, |s.swaps|)).(tail := my, line := s.line + [my], swaps := s.swaps + [t])
    case Spin(pred, k) =>
      if s.cell[pred] then s else Goto(s, t, Load(pred, k)).(entries := s.entries + [t])
    case Load(pred, k) => Goto(s, t, Store(pred, k, s.cnt))
    case Store(pred, k, cnt) => Goto(s, t, Clear(pred, k)).(cnt := cnt + 1, increments := s.increments + 1)
    case Clear(pred, k) => Goto(s, t, Recycle(pred)).(cell := s.cell[my := false], exits := s.exits + 1)
    case Recycle(pred) => s.(threads := s.threads[t := Thread(pred, SetNode)])
  }

  ghost predicate IsStep(s: State, s': State) {
    exists t :: Enabled(s, t) && s' == Next(s, t)
  }

  /** Any interleaving of any number of threads. */
  ghost predicate IsRun(run: seq<State>, numThread: nat) {
    run != [] && run[0] == Init(numThread) && forall i :: 0 < i < |run| ==> StepAt(run, i)
  }

  ghost predicate StepAt(run: seq<State>, i: nat) {
    0 < i < |run| && IsStep(run[i - 1], run[i])
  }

  // ---------------------------------------------------------------- invariant

  /** From its swap to its store of 0. */
  predicate Queued(thread: Thread) {
    thread.pc.Spin? || thread.pc.Load? || thread.pc.Store? || thread.pc.Clear?
  }

  predicate Inside(thread: Thread) {
    thread.pc.Load? || thread.pc.Store? || thread.pc.Clear?
  }

  /** The node that is the thread's: its own, or the one it is about to take over. */
  function Owned(thread: Thread): Addr {
    if thread.pc.Recycle? then thread.pc.pred else thread.myNode
  }

  ghost predicate ThreadOk(s: State, t: nat) {
    && t < |s.threads|
    && var thread := s.threads[t];
       if Queued(thread) then
         && s.exits <= thread.pc.k < |s.swaps| && |s.line| == |s.swaps| + 1 && s.swaps[thread.pc.k] == t
         && thread.pc.pred == s.line[thread.pc.k] && thread.myNode == s.line[thread.pc.k + 1]
         && (Inside(thread) ==> thread.pc.k == s.exits && |s.entries| == s.exits + 1)
         && (thread.pc.Store? ==> thread.pc.cnt == s.cnt)
       else
         && (forall j :: s.exits <= j < |s.line| ==> s.line[j] != Owned(thread))
         && Owned(thread) in s.cell && (thread.pc.Swap? ==> s.cell[thread.myNode])
  }

  /** The nodes in use: the one that says the lock is free for the next, and those of the queued threads, which say it is
      not. */
  ghost predicate LineOk(s: State) {
    && |s.line| == |s.swaps| + 1 && s.exits <= |s.swaps| && s.tail == s.line[|s.line| - 1]
    && (forall j :: s.exits <= j < |s.line| ==> s.line[j] in s.cell && (s.cell[s.line[j]] <==> j > s.exits))
    && (forall i, j :: s.exits <= i < j < |s.line| ==> s.line[i] != s.line[j])
    && (forall k :: s.exits <= k < |s.swaps| ==> WaitsAt(s, k))
    && s.exits <= |s.entries| <= s.exits + 1 && |s.entries| <= |s.swaps| && s.entries == s.swaps[..|s.entries|]
    && (|s.entries| == s.exits + 1 ==>
          s.exits < |s.swaps| && s.swaps[s.exits] < |s.threads| && Inside(s.threads[s.swaps[s.exits]]))
    && s.cnt == s.increments
  }

  predicate WaitsAt(s: State, k: nat) {
    k < |s.swaps| && s.swaps[k] < |s.threads| && Queued(s.threads[s.swaps[k]]) && s.threads[s.swaps[k]].pc.k == k
  }

  predicate Apart(s: State, t: nat, u: nat)
    requires t < |s.threads| && u < |s.threads|
  {
    !Queued(s.threads[t]) && !Queued(s.threads[u]) ==> Owned(s.threads[t]) != Owned(s.threads[u])
  }

  ghost predicate Inv(s: State) {
    && LineOk(s)
    && (forall t :: 0 <= t < |s.threads| ==> ThreadOk(s, t))
    && (forall t, u :: 0 <= t < |s.threads| && 0 <= u < |s.threads| && t != u ==> Apart(s, t, u))
    && s.increments == s.exits + (if SomeoneStored(s) then 1 else 0)
  }

  /** The thread inside has incremented the counter. */
  predicate SomeoneStored(s: State) {
    && |s.entries| == s.exits + 1 && s.exits < |s.swaps| && s.swaps[s.exits] < |s.threads|
    && s.threads[s.swaps[s.exits]].pc.Clear?
  }

  // ---------------------------------------------------------------- every step keeps the invariant

  lemma SetNodeKeeps(s: State, t: nat)
    requires Inv(s) && Enabled(s, t) && s.threads[t].pc.SetNode?
    ensures Inv(Next(s, t))
  {
    var s' := Next(s, t);
    assert ThreadOk(s, t);
    forall u | 0 <= u < |s'.threads| ensures ThreadOk(s', u) { assert ThreadOk(s, u); }
    forall k | s'.exits <= k < |s'.swaps| ensures WaitsAt(s', k) { assert WaitsAt(s, k); }
    forall u, v | 0 <= u < |s'.threads| && 0 <= v < |s'.threads| && u != v ensures Apart(s', u, v) { assert Apart(s, u, v); }
  }

  lemma SwapKeeps(s: State, t: nat)
    requires Inv(s) && Enabled(s, t) && s.threads[t].pc.Swap?
    ensures Inv(Next(s, t))
  {
    var s' := Next(s, t);
    assert ThreadOk(s, t);
    forall u | 0 <= u < |s'.threads| ensures ThreadOk(s', u) {
      assert ThreadOk(s, u);
      if u != t { assert Apart(s, t, u); }
    }
    forall k | s'.exits <= k < |s'.swaps| ensures WaitsAt(s', k) {
      if k < |s.swaps| { assert WaitsAt(s, k); }
    }
    forall u, v | 0 <= u < |s'.threads| && 0 <= v < |s'.threads| && u != v ensures Apart(s', u, v) { assert Apart(s, u, v); }
  }

  /** The predecessor's node is 0 only for the first in the queue. */
  lemma FreeForFirst(s: State, t: nat)
    requires Inv(s) && t < |s.threads| && Queued(s.threads[t])
    ensures s.threads[t].pc.pred in s.cell
    ensures !s.cell[s.threads[t].pc.pred] <==> s.threads[t].pc.k == s.exits
  {
    assert ThreadOk(s, t);
    assert s.line[s.threads[t].pc.k] in s.cell;
  }

  lemma SpinKeeps(s: State, t: nat)
    requires Inv(s) && Enabled(s, t) && s.threads[t].pc.Spin?
    ensures Inv(Next(s, t))
  {
    var s' := Next(s, t);
    assert ThreadOk(s, t);
    FreeForFirst(s, t);
    if !s.cell[s.threads[t].pc.pred] {
      forall u | 0 <= u < |s'.threads| ensures ThreadOk(s', u) { assert ThreadOk(s, u); }
      forall k | s'.exits <= k < |s'.swaps| ensures WaitsAt(s', k) { assert WaitsAt(s, k); }
      forall u, v | 0 <= u < |s'.threads| && 0 <= v < |s'.threads| && u != v ensures Apart(s', u, v) {
        assert Apart(s, u, v);
      }
    }
  }

  lemma CountKeeps(s: State, t: nat)
    requires Inv(s) && Enabled(s, t) && (s.threads[t].pc.Load? || s.threads[t].pc.Store?)
    ensures Inv(Next(s, t))
  {
    var s' := Next(s, t);
    assert ThreadOk(s, t);
    forall u | 0 <= u < |s'.threads| ensures ThreadOk(s', u) { assert ThreadOk(s, u); }
    forall k | s'.exits <= k < |s'.swaps| ensures WaitsAt(s', k) { assert WaitsAt(s, k); }
    forall u, v | 0 <= u < |s'.threads| && 0 <= v < |s'.threads| && u != v ensures Apart(s', u, v) { assert Apart(s, u, v); }
  }

  /** The thread's own node now says that the lock is free, and the node that said so before becomes the thread's. */
  lemma ClearKeeps(s: State, t: nat)
    requires Inv(s) && Enabled(s, t) && s.threads[t].pc.Clear?
    ensures Inv(Next(s, t))
  {
    var s' := Next(s, t);
    assert ThreadOk(s, t);
    forall u | 0 <= u < |s'.threads| ensures ThreadOk(s', u) { assert ThreadOk(s, u); }
    forall k | s'.exits <= k < |s'.swaps| ensures WaitsAt(s', k) { assert WaitsAt(s, k); }
    forall u, v | 0 <= u < |s'.threads| && 0 <= v < |s'.threads| && u != v ensures Apart(s', u, v) {
      assert Apart(s, u, v) && ThreadOk(s, u) && ThreadOk(s, v);
    }
  }

  lemma RecycleKeeps(s: State, t: nat)
    requires Inv(s) && Enabled(s, t) && s.threads[t].pc.Recycle?
    ensures Inv(Next(s, t))
  {
    var s' := Next(s, t);
    assert ThreadOk(s, t);
    forall u | 0 <= u < |s'.threads| ensures ThreadOk(s', u) { assert ThreadOk(s, u); }
    forall k | s'.exits <= k < |s'.swaps| ensures WaitsAt(s', k) { assert WaitsAt(s, k); }
    forall u, v | 0 <= u < |s'.threads| && 0 <= v < |s'.threads| && u != v ensures Apart(s', u, v) { assert Apart(s, u, v); }
  }

  lemma NextKeeps(s: State, t: nat)
    requires Inv(s) && Enabled(s, t)
    ensures Inv(Next(s, t))
  {
    match s.threads[t].pc {
      case SetNode => SetNodeKeeps(s, t);
      case Swap => SwapKeeps(s, t);
      case Spin(_, _) => SpinKeeps(s, t);
      case Load(_, _) => CountKeeps(s, t);
      case Store(_, _, _) => CountKeeps(s, t);
      case Clear(_, _) => ClearKeeps(s, t);
      case Recycle(_) => RecycleKeeps(s, t);
    }
  }

  lemma AnyStepKeeps(s: State, s': State)
    requires Inv(s) && IsStep(s, s')
    ensures Inv(s') && |s'.threads| == |s.threads|
  {
    var t :| Enabled(s, t) && s' == Next(s, t);
    NextKeeps(s, t);
  }

  lemma {:induction false} RunKeeps(run: seq<State>, numThread: nat, i: nat)
    requires IsRun(run, numThread) && i < |run|
    ensures Inv(run[i]) && |run[i].threads| == numThread
  {
    if i > 0 {
      RunKeeps(run, numThread, i - 1);
      assert StepAt(run, i);
      AnyStepKeeps(run[i - 1], run[i]);
    }
  }

  // ---------------------------------------------------------------- theorems

  /** Mutual exclusion. */
  lemma MutualExclusion(run: seq<State>, numThread: nat, i: nat, t: nat, u: nat)
    requires IsRun(run, numThread) && i < |run| && t < |run[i].threads| && u < |run[i].threads|
    requires Inside(run[i].threads[t]) && Inside(run[i].threads[u])
    ensures t == u
  {
    RunKeeps(run, numThread, i);
    assert ThreadOk(run[i], t) && ThreadOk(run[i], u);
  }

  /** First come, first served: threads enter in the order of their swaps. */
  lemma EntersInOrder(run: seq<State>, numThread: nat, i: nat)
    requires IsRun(run, numThread) && i < |run|
    ensures |run[i].entries| <= |run[i].swaps| && run[i].entries == run[i].swaps[..|run[i].entries|]
  {
    RunKeeps(run, numThread, i);
  }

  /** No thread waits for a free lock: the first queued thread that has not entered reads 0, and every other one reads
      1. */
  lemma FirstMayEnter(run: seq<State>, numThread: nat, i: nat, t: nat)
    requires IsRun(run, numThread) && i < |run| && t < |run[i].threads| && run[i].threads[t].pc.Spin?
    ensures var s := run[i];
            && Enabled(s, t) && s.exits < |s.swaps| && s.swaps[s.exits] < |s.threads| && Queued(s.threads[s.swaps[s.exits]])
            && (Next(s, t).threads[t].pc.Load? <==> s.swaps[s.exits] == t)
  {
    RunKeeps(run, numThread, i);
    var s := run[i];
    assert ThreadOk(s, t) && WaitsAt(s, s.exits);
    FreeForFirst(s, t);
    if s.swaps[s.exits] == t { assert s.threads[t].pc.k == s.exits; }
  }

  /** Nodes never alias: the node that is free to spin on, those of the queued threads and those of the other threads
      are all different. */
  lemma NodesAreDistinct(run: seq<State>, numThread: nat, i: nat, t: nat, u: nat)
    requires IsRun(run, numThread) && i < |run| && t < numThread && u < numThread && t != u
    ensures var s := run[i];
            && |s.threads| == numThread && s.exits < |s.line|
            && Owned(s.threads[t]) != Owned(s.threads[u]) && Owned(s.threads[t]) != s.line[s.exits]
  {
    RunKeeps(run, numThread, i);
    var s := run[i];
    assert ThreadOk(s, t) && ThreadOk(s, u) && Apart(s, t, u);
  }

  /** The counter: no increment is lost. */
  lemma NoIncrementIsLost(run: seq<State>, numThread: nat, i: nat)
    requires IsRun(run, numThread) && i < |run|
    ensures run[i].cnt == run[i].increments
    ensures (forall t :: 0 <= t < numThread ==> t < |run[i].threads| && !Queued(run[i].threads[t])) ==> run[i].cnt == run[i].exits
  {
    RunKeeps(run, numThread, i);
    var s := run[i];
    if SomeoneStored(s) {
      assert WaitsAt(s, s.exits);
    }
  }
}
