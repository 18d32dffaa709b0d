/** The lock-free queue on a linked list: enqueue appends by a compare-and-swap on the last next pointer and lets tail
    follow by another, helping others to do so; dequeue moves head.  Every load and every compare-and-swap is one step
    of one thread. */
module UnboundedQueue {
  import opened Options
  import opened CallHistory
  import opened QueueSpec

  type Addr = nat

  /** The next step.  i and at are history: the position of a node in the chain, and where in the log the call took
      effect. */
  datatype Pc =
    | ReadTail
    | CasNext(copied: Addr, i: nat)
    | Swing(copied: Addr, i: nat, at: nat)
    | Help(copied: Addr, i: nat, ret: Addr)
    | ReadHead
    | TestNext(sentinel: Addr, i: nat)
    | LoadNext(sentinel: Addr, i: nat)
    | CasHead(sentinel: Addr, i: nat, succ: Addr)
    | LoadKey(sentinel: Addr, i: nat, at: nat)

  /** node is the node malloc'ed by an enqueue. */
  datatype Thread = Idle | Busy(call: Call, node: Addr, pc: Pc)

  datatype Returned = Returned(call: Call, item: Item, at: nat, end: nat)

  /** The heap is key and next, with no next where it is NULL.  chain, taken, follows, log, results and made are
      history: all nodes ever linked in order, how often head and tail moved, the calls in the order they took effect,
      those that returned, and all calls made. */
  datatype State = State(key: map<Addr, int>, next: map<Addr, Addr>, head: Addr, tail: Addr, threads: seq<Thread>,
                         chain: seq<Addr>, taken: nat, follows: nat, log: seq<Event>, results: seq<Returned>, made: seq<Call>)

  datatype Action = InvokeEnqueue(key: int, node: Addr) | InvokeDequeue | Step

  // ---------------------------------------------------------------- steps

  /** The sentinel has an arbitrary key, as malloc leaves it. */
  function Init(numThread: nat, sentinel: Addr, garbage: int): State {
    State(map[sentinel := garbage], map[], sentinel, sentinel, seq(numThread, _ => Idle), [sentinel], 0, 0, [], [], [])
  }

  /** The pointers the next step follows lead to nodes. */
  predicate Readable(s: State, pc: Pc) {
    match pc
    case LoadNext(sentinel, _) => sentinel in s.next
    case LoadKey(sentinel, _, _) => sentinel in s.next && s.next[sentinel] in s.key
    case _ => true
  }

  predicate Enabled(s: State, t: nat, a: Action) {
    && t < |s.threads|
    && match a
       case InvokeEnqueue(_, node) => s.threads[t].Idle? && node !in s.key
       case InvokeDequeue => s.threads[t].Idle?
       case Step => s.threads[t].Busy? && Readable(s, s.threads[t].pc)
  }

  function Goto(s: State, t: nat, pc: Pc): State
    requires t < |s.threads| && s.threads[t].Busy?
  {
    s.(threads := s.threads[t := s.threads[t].(pc := pc)])
  }

  function Return(s: State, t: nat, item: Item, at: nat): State
    requires t < |s.threads| && s.threads[t].Busy?
  {
    s.(threads := s.threads[t := Idle], results := s.results + [Returned(s.threads[t].call, item, at, |s.log|)])
  }

  /** The compare-and-swap of tail from the copied node to another. */
  function CasTail(s: State, copied: Addr, to: Addr): State {
    if s.tail == copied then s.(tail := to, follows := s.follows + 1) else s
  }

  function StepOf(s: State, t: nat): State
    requires Enabled(s, t, Step)
  {
    var call, node := s.threads[t].call, s.threads[t].node;
    match s.threads[t].pc
    case ReadTail => Goto(s, t, CasNext(s.tail, s.follows))
    case CasNext(copied, i) =>
      if copied in s.next then Goto(s, t, Help(copied, i, s.next[copied]))
      else
        Goto(s, t, Swing(copied, i, |s.log|))
          .(next := s.next[copied := node], chain := s.chain + [node],
            log := s.log + [Event(call.id, Enq(call.key))])
    case Help(copied, _, ret) => Goto(CasTail(s, copied, ret), t, ReadTail)
    case Swing(copied, _, at) => Return(CasTail(s, copied, node), t, Enq(call.key), at)
    case ReadHead => Goto(s, t, TestNext(s.head, s.taken))
    case TestNext(sentinel, i) =>
      if sentinel in s.next then Goto(s, t, LoadNext(sentinel, i)) else Goto(s, t, ReadHead)
    case LoadNext(sentinel, i) => Goto(s, t, CasHead(sentinel, i, s.next[sentinel]))
    case CasHead(sentinel, i, succ) =>
      if s.head != sentinel then Goto(s, t, ReadHead)
      else
        Goto(s, t, LoadKey(sentinel, i, |s.log|))
          .(head := succ, taken := s.taken + 1,
            log := s.log + [Event(call.id, Deq(if succ in s.key then s.key[succ] else 0))])
    case LoadKey(sentinel, _, at) => Return(s, t, Deq(s.key[s.next[sentinel]]), at)
  }

  function Next(s: State, t: nat, a: Action): State
    requires Enabled(s, t, a)
  {
    match a
    case InvokeEnqueue(key, node) =>
      var call := Call(|s.made|, true, key, |s.log|);
      s.(threads := s.threads[t := Busy(call, node, ReadTail)], made := s.made + [call], key := s.key[node := key])
    case InvokeDequeue =>
      var call := Call(|s.made|, false, 0, |s.log|);
      s.(threads := s.threads[t := Busy(call, 0, ReadHead)], made := s.made + [call])
    case Step => StepOf(s, t)
  }

  ghost predicate IsStep(s: State, s': State) {
    exists t, a :: Enabled(s, t, a) && s' == Next(s, t, a)
  }

  /** Any interleaving of the calls of any number of threads. */
  ghost predicate IsRun(run: seq<State>, numThread: nat) {
    && run != [] && (exists sentinel, garbage :: run[0] == Init(numThread, sentinel, garbage))
    && forall i :: 0 < i < |run| ==> StepAt(run, i)
  }

  ghost predicate StepAt(run: seq<State>, i: nat) {
    0 < i < |run| && IsStep(run[i - 1], run[i])
  }

  // ---------------------------------------------------------------- invariant

  /** The chain follows the next pointers to the last node, whose next is NULL. */
  ghost predicate ChainOk(key: map<Addr, int>, next: map<Addr, Addr>, chain: seq<Addr>) {
    && chain != []
    && (forall i :: 0 <= i < |chain| ==> chain[i] in key)
    && Distinct(chain)
    && (forall i {:trigger LinkAt(next, chain, i)} :: 0 <= i < |chain| - 1 ==> LinkAt(next, chain, i))
    && chain[|chain| - 1] !in next && next.Keys <= key.Keys
  }

  predicate Distinct(chain: seq<Addr>) {
    forall i, j :: 0 <= i < j < |chain| ==> chain[i] != chain[j]
  }

  predicate LinkAt(next: map<Addr, Addr>, chain: seq<Addr>, i: int) {
    0 <= i < |chain| - 1 && chain[i] in next && next[chain[i]] == chain[i + 1]
  }

  /** head is at its place, and tail is the last node or the one before it. */
  predicate EndsOk(s: State) {
    && s.taken < |s.chain| && s.chain[s.taken] == s.head
    && s.follows < |s.chain| && s.chain[s.follows] == s.tail && |s.chain| - 2 <= s.follows
  }

  /** The keys from position i on. */
  function KeysFrom(key: map<Addr, int>, chain: seq<Addr>, i: nat): (keys: seq<int>)
    requires i <= |chain| && forall j :: 0 <= j < |chain| ==> chain[j] in key
    ensures |keys| == |chain| - i
    decreases |chain| - i
  {
    if i == |chain| then [] else [key[chain[i]]] + KeysFrom(key, chain, i + 1)
  }

  predicate At(s: State, x: Addr, i: nat, bound: nat) {
    i <= bound && i < |s.chain| && s.chain[i] == x
  }

  predicate PcOk(s: State, thread: Thread)
    requires thread.Busy?
  {
    var call := thread.call;
    match thread.pc
    case ReadTail => call.enqueues
    case CasNext(copied, i) => call.enqueues && At(s, copied, i, s.follows)
    case Swing(copied, i, _) =>
      call.enqueues && At(s, copied, i, s.follows) && i < |s.chain| - 1 && s.chain[i + 1] == thread.node
    case Help(copied, i, ret) =>
      call.enqueues && At(s, copied, i, s.follows) && i < |s.chain| - 1 && s.chain[i + 1] == ret
    case ReadHead => !call.enqueues
    case TestNext(sentinel, i) => !call.enqueues && At(s, sentinel, i, s.taken)
    case LoadNext(sentinel, i) => !call.enqueues && At(s, sentinel, i, s.taken) && i < |s.chain| - 1
    case CasHead(sentinel, i, succ) =>
      !call.enqueues && At(s, sentinel, i, s.taken) && i < |s.chain| - 1 && s.chain[i + 1] == succ
    case LoadKey(sentinel, i, at) =>
      && !call.enqueues && At(s, sentinel, i, s.taken) && i < |s.chain| - 1 && s.chain[i + 1] in s.key
      && at < |s.log| && s.log[at].item == Deq(s.key[s.chain[i + 1]])
  }

  predicate Finished(pc: Pc) {
    pc.Swing? || pc.LoadKey?
  }

  ghost predicate EffectOk(s: State, thread: Thread)
    requires thread.Busy?
  {
    && thread.call.id < |s.made| && s.made[thread.call.id] == thread.call
    && (OwnsNode(thread) ==> NodeOk(s, thread.call, thread.node))
    && (if Finished(thread.pc) then
          thread.pc.at < |s.log| && TookEffect(s.log, thread.call, s.log[thread.pc.at].item, thread.pc.at, |s.log|)
        else Absent(s.log, thread.call.id))
  }

  /** The new node is private and complete. */
  predicate NodeOk(s: State, call: Call, node: Addr) {
    node in s.key && s.key[node] == call.key && node !in s.chain && node !in s.next
  }

  ghost predicate ThreadOk(s: State, t: nat) {
    t < |s.threads| && (s.threads[t].Busy? ==> EffectOk(s, s.threads[t]) && PcOk(s, s.threads[t]))
  }

  predicate OwnsNode(thread: Thread) {
    thread.Busy? && thread.call.enqueues && !Finished(thread.pc)
  }

  predicate Apart(a: Thread, b: Thread) {
    && (a.Busy? && b.Busy? ==> a.call.id != b.call.id)
    && (OwnsNode(a) && OwnsNode(b) ==> a.node != b.node)
  }

  /** The queue holds the keys of the nodes after head. */
  ghost predicate QueueOk(key: map<Addr, int>, next: map<Addr, Addr>, chain: seq<Addr>, taken: nat, log: seq<Event>,
                          made: seq<Call>) {
    ChainOk(key, next, chain) && taken < |chain| && LogOk(log, made, KeysFrom(key, chain, taken + 1))
  }

  predicate ReturnOk(log: seq<Event>, made: seq<Call>, r: Returned) {
    TookEffect(log, r.call, r.item, r.at, r.end) && r.call.id < |made| && made[r.call.id] == r.call
  }

  ghost predicate ThreadsOk(s: State) {
    && (forall t :: 0 <= t < |s.threads| ==> ThreadOk(s, t))
    && forall t, u :: 0 <= t < |s.threads| && 0 <= u < |s.threads| && t != u ==> Apart(s.threads[t], s.threads[u])
  }

  ghost predicate ResultsOk(log: seq<Event>, made: seq<Call>, results: seq<Returned>) {
    forall i :: 0 <= i < |results| ==> ReturnOk(log, made, results[i])
  }

  ghost predicate Inv(s: State) {
    && QueueOk(s.key, s.next, s.chain, s.taken, s.log, s.made) && EndsOk(s) && ThreadsOk(s)
    && ResultsOk(s.log, s.made, s.results)
  }

  // ---------------------------------------------------------------- every step keeps the invariant

  /** The chain, the log and the two positions only grow, by at most the node and the call of t. */
  ghost predicate Frame(s: State, s': State, t: nat) {
    && t < |s.threads| && t < |s'.threads| && s'.threads == s.threads[t := s'.threads[t]]
    && (forall x :: x in s.key ==> x in s'.key && s'.key[x] == s.key[x])
    && s.chain <= s'.chain && s.log <= s'.log && s.taken <= s'.taken && s.follows <= s'.follows && s.made <= s'.made
    && (forall x :: x in s'.next && x !in s.next ==> x in s.chain)
    && (forall x :: x in s'.chain ==> x in s.chain || (OwnsNode(s.threads[t]) && s.threads[t].node == x))
    && (forall i :: |s.log| <= i < |s'.log| ==> s.threads[t].Busy? && s'.log[i].call == s.threads[t].call.id)
  }

  lemma OtherStays(s: State, s': State, t: nat, u: nat)
    requires Frame(s, s', t) && u < |s.threads| && u != t && ThreadOk(s, u) && Apart(s.threads[t], s.threads[u])
    ensures ThreadOk(s', u)
  {
    if s.threads[u].Busy? {
      var call, pc := s.threads[u].call, s.threads[u].pc;
      assert s'.made[call.id] == s.made[call.id];
      if Finished(pc) {
        assert s'.log[pc.at] == s.log[pc.at];
      } else {
        forall i | 0 <= i < |s'.log| ensures s'.log[i].call != call.id {
          if i < |s.log| { assert s'.log[i] == s.log[i]; }
        }
      }
    }
  }

  lemma ThreadsStay(s: State, s': State, t: nat)
    requires ThreadsOk(s) && Frame(s, s', t) && ThreadOk(s', t)
    requires forall u :: 0 <= u < |s.threads| && u != t ==> Apart(s'.threads[t], s.threads[u])
    ensures ThreadsOk(s')
  {
    forall u | 0 <= u < |s'.threads| ensures ThreadOk(s', u) {
      if u != t { OtherStays(s, s', t, u); }
    }
    forall u, v | 0 <= u < |s'.threads| && 0 <= v < |s'.threads| && u != v ensures Apart(s'.threads[u], s'.threads[v]) {
      if u != t && v != t { assert Apart(s.threads[u], s.threads[v]); }
    }
  }

  /** A step of a call under way. */
  lemma CallStays(s: State, s': State, t: nat)
    requires ThreadsOk(s) && Frame(s, s', t) && ThreadOk(s', t) && s.threads[t].Busy?
    requires s'.threads[t].Busy? ==> s'.threads[t].call == s.threads[t].call && s'.threads[t].node == s.threads[t].node
    requires OwnsNode(s'.threads[t]) ==> OwnsNode(s.threads[t])
    ensures ThreadsOk(s')
  {
    forall u | 0 <= u < |s.threads| && u != t ensures Apart(s'.threads[t], s.threads[u]) {
      assert Apart(s.threads[t], s.threads[u]);
    }
    ThreadsStay(s, s', t);
  }

  lemma ResultsStay(log: seq<Event>, log': seq<Event>, made: seq<Call>, made': seq<Call>, results: seq<Returned>)
    requires ResultsOk(log, made, results) && log <= log' && made <= made'
    ensures ResultsOk(log', made', results)
  {
    forall i | 0 <= i < |results| ensures ReturnOk(log', made', results[i]) {
      assert ReturnOk(log, made, results[i]) && log'[results[i].at] == log[results[i].at];
      assert made'[results[i].call.id] == made[results[i].call.id];
    }
  }

  /** The node found by following next is the one after it in the chain. */
  lemma NextInChain(key: map<Addr, int>, next: map<Addr, Addr>, chain: seq<Addr>, i: nat)
    requires ChainOk(key, next, chain) && i < |chain|
    ensures chain[i] in next <==> i < |chain| - 1
    ensures chain[i] in next ==> next[chain[i]] == chain[i + 1]
  {
    if i < |chain| - 1 { assert LinkAt(next, chain, i); }
  }

  predicate Reads(s: State, pc: Pc) {
    || pc.ReadTail? || pc.ReadHead? || pc.TestNext? || pc.LoadNext? || (pc.CasNext? && pc.copied in s.next)
    || (pc.CasHead? && s.head != pc.sentinel)
  }

  lemma ReadsFrame(s: State, t: nat)
    requires Enabled(s, t, Step) && Reads(s, s.threads[t].pc) && ThreadOk(s, t) && EndsOk(s)
    requires var pc := s.threads[t].pc;
             pc.CasNext? || pc.TestNext? || pc.LoadNext? ==>
               && (s.chain[pc.i] in s.next <==> pc.i < |s.chain| - 1)
               && (pc.i < |s.chain| - 1 ==> s.next[s.chain[pc.i]] == s.chain[pc.i + 1])
    ensures var s' := StepOf(s, t); Frame(s, s', t) && ThreadOk(s', t) && s' == s.(threads := s'.threads)
  {
  }

  lemma ReadsKeep(s: State, t: nat)
    requires Inv(s) && Enabled(s, t, Step) && Reads(s, s.threads[t].pc)
    ensures Inv(StepOf(s, t))
  {
    assert ThreadOk(s, t);
    var pc, s' := s.threads[t].pc, StepOf(s, t);
    if pc.CasNext? || pc.TestNext? || pc.LoadNext? { NextInChain(s.key, s.next, s.chain, pc.i); }
    ReadsFrame(s, t);
    CallStays(s, s', t);
  }

  /** A compare-and-swap of tail from a node to the one after it keeps tail at its place, whether it succeeds or not. */
  lemma CasTailOk(s: State, copied: Addr, i: nat, to: Addr)
    requires EndsOk(s) && At(s, copied, i, s.follows) && i < |s.chain| - 1 && s.chain[i + 1] == to
    requires Distinct(s.chain)
    ensures EndsOk(CasTail(s, copied, to)) && CasTail(s, copied, to).follows > i
  {
    if s.tail == copied { assert i == s.follows; }
  }

  lemma HelpKeeps(s: State, t: nat)
    requires Inv(s) && Enabled(s, t, Step) && s.threads[t].pc.Help?
    ensures Inv(StepOf(s, t))
  {
    assert ThreadOk(s, t);
    var pc, s' := s.threads[t].pc, StepOf(s, t);
    CasTailOk(s, pc.copied, pc.i, pc.ret);
    CallStays(s, s', t);
  }

  lemma SwingFrame(s: State, t: nat)
    requires Enabled(s, t, Step) && ThreadOk(s, t) && s.threads[t].pc.Swing?
    requires EndsOk(s) && Distinct(s.chain)
    ensures var s' := StepOf(s, t);
            && Frame(s, s', t) && s'.threads[t].Idle? && EndsOk(s') && |s'.results| == |s.results| + 1
            && s'.results[..|s.results|] == s.results && ReturnOk(s'.log, s'.made, s'.results[|s.results|])
  {
    CasTailOk(s, s.threads[t].pc.copied, s.threads[t].pc.i, s.threads[t].node);
  }

  lemma SwingKeeps(s: State, t: nat)
    requires Inv(s) && Enabled(s, t, Step) && s.threads[t].pc.Swing?
    ensures Inv(StepOf(s, t))
  {
    assert ThreadOk(s, t);
    var s' := StepOf(s, t);
    SwingFrame(s, t);
    CallStays(s, s', t);
    assert forall i :: 0 <= i < |s.results| ==> s'.results[i] == s.results[i];
  }

  lemma {:induction false} KeysAppend(key: map<Addr, int>, chain: seq<Addr>, node: Addr, i: nat)
    requires i <= |chain| && node in key && forall j :: 0 <= j < |chain| ==> chain[j] in key
    ensures KeysFrom(key, chain + [node], i) == KeysFrom(key, chain, i) + [key[node]]
    decreases |chain| - i
  {
    if i == |chain| {
      assert KeysFrom(key, chain + [node], i + 1) == [];
    } else {
      KeysAppend(key, chain, node, i + 1);
    }
  }

  lemma {:induction false} KeysStay(key: map<Addr, int>, key': map<Addr, int>, chain: seq<Addr>, i: nat)
    requires i <= |chain| && forall j :: 0 <= j < |chain| ==> chain[j] in key
    requires forall x :: x in key ==> x in key' && key'[x] == key[x]
    ensures KeysFrom(key', chain, i) == KeysFrom(key, chain, i)
    decreases |chain| - i
  {
    if i < |chain| { KeysStay(key, key', chain, i + 1); }
  }

  lemma ChainAppend(key: map<Addr, int>, next: map<Addr, Addr>, chain: seq<Addr>, node: Addr)
    requires ChainOk(key, next, chain) && node in key && node !in chain && node !in next
    ensures ChainOk(key, next[chain[|chain| - 1] := node], chain + [node])
  {
    var last := |chain| - 1;
    var chain', next' := chain + [node], next[chain[last] := node];
    forall i | 0 <= i < |chain'| - 1 ensures LinkAt(next', chain', i) {
      if i < last { assert LinkAt(next, chain, i); }
    }
  }

  /** Linking the node of a call behind the last one is its enqueue. */
  lemma AppendLog(key: map<Addr, int>, next: map<Addr, Addr>, chain: seq<Addr>, taken: nat, log: seq<Event>,
                  made: seq<Call>, id: nat, node: Addr)
    requires QueueOk(key, next, chain, taken, log, made)
    requires id < |made| && made[id].enqueues && Absent(log, id)
    requires node in key && node !in chain && node !in next && key[node] == made[id].key
    ensures QueueOk(key, next[chain[|chain| - 1] := node], chain + [node], taken, log + [Event(id, Enq(made[id].key))], made)
  {
    ChainAppend(key, next, chain, node);
    KeysAppend(key, chain, node, taken + 1);
    LogGrows(log, made, KeysFrom(key, chain, taken + 1), id, Enq(made[id].key));
  }

  /** Only a copied node that is still tail and last can get a successor. */
  lemma AppendAtTail(s: State, t: nat)
    requires Inv(s) && Enabled(s, t, Step) && s.threads[t].pc.CasNext? && s.threads[t].pc.copied !in s.next
    ensures s.threads[t].pc.i == s.follows == |s.chain| - 1 && s.threads[t].pc.copied == s.chain[|s.chain| - 1]
  {
    assert ThreadOk(s, t);
    NextInChain(s.key, s.next, s.chain, s.threads[t].pc.i);
  }

  lemma AppendFrame(s: State, t: nat)
    requires Enabled(s, t, Step) && ThreadOk(s, t) && s.threads[t].pc.CasNext? && s.threads[t].pc.copied !in s.next
    requires At(s, s.threads[t].pc.copied, |s.chain| - 1, s.follows) && EndsOk(s) && s.threads[t].pc.i == |s.chain| - 1
    requires s.threads[t].call.since <= |s.log|
    ensures Frame(s, StepOf(s, t), t) && ThreadOk(StepOf(s, t), t) && EndsOk(StepOf(s, t))
  {
  }

  lemma AppendKeeps(s: State, t: nat)
    requires Inv(s) && Enabled(s, t, Step) && s.threads[t].pc.CasNext? && s.threads[t].pc.copied !in s.next
    ensures Inv(StepOf(s, t))
  {
    assert ThreadOk(s, t);
    var s' := StepOf(s, t);
    AppendAtTail(s, t);
    assert CallOk(s.made, s.threads[t].call.id, |s.log|);
    AppendFrame(s, t);
    AppendLog(s.key, s.next, s.chain, s.taken, s.log, s.made, s.threads[t].call.id, s.threads[t].node);
    CallStays(s, s', t);
    ResultsStay(s.log, s'.log, s.made, s'.made, s.results);
  }

  /** Moving head to the next node is the dequeue of its key. */
  lemma TakeLog(key: map<Addr, int>, next: map<Addr, Addr>, chain: seq<Addr>, taken: nat, log: seq<Event>,
                made: seq<Call>, id: nat)
    requires QueueOk(key, next, chain, taken, log, made) && taken < |chain| - 1
    requires id < |made| && !made[id].enqueues && Absent(log, id)
    ensures QueueOk(key, next, chain, taken + 1, log + [Event(id, Deq(key[chain[taken + 1]]))], made)
  {
    LogGrows(log, made, KeysFrom(key, chain, taken + 1), id, Deq(key[chain[taken + 1]]));
  }

  lemma TakeFrame(s: State, t: nat)
    requires Enabled(s, t, Step) && ThreadOk(s, t) && s.threads[t].pc.CasHead? && s.head == s.threads[t].pc.sentinel
    requires s.threads[t].pc.i == s.taken && s.threads[t].pc.succ in s.key && EndsOk(s)
    requires s.threads[t].call.since <= |s.log|
    requires s.threads[t].pc.i < |s.chain| - 1
    ensures var s', succ := StepOf(s, t), s.chain[s.taken + 1];
            && Frame(s, s', t) && ThreadOk(s', t) && EndsOk(s')
            && s' == s.(threads := s'.threads, head := succ, taken := s.taken + 1,
                        log := s.log + [Event(s.threads[t].call.id, Deq(s.key[succ]))])
  {
  }

  lemma TakesOldest(s: State, t: nat)
    requires Inv(s) && Enabled(s, t, Step) && s.threads[t].pc.CasHead? && s.head == s.threads[t].pc.sentinel
    ensures s.threads[t].pc.i == s.taken && s.taken < |s.chain| - 1 && ThreadOk(s, t)
    ensures CallOk(s.made, s.threads[t].call.id, |s.log|)
  {
    assert ThreadOk(s, t);
  }

  lemma TakeKeeps(s: State, t: nat)
    requires Inv(s) && Enabled(s, t, Step) && s.threads[t].pc.CasHead? && s.head == s.threads[t].pc.sentinel
    ensures Inv(StepOf(s, t))
  {
    var s' := StepOf(s, t);
    TakesOldest(s, t);
    TakeFrame(s, t);
    TakeLog(s.key, s.next, s.chain, s.taken, s.log, s.made, s.threads[t].call.id);
    CallStays(s, s', t);
    ResultsStay(s.log, s'.log, s.made, s'.made, s.results);
  }

  lemma LoadKeyKeeps(s: State, t: nat)
    requires Inv(s) && Enabled(s, t, Step) && s.threads[t].pc.LoadKey?
    ensures Inv(StepOf(s, t))
  {
    assert ThreadOk(s, t);
    var s' := StepOf(s, t);
    NextInChain(s.key, s.next, s.chain, s.threads[t].pc.i);
    CallStays(s, s', t);
    ResultsStay(s.log, s'.log, s.made, s'.made, s.results);
  }

  lemma InvokeLog(s: State, s': State, t: nat, a: Action)
    requires Inv(s) && Enabled(s, t, a) && !a.Step? && s' == Next(s, t, a)
    ensures QueueOk(s'.key, s'.next, s'.chain, s'.taken, s'.log, s'.made) && Absent(s.log, |s.made|)
  {
    KeysStay(s.key, s'.key, s.chain, s.taken + 1);
    MadeGrows(s.log, s.made, KeysFrom(s.key, s.chain, s.taken + 1), s'.made[|s.made|]);
  }

  lemma InvokeKeeps(s: State, t: nat, a: Action)
    requires Inv(s) && Enabled(s, t, a) && !a.Step?
    ensures Inv(Next(s, t, a))
  {
    var s' := Next(s, t, a);
    InvokeLog(s, s', t, a);
    forall u | 0 <= u < |s.threads| && u != t ensures Apart(s'.threads[t], s.threads[u]) { assert ThreadOk(s, u); }
    ThreadsStay(s, s', t);
    ResultsStay(s.log, s'.log, s.made, s'.made, s.results);
  }

  lemma StepOfKeeps(s: State, t: nat)
    requires Inv(s) && Enabled(s, t, Step)
    ensures Inv(StepOf(s, t))
  {
    match s.threads[t].pc {
      case CasNext(copied, _) => if copied in s.next { ReadsKeep(s, t); } else { AppendKeeps(s, t); }
      case Swing(_, _, _) => SwingKeeps(s, t);
      case Help(_, _, _) => HelpKeeps(s, t);
      case CasHead(sentinel, _, _) => if s.head == sentinel { TakeKeeps(s, t); } else { ReadsKeep(s, t); }
      case LoadKey(_, _, _) => LoadKeyKeeps(s, t);
      case _ => ReadsKeep(s, t);
    }
  }

  lemma AnyStepKeeps(s: State, s': State)
    requires Inv(s) && IsStep(s, s')
    ensures Inv(s')
  {
    var t, a :| Enabled(s, t, a) && s' == Next(s, t, a);
    if a.Step? { StepOfKeeps(s, t); } else { InvokeKeeps(s, t, a); }
  }

  lemma {:induction false} RunKeeps(run: seq<State>, numThread: nat, i: nat)
    requires IsRun(run, numThread) && i < |run|
    ensures Inv(run[i])
  {
    if i > 0 {
      RunKeeps(run, numThread, i - 1);
      assert StepAt(run, i);
      AnyStepKeeps(run[i - 1], run[i]);
    }
  }

  // ---------------------------------------------------------------- what becomes of a call

  /** The calls the threads are in, and those that returned. */
  function Open(threads: seq<Thread>): (open: seq<Option<Call>>)
    ensures |open| == |threads|
  {
    seq(|threads|, t requires 0 <= t < |threads| => if threads[t].Busy? then Some(threads[t].call) else None)
  }

  function Answered(results: seq<Returned>): (calls: seq<Call>)
    ensures |calls| == |results|
  {
    seq(|results|, k requires 0 <= k < |results| => results[k].call)
  }

  ghost predicate CallsOk(s: State) {
    Accounted(s.made, Open(s.threads), Answered(s.results)) && forall i :: 0 <= i < |s.made| ==> s.made[i].id == i
  }

  /** The thread goes on with its call, or returns from it. */
  predicate GoesOn(s: State, s': State, t: nat)
    requires t < |s.threads| && s.threads[t].Busy?
  {
    && t < |s'.threads| && s'.made == s.made && s'.threads == s.threads[t := s'.threads[t]]
    && if s'.threads[t].Busy? then s'.threads[t].call == s.threads[t].call && s'.results == s.results
       else |s'.results| == |s.results| + 1 && s'.results[..|s.results|] == s.results
            && s'.results[|s.results|].call == s.threads[t].call
  }

  lemma StepGoesOn(s: State, t: nat)
    requires Enabled(s, t, Step)
    ensures GoesOn(s, StepOf(s, t), t)
  {
  }

  lemma StepAccounts(s: State, s': State, t: nat)
    requires CallsOk(s) && t < |s.threads| && s.threads[t].Busy? && GoesOn(s, s', t)
    ensures CallsOk(s')
  {
    if s'.threads[t].Busy? {
      assert Open(s'.threads) == Open(s.threads);
    } else {
      CallReturned(s.made, Open(s.threads), Answered(s.results), t);
      assert Open(s'.threads) == Open(s.threads)[t := None];
      assert Answered(s'.results) == Answered(s.results) + [s.threads[t].call];
    }
  }

  /** The call is recorded as it was made, with the present time, and is the one the thread is in. */
  predicate Records(s: State, s': State, t: nat, enqueues: bool, key: int) {
    && |s'.made| == |s.made| + 1 && s'.made[..|s.made|] == s.made && t < |s'.threads| && s'.threads[t].Busy?
    && s'.made[|s.made|] == s'.threads[t].call == Call(|s.made|, enqueues, key, |s.log|)
  }

  lemma InvokeAccounts(s: State, t: nat, a: Action)
    requires CallsOk(s) && Enabled(s, t, a) && !a.Step?
    ensures CallsOk(Next(s, t, a))
    ensures Records(s, Next(s, t, a), t, a.InvokeEnqueue?, if a.InvokeEnqueue? then a.key else 0)
  {
    var s' := Next(s, t, a);
    var call := s'.threads[t].call;
    CallInvoked(s.made, Open(s.threads), Answered(s.results), t, call);
    assert Open(s'.threads) == Open(s.threads)[t := Some(call)];
  }

  lemma AnyStepAccounts(s: State, s': State)
    requires CallsOk(s) && IsStep(s, s')
    ensures CallsOk(s')
  {
    var t, a :| Enabled(s, t, a) && s' == Next(s, t, a);
    if a.Step? {
      StepGoesOn(s, t);
      StepAccounts(s, s', t);
    } else {
      InvokeAccounts(s, t, a);
    }
  }

  lemma {:induction false} RunAccounts(run: seq<State>, numThread: nat, i: nat)
    requires IsRun(run, numThread) && i < |run|
    ensures CallsOk(run[i])
  {
    if i > 0 {
      RunAccounts(run, numThread, i - 1);
      assert StepAt(run, i);
      AnyStepAccounts(run[i - 1], run[i]);
    }
  }

  // ---------------------------------------------------------------- theorems

  /** Linearizability: in every run, the log is that of a first-in first-out queue and of calls that were made before
      they took effect, and every call that returned took effect at one instant between its invocation and its return,
      an enqueue with the key it was given. */
  lemma Linearizable(run: seq<State>, numThread: nat, i: nat)
    requires IsRun(run, numThread) && i < |run|
    ensures Legal(run[i].log) && forall j :: 0 <= j < |run[i].log| ==> WasMade(run[i].log, run[i].made, j)
    ensures forall k :: 0 <= k < |run[i].results| ==>
              var s, r := run[i], run[i].results[k];
              && r.call.since <= r.at < r.end <= |s.log| && s.log[r.at] == Event(r.call.id, r.item)
              && r.item.Enq? == r.call.enqueues && (r.call.enqueues ==> r.item.key == r.call.key)
              && r.call.id < |s.made| && s.made[r.call.id] == r.call
    ensures Accounted(run[i].made, Open(run[i].threads), Answered(run[i].results))
    ensures forall t, a :: Enabled(run[i], t, a) && !a.Step? ==>
              Records(run[i], Next(run[i], t, a), t, a.InvokeEnqueue?, if a.InvokeEnqueue? then a.key else 0)
  {
    RunAccounts(run, numThread, i);
    RunKeeps(run, numThread, i);
    forall k | 0 <= k < |run[i].results| ensures ReturnOk(run[i].log, run[i].made, run[i].results[k]) {}
  }

  /** The keys in order of their successful appends are those of the nodes of the chain; the keys in order of the
      successful moves of head are a prefix of them, and the rest is still in the chain after head. */
  lemma DequeuesAreAPrefix(run: seq<State>, numThread: nat, i: nat)
    requires IsRun(run, numThread) && i < |run|
    ensures var s := run[i];
            && ChainOk(s.key, s.next, s.chain) && s.taken < |s.chain| && s.chain[s.taken] == s.head
            && Enqueued(s.log) == Dequeued(s.log) + KeysFrom(s.key, s.chain, s.taken + 1)
            && Dequeued(s.log) <= Enqueued(s.log)
  {
    RunKeeps(run, numThread, i);
    FirstInFirstOut(run[i].log);
  }

  /** The chain only grows at its end, and tail is always its last or its second-last node, wherever head is. */
  lemma ChainGrowsAtTail(run: seq<State>, numThread: nat, i: nat)
    requires IsRun(run, numThread) && i < |run|
    ensures var s := run[i];
            s.chain != [] && (s.tail == s.chain[|s.chain| - 1] || (|s.chain| > 1 && s.tail == s.chain[|s.chain| - 2]))
    ensures i + 1 < |run| ==> run[i].chain <= run[i + 1].chain && |run[i + 1].chain| <= |run[i].chain| + 1
  {
    RunKeeps(run, numThread, i);
    if i + 1 < |run| {
      assert StepAt(run, i + 1);
    }
  }

  /** No step follows a NULL pointer. */
  lemma ReadsAreSafe(run: seq<State>, numThread: nat, i: nat, t: nat)
    requires IsRun(run, numThread) && i < |run| && t < |run[i].threads| && run[i].threads[t].Busy?
    ensures Enabled(run[i], t, Step)
  {
    RunKeeps(run, numThread, i);
    var s := run[i];
    assert ThreadOk(s, t);
    match s.threads[t].pc {
      case LoadNext(sentinel, k) => NextInChain(s.key, s.next, s.chain, k);
      case LoadKey(sentinel, k, _) => NextInChain(s.key, s.next, s.chain, k);
      case _ =>
    }
  }

  /** A compare-and-swap on next that fails is followed by one on tail after which tail has left the copied node, so the
      same copy never fails twice. */
  lemma HelpingMovesTail(run: seq<State>, numThread: nat, i: nat, t: nat)
    requires IsRun(run, numThread) && i < |run| && t < |run[i].threads| && run[i].threads[t].Busy?
    requires run[i].threads[t].pc.Help? || run[i].threads[t].pc.Swing?
    ensures Enabled(run[i], t, Step) && StepOf(run[i], t).tail != run[i].threads[t].pc.copied
    ensures StepOf(run[i], t).follows > run[i].threads[t].pc.i
  {
    ReadsAreSafe(run, numThread, i, t);
    RunKeeps(run, numThread, i);
    assert ThreadOk(run[i], t);
  }

  // Lock-freedom of enqueue.

  /** Of tail, the call has read place p or a later one, and it reads again only when tail is past p. */
  predicate Ahead(s: State, t: nat, id: nat, p: nat) {
    && p <= s.follows && id < |s.made| && t < |s.threads|
    && (s.threads[t].Busy? && s.threads[t].call.id == id ==>
          match s.threads[t].pc
          case ReadTail => p < s.follows
          case CasNext(_, i) => p <= i
          case Help(_, i, _) => p <= i
          case _ => true)
  }

  /** A step of its own. */
  lemma OwnStepAhead(s: State, t: nat, id: nat, p: nat)
    requires Enabled(s, t, Step) && Ahead(s, t, id, p) && EndsOk(s) && PcOk(s, s.threads[t])
    requires Distinct(s.chain)
    ensures Ahead(StepOf(s, t), t, id, p)
  {
    var pc := s.threads[t].pc;
    if pc.Help? { CasTailOk(s, pc.copied, pc.i, pc.ret); }
  }

  /** A step of any other thread, or a new call. */
  lemma OtherStepAhead(s: State, u: nat, a: Action, t: nat, id: nat, p: nat)
    requires Enabled(s, u, a) && Ahead(s, t, id, p) && (u == t ==> !a.Step?)
    ensures Ahead(Next(s, u, a), t, id, p)
  {
    var s' := Next(s, u, a);
    assert s'.follows >= s.follows && |s'.made| >= |s.made|;
  }

  lemma StaysAhead(s: State, s': State, t: nat, id: nat, p: nat)
    requires IsStep(s, s') && Ahead(s, t, id, p) && EndsOk(s) && Distinct(s.chain)
    requires s.threads[t].Busy? ==> PcOk(s, s.threads[t])
    ensures Ahead(s', t, id, p)
  {
    var u, a :| Enabled(s, u, a) && s' == Next(s, u, a);
    if u == t && a.Step? {
      OwnStepAhead(s, t, id, p);
    } else {
      OtherStepAhead(s, u, a, t, id, p);
    }
  }

  /** In state i of the run the thread, in the call, reads tail. */
  predicate ReadsTail(run: seq<State>, t: nat, id: nat, i: nat) {
    i + 1 < |run| && ReadsTailIn(run[i], run[i + 1], t, id)
  }

  predicate ReadsTailIn(s: State, s': State, t: nat, id: nat) {
    && t < |s.threads| && s.threads[t].Busy? && s.threads[t].call.id == id
    && s.threads[t].pc.ReadTail? && s' == StepOf(s, t)
  }

  lemma ReadIsAhead(s: State, s': State, t: nat, id: nat)
    requires ThreadsOk(s) && ReadsTailIn(s, s', t, id)
    ensures Ahead(s', t, id, s.follows)
  {
    assert ThreadOk(s, t);
  }

  lemma EndsInRun(run: seq<State>, numThread: nat, i: nat, t: nat)
    requires IsRun(run, numThread) && i < |run|
    ensures EndsOk(run[i]) && Distinct(run[i].chain)
    ensures t < |run[i].threads| && run[i].threads[t].Busy? ==> PcOk(run[i], run[i].threads[t])
  {
    RunKeeps(run, numThread, i);
    assert t < |run[i].threads| ==> ThreadOk(run[i], t);
  }

  lemma StaysAheadInRun(run: seq<State>, numThread: nat, t: nat, id: nat, p: nat, i: nat)
    requires IsRun(run, numThread) && 0 < i < |run| && Ahead(run[i - 1], t, id, p)
    ensures Ahead(run[i], t, id, p)
  {
    EndsInRun(run, numThread, i - 1, t);
    assert StepAt(run, i);
    StaysAhead(run[i - 1], run[i], t, id, p);
  }

  lemma {:induction false} AheadUntil(run: seq<State>, numThread: nat, t: nat, id: nat, p: nat, i: nat, j: nat)
    requires IsRun(run, numThread) && i <= j < |run| && Ahead(run[i], t, id, p)
    ensures Ahead(run[j], t, id, p)
  {
    if i < j {
      AheadUntil(run, numThread, t, id, p, i, j - 1);
      StaysAheadInRun(run, numThread, t, id, p, j);
    }
  }

  lemma ReadThenAhead(run: seq<State>, numThread: nat, t: nat, id: nat, i: nat, j: nat)
    requires IsRun(run, numThread) && ReadsTail(run, t, id, i) && ReadsTail(run, t, id, j) && i < j
    ensures run[i].follows < run[j].follows
  {
    RunKeeps(run, numThread, i);
    ReadIsAhead(run[i], run[i + 1], t, id);
    AheadUntil(run, numThread, t, id, run[i].follows, i + 1, j);
  }

  /** Lock-freedom of enqueue: whenever one call reads tail again and again, each time tail has moved in between, so
      that n rounds of one call mean n - 2 successful appends at least. */
  lemma {:induction false} RoundsMeanAppends(run: seq<State>, numThread: nat, t: nat, id: nat, rounds: seq<nat>)
    requires IsRun(run, numThread) && rounds != []
    requires forall k :: 0 <= k < |rounds| ==> ReadsTail(run, t, id, rounds[k])
    requires forall k :: 0 < k < |rounds| ==> rounds[k - 1] < rounds[k]
    ensures rounds[0] < |run| && rounds[|rounds| - 1] < |run|
    ensures var s, s' := run[rounds[0]], run[rounds[|rounds| - 1]];
            s'.follows >= s.follows + |rounds| - 1 && |s'.chain| >= |s.chain| + |rounds| - 2
  {
    var n := |rounds| - 1;
    assert ReadsTail(run, t, id, rounds[0]) && ReadsTail(run, t, id, rounds[n]);
    RunKeeps(run, numThread, rounds[0]);
    RunKeeps(run, numThread, rounds[n]);
    if n > 0 {
      RoundsMeanAppends(run, numThread, t, id, rounds[..n]);
      ReadThenAhead(run, numThread, t, id, rounds[n - 1], rounds[n]);
    }
  }

  // Lock-freedom of dequeue.

  /** Head is past place p, and so is whatever the call copies of it. */
  predicate HeadPast(s: State, t: nat, id: nat, p: nat) {
    && p < s.taken && id < |s.made| && t < |s.threads|
    && (s.threads[t].Busy? && s.threads[t].call.id == id ==>
          match s.threads[t].pc
          case TestNext(_, i) => p < i
          case LoadNext(_, i) => p < i
          case CasHead(_, i, _) => p < i
          case _ => true)
  }

  lemma OwnStepPast(s: State, t: nat, id: nat, p: nat)
    requires Enabled(s, t, Step) && HeadPast(s, t, id, p)
    ensures HeadPast(StepOf(s, t), t, id, p)
  {
  }

  lemma OtherStepPast(s: State, u: nat, a: Action, t: nat, id: nat, p: nat)
    requires Enabled(s, u, a) && HeadPast(s, t, id, p) && (u == t ==> !a.Step?)
    ensures HeadPast(Next(s, u, a), t, id, p)
  {
    var s' := Next(s, u, a);
    assert s'.taken >= s.taken && |s'.made| >= |s.made|;
  }

  lemma StaysPast(s: State, s': State, t: nat, id: nat, p: nat)
    requires IsStep(s, s') && HeadPast(s, t, id, p)
    ensures HeadPast(s', t, id, p)
  {
    var u, a :| Enabled(s, u, a) && s' == Next(s, u, a);
    if u == t && a.Step? { OwnStepPast(s, t, id, p); } else { OtherStepPast(s, u, a, t, id, p); }
  }

  lemma {:induction false} PastUntil(run: seq<State>, numThread: nat, t: nat, id: nat, p: nat, i: nat, j: nat)
    requires IsRun(run, numThread) && i <= j < |run| && HeadPast(run[i], t, id, p)
    ensures HeadPast(run[j], t, id, p)
  {
    if i < j {
      PastUntil(run, numThread, t, id, p, i, j - 1);
      assert StepAt(run, j);
      StaysPast(run[j - 1], run[j], t, id, p);
    }
  }

  /** In state i of the run the compare-and-swap of head by the thread, in the call, fails. */
  predicate FailsToTake(run: seq<State>, t: nat, id: nat, i: nat) {
    i + 1 < |run| && FailsToTakeIn(run[i], run[i + 1], t, id)
  }

  predicate FailsToTakeIn(s: State, s': State, t: nat, id: nat) {
    && t < |s.threads| && s.threads[t].Busy? && s.threads[t].call.id == id
    && s.threads[t].pc.CasHead? && s.head != s.threads[t].pc.sentinel && s' == StepOf(s, t)
  }

  lemma FailIsPast(run: seq<State>, numThread: nat, t: nat, id: nat, i: nat)
    requires IsRun(run, numThread) && FailsToTake(run, t, id, i)
    ensures run[i].threads[t].pc.i < run[i].taken && HeadPast(run[i + 1], t, id, run[i].threads[t].pc.i)
  {
    RunKeeps(run, numThread, i);
    assert ThreadOk(run[i], t);
  }

  /** Lock-freedom of dequeue: n failed compare-and-swaps of head in one call mean n dequeues by others, at least, since
      the first of them copied head. */
  lemma {:induction false} FailsMeanTakes(run: seq<State>, numThread: nat, t: nat, id: nat, fails: seq<nat>)
    requires IsRun(run, numThread) && fails != []
    requires forall k :: 0 <= k < |fails| ==> FailsToTake(run, t, id, fails[k])
    requires forall k :: 0 < k < |fails| ==> fails[k - 1] < fails[k]
    ensures FailsToTake(run, t, id, fails[0]) && FailsToTake(run, t, id, fails[|fails| - 1])
    ensures var s, s' := run[fails[0]], run[fails[|fails| - 1]];
            s'.taken > s'.threads[t].pc.i >= s.threads[t].pc.i + |fails| - 1
  {
    var n := |fails| - 1;
    FailIsPast(run, numThread, t, id, fails[n]);
    if n > 0 {
      FailsMeanTakes(run, numThread, t, id, fails[..n]);
      FailIsPast(run, numThread, t, id, fails[n - 1]);
      PastUntil(run, numThread, t, id, run[fails[n - 1]].threads[t].pc.i, fails[n - 1] + 1, fails[n]);
    }
  }

  // A call that runs alone.

  function Lag(s: State): int {
    |s.chain| - 1 - s.follows
  }

  function HelpLeft(s: State, i: nat): int {
    if s.follows == i then 4 else 4 + 3 * Lag(s)
  }

  /** The steps a call has left if no other thread steps; for a dequeue, if there is a key for it. */
  function StepsLeft(s: State, thread: Thread): int {
    if thread.Idle? then 0
    else
      match thread.pc
      case ReadTail => 3 + 3 * Lag(s)
      case CasNext(copied, i) => if copied in s.next then 1 + HelpLeft(s, i) else 2
      case Help(_, i, _) => HelpLeft(s, i)
      case Swing(_, _, _) => 1
      case ReadHead => 5
      case TestNext(_, i) => if i == s.taken then 4 else 8
      case LoadNext(_, i) => if i == s.taken then 3 else 7
      case CasHead(_, i, _) => if i == s.taken then 2 else 6
      case LoadKey(_, _, _) => 1
  }

  lemma EnqueueShortens(s: State, t: nat)
    requires Enabled(s, t, Step) && s.threads[t].call.enqueues && PcOk(s, s.threads[t])
    requires EndsOk(s) && ChainOk(s.key, s.next, s.chain)
    ensures StepsLeft(StepOf(s, t), StepOf(s, t).threads[t]) < StepsLeft(s, s.threads[t])
  {
    var pc := s.threads[t].pc;
    NextInChain(s.key, s.next, s.chain, s.follows);
    if pc.CasNext? { NextInChain(s.key, s.next, s.chain, pc.i); }
    if pc.Help? { CasTailOk(s, pc.copied, pc.i, pc.ret); }
  }

  lemma DequeueShortens(s: State, t: nat)
    requires Enabled(s, t, Step) && !s.threads[t].call.enqueues && PcOk(s, s.threads[t])
    requires EndsOk(s) && ChainOk(s.key, s.next, s.chain) && s.taken < |s.chain| - 1
    ensures StepsLeft(StepOf(s, t), StepOf(s, t).threads[t]) < StepsLeft(s, s.threads[t])
  {
    var pc := s.threads[t].pc;
    if pc.TestNext? { NextInChain(s.key, s.next, s.chain, pc.i); }
    if pc.CasHead? { assert s.head == pc.sentinel <==> pc.i == s.taken; }
  }

  /** A call that runs alone returns within eight of its own steps, a dequeue if the queue is not empty: each of them
      lowers the number it has left.  So a dequeue goes on for ever only while others take what is there or there is
      nothing. */
  lemma AloneItEnds(run: seq<State>, numThread: nat, i: nat, t: nat)
    requires IsRun(run, numThread) && i < |run| && t < |run[i].threads| && run[i].threads[t].Busy?
    requires run[i].threads[t].call.enqueues || run[i].threads[t].pc.LoadKey? || Contents(run[i].log) != []
    ensures Enabled(run[i], t, Step) && 0 < StepsLeft(run[i], run[i].threads[t]) <= 8
    ensures var s' := StepOf(run[i], t); StepsLeft(s', s'.threads[t]) < StepsLeft(run[i], run[i].threads[t])
  {
    ReadsAreSafe(run, numThread, i, t);
    RunKeeps(run, numThread, i);
    var s := run[i];
    assert ThreadOk(s, t);
    if s.threads[t].call.enqueues {
      EnqueueShortens(s, t);
    } else if !s.threads[t].pc.LoadKey? {
      DequeueShortens(s, t);
    }
  }
}
