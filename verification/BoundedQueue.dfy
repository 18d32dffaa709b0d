/** The bounded queue on a ring: a call draws a ticket, waits until its slot's flag says that its round has come, uses the
    slot and increments the flag.  Every load, store and fetch-and-add is one step of one thread. */
module BoundedQueue {
  import opened Options
  import opened CallHistory
  import opened QueueSpec

  const QUEUE_SIZE := 1024

  /** The next step; key is what an enqueue stores or a dequeue returns. */
  datatype Pc =
    | TakeTicket
    | Spin(ticket: nat)
    | UseSlot(ticket: nat)                              // the flag was right: store or load the key
    | LoadFlag(ticket: nat, key: int)                   // flag++ is a load and a store
    | StoreFlag(ticket: nat, key: int, flag: nat)

  datatype Thread = Idle | Busy(call: Call, pc: Pc)

  datatype Returned = Returned(call: Call, ticket: nat, item: Item, at: nat, end: nat)

  /** History of the tickets: whose they were, the key of each enqueue, and where in the log enqueue s and dequeue s took
      effect.  A dequeue takes effect when both tickets s have been drawn. */
  datatype Tickets = Tickets(keys: seq<int>, enqueuer: seq<nat>, addedAt: seq<nat>,
                             dequeuer: seq<nat>, deqCall: seq<nat>, takenAt: seq<nat>)

  /** keys and flags are the ring.  tickets, log, results and made (all calls made) are history. */
  datatype State = State(keys: seq<int>, flags: seq<nat>, front: nat, rear: nat, threads: seq<Thread>,
                         tickets: Tickets, log: seq<Event>, results: seq<Returned>, made: seq<Call>)

  datatype Action = InvokeEnqueue(key: int) | InvokeDequeue | Step

  function Slot(ticket: nat): (j: nat)
    ensures j < QUEUE_SIZE
  {
    ticket % QUEUE_SIZE
  }

  function Round(ticket: nat): nat {
    ticket / QUEUE_SIZE
  }

  // ---------------------------------------------------------------- steps

  function Init(numThread: nat): State {
    State(seq(QUEUE_SIZE, _ => 0), seq(QUEUE_SIZE, _ => 0), 0, 0, seq(numThread, _ => Idle),
          Tickets([], [], [], [], [], []), [], [], [])
  }

  predicate Enabled(s: State, t: nat, a: Action) {
    && t < |s.threads| && |s.keys| == |s.flags| == QUEUE_SIZE
    && match a
       case InvokeEnqueue(_) => s.threads[t].Idle?
       case InvokeDequeue => s.threads[t].Idle?
       case Step => s.threads[t].Busy?
  }

  function Goto(s: State, t: nat, pc: Pc): State
    requires t < |s.threads| && s.threads[t].Busy?
  {
    s.(threads := s.threads[t := s.threads[t].(pc := pc)])
  }

  /** The next enqueue ticket, and the next dequeue ticket. */
  function EnterTicket(h: Tickets, t: nat, key: int, at: nat): Tickets {
    h.(keys := h.keys + [key], enqueuer := h.enqueuer + [t], addedAt := h.addedAt + [at])
  }

  function DrawTicket(h: Tickets, t: nat, id: nat): Tickets {
    h.(dequeuer := h.dequeuer + [t], deqCall := h.deqCall + [id])
  }

  /** The next dequeue takes effect. */
  function TakeEffect(h: Tickets, at: nat): Tickets {
    h.(takenAt := h.takenAt + [at])
  }

  /** An enqueue takes effect when it draws its ticket, and with it a dequeue that already waits for this ticket. */
  function AfterEnqueue(h: Tickets, log: seq<Event>, t: nat, call: Call): (Tickets, seq<Event>) {
    var n, h', log' := |h.keys|, EnterTicket(h, t, call.key, |log|), log + [Event(call.id, Enq(call.key))];
    if n < |h.deqCall| then (TakeEffect(h', |log'|), log' + [Event(h.deqCall[n], Deq(call.key))]) else (h', log')
  }

  /** A dequeue takes effect when it draws its ticket if the key is there. */
  function AfterDequeue(h: Tickets, log: seq<Event>, t: nat, call: Call): (Tickets, seq<Event>) {
    var n, h' := |h.deqCall|, DrawTicket(h, t, call.id);
    if n < |h.keys| then (TakeEffect(h', |log|), log + [Event(call.id, Deq(h.keys[n]))]) else (h', log)
  }

  /** seq = fetch_and_add(&rear, 1). */
  function EnqueueTicket(s: State, t: nat): State
    requires t < |s.threads| && s.threads[t].Busy?
  {
    var (h, log) := AfterEnqueue(s.tickets, s.log, t, s.threads[t].call);
    Goto(s, t, Spin(s.rear)).(rear := s.rear + 1, tickets := h, log := log)
  }

  /** seq = fetch_and_add(&front, 1). */
  function DequeueTicket(s: State, t: nat): State
    requires t < |s.threads| && s.threads[t].Busy?
  {
    var (h, log) := AfterDequeue(s.tickets, s.log, t, s.threads[t].call);
    Goto(s, t, Spin(s.front)).(front := s.front + 1, tickets := h, log := log)
  }

  /** The test of the spin loop: even and of the round for an enqueue, odd and of the round for a dequeue. */
  predicate MayPass(flag: nat, enqueues: bool, ticket: nat) {
    flag % 2 == (if enqueues then 0 else 1) && flag / 2 == Round(ticket)
  }

  function EffectAt(h: Tickets, enqueues: bool, ticket: nat): nat {
    if enqueues then (if ticket < |h.addedAt| then h.addedAt[ticket] else 0)
    else if ticket < |h.takenAt| then h.takenAt[ticket] else 0
  }

  function StepOf(s: State, t: nat): State
    requires Enabled(s, t, Step)
  {
    var call := s.threads[t].call;
    match s.threads[t].pc
    case TakeTicket => if call.enqueues then EnqueueTicket(s, t) else DequeueTicket(s, t)
    case Spin(ticket) =>
      if MayPass(s.flags[Slot(ticket)], call.enqueues, ticket) then Goto(s, t, UseSlot(ticket)) else s
    case UseSlot(ticket) =>
      if call.enqueues then Goto(s, t, LoadFlag(ticket, call.key)).(keys := s.keys[Slot(ticket) := call.key])
      else Goto(s, t, LoadFlag(ticket, s.keys[Slot(ticket)]))
    case LoadFlag(ticket, key) => Goto(s, t, StoreFlag(ticket, key, s.flags[Slot(ticket)]))
    case StoreFlag(ticket, key, flag) =>
      s.(threads := s.threads[t := Idle], flags := s.flags[Slot(ticket) := flag + 1],
         results := s.results + [Returned(call, ticket, if call.enqueues then Enq(key) else Deq(key),
                                          EffectAt(s.tickets, call.enqueues, ticket), |s.log|)])
  }

  function Next(s: State, t: nat, a: Action): State
    requires Enabled(s, t, a)
  {
    match a
    case InvokeEnqueue(key) =>
      var call := Call(|s.made|, true, key, |s.log|);
      s.(threads := s.threads[t := Busy(call, TakeTicket)], made := s.made + [call])
    case InvokeDequeue =>
      var call := Call(|s.made|, false, 0, |s.log|);
      s.(threads := s.threads[t := Busy(call, TakeTicket)], made := s.made + [call])
    case Step => StepOf(s, t)
  }

  ghost predicate IsStep(s: State, s': State) {
    exists t, a :: Enabled(s, t, a) && s' == Next(s, t, a)
  }

  /** Any interleaving of the calls of any number of threads. */
  ghost predicate IsRun(run: seq<State>, numThread: nat) {
    run != [] && run[0] == Init(numThread) && forall i :: 0 < i < |run| ==> StepAt(run, i)
  }

  ghost predicate StepAt(run: seq<State>, i: nat) {
    0 < i < |run| && IsStep(run[i - 1], run[i])
  }

  // ---------------------------------------------------------------- invariant

  /** The slot's flag has passed the turn of this ticket. */
  predicate Done(flags: seq<nat>, enqueues: bool, ticket: nat)
    requires |flags| == QUEUE_SIZE
  {
    flags[Slot(ticket)] > 2 * Round(ticket) + (if enqueues then 0 else 1)
  }

  /** It is the turn of this ticket. */
  predicate Turn(flags: seq<nat>, enqueues: bool, ticket: nat)
    requires |flags| == QUEUE_SIZE
  {
    flags[Slot(ticket)] == 2 * Round(ticket) + (if enqueues then 0 else 1)
  }

  predicate HasTicket(thread: Thread) {
    thread.Busy? && !thread.pc.TakeTicket?
  }

  predicate Holds(thread: Thread, enqueues: bool, ticket: nat) {
    HasTicket(thread) && thread.call.enqueues == enqueues && thread.pc.ticket == ticket
  }

  /** The thread with this ticket, drawn or not, has not finished, or the flag has passed. */
  predicate EnqueueOk(s: State, ticket: nat)
    requires |s.flags| == QUEUE_SIZE && |s.tickets.enqueuer| == s.rear
  {
    if ticket < s.rear && !Done(s.flags, true, ticket) then
      s.tickets.enqueuer[ticket] < |s.threads| && Holds(s.threads[s.tickets.enqueuer[ticket]], true, ticket)
    else Done(s.flags, true, ticket) <==> ticket < s.rear
  }

  predicate DequeueOk(s: State, ticket: nat)
    requires |s.flags| == QUEUE_SIZE && |s.tickets.dequeuer| == s.front
  {
    if ticket < s.front && !Done(s.flags, false, ticket) then
      s.tickets.dequeuer[ticket] < |s.threads| && Holds(s.threads[s.tickets.dequeuer[ticket]], false, ticket)
    else Done(s.flags, false, ticket) <==> ticket < s.front
  }

  /** A slot whose flag is odd holds the key of the enqueue of that round. */
  predicate SlotOk(s: State, ticket: nat)
    requires |s.flags| == |s.keys| == QUEUE_SIZE
  {
    Done(s.flags, true, ticket) && !Done(s.flags, false, ticket) ==>
      ticket < |s.tickets.keys| && s.keys[Slot(ticket)] == s.tickets.keys[ticket]
  }

  predicate PcOk(s: State, call: Call, pc: Pc)
    requires |s.flags| == |s.keys| == QUEUE_SIZE
  {
    match pc
    case TakeTicket => true
    case Spin(ticket) => true
    case UseSlot(ticket) => Turn(s.flags, call.enqueues, ticket)
    case LoadFlag(ticket, key) => Turn(s.flags, call.enqueues, ticket) && KeyOk(s, call, ticket, key)
    case StoreFlag(ticket, key, flag) =>
      Turn(s.flags, call.enqueues, ticket) && KeyOk(s, call, ticket, key) && flag == s.flags[Slot(ticket)]
  }

  predicate KeyOk(s: State, call: Call, ticket: nat, key: int)
    requires |s.keys| == QUEUE_SIZE
  {
    if call.enqueues then key == call.key == s.keys[Slot(ticket)]
    else ticket < |s.tickets.keys| && key == s.tickets.keys[ticket]
  }

  /** The thread is the one its ticket was drawn by, and it is not past its turn. */
  predicate TicketOk(s: State, t: nat, call: Call, ticket: nat)
    requires |s.flags| == QUEUE_SIZE
  {
    && !Done(s.flags, call.enqueues, ticket)
    && if call.enqueues then
         && ticket < |s.tickets.enqueuer| && s.tickets.enqueuer[ticket] == t
         && ticket < |s.tickets.keys| && s.tickets.keys[ticket] == call.key
         && ticket < |s.tickets.addedAt| && call.since <= s.tickets.addedAt[ticket] < |s.log|
         && s.log[s.tickets.addedAt[ticket]].call == call.id
       else
         && ticket < |s.tickets.dequeuer| && s.tickets.dequeuer[ticket] == t
         && ticket < |s.tickets.deqCall| && s.tickets.deqCall[ticket] == call.id
         && (ticket < |s.tickets.takenAt| ==> call.since <= s.tickets.takenAt[ticket] < |s.log|)
  }

  predicate Unused(log: seq<Event>, h: Tickets, id: nat) {
    Absent(log, id) && id !in h.deqCall
  }

  predicate CallIn(made: seq<Call>, call: Call) {
    call.id < |made| && made[call.id] == call
  }

  predicate ThreadOk(s: State, t: nat)
    requires |s.flags| == |s.keys| == QUEUE_SIZE
  {
    && t < |s.threads|
    && (s.threads[t].Busy? ==>
          var call, pc := s.threads[t].call, s.threads[t].pc;
          && CallIn(s.made, call) && PcOk(s, call, pc)
          && (if pc.TakeTicket? then Unused(s.log, s.tickets, call.id) else TicketOk(s, t, call, pc.ticket)))
  }

  /** The i-th dequeue is of a call that was made, and it is not in the log while it waits. */
  predicate DrawnOk(h: Tickets, log: seq<Event>, made: seq<Call>, i: nat) {
    && i < |h.deqCall| && h.deqCall[i] < |made| && !made[h.deqCall[i]].enqueues
    && (|h.takenAt| <= i ==> Absent(log, h.deqCall[i]))
  }

  predicate Distinct(ids: seq<nat>) {
    forall i, j :: 0 <= i < j < |ids| ==> ids[i] != ids[j]
  }

  /** Enqueue s and dequeue s have taken effect, with the same key, where the tickets say. */
  ghost predicate RecordsOk(h: Tickets, log: seq<Event>, made: seq<Call>) {
    && |h.addedAt| == |h.keys| && |h.takenAt| <= |h.keys| && |h.takenAt| <= |h.deqCall| && Distinct(h.deqCall)
    && (forall i :: 0 <= i < |h.addedAt| ==> AddedOk(h, log, i))
    && (forall i :: 0 <= i < |h.takenAt| ==> TakenOk(h, log, i))
    && (forall i :: 0 <= i < |h.deqCall| ==> DrawnOk(h, log, made, i))
  }

  /** The log is that of a queue that holds the keys not taken yet. */
  ghost predicate HistoryOk(h: Tickets, log: seq<Event>, made: seq<Call>) {
    RecordsOk(h, log, made) && LogOk(log, made, h.keys[|h.takenAt|..])
  }

  predicate TicketsOk(h: Tickets, front: nat, rear: nat) {
    && |h.keys| == |h.enqueuer| == |h.addedAt| == rear && |h.dequeuer| == |h.deqCall| == front
    && |h.takenAt| == Min(front, rear)
  }

  function Min(a: nat, b: nat): nat {
    if a < b then a else b
  }

  predicate AddedOk(h: Tickets, log: seq<Event>, i: nat) {
    i < |h.addedAt| && i < |h.keys| && h.addedAt[i] < |log| && log[h.addedAt[i]].item == Enq(h.keys[i])
  }

  predicate TakenOk(h: Tickets, log: seq<Event>, i: nat) {
    && i < |h.takenAt| && i < |h.keys| && i < |h.deqCall| && h.takenAt[i] < |log|
    && log[h.takenAt[i]] == Event(h.deqCall[i], Deq(h.keys[i]))
  }

  predicate Apart(a: Thread, b: Thread) {
    a.Busy? && b.Busy? ==> a.call.id != b.call.id
  }

  /** A finished call took effect inside it; a dequeue returned the key of the enqueue with the same ticket. */
  predicate ReturnOk(log: seq<Event>, h: Tickets, made: seq<Call>, r: Returned) {
    && TookEffect(log, r.call, r.item, r.at, r.end) && CallIn(made, r.call)
    && r.ticket < |h.keys| && r.item.key == h.keys[r.ticket]
  }

  ghost predicate TurnsOk(s: State)
    requires |s.flags| == |s.keys| == QUEUE_SIZE && |s.tickets.enqueuer| == s.rear && |s.tickets.dequeuer| == s.front
  {
    (forall x: nat :: EnqueueOk(s, x)) && (forall x: nat :: DequeueOk(s, x)) && (forall x: nat :: SlotOk(s, x))
  }

  ghost predicate ThreadsOk(s: State)
    requires |s.flags| == |s.keys| == QUEUE_SIZE
  {
    && (forall t :: 0 <= t < |s.threads| ==> ThreadOk(s, t))
    && forall t, u :: 0 <= t < |s.threads| && 0 <= u < |s.threads| && t != u ==> Apart(s.threads[t], s.threads[u])
  }

  ghost predicate ResultsOk(log: seq<Event>, h: Tickets, made: seq<Call>, results: seq<Returned>) {
    forall i :: 0 <= i < |results| ==> ReturnOk(log, h, made, results[i])
  }

  ghost predicate Inv(s: State) {
    && |s.flags| == |s.keys| == QUEUE_SIZE
    && TicketsOk(s.tickets, s.front, s.rear) && HistoryOk(s.tickets, s.log, s.made)
    && TurnsOk(s) && ThreadsOk(s) && ResultsOk(s.log, s.tickets, s.made, s.results)
  }

  // ---------------------------------------------------------------- every step keeps the invariant

  /** It is the turn of one ticket only. */
  lemma OneTurn(flags: seq<nat>, e: bool, x: nat, e': bool, x': nat)
    requires |flags| == QUEUE_SIZE && Slot(x) == Slot(x') && Turn(flags, e, x) && Turn(flags, e', x')
    ensures e == e' && x == x'
  {
  }

  /** Past the test of the spin loop. */
  predicate InSlot(thread: Thread, j: nat) {
    HasTicket(thread) && !thread.pc.Spin? && Slot(thread.pc.ticket) == j
  }

  /** At most one thread at a time is entitled to a slot. */
  lemma OneInSlot(s: State, t: nat, u: nat, j: nat)
    requires Inv(s) && t < |s.threads| && u < |s.threads| && InSlot(s.threads[t], j) && InSlot(s.threads[u], j)
    ensures t == u
  {
    assert ThreadOk(s, t) && ThreadOk(s, u);
    OneTurn(s.flags, s.threads[t].call.enqueues, s.threads[t].pc.ticket,
            s.threads[u].call.enqueues, s.threads[u].pc.ticket);
  }

  /** What t may change: the slot it is in, and the history, to which it adds its own call or a waiting dequeue. */
  ghost predicate Frame(s: State, s': State, t: nat) {
    && t < |s.threads| && t < |s'.threads| && s'.threads == s.threads[t := s'.threads[t]]
    && |s'.flags| == |s.flags| == |s'.keys| == |s.keys| == QUEUE_SIZE
    && (forall j :: 0 <= j < QUEUE_SIZE ==> SlotFrame(s, s', t, j))
    && HistoryGrows(s, s', t)
  }

  ghost predicate HistoryGrows(s: State, s': State, t: nat) {
    && Extends(s.tickets, s'.tickets) && s.log <= s'.log && s.made <= s'.made
    && (forall i :: |s.log| <= i < |s'.log| ==> CallOf(s, t, s'.log[i].call) || s'.log[i].call in s.tickets.deqCall)
    && (forall i :: |s.tickets.deqCall| <= i < |s'.tickets.deqCall| ==> CallOf(s, t, s'.tickets.deqCall[i]))
    && (forall i :: |s.tickets.takenAt| <= i < |s'.tickets.takenAt| ==> |s.log| <= s'.tickets.takenAt[i] < |s'.log|)
  }

  predicate SlotFrame(s: State, s': State, t: nat, j: nat)
    requires t < |s.threads| && |s'.flags| == |s.flags| == |s'.keys| == |s.keys| == QUEUE_SIZE && j < QUEUE_SIZE
  {
    if InSlot(s.threads[t], j) then s'.flags[j] == s.flags[j] || s'.flags[j] == s.flags[j] + 1
    else s'.flags[j] == s.flags[j] && s'.keys[j] == s.keys[j]
  }

  predicate Extends(h: Tickets, h': Tickets) {
    && h.keys <= h'.keys && h.enqueuer <= h'.enqueuer && h.addedAt <= h'.addedAt
    && h.dequeuer <= h'.dequeuer && h.deqCall <= h'.deqCall && h.takenAt <= h'.takenAt
  }

  predicate CallOf(s: State, t: nat, id: nat) {
    t < |s.threads| && s.threads[t].Busy? && s.threads[t].call.id == id
  }

  lemma OtherUnused(s: State, s': State, t: nat, id: nat)
    requires HistoryGrows(s, s', t) && Unused(s.log, s.tickets, id) && !CallOf(s, t, id)
    ensures Unused(s'.log, s'.tickets, id)
  {
    forall i | 0 <= i < |s'.log| ensures s'.log[i].call != id {
      if i < |s.log| { assert s'.log[i] == s.log[i]; }
    }
    forall i | 0 <= i < |s'.tickets.deqCall| ensures s'.tickets.deqCall[i] != id {
      if i < |s.tickets.deqCall| { assert s'.tickets.deqCall[i] == s.tickets.deqCall[i]; }
    }
  }

  /** Another thread's slot and turn stay. */
  lemma OtherSlot(s: State, s': State, t: nat, u: nat)
    requires Frame(s, s', t) && u < |s.threads| && u != t && ThreadOk(s, u) && ThreadOk(s, t) && HasTicket(s.threads[u])
    ensures PcOk(s', s.threads[u].call, s.threads[u].pc)
    ensures !Done(s'.flags, s.threads[u].call.enqueues, s.threads[u].pc.ticket)
  {
    var call, pc := s.threads[u].call, s.threads[u].pc;
    var j := Slot(pc.ticket);
    assert SlotFrame(s, s', t, j);
    if InSlot(s.threads[t], j) {
      if Turn(s.flags, call.enqueues, pc.ticket) {
        OneTurn(s.flags, call.enqueues, pc.ticket, s.threads[t].call.enqueues, s.threads[t].pc.ticket);
      }
    }
  }

  lemma OtherTicket(s: State, s': State, t: nat, u: nat, call: Call, x: nat)
    requires |s.flags| == |s'.flags| == QUEUE_SIZE && HistoryGrows(s, s', t) && TicketOk(s, u, call, x)
    requires !Done(s'.flags, call.enqueues, x) && call.since <= |s.log|
    ensures TicketOk(s', u, call, x)
  {
    var h, h' := s.tickets, s'.tickets;
    if call.enqueues {
      assert h'.enqueuer[x] == h.enqueuer[x] && h'.keys[x] == h.keys[x] && h'.addedAt[x] == h.addedAt[x];
      assert s'.log[h.addedAt[x]] == s.log[h.addedAt[x]];
    } else {
      assert h'.dequeuer[x] == h.dequeuer[x] && h'.deqCall[x] == h.deqCall[x];
      if x < |h.takenAt| { assert h'.takenAt[x] == h.takenAt[x]; }
    }
  }

  lemma OtherStays(s: State, s': State, t: nat, u: nat)
    requires Frame(s, s', t) && u < |s.threads| && u != t && ThreadOk(s, u) && ThreadOk(s, t)
    requires Apart(s.threads[t], s.threads[u]) && (s.threads[u].Busy? ==> s.threads[u].call.since <= |s.log|)
    ensures ThreadOk(s', u)
  {
    if s.threads[u].Busy? {
      var call := s.threads[u].call;
      assert s'.made[call.id] == s.made[call.id];
      if HasTicket(s.threads[u]) {
        OtherSlot(s, s', t, u);
        OtherTicket(s, s', t, u, call, s.threads[u].pc.ticket);
      } else {
        OtherUnused(s, s', t, call.id);
      }
    }
  }

  lemma SinceIsPast(s: State, t: nat)
    requires |s.flags| == |s.keys| == QUEUE_SIZE && HistoryOk(s.tickets, s.log, s.made) && ThreadOk(s, t)
    ensures s.threads[t].Busy? ==> s.threads[t].call.since <= |s.log|
  {
    assert s.threads[t].Busy? ==> CallOk(s.made, s.threads[t].call.id, |s.log|);
  }

  lemma ThreadsStay(s: State, s': State, t: nat)
    requires |s.flags| == |s.keys| == QUEUE_SIZE && HistoryOk(s.tickets, s.log, s.made) && ThreadsOk(s)
    requires Frame(s, s', t) && ThreadOk(s', t)
    requires forall u :: 0 <= u < |s.threads| && u != t ==> Apart(s'.threads[t], s.threads[u])
    ensures ThreadsOk(s')
  {
    forall u | 0 <= u < |s'.threads| ensures ThreadOk(s', u) {
      if u != t {
        SinceIsPast(s, u);
        OtherStays(s, s', t, u);
      }
    }
    forall u, v | 0 <= u < |s'.threads| && 0 <= v < |s'.threads| && u != v ensures Apart(s'.threads[u], s'.threads[v]) {
      if u != t && v != t { assert Apart(s.threads[u], s.threads[v]); }
    }
  }

  lemma ResultsStay(s: State, s': State)
    requires ResultsOk(s.log, s.tickets, s.made, s.results)
    requires s.log <= s'.log && s.tickets.keys <= s'.tickets.keys && s.made <= s'.made && s.results <= s'.results
    requires forall i :: |s.results| <= i < |s'.results| ==> ReturnOk(s'.log, s'.tickets, s'.made, s'.results[i])
    ensures ResultsOk(s'.log, s'.tickets, s'.made, s'.results)
  {
    forall i | 0 <= i < |s'.results| ensures ReturnOk(s'.log, s'.tickets, s'.made, s'.results[i]) {
      if i < |s.results| {
        var r := s.results[i];
        assert ReturnOk(s.log, s.tickets, s.made, r) && s'.results[i] == r;
        assert s'.log[r.at] == s.log[r.at] && s'.tickets.keys[r.ticket] == s.tickets.keys[r.ticket];
        assert s'.made[r.call.id] == s.made[r.call.id];
      }
    }
  }

  /** A step of a call under way. */
  lemma CallStays(s: State, s': State, t: nat)
    requires |s.flags| == |s.keys| == QUEUE_SIZE && HistoryOk(s.tickets, s.log, s.made) && ThreadsOk(s)
    requires Frame(s, s', t) && ThreadOk(s', t)
    requires s'.threads[t].Busy? ==> s.threads[t].Busy? && s'.threads[t].call == s.threads[t].call
    ensures ThreadsOk(s')
  {
    forall u | 0 <= u < |s.threads| && u != t ensures Apart(s'.threads[t], s.threads[u]) {
      assert Apart(s.threads[t], s.threads[u]);
    }
    ThreadsStay(s, s', t);
  }

  /** No thread with a ticket loses it, and the flags stay. */
  lemma TurnsStay(s: State, s': State, t: nat, x: nat)
    requires |s.flags| == QUEUE_SIZE && TicketsOk(s.tickets, s.front, s.rear) && EnqueueOk(s, x) && DequeueOk(s, x)
    requires t < |s.threads| && t < |s'.threads| && s'.threads == s.threads[t := s'.threads[t]]
    requires s'.flags == s.flags && s'.front == s.front && s'.rear == s.rear && s'.tickets == s.tickets
    requires HasTicket(s.threads[t]) ==>
               Holds(s'.threads[t], s.threads[t].call.enqueues, s.threads[t].pc.ticket)
    ensures EnqueueOk(s', x) && DequeueOk(s', x)
  {
  }

  /** Spin, load the flag, or load the key: only the thread's own place changes. */
  lemma LocalKeeps(s: State, s': State, t: nat, pc: Pc)
    requires Inv(s) && t < |s.threads| && HasTicket(s.threads[t]) && s' == Goto(s, t, pc)
    requires !pc.TakeTicket? && pc.ticket == s.threads[t].pc.ticket && PcOk(s', s.threads[t].call, pc)
    ensures Inv(s')
  {
    assert ThreadOk(s, t);
    forall x: nat ensures EnqueueOk(s', x) && DequeueOk(s', x) && SlotOk(s', x) {
      assert EnqueueOk(s, x) && DequeueOk(s, x) && SlotOk(s, x);
      TurnsStay(s, s', t, x);
    }
    CallStays(s, s', t);
  }

  lemma LocalStepsKeep(s: State, t: nat)
    requires Inv(s) && Enabled(s, t, Step)
    requires s.threads[t].pc.Spin? || s.threads[t].pc.LoadFlag? || (s.threads[t].pc.UseSlot? && !s.threads[t].call.enqueues)
    ensures Inv(StepOf(s, t))
  {
    assert ThreadOk(s, t);
    var s' := StepOf(s, t);
    assert SlotOk(s, s.threads[t].pc.ticket);
    LocalKeeps(s, s', t, s'.threads[t].pc);
  }

  /** A slot whose flag is even may be overwritten. */
  lemma StoreKeySlot(s: State, s': State, ticket: nat, key: int, x: nat)
    requires |s.flags| == |s.keys| == QUEUE_SIZE && SlotOk(s, x) && Turn(s.flags, true, ticket)
    requires s'.flags == s.flags && s'.tickets == s.tickets && s'.keys == s.keys[Slot(ticket) := key]
    ensures SlotOk(s', x)
  {
  }

  /** The key is stored while the flag is even. */
  lemma StoreKeyKeeps(s: State, t: nat)
    requires Inv(s) && Enabled(s, t, Step) && s.threads[t].pc.UseSlot? && s.threads[t].call.enqueues
    ensures Inv(StepOf(s, t))
  {
    assert ThreadOk(s, t);
    var s', ticket := StepOf(s, t), s.threads[t].pc.ticket;
    forall x: nat ensures EnqueueOk(s', x) && DequeueOk(s', x) && SlotOk(s', x) {
      assert EnqueueOk(s, x) && DequeueOk(s, x) && SlotOk(s, x);
      TurnsStay(s, s', t, x);
      StoreKeySlot(s, s', ticket, s.threads[t].call.key, x);
    }
    CallStays(s, s', t);
  }

  /** The flag of a slot passes the turn of no ticket but the one whose turn it was. */
  lemma DonePasses(flags: seq<nat>, e: bool, ticket: nat, e': bool, x: nat)
    requires |flags| == QUEUE_SIZE && Turn(flags, e, ticket)
    ensures var flags' := flags[Slot(ticket) := flags[Slot(ticket)] + 1];
            Done(flags', e', x) <==> Done(flags, e', x) || (e' == e && x == ticket)
  {
  }

  /** The flag is incremented: the ticket is done, and so is no other. */
  lemma TurnPasses(s: State, t: nat, x: nat)
    requires Inv(s) && Enabled(s, t, Step) && s.threads[t].pc.StoreFlag?
    ensures EnqueueOk(StepOf(s, t), x) && DequeueOk(StepOf(s, t), x) && SlotOk(StepOf(s, t), x)
  {
    assert ThreadOk(s, t) && EnqueueOk(s, x) && DequeueOk(s, x) && SlotOk(s, x);
    DonePasses(s.flags, s.threads[t].call.enqueues, s.threads[t].pc.ticket, true, x);
    DonePasses(s.flags, s.threads[t].call.enqueues, s.threads[t].pc.ticket, false, x);
  }

  lemma StoreFlagKeeps(s: State, t: nat)
    requires Inv(s) && Enabled(s, t, Step) && s.threads[t].pc.StoreFlag?
    ensures Inv(StepOf(s, t))
  {
    assert ThreadOk(s, t);
    var s', ticket := StepOf(s, t), s.threads[t].pc.ticket;
    forall x: nat ensures EnqueueOk(s', x) && DequeueOk(s', x) && SlotOk(s', x) { TurnPasses(s, t, x); }
    CallStays(s, s', t);
    ReturnIsOk(s, t);
    ResultsStay(s, s');
  }

  lemma ReturnIsOk(s: State, t: nat)
    requires Inv(s) && Enabled(s, t, Step) && s.threads[t].pc.StoreFlag?
    ensures ReturnOk(s.log, s.tickets, s.made, StepOf(s, t).results[|s.results|])
  {
    assert ThreadOk(s, t);
    var ticket := s.threads[t].pc.ticket;
    assert EnqueueOk(s, ticket) && DequeueOk(s, ticket);
    if s.threads[t].call.enqueues { assert AddedOk(s.tickets, s.log, ticket); } else { assert TakenOk(s.tickets, s.log, ticket); }
  }

  // Drawing a ticket.

  /** A longer history keeps what is recorded. */
  lemma AddedStays(h: Tickets, h': Tickets, log: seq<Event>, log': seq<Event>, i: nat)
    requires AddedOk(h, log, i) && h.keys <= h'.keys && h.addedAt <= h'.addedAt && log <= log'
    ensures AddedOk(h', log', i)
  {
    assert h'.addedAt[i] == h.addedAt[i] && h'.keys[i] == h.keys[i] && log'[h.addedAt[i]] == log[h.addedAt[i]];
  }

  lemma TakenStays(h: Tickets, h': Tickets, log: seq<Event>, log': seq<Event>, i: nat)
    requires TakenOk(h, log, i) && log <= log'
    requires h.keys <= h'.keys && h.takenAt <= h'.takenAt && h.deqCall <= h'.deqCall
    ensures TakenOk(h', log', i)
  {
    assert h'.takenAt[i] == h.takenAt[i] && h'.keys[i] == h.keys[i] && h'.deqCall[i] == h.deqCall[i];
    assert log'[h.takenAt[i]] == log[h.takenAt[i]];
  }

  lemma EnterRecords(h: Tickets, log: seq<Event>, made: seq<Call>, t: nat, id: nat, key: int)
    requires RecordsOk(h, log, made) && id !in h.deqCall
    ensures RecordsOk(EnterTicket(h, t, key, |log|), log + [Event(id, Enq(key))], made)
  {
    var h', log' := EnterTicket(h, t, key, |log|), log + [Event(id, Enq(key))];
    forall i | 0 <= i < |h'.addedAt| ensures AddedOk(h', log', i) {
      if i < |h.addedAt| { AddedStays(h, h', log, log', i); }
    }
    forall i | 0 <= i < |h'.takenAt| ensures TakenOk(h', log', i) { TakenStays(h, h', log, log', i); }
    forall i | 0 <= i < |h'.deqCall| ensures DrawnOk(h', log', made, i) { assert DrawnOk(h, log, made, i); }
  }

  /** An enqueue draws a ticket. */
  lemma EnterHistory(h: Tickets, log: seq<Event>, made: seq<Call>, t: nat, id: nat)
    requires HistoryOk(h, log, made) && Unused(log, h, id) && id < |made| && made[id].enqueues
    ensures HistoryOk(EnterTicket(h, t, made[id].key, |log|), log + [Event(id, Enq(made[id].key))], made)
  {
    var n, key := |h.takenAt|, made[id].key;
    EnterRecords(h, log, made, t, id, key);
    LogGrows(log, made, h.keys[n..], id, Enq(key));
    assert (h.keys + [key])[n..] == h.keys[n..] + [key];
  }

  lemma TakeRecords(h: Tickets, log: seq<Event>, made: seq<Call>, n: nat)
    requires RecordsOk(h, log, made) && n == |h.takenAt| < |h.keys| && n < |h.deqCall|
    ensures RecordsOk(TakeEffect(h, |log|), log + [Event(h.deqCall[n], Deq(h.keys[n]))], made)
  {
    var h', log' := TakeEffect(h, |log|), log + [Event(h.deqCall[n], Deq(h.keys[n]))];
    forall i | 0 <= i < |h'.addedAt| ensures AddedOk(h', log', i) { AddedStays(h, h', log, log', i); }
    forall i | 0 <= i < |h'.takenAt| ensures TakenOk(h', log', i) {
      if i < n { TakenStays(h, h', log, log', i); }
    }
    forall i | 0 <= i < |h'.deqCall| ensures DrawnOk(h', log', made, i) { assert DrawnOk(h, log, made, i); }
  }

  /** The next dequeue, drawn already, takes the key of the enqueue with its ticket, which is the oldest. */
  lemma TakeHistory(h: Tickets, log: seq<Event>, made: seq<Call>, n: nat)
    requires HistoryOk(h, log, made) && n == |h.takenAt| < |h.keys| && n < |h.deqCall|
    ensures HistoryOk(TakeEffect(h, |log|), log + [Event(h.deqCall[n], Deq(h.keys[n]))], made)
  {
    assert DrawnOk(h, log, made, n);
    TakeRecords(h, log, made, n);
    LogGrows(log, made, h.keys[n..], h.deqCall[n], Deq(h.keys[n]));
    assert h.keys[n..][1..] == h.keys[n + 1..];
  }

  /** A dequeue draws a ticket. */
  lemma DrawHistory(h: Tickets, log: seq<Event>, made: seq<Call>, t: nat, id: nat)
    requires HistoryOk(h, log, made) && Unused(log, h, id) && id < |made| && !made[id].enqueues
    ensures HistoryOk(DrawTicket(h, t, id), log, made)
  {
    var h' := DrawTicket(h, t, id);
    forall i | 0 <= i < |h'.addedAt| ensures AddedOk(h', log, i) { AddedStays(h, h', log, log, i); }
    forall i | 0 <= i < |h'.takenAt| ensures TakenOk(h', log, i) { TakenStays(h, h', log, log, i); }
    forall i | 0 <= i < |h'.deqCall| ensures DrawnOk(h', log, made, i) {
      if i < |h.deqCall| { assert DrawnOk(h, log, made, i); }
    }
  }

  /** An enqueue draws a ticket that a dequeue has waited for: the key goes in and straight out. */
  lemma HandOverLog(h: Tickets, log: seq<Event>, made: seq<Call>, t: nat, id: nat, n: nat)
    requires HistoryOk(h, log, made) && Unused(log, h, id) && id < |made| && made[id].enqueues
    requires n == |h.takenAt| == |h.keys| < |h.deqCall|
    ensures var key, waiting := made[id].key, h.deqCall[n];
            HistoryOk(TakeEffect(EnterTicket(h, t, key, |log|), |log| + 1),
                      log + [Event(id, Enq(key))] + [Event(waiting, Deq(key))], made)
  {
    var key := made[id].key;
    EnterHistory(h, log, made, t, id);
    TakeHistory(EnterTicket(h, t, key, |log|), log + [Event(id, Enq(key))], made, n);
  }

  /** A dequeue draws a ticket whose key is there. */
  lemma DequeueLog(h: Tickets, log: seq<Event>, made: seq<Call>, t: nat, id: nat, n: nat)
    requires HistoryOk(h, log, made) && Unused(log, h, id) && id < |made| && !made[id].enqueues
    requires n == |h.takenAt| == |h.deqCall| < |h.keys|
    ensures HistoryOk(TakeEffect(DrawTicket(h, t, id), |log|), log + [Event(id, Deq(h.keys[n]))], made)
  {
    DrawHistory(h, log, made, t, id);
    TakeHistory(DrawTicket(h, t, id), log, made, n);
  }

  /** Whichever ticket the call draws, the history stays that of a queue. */
  lemma NewTicketLog(h: Tickets, log: seq<Event>, made: seq<Call>, t: nat, call: Call)
    requires HistoryOk(h, log, made) && |h.takenAt| == Min(|h.deqCall|, |h.keys|)
    requires Unused(log, h, call.id) && CallIn(made, call)
    ensures var (h', log') := if call.enqueues then AfterEnqueue(h, log, t, call) else AfterDequeue(h, log, t, call);
            HistoryOk(h', log', made)
  {
    if call.enqueues {
      if |h.keys| < |h.deqCall| { HandOverLog(h, log, made, t, call.id, |h.keys|); }
      else { EnterHistory(h, log, made, t, call.id); }
    } else {
      if |h.deqCall| < |h.keys| { DequeueLog(h, log, made, t, call.id, |h.deqCall|); }
      else { DrawHistory(h, log, made, t, call.id); }
    }
  }

  /** A new ticket's turn has not passed: its slot's flag counts only tickets drawn before. */
  lemma NewTicketTurns(s: State, s': State, t: nat, x: nat)
    requires |s.flags| == |s.keys| == QUEUE_SIZE && TicketsOk(s.tickets, s.front, s.rear)
    requires EnqueueOk(s, x) && DequeueOk(s, x) && SlotOk(s, x)
    requires t < |s.threads| && s.threads[t].Busy? && s.threads[t].pc.TakeTicket?
    requires s' == (if s.threads[t].call.enqueues then EnqueueTicket(s, t) else DequeueTicket(s, t))
    ensures EnqueueOk(s', x) && DequeueOk(s', x) && SlotOk(s', x)
  {
  }

  lemma NewTicketFrame(s: State, s': State, t: nat)
    requires |s.flags| == |s.keys| == QUEUE_SIZE && TicketsOk(s.tickets, s.front, s.rear)
    requires t < |s.threads| && s.threads[t].Busy? && s.threads[t].pc.TakeTicket?
    requires s' == (if s.threads[t].call.enqueues then EnqueueTicket(s, t) else DequeueTicket(s, t))
    ensures Frame(s, s', t) && TicketsOk(s'.tickets, s'.front, s'.rear)
  {
  }

  lemma NewTicketOk(s: State, s': State, t: nat)
    requires |s.flags| == |s.keys| == QUEUE_SIZE && TicketsOk(s.tickets, s.front, s.rear)
    requires ThreadOk(s, t) && EnqueueOk(s, s.rear) && DequeueOk(s, s.front)
    requires s.threads[t].Busy? && s.threads[t].pc.TakeTicket? && s.threads[t].call.since <= |s.log|
    requires s' == (if s.threads[t].call.enqueues then EnqueueTicket(s, t) else DequeueTicket(s, t))
    ensures ThreadOk(s', t)
  {
  }

  lemma TakeTicketKeeps(s: State, t: nat)
    requires Inv(s) && Enabled(s, t, Step) && s.threads[t].pc.TakeTicket?
    ensures Inv(StepOf(s, t))
  {
    assert ThreadOk(s, t) && EnqueueOk(s, s.rear) && DequeueOk(s, s.front);
    var s' := StepOf(s, t);
    NewTicketLog(s.tickets, s.log, s.made, t, s.threads[t].call);
    forall x: nat ensures EnqueueOk(s', x) && DequeueOk(s', x) && SlotOk(s', x) {
      assert EnqueueOk(s, x) && DequeueOk(s, x) && SlotOk(s, x);
      NewTicketTurns(s, s', t, x);
    }
    SinceIsPast(s, t);
    NewTicketFrame(s, s', t);
    NewTicketOk(s, s', t);
    CallStays(s, s', t);
    ResultsStay(s, s');
  }

  /** A new call is in no history. */
  lemma InvokeHistory(h: Tickets, log: seq<Event>, made: seq<Call>, call: Call)
    requires HistoryOk(h, log, made) && call.id == |made| && call.since == |log|
    ensures HistoryOk(h, log, made + [call]) && Unused(log, h, call.id)
  {
    MadeGrows(log, made, h.keys[|h.takenAt|..], call);
    forall i | 0 <= i < |h.deqCall| ensures DrawnOk(h, log, made + [call], i) && h.deqCall[i] != call.id {
      assert DrawnOk(h, log, made, i);
    }
  }

  lemma InvokeKeeps(s: State, t: nat, a: Action)
    requires Inv(s) && Enabled(s, t, a) && !a.Step?
    ensures Inv(Next(s, t, a))
  {
    var s' := Next(s, t, a);
    InvokeHistory(s.tickets, s.log, s.made, s'.made[|s.made|]);
    forall x: nat ensures EnqueueOk(s', x) && DequeueOk(s', x) && SlotOk(s', x) {
      assert EnqueueOk(s, x) && DequeueOk(s, x) && SlotOk(s, x);
      TurnsStay(s, s', t, x);
    }
    forall u | 0 <= u < |s.threads| && u != t ensures Apart(s'.threads[t], s.threads[u]) { assert ThreadOk(s, u); }
    ThreadsStay(s, s', t);
    ResultsStay(s, s');
  }

  lemma StepOfKeeps(s: State, t: nat)
    requires Inv(s) && Enabled(s, t, Step)
    ensures Inv(StepOf(s, t))
  {
    match s.threads[t].pc {
      case TakeTicket => TakeTicketKeeps(s, t);
      case UseSlot(_) => if s.threads[t].call.enqueues { StoreKeyKeeps(s, t); } else { LocalStepsKeep(s, t); }
      case StoreFlag(_, _, _) => StoreFlagKeeps(s, t);
      case _ => LocalStepsKeep(s, t);
    }
  }

  lemma InitHolds(numThread: nat)
    ensures Inv(Init(numThread))
  {
    var s := Init(numThread);
    forall x: nat ensures EnqueueOk(s, x) && DequeueOk(s, x) && SlotOk(s, x) {
      assert s.flags[Slot(x)] == 0;
    }
  }

  lemma AnyStepKeeps(s: State, s': State)
    requires Inv(s) && IsStep(s, s')
    ensures Inv(s')
  {
    var t, a :| Enabled(s, t, a) && s' == Next(s, t, a);
    if a.Step? { StepOfKeeps(s, t); } else { InvokeKeeps(s, t, a); }
  }

  lemma {:induction false} RunKeeps(run: seq<State>, numThread: nat, i: nat)
    requires IsRun(run, numThread) && i < |run|
    ensures Inv(run[i])
  {
    if i == 0 {
      InitHolds(numThread);
    } else {
      RunKeeps(run, numThread, i - 1);
      assert StepAt(run, i);
      AnyStepKeeps(run[i - 1], run[i]);
    }
  }

  // ---------------------------------------------------------------- what becomes of a call

  /** The calls the threads are in, and those that returned. */
  function Open(threads: seq<Thread>): (open: seq<Option<Call>>)
    ensures |open| == |threads|
  {
    seq(|threads|, t requires 0 <= t < |threads| => if threads[t].Busy? then Some(threads[t].call) else None)
  }

  function Answered(results: seq<Returned>): (calls: seq<Call>)
    ensures |calls| == |results|
  {
    seq(|results|, k requires 0 <= k < |results| => results[k].call)
  }

  ghost predicate CallsOk(s: State) {
    Accounted(s.made, Open(s.threads), Answered(s.results)) && forall i :: 0 <= i < |s.made| ==> s.made[i].id == i
  }

  /** The thread goes on with its call, or returns from it. */
  predicate GoesOn(s: State, s': State, t: nat)
    requires t < |s.threads| && s.threads[t].Busy?
  {
    && t < |s'.threads| && s'.made == s.made && s'.threads == s.threads[t := s'.threads[t]]
    && if s'.threads[t].Busy? then s'.threads[t].call == s.threads[t].call && s'.results == s.results
       else |s'.results| == |s.results| + 1 && s'.results[..|s.results|] == s.results
            && s'.results[|s.results|].call == s.threads[t].call
  }

  lemma StepGoesOn(s: State, t: nat)
    requires Enabled(s, t, Step)
    ensures GoesOn(s, StepOf(s, t), t)
  {
  }

  lemma StepAccounts(s: State, s': State, t: nat)
    requires CallsOk(s) && t < |s.threads| && s.threads[t].Busy? && GoesOn(s, s', t)
    ensures CallsOk(s')
  {
    if s'.threads[t].Busy? {
      assert Open(s'.threads) == Open(s.threads);
    } else {
      CallReturned(s.made, Open(s.threads), Answered(s.results), t);
      assert Open(s'.threads) == Open(s.threads)[t := None];
      assert Answered(s'.results) == Answered(s.results) + [s.threads[t].call];
    }
  }

  /** The call is recorded as it was made, with the present time, and is the one the thread is in. */
  predicate Records(s: State, s': State, t: nat, enqueues: bool, key: int) {
    && |s'.made| == |s.made| + 1 && s'.made[..|s.made|] == s.made && t < |s'.threads| && s'.threads[t].Busy?
    && s'.made[|s.made|] == s'.threads[t].call == Call(|s.made|, enqueues, key, |s.log|)
  }

  lemma InvokeAccounts(s: State, t: nat, a: Action)
    requires CallsOk(s) && Enabled(s, t, a) && !a.Step?
    ensures CallsOk(Next(s, t, a))
    ensures Records(s, Next(s, t, a), t, a.InvokeEnqueue?, if a.InvokeEnqueue? then a.key else 0)
  {
    var s' := Next(s, t, a);
    var call := s'.threads[t].call;
    CallInvoked(s.made, Open(s.threads), Answered(s.results), t, call);
    assert Open(s'.threads) == Open(s.threads)[t := Some(call)];
  }

  lemma AnyStepAccounts(s: State, s': State)
    requires CallsOk(s) && IsStep(s, s')
    ensures CallsOk(s')
  {
    var t, a :| Enabled(s, t, a) && s' == Next(s, t, a);
    if a.Step? {
      StepGoesOn(s, t);
      StepAccounts(s, s', t);
    } else {
      InvokeAccounts(s, t, a);
    }
  }

  lemma {:induction false} RunAccounts(run: seq<State>, numThread: nat, i: nat)
    requires IsRun(run, numThread) && i < |run|
    ensures CallsOk(run[i])
  {
    if i > 0 {
      RunAccounts(run, numThread, i - 1);
      assert StepAt(run, i);
      AnyStepAccounts(run[i - 1], run[i]);
    }
  }

  // ---------------------------------------------------------------- theorems

  /** Linearizability, and the pairing of tickets: the log is that of a first-in first-out queue and of calls that were
      made before they took effect; every call that returned took effect at one instant inside it, an enqueue with the
      key it was given; and a dequeue with ticket x returned the key of the enqueue with ticket x. */
  lemma Linearizable(run: seq<State>, numThread: nat, i: nat)
    requires IsRun(run, numThread) && i < |run|
    ensures Legal(run[i].log) && forall j :: 0 <= j < |run[i].log| ==> WasMade(run[i].log, run[i].made, j)
    ensures forall k :: 0 <= k < |run[i].results| ==>
              var s, r := run[i], run[i].results[k];
              && r.call.since <= r.at < r.end <= |s.log| && s.log[r.at] == Event(r.call.id, r.item)
              && r.item.Enq? == r.call.enqueues && (r.call.enqueues ==> r.item.key == r.call.key)
              && r.call.id < |s.made| && s.made[r.call.id] == r.call
              && r.ticket < |s.tickets.keys| && r.item.key == s.tickets.keys[r.ticket]
    ensures Accounted(run[i].made, Open(run[i].threads), Answered(run[i].results))
    ensures forall t, a :: Enabled(run[i], t, a) && !a.Step? ==>
              Records(run[i], Next(run[i], t, a), t, a.InvokeEnqueue?, if a.InvokeEnqueue? then a.key else 0)
  {
    RunAccounts(run, numThread, i);
    RunKeeps(run, numThread, i);
    var s := run[i];
    forall k | 0 <= k < |s.results| ensures ReturnOk(s.log, s.tickets, s.made, s.results[k]) {}
  }

  /** The keys enqueued, in order of their tickets, are the keys dequeued followed by those not drawn for yet. */
  lemma TicketsAreFifo(run: seq<State>, numThread: nat, i: nat)
    requires IsRun(run, numThread) && i < |run|
    ensures var s := run[i];
            && Enqueued(s.log) == Dequeued(s.log) + Contents(s.log)
            && |s.tickets.keys| == s.rear && Contents(s.log) == s.tickets.keys[Min(s.front, s.rear)..]
  {
    RunKeeps(run, numThread, i);
    FirstInFirstOut(run[i].log);
  }

  /** Mutual exclusion on a slot: of the threads past the test of their spin loop, no two use the same slot, and while
      one is there the flag is that of its round and kind. */
  lemma SlotIsExclusive(run: seq<State>, numThread: nat, i: nat, t: nat, u: nat)
    requires IsRun(run, numThread) && i < |run| && t < |run[i].threads| && u < |run[i].threads|
    requires HasTicket(run[i].threads[t]) && InSlot(run[i].threads[t], Slot(run[i].threads[t].pc.ticket))
    ensures |run[i].flags| == QUEUE_SIZE
    ensures Turn(run[i].flags, run[i].threads[t].call.enqueues, run[i].threads[t].pc.ticket)
    ensures InSlot(run[i].threads[u], Slot(run[i].threads[t].pc.ticket)) ==> u == t
  {
    RunKeeps(run, numThread, i);
    assert ThreadOk(run[i], t);
    if InSlot(run[i].threads[u], Slot(run[i].threads[t].pc.ticket)) {
      OneInSlot(run[i], t, u, Slot(run[i].threads[t].pc.ticket));
    }
  }

  /** The tickets whose key is in the ring. */
  ghost function Stored(s: State): set<nat>
    requires |s.flags| == QUEUE_SIZE
  {
    set x: nat | x < s.rear && Done(s.flags, true, x) && !Done(s.flags, false, x)
  }

  lemma {:induction false} AtMostOnePerSlot(tickets: set<nat>, n: nat)
    requires forall x :: x in tickets ==> Slot(x) < n
    requires forall x, y :: x in tickets && y in tickets && Slot(x) == Slot(y) ==> x == y
    ensures |tickets| <= n
    decreases n
  {
    if n == 0 {
      forall x: nat ensures x !in tickets { var j := Slot(x); }
      assert tickets == {};
    } else if x :| x in tickets && Slot(x) == n - 1 {
      AtMostOnePerSlot(tickets - {x}, n - 1);
    } else {
      AtMostOnePerSlot(tickets, n - 1);
    }
  }

  /** At most QUEUE_SIZE keys are stored, each in the slot of its ticket, whatever has been enqueued. */
  lemma StoredKeys(run: seq<State>, numThread: nat, i: nat)
    requires IsRun(run, numThread) && i < |run|
    ensures |run[i].flags| == |run[i].keys| == QUEUE_SIZE && |Stored(run[i])| <= 1024
    ensures forall x :: x in Stored(run[i]) ==>
              x < |run[i].tickets.keys| && run[i].keys[Slot(x)] == run[i].tickets.keys[x]
  {
    RunKeeps(run, numThread, i);
    AtMostOnePerSlot(Stored(run[i]), QUEUE_SIZE);
    forall x | x in Stored(run[i])
      ensures x < |run[i].tickets.keys| && run[i].keys[Slot(x)] == run[i].tickets.keys[x]
    {
      assert SlotOk(run[i], x);
    }
  }

  /** The least ticket that is not done. */
  ghost function FirstOpen(flags: seq<nat>, enqueues: bool, x: nat, bound: nat): (r: nat)
    requires |flags| == QUEUE_SIZE && x <= bound && !Done(flags, enqueues, bound)
    ensures x <= r <= bound && !Done(flags, enqueues, r) && forall y :: x <= y < r ==> Done(flags, enqueues, y)
    decreases bound - x
  {
    if Done(flags, enqueues, x) then FirstOpen(flags, enqueues, x + 1, bound) else x
  }

  lemma PreviousRound(x: nat)
    requires x >= QUEUE_SIZE
    ensures Slot(x - QUEUE_SIZE) == Slot(x) && Round(x - QUEUE_SIZE) == Round(x) - 1
  {
  }

  /** When the enqueue and the dequeue of the round before are done, it is the enqueue's turn; when the enqueue of the
      round is done, it is the dequeue's. */
  lemma TurnComes(flags: seq<nat>, x: nat)
    requires |flags| == QUEUE_SIZE
    ensures !Done(flags, true, x) && (x < QUEUE_SIZE || Done(flags, false, x - QUEUE_SIZE)) ==> Turn(flags, true, x)
    ensures !Done(flags, false, x) && Done(flags, true, x) ==> Turn(flags, false, x)
  {
    if x >= QUEUE_SIZE { PreviousRound(x); }
  }

  /** Of the least open enqueue and the least open dequeue, one has its turn. */
  lemma OneOfTheFirst(flags: seq<nat>, x: nat, y: nat)
    requires |flags| == QUEUE_SIZE && !Done(flags, true, x) && !Done(flags, false, y)
    ensures (exists a: nat :: a <= x && Turn(flags, true, a)) || (exists b: nat :: b <= y && Turn(flags, false, b))
  {
    var a, b := FirstOpen(flags, true, 0, x), FirstOpen(flags, false, 0, y);
    if b < a { TurnComes(flags, b); } else { TurnComes(flags, a); }
  }

  lemma DrawnBefore(s: State, t: nat)
    requires Inv(s) && t < |s.threads| && HasTicket(s.threads[t])
    ensures var enqueues, x := s.threads[t].call.enqueues, s.threads[t].pc.ticket;
            !Done(s.flags, enqueues, x) && x < if enqueues then s.rear else s.front
  {
    assert ThreadOk(s, t);
  }

  /** The thread whose turn it is passes. */
  lemma TurnProceeds(s: State, enqueues: bool, x: nat)
    requires Inv(s) && Turn(s.flags, enqueues, x) && x < if enqueues then s.rear else s.front
    ensures exists v :: 0 <= v < |s.threads| && CanProceed(s, v)
  {
    assert EnqueueOk(s, x) && DequeueOk(s, x);
    assert CanProceed(s, if enqueues then s.tickets.enqueuer[x] else s.tickets.dequeuer[x]);
  }

  /** Progress: when an enqueue and a dequeue are both pending, some pending call has its turn, so it gets past its spin
      loop the next time it looks, and then it has no more to wait for. */
  lemma SomeoneProceeds(run: seq<State>, numThread: nat, i: nat, t: nat, u: nat)
    requires IsRun(run, numThread) && i < |run| && t < |run[i].threads| && u < |run[i].threads|
    requires HasTicket(run[i].threads[t]) && run[i].threads[t].call.enqueues
    requires HasTicket(run[i].threads[u]) && !run[i].threads[u].call.enqueues
    ensures |run[i].flags| == QUEUE_SIZE
    ensures exists v :: 0 <= v < |run[i].threads| && CanProceed(run[i], v)
  {
    RunKeeps(run, numThread, i);
    var s := run[i];
    var x, y := s.threads[t].pc.ticket, s.threads[u].pc.ticket;
    DrawnBefore(s, t);
    DrawnBefore(s, u);
    OneOfTheFirst(s.flags, x, y);
    if a: nat :| a <= x && Turn(s.flags, true, a) {
      TurnProceeds(s, true, a);
    } else {
      var b: nat :| b <= y && Turn(s.flags, false, b);
      TurnProceeds(s, false, b);
    }
  }

  /** The thread has a ticket and is past its spin loop or passes it when it looks. */
  predicate CanProceed(s: State, v: nat) {
    && v < |s.threads| && HasTicket(s.threads[v]) && Enabled(s, v, Step)
    && (s.threads[v].pc.Spin? ==>
          StepOf(s, v).threads[v] == s.threads[v].(pc := UseSlot(s.threads[v].pc.ticket)))
  }

  /** When a call gets past its spin loop: an enqueue when its slot was never used or the dequeue of the round before is
      through with it, a dequeue when the enqueue of its round is. */
  lemma PassesIff(run: seq<State>, numThread: nat, i: nat, t: nat)
    requires IsRun(run, numThread) && i < |run| && t < |run[i].threads| && HasTicket(run[i].threads[t])
    requires run[i].threads[t].pc.Spin?
    ensures |run[i].flags| == QUEUE_SIZE
    ensures CanProceed(run[i], t) <==>
              var x := run[i].threads[t].pc.ticket;
              if run[i].threads[t].call.enqueues then x < QUEUE_SIZE || Done(run[i].flags, false, x - QUEUE_SIZE)
              else Done(run[i].flags, true, x)
  {
    RunKeeps(run, numThread, i);
    var s := run[i];
    assert ThreadOk(s, t);
    var x := s.threads[t].pc.ticket;
    TurnComes(s.flags, x);
    if x >= QUEUE_SIZE { PreviousRound(x); }
  }

  /** The steps a call past its spin loop has left. */
  function StepsLeft(thread: Thread): nat {
    if thread.Idle? then 0
    else
      match thread.pc
      case UseSlot(_) => 3
      case LoadFlag(_, _) => 2
      case StoreFlag(_, _, _) => 1
      case _ => 4
  }

  /** Past its spin loop a call returns after three steps, whatever the others do. */
  lemma PastSpinItEnds(run: seq<State>, numThread: nat, i: nat, t: nat)
    requires IsRun(run, numThread) && i < |run| && t < |run[i].threads|
    requires HasTicket(run[i].threads[t]) && !run[i].threads[t].pc.Spin?
    ensures Enabled(run[i], t, Step)
    ensures StepsLeft(StepOf(run[i], t).threads[t]) == StepsLeft(run[i].threads[t]) - 1
    ensures forall u, a :: Enabled(run[i], u, a) && u != t ==> Next(run[i], u, a).threads[t] == run[i].threads[t]
  {
    RunKeeps(run, numThread, i);
  }
}
