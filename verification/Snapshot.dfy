/** The wait-free snapshot: every thread owns a register, a scan collects all registers until two collects agree or
    some register was seen to move twice, and an update stores with its value the snapshot it scanned before. */
module Snapshot {

  import opened Options
  import opened CallHistory

  datatype SnapValue = SnapValue(stamp: nat, value: int, snap: seq<int>)

  /** A scan under way: `last` is the last full collect, `cur` the registers read so far in the present one.  start,
      mid and collects are history: the times when the scan and the present collect began, and the number of full
      collects. */
  datatype Scan = Scan(start: nat, moved: seq<bool>, last: Option<seq<SnapValue>>, cur: seq<SnapValue>,
                       mid: nat, collects: nat)

  datatype Job = JustScan | Update(value: int)

  /** A call made by a process, with what it was given.  start is history: the time when it was invoked. */
  datatype Call = Call(id: nat, pid: nat, job: Job, start: nat)

  datatype Phase =
    | Idle
    | Scanning(call: Call, scan: Scan)
    | Scanned(call: Call, snap: seq<int>)                // in update: the scan has returned
    | Storing(call: Call, reg: SnapValue)                // in update: the new register is made

  /** What has happened: the scan of a call returned at time end, or an update's store made time at. */
  datatype Event =
    | ScanDone(call: Call, end: nat, result: seq<int>)
    | UpdateDone(call: Call, at: nat)

  /** hist, events, stored and made are history: the registers at all times so far, of which the last are the present
      ones, what has happened, the updates in the order of their stores, and all calls made. */
  datatype State = State(regs: seq<SnapValue>, procs: seq<Phase>, hist: seq<seq<SnapValue>>, events: seq<Event>,
                         stored: seq<Call>, made: seq<Call>)

  /** What the snapshot should be like: n values, all 0 at first, and in turn each set by its updates. */
  function Contents(n: nat, updates: seq<Call>): (v: seq<int>)
    ensures |v| == n
  {
    if updates == [] then seq(n, _ => 0)
    else
      var before, last := Contents(n, updates[..|updates| - 1]), updates[|updates| - 1];
      if last.pid < n && last.job.Update? then before[last.pid := last.job.value] else before
  }

  function Values(regs: seq<SnapValue>): (v: seq<int>)
    ensures |v| == |regs|
  {
    seq(|regs|, t requires 0 <= t < |regs| => regs[t].value)
  }

  /** In other words, every register holds what its last update set, and 0 before the first. */
  lemma {:induction false} ContentsIsLast(n: nat, updates: seq<Call>, t: nat)
    requires t < n && forall x :: 0 <= x < |updates| ==> updates[x].job.Update?
    ensures (forall x :: 0 <= x < |updates| ==> updates[x].pid != t) ==> Contents(n, updates)[t] == 0
    ensures forall x :: 0 <= x < |updates| && updates[x].pid == t && (forall y :: x < y < |updates| ==> updates[y].pid != t) ==>
              Contents(n, updates)[t] == updates[x].job.value
  {
    if updates != [] {
      var before := updates[..|updates| - 1];
      ContentsIsLast(n, before, t);
      assert forall x :: 0 <= x < |before| ==> before[x] == updates[x];
    }
  }

  // ---------------------------------------------------------------- comparing two collects

  datatype Outcome = Clean | Borrow(tid: nat) | Again(tid: nat)

  /** The first register from `from` on whose label differs, or the number of registers. */
  function FirstMoved(last: seq<SnapValue>, cur: seq<SnapValue>, from: nat): (t: nat)
    requires |last| == |cur| && from <= |cur|
    ensures from <= t <= |cur| && (t < |cur| ==> last[t].stamp != cur[t].stamp)
    ensures forall u :: from <= u < t ==> last[u].stamp == cur[u].stamp
    decreases |cur| - from
  {
    if from == |cur| || last[from].stamp != cur[from].stamp then from else FirstMoved(last, cur, from + 1)
  }

  function Compare(last: seq<SnapValue>, cur: seq<SnapValue>, moved: seq<bool>): Outcome
    requires |last| == |cur| == |moved|
  {
    var t := FirstMoved(last, cur, 0);
    if t == |cur| then Clean else if moved[t] then Borrow(t) else Again(t)
  }

  /** The loop of `scan` over the labels of the two collects. */
  method CompareCollects(oldCopy: array<SnapValue>, newCopy: array<SnapValue>, moved: array<bool>) returns (o: Outcome)
    requires oldCopy.Length == newCopy.Length == moved.Length
    ensures o == Compare(oldCopy[..], newCopy[..], moved[..])
  {
    for tid := 0 to newCopy.Length
      invariant FirstMoved(oldCopy[..], newCopy[..], 0) == FirstMoved(oldCopy[..], newCopy[..], tid)
    {
      if oldCopy[tid].stamp != newCopy[tid].stamp {
        if moved[tid] {
          return Borrow(tid);
        }
        return Again(tid);
      }
    }
    return Clean;
  }

  method CopyArray(dest: array<SnapValue>, src: array<SnapValue>)
    requires dest.Length == src.Length
    modifies dest
    ensures dest[..] == old(src[..])
  {
    for tid := 0 to dest.Length
      invariant dest[..tid] == old(src[..tid])
      invariant dest != src ==> src[..] == old(src[..])
      invariant dest == src ==> dest[..] == old(src[..])
    {
      dest[tid] := src[tid];
    }
  }

  method GetValueFromRegisters(regs: array<SnapValue>) returns (result: array<int>)
    ensures fresh(result) && result[..] == Values(regs[..])
  {
    result := new int[regs.Length];
    for tid := 0 to regs.Length
      invariant result[..tid] == Values(regs[..tid])
    {
      result[tid] := regs[tid].value;
    }
    assert regs[..regs.Length] == regs[..];
  }

  // ---------------------------------------------------------------- steps

  datatype Action = InvokeScan | InvokeUpdate(value: int) | Advance

  function Now(s: State): nat
    requires s.hist != []
  {
    |s.hist| - 1
  }

  function To(s: State, p: nat, ph: Phase): State
    requires p < |s.procs|
  {
    s.(procs := s.procs[p := ph])
  }

  predicate Enabled(s: State, p: nat, a: Action) {
    && p < |s.procs| && s.hist != []
    && match a
       case InvokeScan => s.procs[p].Idle?
       case InvokeUpdate(_) => s.procs[p].Idle? && p < |s.regs|
       case Advance =>
         match s.procs[p]
         case Idle => false
         case Scanning(_, sc) =>
           && |sc.cur| <= |s.regs| == |sc.moved|
           && (sc.last.Some? ==> |sc.last.value| == |s.regs|)
         case _ => p < |s.regs|
  }

  function NewScan(s: State): Scan
    requires s.hist != []
  {
    Scan(Now(s), seq(|s.regs|, _ => false), None, [], Now(s), 0)
  }

  /** The scan returned result. */
  function Return(s: State, p: nat, call: Call, result: seq<int>): State
    requires p < |s.procs| && s.hist != []
  {
    To(s, p, if call.job.Update? then Scanned(call, result) else Idle)
      .(events := s.events + [ScanDone(call, Now(s), result)])
  }

  function ScanStep(s: State, p: nat, call: Call, sc: Scan): State
    requires Enabled(s, p, Advance) && s.procs[p] == Scanning(call, sc)
  {
    if |sc.cur| < |s.regs| then
      // one atomic load
      To(s, p, Scanning(call, sc.(cur := sc.cur + [s.regs[|sc.cur|]])))
    else
      match sc.last
      case None =>
        To(s, p, Scanning(call, sc.(last := Some(sc.cur), cur := [], mid := Now(s), collects := 1)))
      case Some(o) =>
        match Compare(o, sc.cur, sc.moved)
        case Clean => Return(s, p, call, Values(sc.cur))
        case Borrow(t) => Return(s, p, call, sc.cur[t].snap)
        case Again(t) =>
          To(s, p, Scanning(call, Recollect(sc, t, Now(s))))
  }

  /** Register t has moved: the present collect becomes the last one and the next begins now. */
  function Recollect(sc: Scan, t: nat, now: nat): Scan
    requires t < |sc.moved|
  {
    sc.(moved := sc.moved[t := true], last := Some(sc.cur), cur := [], mid := now, collects := sc.collects + 1)
  }

  function Invoke(s: State, p: nat, job: Job): State
    requires p < |s.procs| && s.hist != []
  {
    var call := Call(|s.made|, p, job, Now(s));
    To(s, p, Scanning(call, NewScan(s))).(made := s.made + [call])
  }

  function Next(s: State, p: nat, a: Action): State
    requires Enabled(s, p, a)
  {
    match a
    case InvokeScan => Invoke(s, p, JustScan)
    case InvokeUpdate(value) => Invoke(s, p, Update(value))
    case Advance =>
      match s.procs[p]
      case Scanning(call, sc) => ScanStep(s, p, call, sc)
      case Scanned(call, snap) =>
        To(s, p, Storing(call, SnapValue(s.regs[p].stamp + 1, if call.job.Update? then call.job.value else 0, snap)))
      case Storing(call, reg) =>
        var regs := s.regs[p := reg];
        To(s, p, Idle).(regs := regs, hist := s.hist + [regs], stored := s.stored + [call],
                        events := s.events + [UpdateDone(call, |s.hist|)])
      case Idle => s
  }

  function Init(numThread: nat, numProc: nat): State {
    var regs := seq(numThread, _ => SnapValue(0, 0, seq(numThread, _ => 0)));
    State(regs, seq(numProc, _ => Idle), [regs], [], [], [])
  }

  ghost predicate IsStep(s: State, s': State) {
    exists p, a :: Enabled(s, p, a) && s' == Next(s, p, a)
  }

  /** Any interleaving of any number of processes. */
  ghost predicate IsRun(run: seq<State>, numThread: nat) {
    && run != [] && (exists numProc :: run[0] == Init(numThread, numProc))
    && forall i :: 0 < i < |run| ==> StepAt(run, i)
  }

  ghost predicate StepAt(run: seq<State>, i: nat) {
    0 < i < |run| && IsStep(run[i - 1], run[i])
  }

  // ---------------------------------------------------------------- invariant

  /** Labels never fall, and a register with the same label is the same register. */
  ghost predicate Monotone(h: seq<seq<SnapValue>>, n: nat) {
    && (forall k :: 0 <= k < |h| ==> |h[k]| == n)
    && forall j, k, t :: 0 <= j <= k < |h| && 0 <= t < n ==>
         h[j][t].stamp <= h[k][t].stamp && (h[j][t].stamp == h[k][t].stamp ==> h[j][t] == h[k][t])
  }

  /** snap is the values of all registers at a time when register t had the label. */
  ghost predicate TakenAt(h: seq<seq<SnapValue>>, t: nat, stamp: nat, snap: seq<int>) {
    exists j :: 0 <= j < |h| && t < |h[j]| && h[j][t].stamp == stamp && Values(h[j]) == snap
  }

  /** The snapshot stored in a register was taken after the register's previous store. */
  ghost predicate Helpful(h: seq<seq<SnapValue>>, n: nat)
    requires Monotone(h, n)
  {
    forall k, t {:trigger HelpedAt(h, k, t)} :: 0 <= k < |h| && 0 <= t < n ==> HelpedAt(h, k, t)
  }

  ghost predicate HelpedAt(h: seq<seq<SnapValue>>, k: nat, t: nat) {
    k < |h| && t < |h[k]| && (h[k][t].stamp > 0 ==> TakenAt(h[..k], t, h[k][t].stamp - 1, h[k][t].snap))
  }

  /** x was in register t at some time from a to b. */
  ghost predicate SeenIn(h: seq<seq<SnapValue>>, t: nat, x: SnapValue, a: nat, b: nat) {
    exists k :: a <= k <= b && k < |h| && t < |h[k]| && h[k][t] == x
  }

  function CountTrue(moved: seq<bool>): (c: nat)
    ensures c <= |moved|
  {
    if moved == [] then 0 else (if moved[|moved| - 1] then 1 else 0) + CountTrue(moved[..|moved| - 1])
  }

  ghost predicate ScanOk(h: seq<seq<SnapValue>>, n: nat, sc: Scan)
    requires Monotone(h, n)
  {
    && sc.start <= sc.mid < |h| && |sc.moved| == n && |sc.cur| <= n
    && (forall t :: 0 <= t < |sc.cur| ==> CurSeen(h, sc, t))
    && match sc.last
       case None => sc.mid == sc.start && sc.collects == CountTrue(sc.moved) == 0
       case Some(o) =>
         && |o| == n && sc.collects == CountTrue(sc.moved) + 1
         && (forall t :: 0 <= t < n ==> LastSeen(h, sc, t))
  }

  /** The present collect read register t since it began. */
  ghost predicate CurSeen(h: seq<seq<SnapValue>>, sc: Scan, t: nat) {
    h != [] && t < |sc.cur| && SeenIn(h, t, sc.cur[t], sc.mid, |h| - 1)
  }

  /** The last collect read register t between the start of the scan and the present collect, and after a store since
      the start if the register is marked as moved. */
  ghost predicate LastSeen(h: seq<seq<SnapValue>>, sc: Scan, t: nat) {
    && sc.last.Some? && t < |sc.last.value| && t < |sc.moved| && sc.start < |h| && t < |h[sc.start]|
    && SeenIn(h, t, sc.last.value[t], sc.start, sc.mid)
    && (sc.moved[t] ==> sc.last.value[t].stamp > h[sc.start][t].stamp)
  }

  /** result is the values of all registers at some time from a to b. */
  ghost predicate ValuesIn(h: seq<seq<SnapValue>>, result: seq<int>, a: nat, b: nat) {
    exists k :: a <= k <= b && k < |h| && Values(h[k]) == result
  }

  ghost predicate ProcOk(s: State, p: nat)
    requires p < |s.procs| && Monotone(s.hist, |s.regs|)
  {
    var h, n := s.hist, |s.regs|;
    match s.procs[p]
    case Idle => true
    case Scanning(call, sc) =>
      && Pending(s, call, p) && ScanOk(h, n, sc) && sc.start == call.start
      && (call.job.Update? ==> p < n && h[sc.start][p] == s.regs[p])
    case Scanned(call, snap) =>
      && Pending(s, call, p) && call.job.Update?
      && p < n && h[call.start][p] == s.regs[p] && ValuesIn(h, snap, call.start, |h| - 1)
    case Storing(call, reg) =>
      && Pending(s, call, p) && call.job.Update? && reg.value == call.job.value
      && p < n && reg.stamp == s.regs[p].stamp + 1 && TakenAt(h, p, s.regs[p].stamp, reg.snap)
  }

  predicate WasMade(made: seq<Call>, call: Call) {
    call.id < |made| && made[call.id] == call
  }

  /** A call of p that has not stored. */
  predicate Pending(s: State, call: Call, p: nat) {
    WasMade(s.made, call) && call.pid == p && call.start < |s.hist| && Absent(s.stored, call.id)
  }

  predicate Absent(stored: seq<Call>, id: nat) {
    forall x :: 0 <= x < |stored| ==> stored[x].id != id
  }

  /** The store between times x and x + 1 was that of an update called before, with the value it was given. */
  predicate StoredOk(h: seq<seq<SnapValue>>, stored: seq<Call>, made: seq<Call>, x: nat) {
    && x < |stored| && x + 1 < |h| && WasMade(made, stored[x]) && stored[x].job.Update? && stored[x].start <= x
    && stored[x].pid < |h[x]| && |h[x + 1]| == |h[x]|
    && h[x + 1] == h[x][stored[x].pid := h[x + 1][stored[x].pid]]
    && h[x + 1][stored[x].pid].value == stored[x].job.value
  }

  predicate Reported(events: seq<Event>, stored: seq<Call>, x: nat) {
    x < |stored| && exists k :: 0 <= k < |events| && events[k] == UpdateDone(stored[x], x + 1)
  }

  /** Each update called stores once at most, and each store is that of one update, which has then returned. */
  ghost predicate StoresOk(h: seq<seq<SnapValue>>, stored: seq<Call>, made: seq<Call>, events: seq<Event>, n: nat) {
    && |h| == |stored| + 1 && Values(h[0]) == Contents(n, [])
    && (forall x :: 0 <= x < |stored| ==> StoredOk(h, stored, made, x))
    && (forall x, y :: 0 <= x < y < |stored| ==> stored[x].id != stored[y].id)
    && forall x :: 0 <= x < |stored| ==> Reported(events, stored, x)
  }

  /** What has happened took effect at one time inside its call. */
  ghost predicate EventOk(s: State, e: Event) {
    && WasMade(s.made, e.call)
    && match e
       case ScanDone(call, end, result) =>
         call.start <= end < |s.hist| && ValuesIn(s.hist, result, call.start, end)
       case UpdateDone(call, at) => 0 < at <= |s.stored| && s.stored[at - 1] == call
  }

  ghost predicate Inv(s: State) {
    && s.hist != [] && s.hist[|s.hist| - 1] == s.regs
    && Monotone(s.hist, |s.regs|) && Helpful(s.hist, |s.regs|)
    && StoresOk(s.hist, s.stored, s.made, s.events, |s.regs|)
    && (forall p :: 0 <= p < |s.procs| ==> ProcOk(s, p))
    && (forall i :: 0 <= i < |s.events| ==> EventOk(s, s.events[i]))
  }

  // ---------------------------------------------------------------- what a scan returns

  /** Two collects with equal labels pin down all registers at the time between them. */
  lemma CleanIsValid(h: seq<seq<SnapValue>>, n: nat, sc: Scan)
    requires Monotone(h, n) && ScanOk(h, n, sc) && |sc.cur| == n && sc.last.Some?
    requires Compare(sc.last.value, sc.cur, sc.moved) == Clean
    ensures ValuesIn(h, Values(sc.cur), sc.start, |h| - 1)
  {
    var o, m := sc.last.value, sc.mid;
    forall t | 0 <= t < n ensures h[m][t] == sc.cur[t] {
      assert o[t].stamp == sc.cur[t].stamp;
      assert LastSeen(h, sc, t) && CurSeen(h, sc, t);
      var a :| sc.start <= a <= m && a < |h| && t < |h[a]| && h[a][t] == o[t];
      var b :| m <= b <= |h| - 1 && b < |h| && t < |h[b]| && h[b][t] == sc.cur[t];
      assert h[a][t].stamp <= h[m][t].stamp <= h[b][t].stamp;
    }
    assert h[m] == sc.cur;
  }

  /** Registers seen in the present collect are not older than in the last one. */
  lemma CollectsGrow(h: seq<seq<SnapValue>>, n: nat, sc: Scan, t: nat)
    requires Monotone(h, n) && ScanOk(h, n, sc) && sc.last.Some? && t < |sc.cur|
    ensures h[sc.start][t].stamp <= sc.last.value[t].stamp <= sc.cur[t].stamp
  {
    var o, m := sc.last.value, sc.mid;
    assert LastSeen(h, sc, t) && CurSeen(h, sc, t);
    var a :| sc.start <= a <= m && a < |h| && t < |h[a]| && h[a][t] == o[t];
    var b :| m <= b <= |h| - 1 && b < |h| && t < |h[b]| && h[b][t] == sc.cur[t];
    assert h[sc.start][t].stamp <= h[a][t].stamp && h[a][t].stamp <= h[b][t].stamp;
  }

  lemma LaterLabel(h: seq<seq<SnapValue>>, n: nat, j: nat, k: nat, t: nat)
    requires Monotone(h, n) && j < |h| && k < |h| && t < n && h[j][t].stamp > h[k][t].stamp
    ensures j > k
  {
  }

  /** A register that moved twice during the scan carries a snapshot taken during the scan. */
  lemma BorrowedIsValid(h: seq<seq<SnapValue>>, n: nat, sc: Scan, t: nat)
    requires Monotone(h, n) && Helpful(h, n) && ScanOk(h, n, sc) && |sc.cur| == n && sc.last.Some?
    requires Compare(sc.last.value, sc.cur, sc.moved) == Borrow(t)
    ensures t < n && ValuesIn(h, sc.cur[t].snap, sc.start, |h| - 1)
  {
    var m, start := sc.mid, sc.start;
    CollectsGrow(h, n, sc, t);
    assert CurSeen(h, sc, t) && LastSeen(h, sc, t);
    var b :| m <= b <= |h| - 1 && b < |h| && t < |h[b]| && h[b][t] == sc.cur[t];
    assert HelpedAt(h, b, t);
    var j :| 0 <= j < |h[..b]| && t < |h[..b][j]| && h[..b][j][t].stamp == h[b][t].stamp - 1
          && Values(h[..b][j]) == h[b][t].snap;
    assert h[..b][j] == h[j];
    assert h[j][t].stamp > h[start][t].stamp;
    LaterLabel(h, n, j, start, t);
  }

  lemma {:induction false} CountSet(moved: seq<bool>, t: nat)
    requires t < |moved| && !moved[t]
    ensures CountTrue(moved[t := true]) == CountTrue(moved) + 1
  {
    var n := |moved| - 1;
    if t == n {
      assert moved[t := true][..n] == moved[..n];
    } else {
      CountSet(moved[..n], t);
      assert moved[t := true][..n] == moved[..n][t := true];
    }
  }

  lemma SeenSinceStart(h: seq<seq<SnapValue>>, t: nat, x: SnapValue, start: nat, a: nat, b: nat)
    requires SeenIn(h, t, x, a, b) && start <= a
    ensures SeenIn(h, t, x, start, b)
  {
    var k :| a <= k <= b && k < |h| && t < |h[k]| && h[k][t] == x;
  }

  /** A complete collect, taken over as the last one. */
  lemma TakeOver(h: seq<seq<SnapValue>>, n: nat, sc: Scan, t: nat)
    requires Monotone(h, n) && ScanOk(h, n, sc) && sc.last.Some? && t < |sc.cur|
    ensures SeenIn(h, t, sc.cur[t], sc.start, |h| - 1)
    ensures sc.last.value[t].stamp != sc.cur[t].stamp || sc.moved[t] ==> sc.cur[t].stamp > h[sc.start][t].stamp
  {
    CollectsGrow(h, n, sc, t);
    assert CurSeen(h, sc, t) && LastSeen(h, sc, t);
    SeenSinceStart(h, t, sc.cur[t], sc.start, sc.mid, |h| - 1);
  }

  lemma AgainKeepsScan(h: seq<seq<SnapValue>>, n: nat, sc: Scan, t: nat)
    requires Monotone(h, n) && ScanOk(h, n, sc) && |sc.cur| == n && sc.last.Some?
    requires Compare(sc.last.value, sc.cur, sc.moved) == Again(t)
    ensures t < n && ScanOk(h, n, Recollect(sc, t, |h| - 1))
  {
    CountSet(sc.moved, t);
    var sc' := Recollect(sc, t, |h| - 1);
    forall u | 0 <= u < n ensures LastSeen(h, sc', u) {
      TakeOver(h, n, sc, u);
    }
  }

  lemma {:induction false} NoneMoved(n: nat)
    ensures CountTrue(seq(n, _ => false)) == 0
  {
    if n > 0 {
      NoneMoved(n - 1);
      assert seq(n, _ => false)[..n - 1] == seq(n - 1, _ => false);
    }
  }

  // ---------------------------------------------------------------- every step keeps the invariant

  /** Calls and events are only added. */
  lemma StoresStay(h: seq<seq<SnapValue>>, stored: seq<Call>, made: seq<Call>, made': seq<Call>, events: seq<Event>,
                   events': seq<Event>, n: nat)
    requires StoresOk(h, stored, made, events, n) && made <= made' && events <= events'
    ensures StoresOk(h, stored, made', events', n)
  {
    forall x | 0 <= x < |stored| ensures StoredOk(h, stored, made', x) && Reported(events', stored, x) {
      assert StoredOk(h, stored, made, x) && Reported(events, stored, x);
      var k :| 0 <= k < |events| && events[k] == UpdateDone(stored[x], x + 1);
      assert events'[k] == events[k];
    }
  }

  /** A step that stores nothing. */
  lemma LocalKeeps(s: State, s': State, p: nat)
    requires Inv(s) && p < |s.procs| && s'.regs == s.regs && s'.hist == s.hist && s'.stored == s.stored
    requires |s'.procs| == |s.procs| && (forall q :: 0 <= q < |s.procs| && q != p ==> s'.procs[q] == s.procs[q])
    requires ProcOk(s', p) && s.made <= s'.made
    requires s.events <= s'.events && forall i :: |s.events| <= i < |s'.events| ==> EventOk(s', s'.events[i])
    ensures Inv(s')
  {
    forall q | 0 <= q < |s'.procs| ensures ProcOk(s', q) { assert ProcOk(s, q); }
    forall i | 0 <= i < |s'.events| ensures EventOk(s', s'.events[i]) {
      if i < |s.events| { assert EventOk(s, s.events[i]); }
    }
    StoresStay(s.hist, s.stored, s.made, s'.made, s.events, s'.events, |s.regs|);
  }

  /** One more register read. */
  lemma ReadKeepsScan(h: seq<seq<SnapValue>>, n: nat, sc: Scan)
    requires Monotone(h, n) && ScanOk(h, n, sc) && |sc.cur| < n
    ensures ScanOk(h, n, sc.(cur := sc.cur + [h[|h| - 1][|sc.cur|]]))
  {
    var now, t := |h| - 1, |sc.cur|;
    var sc' := sc.(cur := sc.cur + [h[now][t]]);
    forall u | 0 <= u < |sc'.cur| ensures CurSeen(h, sc', u) {
      if u < t { assert CurSeen(h, sc, u); } else { assert h[now][t] == sc'.cur[u]; }
    }
    if sc.last.Some? {
      forall u | 0 <= u < n ensures LastSeen(h, sc', u) { assert LastSeen(h, sc, u); }
    }
  }

  /** The first collect is complete. */
  lemma FirstKeepsScan(h: seq<seq<SnapValue>>, n: nat, sc: Scan)
    requires Monotone(h, n) && ScanOk(h, n, sc) && |sc.cur| == n && sc.last.None?
    ensures ScanOk(h, n, sc.(last := Some(sc.cur), cur := [], mid := |h| - 1, collects := 1))
  {
    NotMoved(sc.moved);
    var sc' := sc.(last := Some(sc.cur), cur := [], mid := |h| - 1, collects := 1);
    forall u | 0 <= u < n ensures LastSeen(h, sc', u) { assert CurSeen(h, sc, u); }
  }

  lemma {:induction false} NotMoved(moved: seq<bool>)
    requires CountTrue(moved) == 0
    ensures forall t :: 0 <= t < |moved| ==> !moved[t]
  {
    if moved != [] {
      NotMoved(moved[..|moved| - 1]);
    }
  }

  lemma ReturnKeeps(s: State, p: nat, call: Call, sc: Scan, result: seq<int>)
    requires Inv(s) && p < |s.procs| && s.procs[p] == Scanning(call, sc)
    requires ValuesIn(s.hist, result, sc.start, |s.hist| - 1)
    ensures Inv(Return(s, p, call, result))
  {
    assert ProcOk(s, p);
    LocalKeeps(s, Return(s, p, call, result), p);
  }

  lemma RescanKeeps(s: State, p: nat, call: Call, sc: Scan, sc': Scan)
    requires Inv(s) && p < |s.procs| && s.procs[p] == Scanning(call, sc)
    requires ScanOk(s.hist, |s.regs|, sc') && sc'.start == sc.start
    ensures Inv(To(s, p, Scanning(call, sc')))
  {
    assert ProcOk(s, p);
    LocalKeeps(s, To(s, p, Scanning(call, sc')), p);
  }

  lemma CleanKeeps(s: State, p: nat, call: Call, sc: Scan)
    requires Inv(s) && p < |s.procs| && s.procs[p] == Scanning(call, sc) && ScanOk(s.hist, |s.regs|, sc)
    requires |sc.cur| == |s.regs| && sc.last.Some? && Compare(sc.last.value, sc.cur, sc.moved) == Clean
    ensures Inv(ScanStep(s, p, call, sc))
  {
    CleanIsValid(s.hist, |s.regs|, sc);
    ReturnKeeps(s, p, call, sc, Values(sc.cur));
  }

  lemma BorrowKeeps(s: State, p: nat, call: Call, sc: Scan, t: nat)
    requires Inv(s) && p < |s.procs| && s.procs[p] == Scanning(call, sc) && ScanOk(s.hist, |s.regs|, sc)
    requires |sc.cur| == |s.regs| && sc.last.Some? && Compare(sc.last.value, sc.cur, sc.moved) == Borrow(t)
    ensures Inv(ScanStep(s, p, call, sc))
  {
    BorrowedIsValid(s.hist, |s.regs|, sc, t);
    ReturnKeeps(s, p, call, sc, sc.cur[t].snap);
  }

  lemma AgainKeeps(s: State, p: nat, call: Call, sc: Scan, t: nat)
    requires Inv(s) && p < |s.procs| && s.procs[p] == Scanning(call, sc) && ScanOk(s.hist, |s.regs|, sc)
    requires |sc.cur| == |s.regs| && sc.last.Some? && Compare(sc.last.value, sc.cur, sc.moved) == Again(t)
    ensures Inv(ScanStep(s, p, call, sc))
  {
    AgainKeepsScan(s.hist, |s.regs|, sc, t);
    RescanKeeps(s, p, call, sc, Recollect(sc, t, Now(s)));
  }

  lemma ReadKeeps(s: State, p: nat, call: Call, sc: Scan)
    requires Inv(s) && p < |s.procs| && s.procs[p] == Scanning(call, sc)
    requires |sc.cur| < |s.regs| && ScanOk(s.hist, |s.regs|, sc)
    ensures Inv(ScanStep(s, p, call, sc))
  {
    ReadKeepsScan(s.hist, |s.regs|, sc);
    RescanKeeps(s, p, call, sc, sc.(cur := sc.cur + [s.regs[|sc.cur|]]));
  }

  lemma FirstKeeps(s: State, p: nat, call: Call, sc: Scan)
    requires Inv(s) && p < |s.procs| && s.procs[p] == Scanning(call, sc)
    requires |sc.cur| == |s.regs| && sc.last.None? && ScanOk(s.hist, |s.regs|, sc)
    ensures Inv(ScanStep(s, p, call, sc))
  {
    FirstKeepsScan(s.hist, |s.regs|, sc);
    RescanKeeps(s, p, call, sc, sc.(last := Some(sc.cur), cur := [], mid := Now(s), collects := 1));
  }

  lemma ScanKeeps(s: State, p: nat)
    requires Inv(s) && Enabled(s, p, Advance) && s.procs[p].Scanning?
    ensures Inv(Next(s, p, Advance))
  {
    var call, sc := s.procs[p].call, s.procs[p].scan;
    assert ProcOk(s, p);
    if |sc.cur| < |s.regs| {
      ReadKeeps(s, p, call, sc);
    } else if sc.last.None? {
      FirstKeeps(s, p, call, sc);
    } else {
      match Compare(sc.last.value, sc.cur, sc.moved) {
        case Clean => CleanKeeps(s, p, call, sc);
        case Borrow(t) => BorrowKeeps(s, p, call, sc, t);
        case Again(t) => AgainKeeps(s, p, call, sc, t);
      }
    }
  }

  lemma InvokeKeeps(s: State, p: nat, a: Action)
    requires Inv(s) && Enabled(s, p, a) && !a.Advance?
    ensures Inv(Next(s, p, a))
  {
    NoneMoved(|s.regs|);
    assert Absent(s.stored, |s.made|) by {
      forall x | 0 <= x < |s.stored| ensures s.stored[x].id != |s.made| { assert StoredOk(s.hist, s.stored, s.made, x); }
    }
    LocalKeeps(s, Next(s, p, a), p);
  }

  lemma ScannedKeeps(s: State, p: nat)
    requires Inv(s) && Enabled(s, p, Advance) && s.procs[p].Scanned?
    ensures Inv(Next(s, p, Advance))
  {
    assert ProcOk(s, p);
    var h, n, start, snap := s.hist, |s.regs|, s.procs[p].call.start, s.procs[p].snap;
    var j :| start <= j <= |h| - 1 && j < |h| && Values(h[j]) == snap;
    assert h[start][p].stamp <= h[j][p].stamp <= h[|h| - 1][p].stamp;
    assert TakenAt(h, p, s.regs[p].stamp, snap);
    LocalKeeps(s, Next(s, p, Advance), p);
  }

  // Storing: the history grows by one.

  lemma StoreMonotone(h: seq<seq<SnapValue>>, n: nat, p: nat, reg: SnapValue)
    requires h != [] && Monotone(h, n) && p < n && reg.stamp > h[|h| - 1][p].stamp
    ensures Monotone(h + [h[|h| - 1][p := reg]], n)
  {
    var regs := h[|h| - 1];
    var h': seq<seq<SnapValue>> := h + [regs[p := reg]];
    forall j, k, t | 0 <= j <= k < |h'| && 0 <= t < n
      ensures h'[j][t].stamp <= h'[k][t].stamp && (h'[j][t].stamp == h'[k][t].stamp ==> h'[j][t] == h'[k][t])
    {
      if k == |h| && j < |h| {
        assert h[j][t].stamp <= h[|h| - 1][t].stamp && (h[j][t].stamp == regs[t].stamp ==> h[j][t] == regs[t]);
      }
    }
  }

  lemma TakenStays(h: seq<seq<SnapValue>>, h': seq<seq<SnapValue>>, t: nat, stamp: nat, snap: seq<int>)
    requires TakenAt(h, t, stamp, snap) && h <= h'
    ensures TakenAt(h', t, stamp, snap)
  {
    var j :| 0 <= j < |h| && t < |h[j]| && h[j][t].stamp == stamp && Values(h[j]) == snap;
    assert h'[j] == h[j];
  }

  lemma StoreHelpful(h: seq<seq<SnapValue>>, n: nat, p: nat, reg: SnapValue)
    requires h != [] && Monotone(h, n) && Helpful(h, n) && p < n && reg.stamp == h[|h| - 1][p].stamp + 1
    requires TakenAt(h, p, reg.stamp - 1, reg.snap)
    requires Monotone(h + [h[|h| - 1][p := reg]], n)
    ensures Helpful(h + [h[|h| - 1][p := reg]], n)
  {
    var regs := h[|h| - 1];
    var h': seq<seq<SnapValue>> := h + [regs[p := reg]];
    forall k, t | 0 <= k < |h'| && 0 <= t < n ensures HelpedAt(h', k, t) {
      if k < |h| {
        assert HelpedAt(h, k, t);
        assert h'[..k] == h[..k] && h'[k] == h[k];
      } else {
        assert h'[..k] == h;
        assert HelpedAt(h, |h| - 1, t);
        if t != p && h'[k][t].stamp > 0 {
          assert h[|h| - 1][t] == h'[k][t];
          TakenStays(h[..|h| - 1], h, t, h'[k][t].stamp - 1, h'[k][t].snap);
        }
      }
    }
  }

  lemma SeenStays(h: seq<seq<SnapValue>>, h': seq<seq<SnapValue>>, t: nat, x: SnapValue, a: nat, b: nat, b': nat)
    requires SeenIn(h, t, x, a, b) && h <= h' && b <= b'
    ensures SeenIn(h', t, x, a, b')
  {
    var k :| a <= k <= b && k < |h| && t < |h[k]| && h[k][t] == x;
    assert h'[k] == h[k];
  }

  lemma ValuesStay(h: seq<seq<SnapValue>>, h': seq<seq<SnapValue>>, result: seq<int>, a: nat, b: nat, b': nat)
    requires ValuesIn(h, result, a, b) && h <= h' && b <= b'
    ensures ValuesIn(h', result, a, b')
  {
    var k :| a <= k <= b && k < |h| && Values(h[k]) == result;
    assert h'[k] == h[k];
  }

  lemma ScanStays(h: seq<seq<SnapValue>>, h': seq<seq<SnapValue>>, n: nat, sc: Scan)
    requires Monotone(h, n) && Monotone(h', n) && h <= h' && ScanOk(h, n, sc)
    ensures ScanOk(h', n, sc)
  {
    forall t | 0 <= t < |sc.cur| ensures CurSeen(h', sc, t) {
      assert CurSeen(h, sc, t);
      SeenStays(h, h', t, sc.cur[t], sc.mid, |h| - 1, |h'| - 1);
    }
    if sc.last.Some? {
      forall t | 0 <= t < n ensures LastSeen(h', sc, t) {
        assert LastSeen(h, sc, t);
        SeenStays(h, h', t, sc.last.value[t], sc.start, sc.mid, sc.mid);
      }
      assert h'[sc.start] == h[sc.start];
    }
  }

  /** A store by p leaves the others as they are. */
  lemma OtherStays(s: State, s': State, p: nat, q: nat)
    requires Inv(s) && p < |s.procs| && q < |s.procs| && p != q && |s'.procs| == |s.procs| && s'.procs[q] == s.procs[q]
    requires Monotone(s'.hist, |s'.regs|) && s.hist <= s'.hist && |s'.regs| == |s.regs|
    requires q < |s.regs| ==> s'.regs[q] == s.regs[q]
    requires s'.made == s.made && |s'.stored| == |s.stored| + 1 && s'.stored[..|s.stored|] == s.stored
    requires WasMade(s.made, s'.stored[|s.stored|]) && s'.stored[|s.stored|].pid == p
    ensures ProcOk(s', q)
  {
    var h, h', n := s.hist, s'.hist, |s.regs|;
    assert ProcOk(s, q);
    match s.procs[q] {
      case Idle =>
      case Scanning(_, sc) =>
        ScanStays(h, h', n, sc);
        assert h'[sc.start] == h[sc.start];
      case Scanned(call, snap) =>
        ValuesStay(h, h', snap, call.start, |h| - 1, |h'| - 1);
        assert h'[call.start] == h[call.start];
      case Storing(_, reg) => TakenStays(h, h', q, s.regs[q].stamp, reg.snap);
    }
  }

  lemma EventStays(s: State, s': State, e: Event)
    requires EventOk(s, e) && s.hist <= s'.hist && s.stored <= s'.stored && s'.made == s.made
    ensures EventOk(s', e)
  {
    match e {
      case ScanDone(call, end, result) => ValuesStay(s.hist, s'.hist, result, call.start, end, end);
      case UpdateDone(_, at) => assert s'.stored[at - 1] == s.stored[at - 1];
    }
  }

  /** An update's store is the next one. */
  lemma StoreGrows(h: seq<seq<SnapValue>>, stored: seq<Call>, made: seq<Call>, events: seq<Event>, n: nat, call: Call,
                   reg: SnapValue)
    requires StoresOk(h, stored, made, events, n) && Absent(stored, call.id) && WasMade(made, call)
    requires call.job.Update? && reg.value == call.job.value && call.start < |h| && call.pid < |h[|h| - 1]|
    ensures StoresOk(h + [h[|h| - 1][call.pid := reg]], stored + [call], made, events + [UpdateDone(call, |h|)], n)
  {
    var h', stored', events' := h + [h[|h| - 1][call.pid := reg]], stored + [call], events + [UpdateDone(call, |h|)];
    forall x | 0 <= x < |stored'| ensures StoredOk(h', stored', made, x) && Reported(events', stored', x) {
      if x < |stored| {
        assert StoredOk(h, stored, made, x) && Reported(events, stored, x);
        assert h'[x] == h[x] && h'[x + 1] == h[x + 1] && stored'[x] == stored[x];
        var k :| 0 <= k < |events| && events[k] == UpdateDone(stored[x], x + 1);
        assert events'[k] == events[k];
      } else {
        assert events'[|events|] == UpdateDone(stored'[x], x + 1);
      }
    }
  }

  lemma StoreKeeps(s: State, p: nat)
    requires Inv(s) && Enabled(s, p, Advance) && s.procs[p].Storing?
    ensures Inv(Next(s, p, Advance))
  {
    var s' := Next(s, p, Advance);
    var h, n, reg := s.hist, |s.regs|, s.procs[p].reg;
    assert ProcOk(s, p);
    StoreMonotone(h, n, p, reg);
    StoreHelpful(h, n, p, reg);
    StoreGrows(h, s.stored, s.made, s.events, n, s.procs[p].call, reg);
    forall q | 0 <= q < |s'.procs| ensures ProcOk(s', q) {
      if q != p { OtherStays(s, s', p, q); }
    }
    forall i | 0 <= i < |s'.events| ensures EventOk(s', s'.events[i]) {
      if i < |s.events| { EventStays(s, s', s.events[i]); }
    }
  }

  lemma NextKeeps(s: State, p: nat, a: Action)
    requires Inv(s) && Enabled(s, p, a)
    ensures Inv(Next(s, p, a))
  {
    if !a.Advance? {
      InvokeKeeps(s, p, a);
    } else {
      match s.procs[p] {
        case Scanning(_, _) => ScanKeeps(s, p);
        case Scanned(_, _) => ScannedKeeps(s, p);
        case Storing(_, _) => StoreKeeps(s, p);
      }
    }
  }

  lemma AnyStepKeeps(s: State, s': State)
    requires Inv(s) && IsStep(s, s')
    ensures Inv(s') && |s'.regs| == |s.regs|
  {
    var p, a :| Enabled(s, p, a) && s' == Next(s, p, a);
    NextKeeps(s, p, a);
  }

  lemma {:induction false} RunKeeps(run: seq<State>, numThread: nat, i: nat)
    requires IsRun(run, numThread) && i < |run|
    ensures Inv(run[i]) && |run[i].regs| == numThread
  {
    if i > 0 {
      RunKeeps(run, numThread, i - 1);
      assert StepAt(run, i);
      AnyStepKeeps(run[i - 1], run[i]);
    }
  }

  // ---------------------------------------------------------------- what becomes of a call

  /** The calls the processes are in. */
  function Open(procs: seq<Phase>): (open: seq<Option<Call>>)
    ensures |open| == |procs|
  {
    seq(|procs|, p requires 0 <= p < |procs| => if procs[p].Idle? then None else Some(procs[p].call))
  }

  /** The calls that returned: a scan when its scan was done, an update when its store was. */
  function Answered(events: seq<Event>): seq<Call> {
    if events == [] then []
    else
      var before, last := Answered(events[..|events| - 1]), events[|events| - 1];
      if last.UpdateDone? || last.call.job.JustScan? then before + [last.call] else before
  }

  lemma AnsweredMore(events: seq<Event>, e: Event)
    ensures Answered(events + [e])
         == Answered(events) + if e.UpdateDone? || e.call.job.JustScan? then [e.call] else []
  {
    assert (events + [e])[..|events|] == events;
  }

  ghost predicate CallsOk(s: State) {
    Accounted(s.made, Open(s.procs), Answered(s.events)) && forall i :: 0 <= i < |s.made| ==> s.made[i].id == i
  }

  /** The process goes on with its call, or returns from it. */
  predicate GoesOn(s: State, s': State, p: nat)
    requires p < |s.procs| && !s.procs[p].Idle?
  {
    && p < |s'.procs| && s'.made == s.made && s'.procs == s.procs[p := s'.procs[p]]
    && if s'.procs[p].Idle? then Answered(s'.events) == Answered(s.events) + [s.procs[p].call]
       else s'.procs[p].call == s.procs[p].call && Answered(s'.events) == Answered(s.events)
  }

  lemma ScanGoesOn(s: State, p: nat)
    requires Enabled(s, p, Advance) && s.procs[p].Scanning?
    ensures GoesOn(s, Next(s, p, Advance), p)
  {
    var call, s' := s.procs[p].call, Next(s, p, Advance);
    if |s'.events| > |s.events| { AnsweredMore(s.events, s'.events[|s.events|]); }
  }

  lemma StepGoesOn(s: State, p: nat)
    requires Enabled(s, p, Advance)
    ensures GoesOn(s, Next(s, p, Advance), p)
  {
    match s.procs[p] {
      case Scanning(_, _) => ScanGoesOn(s, p);
      case Scanned(_, _) =>
      case Storing(call, _) => AnsweredMore(s.events, UpdateDone(call, |s.hist|));
    }
  }

  lemma StepAccounts(s: State, s': State, p: nat)
    requires CallsOk(s) && p < |s.procs| && !s.procs[p].Idle? && GoesOn(s, s', p)
    ensures CallsOk(s')
  {
    if s'.procs[p].Idle? {
      CallReturned(s.made, Open(s.procs), Answered(s.events), p);
      assert Open(s'.procs) == Open(s.procs)[p := None];
    } else {
      assert Open(s'.procs) == Open(s.procs);
    }
  }

  /** The call is recorded as it was made, with the present time, and is the one the process is in. */
  predicate Records(s: State, s': State, p: nat, job: Job) {
    && |s'.made| == |s.made| + 1 && s'.made[..|s.made|] == s.made && p < |s'.procs| && !s'.procs[p].Idle?
    && s.hist != [] && s'.procs[p].call == s'.made[|s.made|] == Call(|s.made|, p, job, |s.hist| - 1)
  }

  lemma InvokeAccounts(s: State, p: nat, a: Action)
    requires CallsOk(s) && Enabled(s, p, a) && !a.Advance?
    ensures CallsOk(Next(s, p, a)) && Records(s, Next(s, p, a), p, if a.InvokeUpdate? then Update(a.value) else JustScan)
  {
    var s' := Next(s, p, a);
    CallInvoked(s.made, Open(s.procs), Answered(s.events), p, s'.made[|s.made|]);
    assert Open(s'.procs) == Open(s.procs)[p := Some(s'.made[|s.made|])];
  }

  lemma AnyStepAccounts(s: State, s': State)
    requires CallsOk(s) && IsStep(s, s')
    ensures CallsOk(s')
  {
    var p, a :| Enabled(s, p, a) && s' == Next(s, p, a);
    if a.Advance? {
      StepGoesOn(s, p);
      StepAccounts(s, s', p);
    } else {
      InvokeAccounts(s, p, a);
    }
  }

  lemma {:induction false} RunAccounts(run: seq<State>, numThread: nat, i: nat)
    requires IsRun(run, numThread) && i < |run|
    ensures CallsOk(run[i])
  {
    if i > 0 {
      RunAccounts(run, numThread, i - 1);
      assert StepAt(run, i);
      AnyStepAccounts(run[i - 1], run[i]);
    }
  }

  // ---------------------------------------------------------------- theorems

  lemma {:induction false} ValuesAre(h: seq<seq<SnapValue>>, stored: seq<Call>, made: seq<Call>, events: seq<Event>, n: nat,
                                     x: nat)
    requires StoresOk(h, stored, made, events, n) && x <= |stored|
    ensures Values(h[x]) == Contents(n, stored[..x])
  {
    if x > 0 {
      ValuesAre(h, stored, made, events, n, x - 1);
      assert StoredOk(h, stored, made, x - 1);
      assert stored[..x][..x - 1] == stored[..x - 1];
      var p := stored[x - 1].pid;
      assert Values(h[x]) == Values(h[x - 1])[p := stored[x - 1].job.value];
    }
  }

  predicate CalledBefore(made: seq<Call>, stored: seq<Call>, x: nat) {
    && x < |stored| && stored[x].id < |made| && made[stored[x].id] == stored[x]
    && stored[x].job.Update? && stored[x].start <= x
  }

  /** The updates in the order of their stores: each was called, with this value, before its store, none is there twice,
      and each has returned since. */
  ghost predicate LogOk(s: State) {
    && (forall x :: 0 <= x < |s.stored| ==> CalledBefore(s.made, s.stored, x))
    && (forall x, y :: 0 <= x < y < |s.stored| ==> s.stored[x].id != s.stored[y].id)
    && forall x :: 0 <= x < |s.stored| ==> Reported(s.events, s.stored, x)
  }

  /** The object held these values after some number of updates from a to b. */
  ghost predicate ObjectHeld(n: nat, updates: seq<Call>, values: seq<int>, a: nat, b: nat) {
    exists x :: a <= x <= b && x <= |updates| && Contents(n, updates[..x]) == values
  }

  /** An update that returned is in the log, and a scan that returned, clean or borrowed, of its own or in an update,
      returned what the object held: both between the call of that process, which was made, and the return. */
  ghost predicate TookEffect(s: State, n: nat, e: Event) {
    && e.call.id < |s.made| && s.made[e.call.id] == e.call
    && match e
       case ScanDone(call, end, result) => ObjectHeld(n, s.stored, result, call.start, end)
       case UpdateDone(call, at) => call.start < at <= |s.stored| && s.stored[at - 1] == call
  }

  lemma EventTookEffect(s: State, e: Event)
    requires Inv(s) && EventOk(s, e)
    ensures TookEffect(s, |s.regs|, e)
  {
    match e {
      case ScanDone(call, end, result) =>
        var x :| call.start <= x <= end && x < |s.hist| && Values(s.hist[x]) == result;
        ValuesAre(s.hist, s.stored, s.made, s.events, |s.regs|, x);
      case UpdateDone(_, at) => assert StoredOk(s.hist, s.stored, s.made, at - 1);
    }
  }

  /** Linearizability of scans and updates.  The updates in the order of their stores are a log of calls that were made;
      the registers hold at every time x what the snapshot object holds after the first x of them; every update and every
      scan that returned took effect on this object at one time between its call and its return; and every call made is
      under way in one process or has returned once. */
  lemma Linearizable(run: seq<State>, numThread: nat, i: nat)
    requires IsRun(run, numThread) && i < |run|
    ensures LogOk(run[i]) && |run[i].hist| == |run[i].stored| + 1
    ensures forall x :: 0 <= x < |run[i].hist| ==> Values(run[i].hist[x]) == Contents(numThread, run[i].stored[..x])
    ensures forall k :: 0 <= k < |run[i].events| ==> TookEffect(run[i], numThread, run[i].events[k])
    ensures Accounted(run[i].made, Open(run[i].procs), Answered(run[i].events))
    ensures forall p, a :: Enabled(run[i], p, a) && !a.Advance? ==>
              Records(run[i], Next(run[i], p, a), p, if a.InvokeUpdate? then Update(a.value) else JustScan)
  {
    RunAccounts(run, numThread, i);
    RunKeeps(run, numThread, i);
    var s := run[i];
    forall x | 0 <= x < |s.hist| ensures Values(s.hist[x]) == Contents(numThread, s.stored[..x]) {
      ValuesAre(s.hist, s.stored, s.made, s.events, numThread, x);
    }
    forall x | 0 <= x < |s.stored| ensures CalledBefore(s.made, s.stored, x) {
      assert StoredOk(s.hist, s.stored, s.made, x);
    }
    forall k | 0 <= k < |s.events| ensures TookEffect(s, numThread, s.events[k]) { EventTookEffect(s, s.events[k]); }
  }

  /** One snapshot is not newer than another: they are the values of two histories' registers in label order. */
  ghost predicate NotNewer(h: seq<seq<SnapValue>>, a: seq<int>, b: seq<int>) {
    exists j, k :: 0 <= j < |h| && 0 <= k < |h| && Values(h[j]) == a && Values(h[k]) == b && |h[j]| == |h[k]|
                && forall t :: 0 <= t < |h[j]| ==> h[j][t].stamp <= h[k][t].stamp
  }

  /** Any two snapshots are ordered, and a scan that ended before another began is not newer. */
  lemma SnapshotsAreOrdered(run: seq<State>, numThread: nat, i: nat, x: nat, y: nat)
    requires IsRun(run, numThread) && i < |run| && x < |run[i].events| && y < |run[i].events|
    requires run[i].events[x].ScanDone? && run[i].events[y].ScanDone?
    ensures var h, a, b := run[i].hist, run[i].events[x], run[i].events[y];
            && (NotNewer(h, a.result, b.result) || NotNewer(h, b.result, a.result))
            && (a.end <= b.call.start ==> NotNewer(h, a.result, b.result))
  {
    RunKeeps(run, numThread, i);
    var h, a, b := run[i].hist, run[i].events[x], run[i].events[y];
    assert EventOk(run[i], a) && EventOk(run[i], b);
    var j :| a.call.start <= j <= a.end && j < |h| && Values(h[j]) == a.result;
    var k :| b.call.start <= k <= b.end && k < |h| && Values(h[k]) == b.result;
    if j <= k {
      assert forall t :: 0 <= t < |h[j]| ==> h[j][t].stamp <= h[k][t].stamp;
    } else {
      assert forall t :: 0 <= t < |h[k]| ==> h[k][t].stamp <= h[j][t].stamp;
    }
  }

  /** The steps a scan over n registers can still take. */
  function StepsLeft(n: nat, sc: Scan): int {
    (n + 1 - sc.collects) * (n + 1) + n - |sc.cur|
  }

  lemma StepsRemain(n: nat, sc: Scan)
    requires sc.collects <= n + 1 && |sc.cur| <= n
    ensures 0 <= StepsLeft(n, sc)
  {
    assert 0 <= (n + 1 - sc.collects) * (n + 1);
  }

  /** A scan that has not returned has read one more register or completed one more collect. */
  predicate OneMore(n: nat, sc: Scan, sc': Scan) {
    if |sc.cur| < n then |sc'.cur| == |sc.cur| + 1 && sc'.collects == sc.collects
    else |sc.cur| == n && sc'.cur == [] && sc'.collects == sc.collects + 1
  }

  lemma OneMoreIsOneLess(n: nat, sc: Scan, sc': Scan)
    requires OneMore(n, sc, sc')
    ensures StepsLeft(n, sc') == StepsLeft(n, sc) - 1
  {
    if |sc.cur| == n {
      assert (n + 1 - sc.collects) * (n + 1) == (n + 1 - sc'.collects) * (n + 1) + (n + 1);
    }
  }

  lemma StepMakesProgress(s: State, p: nat, call: Call, sc: Scan)
    requires Inv(s) && p < |s.procs| && s.procs[p] == Scanning(call, sc)
    ensures Enabled(s, p, Advance) && sc.collects <= |s.regs| + 1 && |sc.cur| <= |s.regs|
    ensures var s' := Next(s, p, Advance); s'.procs[p].Scanning? ==> OneMore(|s.regs|, sc, s'.procs[p].scan)
  {
    assert ProcOk(s, p);
  }

  /** Wait-freedom: whatever the others do, a scan makes at most numThread + 2 collects, and each of its own steps
      ends it or leaves it one step fewer; others' steps leave it alone. */
  lemma ScanIsWaitFree(run: seq<State>, numThread: nat, i: nat, p: nat)
    requires IsRun(run, numThread) && i < |run| && p < |run[i].procs| && run[i].procs[p].Scanning?
    ensures var sc := run[i].procs[p].scan;
            && sc.collects <= numThread + 1 && 0 <= StepsLeft(numThread, sc)
            && Enabled(run[i], p, Advance)
            && var s' := Next(run[i], p, Advance);
               !s'.procs[p].Scanning? || StepsLeft(numThread, s'.procs[p].scan) == StepsLeft(numThread, sc) - 1
    ensures forall q, a :: Enabled(run[i], q, a) && q != p ==> Next(run[i], q, a).procs[p] == run[i].procs[p]
  {
    RunKeeps(run, numThread, i);
    var s, n := run[i], numThread;
    var sc := s.procs[p].scan;
    StepMakesProgress(s, p, s.procs[p].call, sc);
    StepsRemain(n, sc);
    var s' := Next(s, p, Advance);
    if s'.procs[p].Scanning? {
      OneMoreIsOneLess(n, sc, s'.procs[p].scan);
    }
  }

  /** After its scan an update makes its register and stores it, whatever the others do. */
  lemma UpdateIsWaitFree(run: seq<State>, numThread: nat, i: nat, p: nat)
    requires IsRun(run, numThread) && i < |run| && p < |run[i].procs|
    requires run[i].procs[p].Scanned? || run[i].procs[p].Storing?
    ensures Enabled(run[i], p, Advance)
    ensures var s' := Next(run[i], p, Advance);
            if run[i].procs[p].Scanned? then s'.procs[p].Storing? && s'.procs[p].call == run[i].procs[p].call
            else s'.procs[p].Idle? && s'.stored == run[i].stored + [run[i].procs[p].call]
    ensures forall q, a :: Enabled(run[i], q, a) && q != p ==> Next(run[i], q, a).procs[p] == run[i].procs[p]
  {
    RunKeeps(run, numThread, i);
    assert ProcOk(run[i], p);
  }
}
