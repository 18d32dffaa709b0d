/** The database calls of all transactions, interleaved.

    One step is one section under the lock table's mutex, one look at a `locked` flag, or one access to a record,
    to a log or to the execution counter.  Four fields are history, which no step looks at: `ops`, the operations
    behind each log entry; `committed` and `committedOps`, the logs and the operations of the transactions that took
    a valid commit id, by increasing id; and `serial`, the records a serial run of those leaves. */
module Engine {
  import opened Options
  import opened LockModel
  import opened LockTheorems

  datatype Op = ReadOp(rec: nat) | AddOp(rec: nat, operand: int)

  datatype LogEntry = LogEntry(rec: nat, before: int, after: int)

  datatype Line = Line(commitId: nat, recs: seq<nat>, afters: seq<int>)

  datatype Phase =
    | Ready(corrupt: bool)                          // between calls; corrupt: the last one was refused
    | Spinning(op: Op)                              // while (myLock->locked)
    | Entered(op: Op)                               // the lock is held
    | Fetched(op: Op, before: int)                  // beforeValue fetched
    | Loaded(op: Op, before: int, value: int)       // records[recordId] loaded for +=
    | Stored(op: Op, before: int)                   // the sum is stored
    | Logging(op: Op, entry: LogEntry)              // all values fetched, log entry not yet added
    | Undoing(next: nat, terminated: bool)          // loop of abort
    | Stashed(terminated: bool)                     // log thrown away, locks not yet released
    | Committing(commitId: nat)                     // valid commit id taken
    | Flushed                                       // line written, locks not yet released
    | Terminated

  datatype Action = Begin(op: Op) | Commit | Abort | Advance

  datatype Db = Db(locks: Locks, records: seq<int>, logs: seq<seq<LogEntry>>, phases: seq<Phase>,
                   files: seq<seq<Line>>, executionOrder: nat, maxExecution: nat,
                   ops: seq<seq<Op>>, committed: seq<seq<LogEntry>>, committedOps: seq<seq<Op>>, serial: seq<int>)

  function OpMode(op: Op): Mode {
    if op.ReadOp? then Read else Write
  }

  function Recs(log: seq<LogEntry>): (c: seq<nat>)
    ensures |c| == |log|
  {
    seq(|log|, k requires 0 <= k < |log| => log[k].rec)
  }

  function Afters(log: seq<LogEntry>): seq<int> {
    seq(|log|, k requires 0 <= k < |log| => log[k].after)
  }

  predicate Shape(s: Db) {
    && |s.phases| == |s.logs| == |s.ops| == |s.files| == |s.locks.chains|
    && |s.records| == |s.serial| == |s.locks.queues|
  }

  // ---------------------------------------------------------------- serial replay

  /** One transaction run alone from v: it must see the before-values it logged. */
  function ReplayOne(v: seq<int>, log: seq<LogEntry>): Option<seq<int>>
    decreases |log|
  {
    if log == [] then Some(v)
    else if log[0].rec < |v| && v[log[0].rec] == log[0].before then
      ReplayOne(v[log[0].rec := log[0].after], log[1..])
    else None
  }

  /** The transactions run one after the other. */
  function Replay(v: seq<int>, logs: seq<seq<LogEntry>>): Option<seq<int>> {
    if logs == [] then Some(v)
    else
      match Replay(v, logs[..|logs| - 1])
      case None => None
      case Some(w) => ReplayOne(w, logs[|logs| - 1])
  }

  /** What the log writes over v. */
  function Overwrite(v: seq<int>, log: seq<LogEntry>): (w: seq<int>)
    ensures |w| == |v|
    decreases |log|
  {
    if log == [] then v
    else Overwrite(if log[0].rec < |v| then v[log[0].rec := log[0].after] else v, log[1..])
  }

  // ---------------------------------------------------------------- steps

  predicate Enabled(s: Db, t: nat, a: Action) {
    && Shape(s) && t < |s.phases|
    && match a
       case Begin(op) => s.phases[t].Ready? && op.rec < |s.records|
       case Commit => s.phases[t].Ready?
       case Abort => s.phases[t].Ready?
       case Advance => !s.phases[t].Ready? && !s.phases[t].Terminated? && PhaseFits(s, t)
  }

  /** What a phase says about where the transaction is; kept by every step. */
  predicate PhaseFits(s: Db, t: nat)
    requires Shape(s) && t < |s.phases|
  {
    match s.phases[t]
    case Spinning(op) => op.rec < |s.records| && s.locks.chains[t] != []
    case Entered(op) => op.rec < |s.records|
    case Fetched(op, _) => op.AddOp? && op.rec < |s.records|
    case Loaded(op, _, _) => op.AddOp? && op.rec < |s.records|
    case Stored(op, _) => op.AddOp? && op.rec < |s.records|
    case Undoing(i, _) => i < |s.logs[t]| ==> s.logs[t][i].rec < |s.records|
    case _ => true
  }

  function To(s: Db, t: nat, p: Phase): Db
    requires t < |s.phases|
  {
    s.(phases := s.phases[t := p])
  }

  function AddLog(s: Db, t: nat, op: Op, e: LogEntry): Db
    requires t < |s.logs| && t < |s.ops|
  {
    s.(logs := s.logs[t := s.logs[t] + [e]], ops := s.ops[t := s.ops[t] + [op]])
  }

  function ClearLog(s: Db, t: nat): Db
    requires t < |s.logs| && t < |s.ops|
  {
    s.(logs := s.logs[t := []], ops := s.ops[t := []])
  }

  function WriteRecord(s: Db, r: nat, v: int): Db
    requires r < |s.records|
  {
    s.(records := s.records[r := v])
  }

  function WriteLine(s: Db, t: nat, line: Line): Db
    requires t < |s.files|
  {
    s.(files := s.files[t := s.files[t] + [line]])
  }

  ghost function Next(s: Db, t: nat, a: Action): Db
    requires Enabled(s, t, a)
  {
    match a
    case Begin(op) =>
      (match Request(s.locks, t, op.rec, OpMode(op))
       case None => To(s, t, Ready(true))
       case Some(l) => To(s, t, Spinning(op)).(locks := l))
    case Commit =>
      if s.executionOrder + 1 > s.maxExecution then
        To(s, t, Undoing(0, true)).(executionOrder := s.executionOrder + 1)
      else
        To(s, t, Committing(s.executionOrder + 1)).(
          executionOrder := s.executionOrder + 1,
          committed := s.committed + [s.logs[t]],
          committedOps := s.committedOps + [s.ops[t]],
          serial := Overwrite(s.serial, s.logs[t]))
    case Abort => To(s, t, Undoing(0, false))
    case Advance =>
      (match s.phases[t]
       case Spinning(op) => if Waiting(s.locks, t) then s else To(s, t, Entered(op))
       case Entered(op) =>
         var v := s.records[op.rec];
         if op.ReadOp? then To(s, t, Logging(op, LogEntry(op.rec, v, v))) else To(s, t, Fetched(op, v))
       case Fetched(op, b) => To(s, t, Loaded(op, b, s.records[op.rec]))
       case Loaded(op, b, v) => WriteRecord(To(s, t, Stored(op, b)), op.rec, v + op.operand)
       case Stored(op, b) => To(s, t, Logging(op, LogEntry(op.rec, b, s.records[op.rec])))
       case Logging(op, e) => AddLog(To(s, t, Ready(false)), t, op, e)
       case Undoing(i, term) =>
         if i < |s.logs[t]| then
           WriteRecord(To(s, t, Undoing(i + 1, term)), s.logs[t][i].rec, s.logs[t][i].before)
         else ClearLog(To(s, t, Stashed(term)), t)
       case Stashed(term) =>
         To(s, t, if term then Phase.Terminated else Ready(false)).(locks := Unlock(s.locks, t))
       case Committing(id) =>
         WriteLine(ClearLog(To(s, t, Flushed), t), t, Line(id, Recs(s.logs[t]), Afters(s.logs[t])))
       case Flushed => To(s, t, Ready(false)).(locks := Unlock(s.locks, t)))
  }

  const InitialValue := 100

  function Init(numRecord: nat, numTxn: nat, maxExecution: nat): Db {
    Db(Locks(seq(numRecord + 1, _ => []), seq(numTxn + 1, _ => [])),
       seq(numRecord + 1, _ => InitialValue), seq(numTxn + 1, _ => []), seq(numTxn + 1, _ => Ready(false)),
       seq(numTxn + 1, _ => []), 0, maxExecution,
       seq(numTxn + 1, _ => []), [], [], seq(numRecord + 1, _ => InitialValue))
  }

  // ---------------------------------------------------------------- invariant

  /** t has a lock object of mode m on r. */
  predicate HasMode(l: Locks, t: nat, r: nat, m: Mode) {
    r < |l.queues| && exists i :: 0 <= i < |l.queues[r]| && l.queues[r][i].txn == t && l.queues[r][i].mode == m
  }

  predicate Clean(s: Db, r: nat) {
    r < |s.records| && r < |s.serial| && s.records[r] == s.serial[r]
  }

  ghost predicate ChainClean(s: Db, t: nat)
    requires t < |s.locks.chains|
  {
    forall r :: r in s.locks.chains[t] ==> Clean(s, r)
  }

  /** The log tells the serial value of each of its records, and the present one: the first `undone` entries have
      been rolled back already. */
  ghost predicate LogTells(s: Db, log: seq<LogEntry>, undone: nat) {
    forall k :: 0 <= k < |log| ==>
      && log[k].rec < |s.records| && log[k].rec < |s.serial|
      && s.serial[log[k].rec] == log[k].before
      && s.records[log[k].rec] == if k < undone then log[k].before else log[k].after
  }

  /** Only records locked for writing were changed. */
  ghost predicate ChangedAreWritten(l: Locks, t: nat, log: seq<LogEntry>) {
    forall k :: 0 <= k < |log| && log[k].before != log[k].after ==> HasMode(l, t, log[k].rec, Write)
  }

  /** An operation on op.rec is under way, and the log is that of the operations before it. */
  ghost predicate InOp(s: Db, t: nat, r: nat)
    requires Shape(s) && t < |s.phases|
  {
    && r < |s.records|
    && s.locks.chains[t] == Recs(s.logs[t]) + [r]
    && LogTells(s, s.logs[t], 0) && ChangedAreWritten(s.locks, t, s.logs[t])
  }

  ghost predicate TxnOk(s: Db, t: nat)
    requires Shape(s) && t < |s.phases|
  {
    var log, c := s.logs[t], s.locks.chains[t];
    && (Waiting(s.locks, t) ==> s.phases[t].Spinning?)
    && match s.phases[t]
       case Ready(_) => c == Recs(log) && LogTells(s, log, 0) && ChangedAreWritten(s.locks, t, log)
       case Spinning(op) =>
         && InOp(s, t, op.rec) && HasMode(s.locks, t, op.rec, OpMode(op))
         && (!Waiting(s.locks, t) ==> Clean(s, op.rec))
       case Entered(op) => InOp(s, t, op.rec) && HasMode(s.locks, t, op.rec, OpMode(op)) && Clean(s, op.rec)
       case Fetched(op, b) =>
         && InOp(s, t, op.rec) && HasMode(s.locks, t, op.rec, Write) && op.AddOp?
         && s.serial[op.rec] == s.records[op.rec] == b
       case Loaded(op, b, v) =>
         && InOp(s, t, op.rec) && HasMode(s.locks, t, op.rec, Write) && op.AddOp?
         && s.serial[op.rec] == s.records[op.rec] == b == v
       case Stored(op, b) =>
         && InOp(s, t, op.rec) && HasMode(s.locks, t, op.rec, Write) && op.AddOp?
         && s.serial[op.rec] == b && s.records[op.rec] == b + op.operand
       case Logging(_, e) =>
         && InOp(s, t, e.rec) && (e.before != e.after ==> HasMode(s.locks, t, e.rec, Write))
         && s.serial[e.rec] == e.before && s.records[e.rec] == e.after
       case Undoing(i, _) => i <= |log| && c == Recs(log) && LogTells(s, log, i) && ChangedAreWritten(s.locks, t, log)
       case Stashed(_) => log == [] && ChainClean(s, t)
       case Committing(id) => c == Recs(log) && ChainClean(s, t) && 1 <= id <= |s.committed| && log == s.committed[id - 1]
       case Flushed => log == [] && ChainClean(s, t)
       case Terminated => log == [] && c == []
  }

  /** A record that nobody holds for writing has its serial value. */
  ghost predicate UnwrittenClean(s: Db)
    requires Shape(s)
  {
    forall r :: 0 <= r < |s.records| && (s.locks.queues[r] == [] || s.locks.queues[r][0].mode == Read) ==> Clean(s, r)
  }

  ghost predicate LineOk(s: Db, line: Line) {
    && 1 <= line.commitId <= |s.committed|
    && line.recs == Recs(s.committed[line.commitId - 1]) && line.afters == Afters(s.committed[line.commitId - 1])
  }

  /** The history is a serial run in commit-id order, and the files tell it. */
  ghost predicate HistoryOk(s: Db) {
    && Replay(seq(|s.serial|, _ => InitialValue), s.committed) == Some(s.serial)
    && |s.committed| == (if s.executionOrder <= s.maxExecution then s.executionOrder else s.maxExecution)
    && forall t, k :: 0 <= t < |s.files| && 0 <= k < |s.files[t]| ==> LineOk(s, s.files[t][k])
  }

  ghost predicate DbInv(s: Db) {
    && Shape(s)
    && LockModel.Inv(s.locks)
    && (forall t :: 0 <= t < |s.phases| ==> TxnOk(s, t))
    && UnwrittenClean(s)
    && HistoryOk(s)
  }

  // ---------------------------------------------------------------- what others do leaves a transaction alone

  /** A record that t holds for writing is held by nobody else. */
  lemma WriteIsExclusive(l: Locks, t: nat, u: nat, r: nat)
    requires LockModel.Inv(l) && t < |l.chains| && u < |l.chains| && t != u
    requires HasMode(l, t, r, Write) && !LockedAt(l, t, r) && r in l.chains[u]
    ensures LockedAt(l, u, r)
  {
    var q := l.queues[r];
    var i :| 0 <= i < |q| && q[i].txn == t && q[i].mode == Write;
    assert HasTxn(q, u);
    var j :| 0 <= j < |q| && q[j].txn == u;
    WriterIsAlone(l, r, i, j);
  }

  lemma WriteIsHead(l: Locks, t: nat, r: nat)
    requires LockModel.Inv(l) && HasMode(l, t, r, Write) && !LockedAt(l, t, r)
    ensures l.queues[r] != [] && l.queues[r][0].mode == Write
  {
    var q := l.queues[r];
    var i :| 0 <= i < |q| && q[i].txn == t && q[i].mode == Write;
    assert GrantOk(q) && Granted(q, i);
  }

  /** Everything TxnOk(s, u) speaks of is the same in s'. */
  ghost predicate Untouched(s: Db, s': Db, u: nat)
    requires Shape(s) && Shape(s') && u < |s.phases| && u < |s'.phases|
  {
    && s'.logs[u] == s.logs[u] && s'.phases[u] == s.phases[u] && s'.locks.chains[u] == s.locks.chains[u]
    && |s'.records| == |s.records|
    && |s.committed| <= |s'.committed| && s'.committed[..|s.committed|] == s.committed
    && (Waiting(s'.locks, u) ==> Waiting(s.locks, u))
    && (forall r, m :: HasMode(s.locks, u, r, m) <==> HasMode(s'.locks, u, r, m))
    && (forall r :: r in s.locks.chains[u] && r < |s.records| && !LockedAt(s.locks, u, r) ==>
          s'.records[r] == s.records[r] && s'.serial[r] == s.serial[r])
    && (Waiting(s.locks, u) && !Waiting(s'.locks, u) ==> Clean(s', Last(s.locks, u).rec))
  }

  lemma HeldUnlocked(l: Locks, u: nat, k: nat)
    requires LockModel.Inv(l) && u < |l.chains| && k < |l.chains[u]| && (Waiting(l, u) ==> k < |l.chains[u]| - 1)
    ensures l.chains[u][k] < |l.queues| && !LockedAt(l, u, l.chains[u][k])
  {
    var r := l.chains[u][k];
    assert r in l.chains[u];
    if k == |l.chains[u]| - 1 {
      assert !Waiting(l, u);
    } else {
      assert OneOutstanding(l);
    }
  }

  lemma UntouchedLog(s: Db, s': Db, u: nat, undone: nat)
    requires Shape(s) && Shape(s') && u < |s.phases| && u < |s'.phases| && Untouched(s, s', u)
    requires LockModel.Inv(s.locks) && LogTells(s, s.logs[u], undone) && ChangedAreWritten(s.locks, u, s.logs[u])
    requires |s.logs[u]| <= |s.locks.chains[u]| && (Waiting(s.locks, u) ==> |s.logs[u]| < |s.locks.chains[u]|)
    requires forall k :: 0 <= k < |s.logs[u]| ==> s.logs[u][k].rec == s.locks.chains[u][k]
    ensures LogTells(s', s'.logs[u], undone) && ChangedAreWritten(s'.locks, u, s'.logs[u])
  {
    forall k | 0 <= k < |s.logs[u]|
      ensures s'.records[s.logs[u][k].rec] == s.records[s.logs[u][k].rec]
      ensures s'.serial[s.logs[u][k].rec] == s.serial[s.logs[u][k].rec]
    {
      HeldUnlocked(s.locks, u, k);
      assert s.logs[u][k].rec in s.locks.chains[u];
    }
  }

  lemma UntouchedStays(s: Db, s': Db, u: nat)
    requires Shape(s) && Shape(s') && u < |s.phases| && u < |s'.phases| && Untouched(s, s', u)
    requires LockModel.Inv(s.locks) && TxnOk(s, u)
    ensures TxnOk(s', u)
  {
    var c, log := s.locks.chains[u], s.logs[u];
    match s.phases[u] {
      case Ready(_) => UntouchedLog(s, s', u, 0);
      case Spinning(op) => UntouchedOp(s, s', u, op.rec);
      case Entered(op) => UntouchedOp(s, s', u, op.rec);
      case Fetched(op, _) => UntouchedOp(s, s', u, op.rec);
      case Loaded(op, _, _) => UntouchedOp(s, s', u, op.rec);
      case Stored(op, _) => UntouchedOp(s, s', u, op.rec);
      case Logging(_, e) => UntouchedOp(s, s', u, e.rec);
      case Undoing(i, _) => UntouchedLog(s, s', u, i);
      case Stashed(_) => UntouchedClean(s, s', u);
      case Committing(_) => UntouchedClean(s, s', u);
      case Flushed => UntouchedClean(s, s', u);
      case Terminated =>
    }
  }

  lemma UntouchedOp(s: Db, s': Db, u: nat, r: nat)
    requires Shape(s) && Shape(s') && u < |s.phases| && u < |s'.phases| && Untouched(s, s', u)
    requires LockModel.Inv(s.locks) && InOp(s, u, r)
    ensures InOp(s', u, r)
    ensures r < |s.records| && (!Waiting(s.locks, u) ==> s'.records[r] == s.records[r] && s'.serial[r] == s.serial[r])
    ensures Waiting(s.locks, u) && !Waiting(s'.locks, u) ==> Clean(s', r)
  {
    var c, log := s.locks.chains[u], s.logs[u];
    assert c[|c| - 1] == r;
    if !Waiting(s.locks, u) {
      HeldUnlocked(s.locks, u, |c| - 1);
      assert r in c;
    }
    UntouchedLog(s, s', u, 0);
  }

  lemma UntouchedClean(s: Db, s': Db, u: nat)
    requires Shape(s) && Shape(s') && u < |s.phases| && u < |s'.phases| && Untouched(s, s', u)
    requires LockModel.Inv(s.locks) && ChainClean(s, u) && !Waiting(s.locks, u)
    ensures ChainClean(s', u)
  {
    var c := s.locks.chains[u];
    forall r | r in c ensures Clean(s', r) {
      var k :| 0 <= k < |c| && c[k] == r;
      HeldUnlocked(s.locks, u, k);
    }
  }

  // ---------------------------------------------------------------- every step keeps the invariant

  lemma StepKeeps(s: Db, s': Db, t: nat)
    requires DbInv(s) && Shape(s') && |s'.phases| == |s.phases| && t < |s.phases|
    requires LockModel.Inv(s'.locks) && TxnOk(s', t) && UnwrittenClean(s') && HistoryOk(s')
    requires forall u :: 0 <= u < |s.phases| && u != t ==> Untouched(s, s', u)
    ensures DbInv(s')
  {
    forall u | 0 <= u < |s'.phases| ensures TxnOk(s', u) {
      if u != t { UntouchedStays(s, s', u); }
    }
  }

  /** s' differs from s only in what belongs to t alone. */
  ghost predicate Local(s: Db, s': Db, t: nat)
    requires Shape(s) && t < |s.phases|
  {
    && Shape(s')
    && s'.locks == s.locks && s'.records == s.records && s'.serial == s.serial && s'.committed == s.committed
    && s'.logs == s.logs[t := s'.logs[t]] && s'.phases == s.phases[t := s'.phases[t]]
  }

  lemma LocalKeeps(s: Db, s': Db, t: nat)
    requires DbInv(s) && t < |s.phases| && Shape(s') && t < |s'.phases| && Local(s, s', t)
    requires TxnOk(s', t) && HistoryOk(s')
    ensures DbInv(s')
  {
    StepKeeps(s, s', t);
  }

  lemma SameHistory(s: Db, s': Db)
    requires HistoryOk(s) && s'.committed == s.committed && s'.serial == s.serial && s'.files == s.files
    requires s'.executionOrder == s.executionOrder && s'.maxExecution == s.maxExecution
    ensures HistoryOk(s')
  {
    forall t, k | 0 <= t < |s'.files| && 0 <= k < |s'.files[t]| ensures LineOk(s', s'.files[t][k]) {
      assert LineOk(s, s.files[t][k]);
    }
  }

  /** A store to a record that t holds for writing. */
  lemma WriteKeeps(s: Db, s': Db, t: nat, r: nat, v: int)
    requires DbInv(s) && t < |s.phases| && r < |s.records|
    requires HasMode(s.locks, t, r, Write) && !LockedAt(s.locks, t, r)
    requires Shape(s') && t < |s'.phases| && s' == WriteRecord(To(s, t, s'.phases[t]), r, v) && TxnOk(s', t)
    ensures DbInv(s')
  {
    forall u | 0 <= u < |s.phases| && u != t ensures Untouched(s, s', u) {
      forall x | x in s.locks.chains[u] && x < |s.records| && !LockedAt(s.locks, u, x)
        ensures s'.records[x] == s.records[x]
      {
        if x == r { WriteIsExclusive(s.locks, t, u, r); }
      }
    }
    WriteIsHead(s.locks, t, r);
    SameHistory(s, s');
    StepKeeps(s, s', t);
  }

  lemma LastIsHeld(s: Db, t: nat, r: nat)
    requires DbInv(s) && t < |s.phases| && InOp(s, t, r) && !Waiting(s.locks, t)
    ensures !LockedAt(s.locks, t, r)
    ensures forall k :: 0 <= k < |s.logs[t]| ==> s.logs[t][k].rec != r
  {
    var c := s.locks.chains[t];
    HeldUnlocked(s.locks, t, |c| - 1);
    assert NoRepeats(c);
    forall k | 0 <= k < |s.logs[t]| ensures s.logs[t][k].rec != r {
      assert c[k] == s.logs[t][k].rec && c[|c| - 1] == r;
    }
  }

  lemma StoreKeeps(s: Db, t: nat)
    requires DbInv(s) && Enabled(s, t, Advance) && s.phases[t].Loaded?
    ensures DbInv(Next(s, t, Advance))
  {
    assert TxnOk(s, t);
    var p := s.phases[t];
    LastIsHeld(s, t, p.op.rec);
    WriteKeeps(s, Next(s, t, Advance), t, p.op.rec, p.value + p.op.operand);
  }

  lemma LogKeeps(s: Db, t: nat)
    requires DbInv(s) && Enabled(s, t, Advance) && s.phases[t].Logging?
    ensures DbInv(Next(s, t, Advance))
  {
    assert TxnOk(s, t);
    var s' := Next(s, t, Advance);
    var log, e := s.logs[t], s.phases[t].entry;
    assert Recs(log + [e]) == Recs(log) + [e.rec];
    SameHistory(s, s');
    LocalKeeps(s, s', t);
  }

  lemma LogIsHeld(s: Db, t: nat, k: nat)
    requires DbInv(s) && t < |s.phases| && k < |s.logs[t]|
    requires s.locks.chains[t] == Recs(s.logs[t]) && !Waiting(s.locks, t)
    ensures s.logs[t][k].rec < |s.records| && !LockedAt(s.locks, t, s.logs[t][k].rec)
    ensures forall j :: 0 <= j < |s.logs[t]| && j != k ==> s.logs[t][j].rec != s.logs[t][k].rec
  {
    HeldUnlocked(s.locks, t, k);
    var c := s.locks.chains[t];
    assert NoRepeats(c);
    forall j | 0 <= j < |s.logs[t]| && j != k ensures s.logs[t][j].rec != s.logs[t][k].rec {
      assert c[j] == s.logs[t][j].rec && c[k] == s.logs[t][k].rec;
    }
  }

  lemma UndoKeeps(s: Db, t: nat)
    requires DbInv(s) && Enabled(s, t, Advance) && s.phases[t].Undoing?
    ensures DbInv(Next(s, t, Advance))
  {
    assert TxnOk(s, t);
    var s' := Next(s, t, Advance);
    var log, i := s.logs[t], s.phases[t].next;
    SameHistory(s, s');
    if i < |log| {
      LogIsHeld(s, t, i);
      assert LogTells(s', log, i + 1);
      if log[i].before == log[i].after {
        assert s'.records == s.records;
        LocalKeeps(s, s', t);
      } else {
        WriteKeeps(s, s', t, log[i].rec, log[i].before);
      }
    } else {
      forall r | r in s.locks.chains[t] ensures Clean(s', r) {
        var k :| 0 <= k < |log| && Recs(log)[k] == r;
        assert log[k].rec == r;
      }
      LocalKeeps(s, s', t);
    }
  }

  lemma FlushKeeps(s: Db, t: nat)
    requires DbInv(s) && Enabled(s, t, Advance) && s.phases[t].Committing?
    ensures DbInv(Next(s, t, Advance))
  {
    assert TxnOk(s, t);
    var s' := Next(s, t, Advance);
    forall u, k | 0 <= u < |s'.files| && 0 <= k < |s'.files[u]| ensures LineOk(s', s'.files[u][k]) {
      if u != t || k < |s.files[t]| { assert LineOk(s, s.files[u][k]); }
    }
    LocalKeeps(s, s', t);
  }

  /** The steps that change nothing but t's phase. */
  lemma PhaseKeeps(s: Db, t: nat)
    requires DbInv(s) && Enabled(s, t, Advance)
    requires var p := s.phases[t]; p.Spinning? || p.Entered? || p.Fetched? || p.Stored?
    ensures DbInv(Next(s, t, Advance))
  {
    assert TxnOk(s, t);
    var s' := Next(s, t, Advance);
    SameHistory(s, s');
    LocalKeeps(s, s', t);
  }

  // ---------------------------------------------------------------- unlock

  lemma ModeAfterUnlock(l: Locks, t: nat, u: nat, r: nat, m: Mode)
    requires LockModel.Inv(l) && t < |l.chains| && u != t
    ensures HasMode(Unlock(l, t), u, r, m) <==> HasMode(l, u, r, m)
  {
    if r < |l.queues| {
      var q, q' := l.queues[r], Unlock(l, t).queues[r];
      UnlockQueue(l, t, r);
      if HasTxn(q, t) {
        var i := IndexOf(q, t);
        if HasMode(l, u, r, m) {
          var j :| 0 <= j < |q| && q[j].txn == u && q[j].mode == m;
          var k := if j < i then j else j - 1;
          assert Origin(i, k) == j;
          ReleaseAt(q, i, k);
          assert q'[k].txn == u && q'[k].mode == m;
        }
        if HasMode(Unlock(l, t), u, r, m) {
          var k :| 0 <= k < |q'| && q'[k].txn == u && q'[k].mode == m;
          ReleaseAt(q, i, k);
          assert q[Origin(i, k)].txn == u && q[Origin(i, k)].mode == m;
        }
      }
    }
  }

  lemma StillWaiting(l: Locks, t: nat, u: nat)
    requires t < |l.chains| && u < |l.chains| && u != t && Waiting(l, u)
    requires Last(l, u).rec !in l.chains[t]
    ensures Waiting(Unlock(l, t), u)
  {
    UntouchedQueue(l, t, Last(l, u).rec);
    StillLocked(l, Unlock(l, t), u, Last(l, u).rec);
  }

  lemma UntouchedQueue(l: Locks, t: nat, r: nat)
    requires t < |l.chains| && r < |l.queues| && r !in l.chains[t]
    ensures Unlock(l, t).queues[r] == l.queues[r]
  {
  }

  lemma StillLocked(l: Locks, l': Locks, u: nat, r: nat)
    requires r < |l.queues| && r < |l'.queues| && l'.queues[r] == l.queues[r] && LockedAt(l, u, r)
    ensures LockedAt(l', u, r)
  {
    var i :| 0 <= i < |l.queues[r]| && l.queues[r][i].txn == u && l.queues[r][i].locked;
    assert l'.queues[r][i].locked;
  }

  /** Another transaction waits no longer only if t leaves the list of its newest lock. */
  lemma UnlockWaiting(l: Locks, t: nat, u: nat)
    requires LockModel.Inv(l) && t < |l.chains| && u < |l.chains| && u != t
    ensures Waiting(Unlock(l, t), u) ==> Waiting(l, u)
    ensures Waiting(l, u) && !Waiting(Unlock(l, t), u) ==> Last(l, u).rec in l.chains[t]
  {
    if Waiting(Unlock(l, t), u) {
      UnlockLockedAt(l, t, u, Last(l, u).rec);
    } else if Waiting(l, u) && Last(l, u).rec !in l.chains[t] {
      StillWaiting(l, t, u);
    }
  }

  lemma UnlockUntouched(s: Db, s': Db, t: nat, u: nat)
    requires Shape(s) && LockModel.Inv(s.locks) && t < |s.phases| && u < |s.phases| && u != t && ChainClean(s, t)
    requires Shape(s') && t < |s'.phases| && s' == To(s, t, s'.phases[t]).(locks := Unlock(s.locks, t))
    ensures Untouched(s, s', u)
  {
    forall r, m ensures HasMode(s.locks, u, r, m) <==> HasMode(s'.locks, u, r, m) {
      ModeAfterUnlock(s.locks, t, u, r, m);
    }
    UnlockWaiting(s.locks, t, u);
  }

  lemma UnlockKeeps(s: Db, t: nat)
    requires DbInv(s) && Enabled(s, t, Advance) && (s.phases[t].Stashed? || s.phases[t].Flushed?)
    ensures DbInv(Next(s, t, Advance))
  {
    assert TxnOk(s, t);
    var s' := Next(s, t, Advance);
    UnlockKeepsInv(s.locks, t);
    SameHistory(s, s');
    forall u | 0 <= u < |s.phases| && u != t ensures Untouched(s, s', u) { UnlockUntouched(s, s', t, u); }
    forall r | 0 <= r < |s'.records| && (s'.locks.queues[r] == [] || s'.locks.queues[r][0].mode == Read)
      ensures Clean(s', r)
    {
      if r in s.locks.chains[t] { assert Clean(s, r); }
    }
    StepKeeps(s, s', t);
  }

  // ---------------------------------------------------------------- commit

  lemma {:induction false} OverwriteAt(v: seq<int>, log: seq<LogEntry>, r: nat)
    requires r < |v|
    requires forall i, j :: 0 <= i < j < |log| ==> log[i].rec != log[j].rec
    ensures forall k :: 0 <= k < |log| && log[k].rec == r ==> Overwrite(v, log)[r] == log[k].after
    ensures (forall k :: 0 <= k < |log| ==> log[k].rec != r) ==> Overwrite(v, log)[r] == v[r]
    decreases |log|
  {
    if log != [] {
      var v' := if log[0].rec < |v| then v[log[0].rec := log[0].after] else v;
      var rest := log[1..];
      assert forall k :: 0 <= k < |rest| ==> rest[k] == log[k + 1];
      OverwriteAt(v', rest, r);
      if log[0].rec == r {
        assert forall k :: 0 <= k < |rest| ==> rest[k].rec != r;
      }
      forall k | 0 <= k < |log| && log[k].rec == r ensures Overwrite(v, log)[r] == log[k].after {
        if k > 0 { assert rest[k - 1].rec == r; }
      }
    }
  }

  /** A log that tells the values of v replays over v. */
  lemma {:induction false} ReplayOneIsOverwrite(v: seq<int>, log: seq<LogEntry>)
    requires forall i, j :: 0 <= i < j < |log| ==> log[i].rec != log[j].rec
    requires forall k :: 0 <= k < |log| ==> log[k].rec < |v| && v[log[k].rec] == log[k].before
    ensures ReplayOne(v, log) == Some(Overwrite(v, log))
    decreases |log|
  {
    if log != [] {
      var rest := log[1..];
      assert forall k :: 0 <= k < |rest| ==> rest[k] == log[k + 1];
      ReplayOneIsOverwrite(v[log[0].rec := log[0].after], rest);
    }
  }

  lemma ReplayMore(v: seq<int>, logs: seq<seq<LogEntry>>, log: seq<LogEntry>, w: seq<int>)
    requires Replay(v, logs) == Some(w)
    ensures Replay(v, logs + [log]) == ReplayOne(w, log)
  {
    assert (logs + [log])[..|logs + [log]| - 1] == logs;
  }

  lemma CommittedHistory(s: Db, s': Db, t: nat)
    requires DbInv(s) && Enabled(s, t, Commit) && s.executionOrder + 1 <= s.maxExecution && s' == Next(s, t, Commit)
    ensures HistoryOk(s')
  {
    assert TxnOk(s, t);
    var log := s.logs[t];
    forall k | 0 <= k < |log| ensures forall j :: 0 <= j < |log| && j != k ==> log[j].rec != log[k].rec {
      LogIsHeld(s, t, k);
    }
    ReplayOneIsOverwrite(s.serial, log);
    ReplayMore(seq(|s.serial|, _ => InitialValue), s.committed, log, s.serial);
    assert seq(|s'.serial|, _ => InitialValue) == seq(|s.serial|, _ => InitialValue);
    forall u, k | 0 <= u < |s'.files| && 0 <= k < |s'.files[u]| ensures LineOk(s', s'.files[u][k]) {
      assert LineOk(s, s.files[u][k]);
    }
  }

  /** The serial values after the commit of t. */
  lemma CommittedAt(s: Db, t: nat, r: nat)
    requires DbInv(s) && Enabled(s, t, Commit) && r < |s.records|
    ensures r in s.locks.chains[t] ==> Overwrite(s.serial, s.logs[t])[r] == s.records[r]
    ensures !HasMode(s.locks, t, r, Write) || r !in s.locks.chains[t] ==> Overwrite(s.serial, s.logs[t])[r] == s.serial[r]
  {
    assert TxnOk(s, t);
    var log, c := s.logs[t], s.locks.chains[t];
    forall k | 0 <= k < |log| ensures forall j :: 0 <= j < |log| && j != k ==> log[j].rec != log[k].rec {
      LogIsHeld(s, t, k);
    }
    OverwriteAt(s.serial, log, r);
    if r in c {
      var k :| 0 <= k < |c| && c[k] == r;
      assert log[k].rec == r;
    } else {
      forall k | 0 <= k < |log| ensures log[k].rec != r { assert c[k] == log[k].rec; }
    }
  }

  lemma CommitUntouched(s: Db, s': Db, t: nat, u: nat)
    requires DbInv(s) && Enabled(s, t, Commit) && s.executionOrder + 1 <= s.maxExecution && s' == Next(s, t, Commit)
    requires u < |s.phases| && u != t
    ensures Untouched(s, s', u)
  {
    assert TxnOk(s, t);
    forall r | r in s.locks.chains[u] && r < |s.records| && !LockedAt(s.locks, u, r)
      ensures s'.serial[r] == s.serial[r]
    {
      CommittedAt(s, t, r);
      if r in s.locks.chains[t] && HasMode(s.locks, t, r, Write) {
        var k :| 0 <= k < |s.locks.chains[t]| && s.locks.chains[t][k] == r;
        HeldUnlocked(s.locks, t, k);
        WriteIsExclusive(s.locks, t, u, r);
      }
    }
  }

  lemma CommitKeeps(s: Db, t: nat)
    requires DbInv(s) && Enabled(s, t, Commit)
    ensures DbInv(Next(s, t, Commit))
  {
    assert TxnOk(s, t);
    var s' := Next(s, t, Commit);
    if s.executionOrder + 1 > s.maxExecution {
      forall u, k | 0 <= u < |s'.files| && 0 <= k < |s'.files[u]| ensures LineOk(s', s'.files[u][k]) {
        assert LineOk(s, s.files[u][k]);
      }
      LocalKeeps(s, s', t);
    } else {
      CommittedHistory(s, s', t);
      forall u | 0 <= u < |s.phases| && u != t ensures Untouched(s, s', u) { CommitUntouched(s, s', t, u); }
      forall r | r in s.locks.chains[t] ensures Clean(s', r) { CommittedAt(s, t, r); }
      forall r | 0 <= r < |s'.records| && (s'.locks.queues[r] == [] || s'.locks.queues[r][0].mode == Read)
        ensures Clean(s', r)
      {
        CommittedAt(s, t, r);
        assert Clean(s, r);
      }
      StepKeeps(s, s', t);
    }
  }

  // ---------------------------------------------------------------- a new request

  lemma ModeAfterRequest(l: Locks, t: nat, r: nat, e: Entry, u: nat, x: nat, m: Mode)
    requires e.txn == t < |l.chains| && r < |l.queues|
    ensures HasMode(l, u, x, m) ==> HasMode(Appended(l, r, e), u, x, m)
    ensures HasMode(Appended(l, r, e), u, x, m) ==> HasMode(l, u, x, m) || (u == t && x == r && m == e.mode)
  {
    var l' := Appended(l, r, e);
    if HasMode(l, u, x, m) {
      var i :| 0 <= i < |l.queues[x]| && l.queues[x][i].txn == u && l.queues[x][i].mode == m;
      assert l'.queues[x][i] == l.queues[x][i];
    }
    if HasMode(l', u, x, m) {
      var i :| 0 <= i < |l'.queues[x]| && l'.queues[x][i].txn == u && l'.queues[x][i].mode == m;
      if x != r || i < |l.queues[x]| { assert l.queues[x][i] == l'.queues[x][i]; }
    }
  }

  lemma RequestUntouched(s: Db, s': Db, t: nat, op: Op, u: nat)
    requires Shape(s) && LockModel.Inv(s.locks) && t < |s.phases| && u < |s.phases| && u != t && op.rec < |s.records|
    requires Request(s.locks, t, op.rec, OpMode(op)).Some? && Shape(s')
    requires s' == To(s, t, Spinning(op)).(locks := Request(s.locks, t, op.rec, OpMode(op)).value)
    ensures Untouched(s, s', u)
  {
    var l, l', r, m := s.locks, s'.locks, op.rec, OpMode(op);
    forall x, y ensures HasMode(l, u, x, y) <==> HasMode(l', u, x, y) {
      ModeAfterRequest(l, t, r, Entry(t, m, MustWait(l.queues[r], m)), u, x, y);
    }
    if l.chains[u] != [] && Last(l, u).rec < |l.queues| {
      RequestLockedAt(l, t, r, m, u, Last(l, u).rec);
    }
  }

  /** The transaction has its lock object, and if it need not wait, the record has its serial value. */
  lemma RequestOwn(s: Db, s': Db, t: nat, op: Op)
    requires Enabled(s, t, Begin(op)) && Shape(s') && LockModel.Inv(s.locks) && UnwrittenClean(s) && TxnOk(s, t)
    requires s' == Next(s, t, Begin(op)) && Request(s.locks, t, op.rec, OpMode(op)).Some?
    ensures TxnOk(s', t)
  {
    var l, r, m := s.locks, op.rec, OpMode(op);
    var q, l' := l.queues[r], s'.locks;
    forall x, y ensures HasMode(l, t, x, y) ==> HasMode(l', t, x, y) {
      ModeAfterRequest(l, t, r, Entry(t, m, MustWait(q, m)), t, x, y);
    }
    var q' := l'.queues[r];
    assert q'[|q|].txn == t && q'[|q|].mode == m;
    assert HasMode(l', t, r, m);
    if !Waiting(l', t) {
      assert !q'[|q|].locked;
      assert q == [] || q[0].mode == Read;
      assert Clean(s, r);
    }
  }

  lemma BeginKeeps(s: Db, t: nat, op: Op)
    requires DbInv(s) && Enabled(s, t, Begin(op))
    ensures DbInv(Next(s, t, Begin(op)))
  {
    assert TxnOk(s, t);
    var s' := Next(s, t, Begin(op));
    SameHistory(s, s');
    if Request(s.locks, t, op.rec, OpMode(op)).None? {
      LocalKeeps(s, s', t);
    } else {
      RequestKeepsInv(s.locks, t, op.rec, OpMode(op));
      forall u | 0 <= u < |s.phases| && u != t ensures Untouched(s, s', u) { RequestUntouched(s, s', t, op, u); }
      RequestOwn(s, s', t, op);
      StepKeeps(s, s', t);
    }
  }

  lemma AbortKeeps(s: Db, t: nat)
    requires DbInv(s) && Enabled(s, t, Abort)
    ensures DbInv(Next(s, t, Abort))
  {
    assert TxnOk(s, t);
    var s' := Next(s, t, Abort);
    SameHistory(s, s');
    LocalKeeps(s, s', t);
  }

  /** Every step of every transaction keeps the invariant. */
  lemma NextKeeps(s: Db, t: nat, a: Action)
    requires DbInv(s) && Enabled(s, t, a)
    ensures DbInv(Next(s, t, a))
  {
    match a {
      case Begin(op) => BeginKeeps(s, t, op);
      case Commit => CommitKeeps(s, t);
      case Abort => AbortKeeps(s, t);
      case Advance =>
        match s.phases[t] {
          case Loaded(_, _, _) => StoreKeeps(s, t);
          case Logging(_, _) => LogKeeps(s, t);
          case Undoing(_, _) => UndoKeeps(s, t);
          case Committing(_) => FlushKeeps(s, t);
          case Stashed(_) => UnlockKeeps(s, t);
          case Flushed => UnlockKeeps(s, t);
          case _ => PhaseKeeps(s, t);
        }
    }
  }

  lemma InitHolds(numRecord: nat, numTxn: nat, maxExecution: nat)
    ensures DbInv(Init(numRecord, numTxn, maxExecution))
  {
    var s := Init(numRecord, numTxn, maxExecution);
    assert RankOk(s.locks, map[], 0);
  }
}
