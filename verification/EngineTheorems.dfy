/** What every run of the transaction engine guarantees. */
module EngineTheorems {
  import opened Options
  import opened LockModel
  import opened LockTheorems
  import opened Engine

  // ---------------------------------------------------------------- runs

  ghost predicate IsStep(s: Db, s': Db) {
    exists t, a :: Enabled(s, t, a) && s' == Next(s, t, a)
  }

  /** Any interleaving of any number of transactions, from a new database. */
  ghost predicate IsRun(run: seq<Db>) {
    && run != []
    && (exists numRecord, numTxn, maxExecution :: run[0] == Init(numRecord, numTxn, maxExecution))
    && forall i :: 0 < i < |run| ==> StepAt(run, i)
  }

  ghost predicate StepAt(run: seq<Db>, i: nat) {
    0 < i < |run| && IsStep(run[i - 1], run[i])
  }

  lemma AnyStepKeeps(s: Db, s': Db)
    requires DbInv(s) && IsStep(s, s')
    ensures DbInv(s')
  {
    var t, a :| Enabled(s, t, a) && s' == Next(s, t, a);
    NextKeeps(s, t, a);
  }

  lemma {:induction false} RunKeeps(run: seq<Db>, i: nat)
    requires IsRun(run) && i < |run|
    ensures DbInv(run[i])
  {
    if i == 0 {
      var numRecord, numTxn, maxExecution :| run[0] == Init(numRecord, numTxn, maxExecution);
      InitHolds(numRecord, numTxn, maxExecution);
    } else {
      RunKeeps(run, i - 1);
      assert StepAt(run, i);
      AnyStepKeeps(run[i - 1], run[i]);
    }
  }

  // ---------------------------------------------------------------- serializability

  /** What t has changed so far without committing. */
  function InFlight(s: Db, t: nat): seq<LogEntry>
    requires Shape(s) && t < |s.phases|
  {
    match s.phases[t]
    case Stored(op, b) => s.logs[t] + [LogEntry(op.rec, b, if op.AddOp? then b + op.operand else b)]
    case Logging(_, e) => s.logs[t] + [e]
    case Undoing(i, _) => if i <= |s.logs[t]| then s.logs[t][i..] else []
    case Committing(_) => []
    case _ => s.logs[t]
  }

  function PutBack(v: seq<int>, log: seq<LogEntry>): (w: seq<int>)
    ensures |w| == |v|
    decreases |log|
  {
    if log == [] then v
    else PutBack(if log[0].rec < |v| then v[log[0].rec := log[0].before] else v, log[1..])
  }

  /** v with the before-values of the first n transactions put back. */
  function PutBackAll(s: Db, n: nat): (w: seq<int>)
    requires Shape(s) && n <= |s.phases|
    ensures |w| == |s.records|
  {
    if n == 0 then s.records else PutBack(PutBackAll(s, n - 1), InFlight(s, n - 1))
  }

  lemma {:induction false} PutBackAt(v: seq<int>, log: seq<LogEntry>, r: nat, x: int)
    requires r < |v| && forall k :: 0 <= k < |log| && log[k].rec == r ==> log[k].before == x
    ensures PutBack(v, log)[r] == x || (PutBack(v, log)[r] == v[r] && forall k :: 0 <= k < |log| ==> log[k].rec != r)
    ensures v[r] == x ==> PutBack(v, log)[r] == x
    decreases |log|
  {
    if log != [] {
      var v' := if log[0].rec < |v| then v[log[0].rec := log[0].before] else v;
      var rest := log[1..];
      assert forall k :: 0 <= k < |rest| ==> rest[k] == log[k + 1];
      PutBackAt(v', rest, r, x);
      if forall k :: 0 <= k < |rest| ==> rest[k].rec != r {
        forall k | 0 <= k < |log| && log[0].rec != r ensures log[k].rec != r {
          if k > 0 { assert rest[k - 1].rec != r; }
        }
      }
    }
  }

  /** Every in-flight change tells the serial value of its record. */
  lemma InFlightTells(s: Db, t: nat, k: nat)
    requires DbInv(s) && t < |s.phases| && k < |InFlight(s, t)|
    ensures var e := InFlight(s, t)[k];
            e.rec < |s.records| && e.before == s.serial[e.rec] && e.after == s.records[e.rec]
  {
    assert TxnOk(s, t);
    InFlightOfTxn(s, t, k);
  }

  lemma InFlightOfTxn(s: Db, t: nat, k: nat)
    requires Shape(s) && t < |s.phases| && TxnOk(s, t) && k < |InFlight(s, t)|
    ensures var e := InFlight(s, t)[k];
            e.rec < |s.records| && e.before == s.serial[e.rec] && e.after == s.records[e.rec]
  {
    var log := s.logs[t];
    match s.phases[t] {
      case Undoing(i, _) => assert InFlight(s, t)[k] == log[i + k];
      case Committing(_) =>
      case _ =>
        if k < |log| { assert InFlight(s, t)[k] == log[k]; }
    }
  }

  predicate Changes(s: Db, t: nat, r: nat)
    requires Shape(s) && t < |s.phases|
  {
    exists k :: 0 <= k < |InFlight(s, t)| && InFlight(s, t)[k].rec == r
  }

  /** A record held by t has its serial value, unless t changed it without committing. */
  lemma HeldIsSerialOrChanged(s: Db, t: nat, j: nat)
    requires DbInv(s) && t < |s.phases| && j < |s.locks.chains[t]|
    requires s.locks.chains[t][j] < |s.records| && !LockedAt(s.locks, t, s.locks.chains[t][j])
    ensures Clean(s, s.locks.chains[t][j]) || Changes(s, t, s.locks.chains[t][j])
  {
    assert TxnOk(s, t);
    var c, log := s.locks.chains[t], s.logs[t];
    var r := c[j];
    assert r in c;
    var p := s.phases[t];
    if j < |log| && !p.Undoing? && !p.Committing? {
      assert log[j].rec == r && InFlight(s, t)[j].rec == r;
    } else if p.Stored? || p.Logging? {
      assert InFlight(s, t)[|log|].rec == r;
    } else if p.Undoing? {
      assert log[j].rec == r;
      if p.next <= j { assert InFlight(s, t)[j - p.next].rec == r; }
    }
  }

  /** A record without an in-flight change has its serial value. */
  lemma NoChangeMeansSerial(s: Db, r: nat)
    requires DbInv(s) && r < |s.records| && forall t :: 0 <= t < |s.phases| ==> !Changes(s, t, r)
    ensures s.records[r] == s.serial[r]
  {
    var q := s.locks.queues[r];
    if q != [] && q[0].mode == Write {
      var t := q[0].txn;
      assert GrantOk(q) && Granted(q, 0) && HasTxn(q, t);
      assert OnePerTxn(q) && !LockedAt(s.locks, t, r);
      assert r in s.locks.chains[t];
      var j :| 0 <= j < |s.locks.chains[t]| && s.locks.chains[t][j] == r;
      HeldIsSerialOrChanged(s, t, j);
      assert !Changes(s, t, r);
    } else {
      assert Clean(s, r);
    }
  }

  lemma {:induction false} PutBackAllAt(s: Db, n: nat, r: nat)
    requires DbInv(s) && n <= |s.phases| && r < |s.records|
    ensures PutBackAll(s, n)[r] == s.serial[r] ||
            (PutBackAll(s, n)[r] == s.records[r] &&
             forall t :: 0 <= t < n ==> !Changes(s, t, r))
  {
    if n > 0 {
      PutBackAllAt(s, n - 1, r);
      var changes := InFlight(s, n - 1);
      forall k | 0 <= k < |changes| && changes[k].rec == r ensures changes[k].before == s.serial[r] {
        InFlightTells(s, n - 1, k);
      }
      PutBackAt(PutBackAll(s, n - 1), changes, r, s.serial[r]);
    }
  }

  lemma PutBackIsSerial(s: Db)
    requires DbInv(s)
    ensures PutBackAll(s, |s.phases|) == s.serial
  {
    forall r | 0 <= r < |s.records| ensures PutBackAll(s, |s.phases|)[r] == s.serial[r] {
      PutBackAllAt(s, |s.phases|, r);
      if PutBackAll(s, |s.phases|)[r] != s.serial[r] { NoChangeMeansSerial(s, r); }
    }
  }

  // The operations behind the logs.

  predicate Fits(op: Op, e: LogEntry) {
    e.rec == op.rec && e.after == if op.AddOp? then e.before + op.operand else e.before
  }

  predicate FitAll(ops: seq<Op>, log: seq<LogEntry>) {
    |ops| == |log| && forall k :: 0 <= k < |log| ==> Fits(ops[k], log[k])
  }

  ghost predicate OpsOk(s: Db) {
    && |s.committedOps| == |s.committed|
    && (forall t :: 0 <= t < |s.phases| && t < |s.logs| && t < |s.ops| ==> FitAll(s.ops[t], s.logs[t]))
    && (forall k :: 0 <= k < |s.committed| ==> FitAll(s.committedOps[k], s.committed[k]))
    && (forall t :: 0 <= t < |s.phases| && s.phases[t].Logging? ==> Fits(s.phases[t].op, s.phases[t].entry))
  }

  lemma NextFits(s: Db, t: nat, a: Action)
    requires Enabled(s, t, a) && TxnOk(s, t) && FitAll(s.ops[t], s.logs[t])
    requires s.phases[t].Logging? ==> Fits(s.phases[t].op, s.phases[t].entry)
    ensures var s' := Next(s, t, a);
            && |s'.phases| == |s.phases| && |s'.logs| == |s.logs| && |s'.ops| == |s.ops|
            && FitAll(s'.ops[t], s'.logs[t])
            && (s'.phases[t].Logging? ==> Fits(s'.phases[t].op, s'.phases[t].entry))
            && forall u :: 0 <= u < |s.phases| && u != t ==>
                 s'.logs[u] == s.logs[u] && s'.ops[u] == s.ops[u] && s'.phases[u] == s.phases[u]
  {
  }

  lemma NextKeepsOps(s: Db, t: nat, a: Action)
    requires Enabled(s, t, a) && TxnOk(s, t) && OpsOk(s)
    ensures OpsOk(Next(s, t, a))
  {
    var s' := Next(s, t, a);
    NextFits(s, t, a);
    forall u | 0 <= u < |s'.phases| && u != t ensures FitAll(s'.ops[u], s'.logs[u]) {
      assert FitAll(s.ops[u], s.logs[u]);
    }
  }

  lemma AnyStepKeepsOps(s: Db, s': Db)
    requires DbInv(s) && OpsOk(s) && IsStep(s, s')
    ensures OpsOk(s')
  {
    var t, a :| Enabled(s, t, a) && s' == Next(s, t, a);
    assert TxnOk(s, t);
    NextKeepsOps(s, t, a);
  }

  lemma {:induction false} RunKeepsOps(run: seq<Db>, i: nat)
    requires IsRun(run) && i < |run|
    ensures OpsOk(run[i])
  {
    if i > 0 {
      RunKeepsOps(run, i - 1);
      RunKeeps(run, i - 1);
      assert StepAt(run, i);
      AnyStepKeepsOps(run[i - 1], run[i]);
    }
  }

  /** One operation run alone: the new records, and the value of its record that it sees. */
  function RunOp(v: seq<int>, op: Op): seq<int> {
    if op.AddOp? && op.rec < |v| then v[op.rec := v[op.rec] + op.operand] else v
  }

  /** A transaction run alone, one operation after the other. */
  function RunOps(v: seq<int>, ops: seq<Op>): (w: seq<int>)
    ensures |w| == |v|
  {
    if ops == [] then v else RunOp(RunOps(v, ops[..|ops| - 1]), ops[|ops| - 1])
  }

  /** The transactions run alone, in this order. */
  function RunAll(v: seq<int>, txns: seq<seq<Op>>): (w: seq<int>)
    ensures |w| == |v|
  {
    if txns == [] then v else RunOps(RunAll(v, txns[..|txns| - 1]), txns[|txns| - 1])
  }

  /** In a run alone from v, the operations see the before-values and leave the after-values of the log. */
  ghost predicate Sees(v: seq<int>, ops: seq<Op>, log: seq<LogEntry>) {
    && |ops| == |log|
    && forall k :: 0 <= k < |log| ==>
         && log[k].rec == ops[k].rec < |v|
         && RunOps(v, ops[..k])[log[k].rec] == log[k].before
         && RunOps(v, ops[..k + 1])[log[k].rec] == log[k].after
  }

  lemma {:induction false} ReplayOnePrefix(v: seq<int>, log: seq<LogEntry>, k: nat)
    requires ReplayOne(v, log).Some? && k < |log|
    ensures ReplayOne(v, log[..k]).Some?
    ensures var w := ReplayOne(v, log[..k]).value;
            log[k].rec < |w| && w[log[k].rec] == log[k].before
            && ReplayOne(v, log[..k + 1]) == Some(w[log[k].rec := log[k].after])
    decreases |log|
  {
    var v', rest := v[log[0].rec := log[0].after], log[1..];
    if k == 0 {
      assert log[..1] == [log[0]] && log[..1][1..] == [];
    } else {
      ReplayOnePrefix(v', rest, k - 1);
      assert log[..k][1..] == rest[..k - 1] && log[..k + 1][1..] == rest[..k - 1 + 1];
    }
  }

  lemma {:induction false} ReplayOneRuns(v: seq<int>, ops: seq<Op>, log: seq<LogEntry>, n: nat)
    requires ReplayOne(v, log).Some? && FitAll(ops, log) && n <= |log|
    ensures ReplayOne(v, log[..n]) == Some(RunOps(v, ops[..n]))
    decreases n
  {
    if n == 0 {
      assert log[..0] == [] && ops[..0] == [];
    } else {
      ReplayOneRuns(v, ops, log, n - 1);
      ReplayOnePrefix(v, log, n - 1);
      assert ops[..n][..n - 1] == ops[..n - 1] && Fits(ops[n - 1], log[n - 1]);
      var w, e := RunOps(v, ops[..n - 1]), log[n - 1];
      assert e.before == e.after ==> w[e.rec := e.after] == w;
      assert ReplayOne(v, log[..n - 1 + 1]) == Some(w[e.rec := e.after]);
    }
  }

  lemma ReplayOneSees(v: seq<int>, ops: seq<Op>, log: seq<LogEntry>)
    requires ReplayOne(v, log).Some? && FitAll(ops, log)
    ensures ReplayOne(v, log) == Some(RunOps(v, ops)) && Sees(v, ops, log)
  {
    forall k | 0 <= k < |log|
      ensures log[k].rec == ops[k].rec < |v|
      ensures RunOps(v, ops[..k])[log[k].rec] == log[k].before
      ensures RunOps(v, ops[..k + 1])[log[k].rec] == log[k].after
    {
      assert Fits(ops[k], log[k]);
      ReplayOnePrefix(v, log, k);
      ReplayOneRuns(v, ops, log, k);
      ReplayOneRuns(v, ops, log, k + 1);
    }
    ReplayOneRuns(v, ops, log, |log|);
    assert log[..|log|] == log && ops[..|log|] == ops;
  }

  lemma {:induction false} ReplayRuns(v: seq<int>, txns: seq<seq<Op>>, logs: seq<seq<LogEntry>>, n: nat)
    requires Replay(v, logs).Some? && |txns| == |logs| && n <= |logs|
    requires forall k :: 0 <= k < |logs| ==> FitAll(txns[k], logs[k])
    ensures n == |logs| ==> Replay(v, logs) == Some(RunAll(v, txns))
    ensures forall k :: 0 <= k < n ==> Sees(RunAll(v, txns[..k]), txns[k], logs[k])
    decreases |logs|
  {
    if logs != [] {
      var m := |logs| - 1;
      var txns', logs' := txns[..m], logs[..m];
      ReplayRuns(v, txns', logs', m);
      ReplayOneSees(RunAll(v, txns'), txns[m], logs[m]);
      forall k | 0 <= k < n ensures Sees(RunAll(v, txns[..k]), txns[k], logs[k]) {
        if k < m { assert txns'[..k] == txns[..k] && txns'[k] == txns[k] && logs'[k] == logs[k]; }
      }
    }
  }

  ghost predicate LineTells(s: Db, line: Line)
    requires |s.committed| == |s.committedOps|
  {
    var id := line.commitId;
    1 <= id <= |s.committed| &&
    var v, ops := RunAll(seq(|s.records|, _ => InitialValue), s.committedOps[..id - 1]), s.committedOps[id - 1];
    && |line.recs| == |line.afters| == |ops|
    && forall k :: 0 <= k < |ops| ==> line.recs[k] == ops[k].rec < |v| && line.afters[k] == RunOps(v, ops[..k + 1])[ops[k].rec]
  }

  /** Serializability in commit-id order.  At every moment of every run, the records with the changes of the
      transactions in flight put back are those that the operations of the committed transactions leave when run
      one transaction after the other by increasing commit id; each operation sees in that serial run the very
      value it saw in the interleaved one; and each line of each file tells the records and the values after each
      operation of its transaction of the serial run. */
  lemma Serializable(run: seq<Db>, i: nat)
    requires IsRun(run) && i < |run|
    ensures var s := run[i];
            var init := seq(|s.records|, _ => InitialValue);
            && Shape(s) && |s.committed| == |s.committedOps|
            && |s.committed| == (if s.executionOrder <= s.maxExecution then s.executionOrder else s.maxExecution)
            && PutBackAll(s, |s.phases|) == RunAll(init, s.committedOps)
            && (forall k :: 0 <= k < |s.committed| ==>
                  Sees(RunAll(init, s.committedOps[..k]), s.committedOps[k], s.committed[k]))
            && (forall t, k :: 0 <= t < |s.files| && 0 <= k < |s.files[t]| ==> LineTells(s, s.files[t][k]))
  {
    RunKeeps(run, i);
    RunKeepsOps(run, i);
    var s := run[i];
    PutBackIsSerial(s);
    var init := seq(|s.records|, _ => InitialValue);
    assert init == seq(|s.serial|, _ => InitialValue);
    ReplayRuns(init, s.committedOps, s.committed, |s.committed|);
    forall t, k | 0 <= t < |s.files| && 0 <= k < |s.files[t]| ensures LineTells(s, s.files[t][k]) {
      var line := s.files[t][k];
      assert LineOk(s, line);
      assert Sees(RunAll(init, s.committedOps[..line.commitId - 1]), s.committedOps[line.commitId - 1],
                  s.committed[line.commitId - 1]);
    }
  }

  // ---------------------------------------------------------------- commit ids

  predicate Claimed(s: Db, t: nat, id: nat) {
    t < |s.phases| && s.phases[t] == Committing(id)
  }

  predicate Written(s: Db, t: nat, k: nat, id: nat) {
    t < |s.files| && k < |s.files[t]| && s.files[t][k].commitId == id
  }

  ghost predicate Owned(s: Db, id: nat) {
    (exists t :: Claimed(s, t, id)) || (exists t, k :: Written(s, t, k, id))
  }

  /** Every valid commit id has one owner: a transaction that is about to write its line, or a line. */
  ghost predicate IdsOnce(s: Db) {
    && (forall t, u, id :: Claimed(s, t, id) && Claimed(s, u, id) ==> t == u)
    && (forall t, u, k, id :: Claimed(s, t, id) ==> !Written(s, u, k, id))
    && (forall t, k, u, j, id :: Written(s, t, k, id) && Written(s, u, j, id) ==> t == u && k == j)
    && (forall id :: 1 <= id <= |s.committed| ==> Owned(s, id))
  }

  lemma IdsBounded(s: Db, t: nat, k: nat, id: nat)
    requires DbInv(s) && (Claimed(s, t, id) || Written(s, t, k, id))
    ensures 1 <= id <= |s.committed|
  {
    if Claimed(s, t, id) { assert TxnOk(s, t); } else { assert LineOk(s, s.files[t][k]); }
  }

  lemma FlushKeepsIds(s: Db, t: nat)
    requires DbInv(s) && IdsOnce(s) && Enabled(s, t, Advance) && s.phases[t].Committing?
    ensures IdsOnce(Next(s, t, Advance))
  {
    var s' := Next(s, t, Advance);
    var id, n := s.phases[t].commitId, |s.files[t]|;
    assert Claimed(s, t, id);
    forall u, x ensures Claimed(s', u, x) <==> Claimed(s, u, x) && u != t { }
    forall u, k, x ensures Written(s', u, k, x) <==> Written(s, u, k, x) || (u == t && k == n && x == id) { }
    forall x | 1 <= x <= |s'.committed| ensures Owned(s', x) {
      if x == id {
        assert Written(s', t, n, x);
      } else if exists u :: Claimed(s, u, x) {
        var u :| Claimed(s, u, x);
        assert Claimed(s', u, x);
      } else {
        assert Owned(s, x);
        var u, k :| Written(s, u, k, x);
        assert Written(s', u, k, x);
      }
    }
  }

  lemma CommitKeepsIds(s: Db, t: nat)
    requires DbInv(s) && IdsOnce(s) && Enabled(s, t, Commit) && s.executionOrder + 1 <= s.maxExecution
    ensures IdsOnce(Next(s, t, Commit))
  {
    var s' := Next(s, t, Commit);
    var id := s.executionOrder + 1;
    forall u, x ensures Claimed(s', u, x) <==> Claimed(s, u, x) || (u == t && x == id) { }
    forall u, k, x ensures Written(s', u, k, x) <==> Written(s, u, k, x) { }
    forall u ensures !Claimed(s, u, id) { if Claimed(s, u, id) { IdsBounded(s, u, 0, id); } }
    forall u, k ensures !Written(s, u, k, id) { if Written(s, u, k, id) { IdsBounded(s, u, k, id); } }
    forall x | 1 <= x <= |s'.committed| ensures Owned(s', x) {
      if x == id {
        assert Claimed(s', t, x);
      } else if exists u :: Claimed(s, u, x) {
        var u :| Claimed(s, u, x);
        assert Claimed(s', u, x);
      } else {
        assert Owned(s, x);
        var u, k :| Written(s, u, k, x);
        assert Written(s', u, k, x);
      }
    }
  }

  lemma NextKeepsIds(s: Db, t: nat, a: Action)
    requires DbInv(s) && IdsOnce(s) && Enabled(s, t, a)
    ensures IdsOnce(Next(s, t, a))
  {
    var s' := Next(s, t, a);
    if a.Commit? && s.executionOrder + 1 <= s.maxExecution {
      CommitKeepsIds(s, t);
    } else if a.Advance? && s.phases[t].Committing? {
      FlushKeepsIds(s, t);
    } else {
      forall u, x ensures Claimed(s', u, x) <==> Claimed(s, u, x) { }
      forall u, k, x ensures Written(s', u, k, x) <==> Written(s, u, k, x) { }
      forall x | 1 <= x <= |s'.committed| ensures Owned(s', x) {
        if exists u :: Claimed(s, u, x) {
          var u :| Claimed(s, u, x);
          assert Claimed(s', u, x);
        } else {
          assert Owned(s, x);
          var u, k :| Written(s, u, k, x);
          assert Written(s', u, k, x);
        }
      }
    }
  }

  lemma AnyStepKeepsIds(s: Db, s': Db)
    requires DbInv(s) && IdsOnce(s) && IsStep(s, s')
    ensures IdsOnce(s')
  {
    var t, a :| Enabled(s, t, a) && s' == Next(s, t, a);
    NextKeepsIds(s, t, a);
  }

  lemma StartsOnce(run: seq<Db>)
    requires IsRun(run)
    ensures IdsOnce(run[0])
  {
  }

  lemma RunStepOnce(run: seq<Db>, i: nat)
    requires IsRun(run) && 0 < i < |run| && IdsOnce(run[i - 1])
    ensures IdsOnce(run[i])
  {
    RunKeeps(run, i - 1);
    assert StepAt(run, i);
    AnyStepKeepsIds(run[i - 1], run[i]);
  }

  /** Commit ids are given without gap or repetition, each to one transaction, and written at most once. */
  lemma {:induction false} CommitIdsOnce(run: seq<Db>, i: nat)
    requires IsRun(run) && i < |run|
    ensures IdsOnce(run[i])
  {
    if i == 0 {
      StartsOnce(run);
    } else {
      CommitIdsOnce(run, i - 1);
      RunStepOnce(run, i);
    }
  }

  // ---------------------------------------------------------------- what the locks are for

  /** The lock was asked for by an operation on the record, a writer lock by an add and a reader lock by a read, and has
      been there since. */
  ghost predicate AskedFor(run: seq<Db>, i: nat, u: nat, r: nat, m: Mode) {
    i < |run| && exists j :: 0 <= j <= i && AskedAt(run[j], u, r, m) && HasSince(run, j, i, u, r, m)
  }

  predicate AskedAt(s: Db, u: nat, r: nat, m: Mode) {
    && u < |s.phases| && s.phases[u].Spinning? && s.phases[u].op.rec == r
    && (if m == Write then s.phases[u].op.AddOp? else s.phases[u].op.ReadOp?)
  }

  ghost predicate HasSince(run: seq<Db>, j: nat, i: nat, u: nat, r: nat, m: Mode) {
    i < |run| && forall k :: j <= k <= i ==> HasMode(run[k].locks, u, r, m)
  }

  lemma ModeComesFrom(s: Db, t: nat, a: Action, u: nat, r: nat, m: Mode)
    requires DbInv(s) && Enabled(s, t, a) && HasMode(Next(s, t, a).locks, u, r, m)
    ensures HasMode(s.locks, u, r, m) || AskedAt(Next(s, t, a), u, r, m)
  {
    var s' := Next(s, t, a);
    if a.Begin? && s'.locks != s.locks {
      var op := a.op;
      ModeAfterRequest(s.locks, t, op.rec, Entry(t, OpMode(op), MustWait(s.locks.queues[op.rec], OpMode(op))), u, r, m);
    } else if a.Advance? && (s.phases[t].Stashed? || s.phases[t].Flushed?) {
      if u != t {
        ModeAfterUnlock(s.locks, t, u, r, m);
      } else {
        OwnGone(s, t, r, m);
      }
    }
  }

  lemma AnyModeComesFrom(s: Db, s': Db, u: nat, r: nat, m: Mode)
    requires DbInv(s) && IsStep(s, s') && HasMode(s'.locks, u, r, m)
    ensures HasMode(s.locks, u, r, m) || AskedAt(s', u, r, m)
  {
    var t, a :| Enabled(s, t, a) && s' == Next(s, t, a);
    ModeComesFrom(s, t, a, u, r, m);
  }

  lemma OwnGone(s: Db, t: nat, r: nat, m: Mode)
    requires DbInv(s) && t < |s.phases|
    ensures !HasMode(Unlock(s.locks, t), t, r, m)
  {
    assert HasMode(Unlock(s.locks, t), t, r, m) ==> HasTxn(Unlock(s.locks, t).queues[r], t);
    if r < |s.locks.queues| { UnlockRemovesExactly(s.locks, t, t, r); }
  }

  lemma RunModeComesFrom(run: seq<Db>, i: nat, u: nat, r: nat, m: Mode)
    requires IsRun(run) && i < |run| && HasMode(run[i].locks, u, r, m)
    ensures i > 0 && (HasMode(run[i - 1].locks, u, r, m) || AskedAt(run[i], u, r, m))
  {
    if i > 0 {
      RunKeeps(run, i - 1);
      assert StepAt(run, i);
      AnyModeComesFrom(run[i - 1], run[i], u, r, m);
    }
  }

  lemma AskedStays(run: seq<Db>, i: nat, u: nat, r: nat, m: Mode)
    requires 0 < i < |run| && AskedFor(run, i - 1, u, r, m) && HasMode(run[i].locks, u, r, m)
    ensures AskedFor(run, i, u, r, m)
  {
    var j :| 0 <= j <= i - 1 && AskedAt(run[j], u, r, m) && HasSince(run, j, i - 1, u, r, m);
    assert HasSince(run, j, i, u, r, m);
  }

  /** In every run, the mode of a lock is that of the operation it was asked for. */
  lemma {:induction false} LockIsAskedFor(run: seq<Db>, i: nat, u: nat, r: nat, m: Mode)
    requires IsRun(run) && i < |run| && HasMode(run[i].locks, u, r, m)
    ensures AskedFor(run, i, u, r, m)
  {
    RunModeComesFrom(run, i, u, r, m);
    if HasMode(run[i - 1].locks, u, r, m) {
      LockIsAskedFor(run, i - 1, u, r, m);
      AskedStays(run, i, u, r, m);
    } else {
      assert HasSince(run, i, i, u, r, m);
    }
  }

  /** A read waits only for an add: ahead of it in the list of the record is another transaction that asked for its lock
      to add, and has had it since. */
  lemma ReadWaitsForAdd(run: seq<Db>, i: nat, t: nat)
    requires IsRun(run) && i < |run| && Shape(run[i]) && t < |run[i].phases| && Waiting(run[i].locks, t)
    requires run[i].phases[t].Spinning? && run[i].phases[t].op.ReadOp?
    ensures exists u :: u != t && AheadOn(run[i].locks, u, t, run[i].phases[t].op.rec)
                     && AskedFor(run, i, u, run[i].phases[t].op.rec, Write)
  {
    RunKeeps(run, i);
    var s, r := run[i], run[i].phases[t].op.rec;
    assert TxnOk(s, t);
    var c := s.locks.chains[t];
    assert c[|c| - 1] == r;
    if HasMode(s.locks, t, r, Write) { LockIsAskedFor(run, i, t, r, Write); }
    var u := WriterAhead(s.locks, t, r);
    LockIsAskedFor(run, i, u, r, Write);
  }

  /** A locked object that is a reader's is behind a writer's. */
  lemma WriterAhead(l: Locks, t: nat, r: nat) returns (u: nat)
    requires LockModel.Inv(l) && r < |l.queues| && LockedAt(l, t, r) && HasMode(l, t, r, Read)
    ensures u != t && AheadOn(l, u, t, r) && HasMode(l, u, r, Write)
  {
    assert OnePerTxn(l.queues[r]);
    var k := LockedIsNotGranted(l.queues[r], t);
    ReaderAt(l.queues[r], t, k);
    var j := WriterBefore(l.queues[r], k);
    u := l.queues[r][j].txn;
  }

  lemma LockedIsNotGranted(q: seq<Entry>, t: nat) returns (k: nat)
    requires GrantOk(q) && exists i :: 0 <= i < |q| && q[i].txn == t && q[i].locked
    ensures k < |q| && q[k].txn == t && !Granted(q, k)
  {
    k :| 0 <= k < |q| && q[k].txn == t && q[k].locked;
  }

  lemma WriterBefore(q: seq<Entry>, k: nat) returns (j: nat)
    requires OnePerTxn(q) && k < |q| && q[k].mode == Read && !Granted(q, k)
    ensures j < k && q[j].mode == Write && q[j].txn != q[k].txn
  {
    j :| 0 <= j <= k && q[j].mode != Read;
  }

  lemma ReaderAt(q: seq<Entry>, t: nat, k: nat)
    requires OnePerTxn(q) && k < |q| && q[k].txn == t && exists n :: 0 <= n < |q| && q[n].txn == t && q[n].mode == Read
    ensures q[k].mode == Read
  {
    var n :| 0 <= n < |q| && q[n].txn == t && q[n].mode == Read;
  }

  /** u's object is before t's in the list. */
  predicate AheadOn(l: Locks, u: nat, t: nat, r: nat) {
    r < |l.queues| && exists j, k :: 0 <= j < k < |l.queues[r]| && l.queues[r][j].txn == u && l.queues[r][k].txn == t
  }

  /** The first operation of a transaction is never refused: it gets its lock object, and waits for nothing but those
      ahead of it. */
  lemma FirstOpIsQueued(run: seq<Db>, i: nat, t: nat, op: Op)
    requires IsRun(run) && i < |run| && Enabled(run[i], t, Begin(op)) && run[i].locks.chains[t] == []
    ensures Next(run[i], t, Begin(op)).phases[t] == Spinning(op)
  {
    RunKeeps(run, i);
    FirstRequestIsQueued(run[i].locks, t, op.rec, OpMode(op));
  }

  // ---------------------------------------------------------------- no deadlock

  /** An unfinished transaction that does not wait for a lock can take a step that is not a spin. */
  lemma CanStep(s: Db, u: nat)
    requires DbInv(s) && u < |s.phases| && !Waiting(s.locks, u) && s.locks.chains[u] != []
    ensures exists a :: Enabled(s, u, a) && Next(s, u, a) != s
  {
    assert TxnOk(s, u);
    var a := if s.phases[u].Ready? then Commit else Advance;
    assert Enabled(s, u, a);
    assert Next(s, u, a).phases[u] != s.phases[u] || Next(s, u, a).executionOrder != s.executionOrder;
  }

  /** Deadlock freedom: whenever a transaction spins on a locked lock object, some other transaction, reached from
      it over the wait-for graph, holds its newest lock and can take a step that is not a spin. */
  lemma DeadlockFree(run: seq<Db>, i: nat, t: nat)
    requires IsRun(run) && i < |run| && t < |run[i].phases| && Shape(run[i]) && Waiting(run[i].locks, t)
    ensures var s := run[i];
            exists u, a :: 0 <= u < |s.locks.chains| && u != t && s.locks.chains[u] != [] && !Waiting(s.locks, u)
                        && Reaches(s.locks, Last(s.locks, t), Last(s.locks, u)) && Enabled(s, u, a) && Next(s, u, a) != s
  {
    var s := run[i];
    RunKeeps(run, i);
    NoDeadlock(s.locks, t);
    var u :| 0 <= u < |s.locks.chains| && u != t && s.locks.chains[u] != [] && !Waiting(s.locks, u)
          && Reaches(s.locks, Last(s.locks, t), Last(s.locks, u));
    CanStep(s, u);
  }

  // ---------------------------------------------------------------- rollback

  /** A transaction never has two log entries on one record. */
  lemma LoggedOnce(run: seq<Db>, i: nat, t: nat, j: nat, k: nat)
    requires IsRun(run) && i < |run| && Shape(run[i]) && t < |run[i].phases|
    requires j < k < |run[i].logs[t]|
    ensures run[i].logs[t][j].rec != run[i].logs[t][k].rec
  {
    RunKeeps(run, i);
    var s := run[i];
    assert TxnOk(s, t) && NoRepeats(s.locks.chains[t]);
    var c, log := s.locks.chains[t], s.logs[t];
    assert c[j] == log[j].rec && c[k] == log[k].rec;
  }

  /** When the forward-running undo loop is done, every record the transaction logged has the value it had before
      the transaction, which is its value in the serial run; so has every other record it locked. */
  lemma RollbackIsExact(run: seq<Db>, i: nat, t: nat)
    requires IsRun(run) && i < |run| && Shape(run[i]) && t < |run[i].phases|
    requires run[i].phases[t].Undoing? && run[i].phases[t].next == |run[i].logs[t]|
    ensures var s := run[i];
            && (forall k :: 0 <= k < |s.logs[t]| ==>
                  && s.logs[t][k].rec < |s.records|
                  && s.records[s.logs[t][k].rec] == s.logs[t][k].before == s.serial[s.logs[t][k].rec])
            && (forall r :: r in s.locks.chains[t] ==> r < |s.records| && s.records[r] == s.serial[r])
  {
    RunKeeps(run, i);
    var s := run[i];
    assert TxnOk(s, t);
    forall r | r in s.locks.chains[t] ensures r < |s.records| && s.records[r] == s.serial[r] {
      var k :| 0 <= k < |s.logs[t]| && Recs(s.logs[t])[k] == r;
      assert s.logs[t][k].rec == r;
    }
  }
}
