/** The transaction program: read i into record, add record + 1 to j, add -record to k, commit; on a refusal abort
    and start again.  In every run of it the sum of all records is accounted for. */
module Client {
  import opened LockModel
  import opened LockTheorems
  import opened Engine
  import opened EngineTheorems

  datatype Args = Args(i: nat, j: nat, k: nat)

  datatype State = State(db: Db, args: seq<Args>)

  predicate ArgsOk(a: Args, numRecord: int) {
    1 <= a.i <= numRecord && 1 <= a.j <= numRecord && 1 <= a.k <= numRecord && a.i != a.j && a.j != a.k && a.i != a.k
  }

  /** The database call the program makes next, where record is the value its read returned. */
  function NextOp(a: Args, log: seq<LogEntry>): Op {
    if log == [] then ReadOp(a.i)
    else if |log| == 1 then AddOp(a.j, log[0].after + 1)
    else AddOp(a.k, -log[0].after)
  }

  function Choose(s: Db, a: Args, t: nat): Action
    requires Shape(s) && t < |s.phases|
  {
    match s.phases[t]
    case Ready(corrupt) =>
      if corrupt then Abort
      else if |s.logs[t]| < 3 then Begin(NextOp(a, s.logs[t]))
      else Commit
    case _ => Advance
  }

  ghost predicate Runs(c: State, c': State, t: nat) {
    && Shape(c.db) && t < |c.args| == |c.db.phases|
    && Enabled(c.db, t, Choose(c.db, c.args[t], t))
    && c' == c.(db := Next(c.db, t, Choose(c.db, c.args[t], t)))
  }

  /** A new call of the program: fresh distinct records. */
  predicate Picks(c: State, c': State, t: nat, a: Args) {
    && Shape(c.db) && t < |c.args| == |c.db.phases| && ArgsOk(a, |c.db.records| - 1)
    && c.db.phases[t] == Ready(false) && c.db.logs[t] == []
    && c' == c.(args := c.args[t := a])
  }

  ghost predicate ClientStep(c: State, c': State) {
    || (exists t :: Runs(c, c', t))
    || (exists t, a :: Picks(c, c', t, a))
  }

  ghost predicate Starts(c: State, numRecord: nat, numTxn: nat, maxExecution: nat) {
    && numRecord >= 3
    && c.db == Init(numRecord, numTxn, maxExecution) && |c.args| == numTxn + 1
    && forall t :: 0 <= t <= numTxn ==> ArgsOk(c.args[t], numRecord)
  }

  ghost predicate IsClientRun(run: seq<State>, numRecord: nat, numTxn: nat, maxExecution: nat) {
    && run != [] && Starts(run[0], numRecord, numTxn, maxExecution)
    && forall n :: 0 < n < |run| ==> ClientStep(run[n - 1], run[n])
  }

  // ---------------------------------------------------------------- sums

  function Sum(v: seq<int>): int {
    if v == [] then 0 else Sum(v[..|v| - 1]) + v[|v| - 1]
  }

  lemma {:induction false} SumUpdate(v: seq<int>, r: nat, x: int)
    requires r < |v|
    ensures Sum(v[r := x]) == Sum(v) - v[r] + x
  {
    var w, n := v[r := x], |v| - 1;
    if r == n {
      assert w[..n] == v[..n];
    } else {
      SumUpdate(v[..n], r, x);
      assert w[..n] == v[..n][r := x];
    }
  }

  lemma {:induction false} SumConstant(n: nat, x: int)
    ensures Sum(seq(n, _ => x)) == n * x
  {
    if n > 0 {
      SumConstant(n - 1, x);
      assert seq(n, _ => x)[..n - 1] == seq(n - 1, _ => x);
    }
  }

  /** What a log added to the records in all. */
  function Delta(log: seq<LogEntry>): int {
    if log == [] then 0 else log[0].after - log[0].before + Delta(log[1..])
  }

  predicate DistinctRecs(log: seq<LogEntry>) {
    forall i, j :: 0 <= i < j < |log| ==> log[i].rec != log[j].rec
  }

  lemma {:induction false} OverwriteSum(v: seq<int>, log: seq<LogEntry>)
    requires DistinctRecs(log)
    requires forall k :: 0 <= k < |log| ==> log[k].rec < |v| && v[log[k].rec] == log[k].before
    ensures Sum(Overwrite(v, log)) == Sum(v) + Delta(log)
    decreases |log|
  {
    if log != [] {
      SumUpdate(v, log[0].rec, log[0].after);
      var rest := log[1..];
      assert forall k :: 0 <= k < |rest| ==> rest[k] == log[k + 1];
      OverwriteSum(v[log[0].rec := log[0].after], rest);
    }
  }

  lemma {:induction false} PutBackSum(v: seq<int>, log: seq<LogEntry>)
    requires DistinctRecs(log)
    requires forall k :: 0 <= k < |log| ==> log[k].rec < |v| && v[log[k].rec] == log[k].after
    ensures Sum(PutBack(v, log)) == Sum(v) - Delta(log)
    decreases |log|
  {
    if log != [] {
      SumUpdate(v, log[0].rec, log[0].before);
      var rest := log[1..];
      assert forall k :: 0 <= k < |rest| ==> rest[k] == log[k + 1];
      PutBackSum(v[log[0].rec := log[0].before], rest);
    }
  }

  /** The sum of the uncommitted changes of the first n transactions. */
  function InFlightSum(s: Db, n: nat): int
    requires Shape(s) && n <= |s.phases|
  {
    if n == 0 then 0 else InFlightSum(s, n - 1) + Delta(InFlight(s, n - 1))
  }

  // ---------------------------------------------------------------- in-flight changes and the records

  /** The in-flight entries of t are on distinct records that t holds. */
  lemma InFlightIsHeld(s: Db, t: nat)
    requires DbInv(s) && t < |s.phases|
    ensures DistinctRecs(InFlight(s, t))
    ensures forall k :: 0 <= k < |InFlight(s, t)| ==>
              var e := InFlight(s, t)[k];
              && e.rec in s.locks.chains[t] && e.rec < |s.locks.queues| && !LockedAt(s.locks, t, e.rec)
              && (e.before != e.after ==> HasMode(s.locks, t, e.rec, Write))
  {
    assert TxnOk(s, t);
    var c, log, changes, p := s.locks.chains[t], s.logs[t], InFlight(s, t), s.phases[t];
    var from := if p.Undoing? then p.next else 0;
    assert NoRepeats(c);
    forall k | 0 <= k < |changes|
      ensures from + k < |c| && changes[k].rec == c[from + k]
      ensures c[from + k] < |s.locks.queues| && !LockedAt(s.locks, t, c[from + k])
      ensures changes[k].before != changes[k].after ==> HasMode(s.locks, t, changes[k].rec, Write)
    {
      if from + k < |log| {
        assert changes[k] == log[from + k] && Recs(log)[from + k] == log[from + k].rec;
      }
      HeldUnlocked(s.locks, t, from + k);
    }
  }

  lemma {:induction false} PutBackLeaves(v: seq<int>, log: seq<LogEntry>, r: nat)
    requires r < |v| && forall k :: 0 <= k < |log| ==> log[k].rec != r
    ensures PutBack(v, log)[r] == v[r]
    decreases |log|
  {
    if log != [] {
      var rest := log[1..];
      assert forall k :: 0 <= k < |rest| ==> rest[k] == log[k + 1];
      PutBackLeaves(if log[0].rec < |v| then v[log[0].rec := log[0].before] else v, rest, r);
    }
  }

  lemma {:induction false} PutBackAllLeaves(s: Db, n: nat, r: nat)
    requires Shape(s) && n <= |s.phases| && r < |s.records| && forall t :: 0 <= t < n ==> !Changes(s, t, r)
    ensures PutBackAll(s, n)[r] == s.records[r]
  {
    if n > 0 {
      PutBackAllLeaves(s, n - 1, r);
      var changes := InFlight(s, n - 1);
      assert !Changes(s, n - 1, r);
      assert forall k :: 0 <= k < |changes| ==> changes[k].rec != r;
      PutBackLeaves(PutBackAll(s, n - 1), changes, r);
    }
  }

  /** Putting back others first does not hide what t changed. */
  lemma StillAfter(s: Db, t: nat, k: nat)
    requires DbInv(s) && t < |s.phases| && k < |InFlight(s, t)|
    ensures var e := InFlight(s, t)[k]; e.rec < |s.records| && PutBackAll(s, t)[e.rec] == e.after
  {
    var e := InFlight(s, t)[k];
    InFlightTells(s, t, k);
    if e.before == e.after {
      PutBackAllAt(s, t, e.rec);
    } else {
      InFlightIsHeld(s, t);
      forall u | 0 <= u < t ensures !Changes(s, u, e.rec) {
        if Changes(s, u, e.rec) {
          InFlightIsHeld(s, u);
          var j :| 0 <= j < |InFlight(s, u)| && InFlight(s, u)[j].rec == e.rec;
          WriteIsExclusive(s.locks, t, u, e.rec);
        }
      }
      PutBackAllLeaves(s, t, e.rec);
    }
  }

  lemma {:induction false} PutBackAllSum(s: Db, n: nat)
    requires DbInv(s) && n <= |s.phases|
    ensures Sum(PutBackAll(s, n)) == Sum(s.records) - InFlightSum(s, n)
  {
    if n > 0 {
      PutBackAllSum(s, n - 1);
      var changes := InFlight(s, n - 1);
      forall k | 0 <= k < |changes|
        ensures changes[k].rec < |s.records| && PutBackAll(s, n - 1)[changes[k].rec] == changes[k].after
      {
        StillAfter(s, n - 1, k);
      }
      InFlightIsHeld(s, n - 1);
      PutBackSum(PutBackAll(s, n - 1), changes);
    }
  }

  /** The records are the serial ones plus what is in flight. */
  lemma RecordsSum(s: Db)
    requires DbInv(s)
    ensures Sum(s.records) == Sum(s.serial) + InFlightSum(s, |s.phases|)
  {
    PutBackAllSum(s, |s.phases|);
    PutBackIsSerial(s);
  }

  // ---------------------------------------------------------------- the program's invariant

  /** The log of t is what the program wrote so far. */
  predicate ProgramLog(a: Args, log: seq<LogEntry>) {
    && |log| <= 3
    && forall n :: 0 <= n < |log| ==> Fits(NextOp(a, log[..n]), log[n])
  }

  ghost predicate ProgramOk(s: Db, a: Args, t: nat)
    requires Shape(s) && t < |s.phases|
  {
    && ProgramLog(a, s.logs[t])
    && match s.phases[t]
       case Spinning(op) => |s.logs[t]| < 3 && op == NextOp(a, s.logs[t])
       case Entered(op) => |s.logs[t]| < 3 && op == NextOp(a, s.logs[t])
       case Fetched(op, _) => |s.logs[t]| < 3 && op == NextOp(a, s.logs[t])
       case Loaded(op, _, _) => |s.logs[t]| < 3 && op == NextOp(a, s.logs[t])
       case Stored(op, _) => |s.logs[t]| < 3 && op == NextOp(a, s.logs[t])
       case Logging(op, e) => |s.logs[t]| < 3 && op == NextOp(a, s.logs[t]) && Fits(op, e)
       case _ => true
  }

  ghost predicate ClientInv(c: State, numRecord: nat) {
    && DbInv(c.db) && |c.args| == |c.db.phases| && |c.db.records| == numRecord + 1
    && (forall t :: 0 <= t < |c.args| ==> ArgsOk(c.args[t], numRecord) && ProgramOk(c.db, c.args[t], t))
    && Sum(c.db.serial) == InitialValue * (numRecord + 1) + |c.db.committed|
  }

  /** A full run of the program adds one. */
  lemma ProgramAddsOne(a: Args, log: seq<LogEntry>)
    requires ProgramLog(a, log) && |log| == 3
    ensures Delta(log) == 1
  {
    assert log[..0] == [] && Fits(NextOp(a, log[..0]), log[0]);
    assert |log[..1]| == 1 && log[..1][0] == log[0] && Fits(NextOp(a, log[..1]), log[1]);
    assert |log[..2]| == 2 && log[..2][0] == log[0] && Fits(NextOp(a, log[..2]), log[2]);
    var rest, last := log[1..], log[1..][1..];
    assert rest[0] == log[1] && last[0] == log[2] && last[1..] == [];
    assert Delta(last) == log[2].after - log[2].before + Delta([]);
  }

  lemma ProgramLogGrows(a: Args, log: seq<LogEntry>, e: LogEntry)
    requires ProgramLog(a, log) && |log| < 3 && Fits(NextOp(a, log), e)
    ensures ProgramLog(a, log + [e])
  {
    var log' := log + [e];
    forall n | 0 <= n < |log'| ensures Fits(NextOp(a, log'[..n]), log'[n]) {
      if n < |log| {
        assert log'[..n] == log[..n];
      } else {
        assert log'[..n] == log;
      }
    }
  }

  lemma CommitSum(s: Db, a: Args, t: nat)
    requires DbInv(s) && Enabled(s, t, Commit) && ProgramLog(a, s.logs[t]) && |s.logs[t]| == 3
    ensures Sum(Overwrite(s.serial, s.logs[t])) == Sum(s.serial) + 1
  {
    assert TxnOk(s, t);
    forall i, j | 0 <= i < j < |s.logs[t]| ensures s.logs[t][i].rec != s.logs[t][j].rec { LogIsHeld(s, t, i); }
    OverwriteSum(s.serial, s.logs[t]);
    ProgramAddsOne(a, s.logs[t]);
  }

  lemma ProgramStep(s: Db, a: Args, t: nat)
    requires DbInv(s) && t < |s.phases| && ProgramOk(s, a, t) && Enabled(s, t, Choose(s, a, t))
    ensures ProgramOk(Next(s, t, Choose(s, a, t)), a, t)
  {
    assert TxnOk(s, t);
    if s.phases[t].Logging? { ProgramLogGrows(a, s.logs[t], s.phases[t].entry); }
  }

  lemma RunsKeeps(c: State, c': State, t: nat, numRecord: nat)
    requires ClientInv(c, numRecord) && Runs(c, c', t)
    ensures ClientInv(c', numRecord)
  {
    var s, a := c.db, c.args[t];
    var act := Choose(s, a, t);
    assert ProgramOk(s, a, t) && TxnOk(s, t);
    NextKeeps(s, t, act);
    ProgramStep(s, a, t);
    if act.Commit? { CommitSum(s, a, t); }
    forall u | 0 <= u < |c'.args| ensures ArgsOk(c'.args[u], numRecord) && ProgramOk(c'.db, c'.args[u], u) {
      assert ArgsOk(c.args[u], numRecord) && ProgramOk(s, c.args[u], u);
      if u != t { OthersUntouched(s, t, act, u); }
    }
    SerialStep(s, t, act);
  }

  lemma OthersUntouched(s: Db, t: nat, a: Action, u: nat)
    requires Enabled(s, t, a) && u < |s.phases| && u != t
    ensures var s' := Next(s, t, a);
            && |s'.phases| == |s.phases| && |s'.logs| == |s.logs|
            && s'.phases[u] == s.phases[u] && s'.logs[u] == s.logs[u]
  {
  }

  lemma SerialStep(s: Db, t: nat, a: Action)
    requires Enabled(s, t, a)
    ensures var s' := Next(s, t, a);
            && |s'.records| == |s.records|
            && (if a.Commit? && s.executionOrder + 1 <= s.maxExecution then
                  s'.serial == Overwrite(s.serial, s.logs[t]) && |s'.committed| == |s.committed| + 1
                else s'.serial == s.serial && s'.committed == s.committed)
  {
  }

  lemma PicksKeeps(c: State, c': State, t: nat, a: Args, numRecord: nat)
    requires ClientInv(c, numRecord) && Picks(c, c', t, a)
    ensures ClientInv(c', numRecord)
  {
    forall u | 0 <= u < |c'.args| ensures ArgsOk(c'.args[u], numRecord) && ProgramOk(c'.db, c'.args[u], u) {
      assert ArgsOk(c.args[u], numRecord) && ProgramOk(c.db, c.args[u], u);
    }
  }

  lemma {:induction false} ClientRunKeeps(run: seq<State>, n: nat, numRecord: nat, numTxn: nat, maxExecution: nat)
    requires IsClientRun(run, numRecord, numTxn, maxExecution) && n < |run|
    ensures ClientInv(run[n], numRecord)
  {
    if n == 0 {
      InitHolds(numRecord, numTxn, maxExecution);
      SumConstant(numRecord + 1, InitialValue);
    } else {
      ClientRunKeeps(run, n - 1, numRecord, numTxn, maxExecution);
      var c, c' := run[n - 1], run[n];
      assert ClientStep(c, c');
      if exists t :: Runs(c, c', t) {
        var t :| Runs(c, c', t);
        RunsKeeps(c, c', t, numRecord);
      } else {
        var t, a :| Picks(c, c', t, a);
        PicksKeeps(c, c', t, a, numRecord);
      }
    }
  }

  /** Conservation: at every moment of every run the sum of all records is 100 a record, plus one for every
      committed transaction, plus what the uncommitted ones changed so far. */
  lemma SumIsConserved(run: seq<State>, n: nat, numRecord: nat, numTxn: nat, maxExecution: nat)
    requires IsClientRun(run, numRecord, numTxn, maxExecution) && n < |run|
    ensures var s := run[n].db;
            && Shape(s)
            && Sum(s.records) == 100 * (numRecord + 1) + |s.committed| + InFlightSum(s, |s.phases|)
  {
    ClientRunKeeps(run, n, numRecord, numTxn, maxExecution);
    RecordsSum(run[n].db);
  }

  lemma {:induction false} NothingInFlight(s: Db, n: nat)
    requires Shape(s) && n <= |s.phases| && forall t :: 0 <= t < n ==> InFlight(s, t) == []
    ensures InFlightSum(s, n) == 0
  {
    if n > 0 { NothingInFlight(s, n - 1); }
  }

  /** At rest, when no transaction has uncommitted changes, the sum has grown by exactly one per commit. */
  lemma SumAtRest(run: seq<State>, n: nat, numRecord: nat, numTxn: nat, maxExecution: nat)
    requires IsClientRun(run, numRecord, numTxn, maxExecution) && n < |run| && Shape(run[n].db)
    requires forall t :: 0 <= t < |run[n].db.phases| ==> InFlight(run[n].db, t) == []
    ensures Sum(run[n].db.records) == 100 * (numRecord + 1) + |run[n].db.committed|
  {
    SumIsConserved(run, n, numRecord, numTxn, maxExecution);
    NothingInFlight(run[n].db, |run[n].db.phases|);
  }

  /** What the program calls, outright: a refused call is followed by an abort; the calls are a read of i, an add to j of
      one more than was read, and an add to k of its negative; and then a commit, which is valid up to the last
      execution. */
  lemma ProgramCalls(c: State, c': State, t: nat)
    requires Runs(c, c', t) && c.db.phases[t].Ready?
    ensures var s, s', a, log := c.db, c'.db, c.args[t], c.db.logs[t];
            if s.phases[t].corrupt then s'.phases[t] == Undoing(0, false)
            else if log == [] then s'.phases[t] == Spinning(ReadOp(a.i)) || s'.phases[t] == Ready(true)
            else if |log| == 1 then s'.phases[t] == Spinning(AddOp(a.j, log[0].after + 1)) || s'.phases[t] == Ready(true)
            else if |log| == 2 then s'.phases[t] == Spinning(AddOp(a.k, -log[0].after)) || s'.phases[t] == Ready(true)
            else if s.executionOrder < s.maxExecution then
              s'.phases[t] == Committing(s.executionOrder + 1) && s'.committed == s.committed + [log]
            else s'.phases[t] == Undoing(0, true) && s'.committed == s.committed
  {
  }
}
