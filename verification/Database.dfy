/** The logger and the database as objects.  What each call does to the memory is what a stretch of steps of
    `Engine` does, run without interruption. */
module Database {
  import opened Options
  import opened LockModel
  import opened Engine
  import EngineTheorems
  import LT = LockTable

  // ---------------------------------------------------------------- uninterrupted stretches of steps

  /** n steps of t in a row. */
  ghost function Steps(s: Db, t: nat, n: nat): Option<Db>
    decreases n
  {
    if n == 0 then Some(s)
    else if Enabled(s, t, Advance) then Steps(Next(s, t, Advance), t, n - 1)
    else None
  }

  function PutBack(v: seq<int>, log: seq<LogEntry>): seq<int> {
    EngineTheorems.PutBack(v, log)
  }

  function AfterAbort(s: Db, t: nat, i: nat, terminated: bool): Db
    requires Shape(s) && t < |s.phases| && i <= |s.logs[t]|
  {
    s.(records := PutBack(s.records, s.logs[t][i..]), logs := s.logs[t := []], ops := s.ops[t := []],
       locks := Unlock(s.locks, t), phases := s.phases[t := if terminated then Phase.Terminated else Ready(false)])
  }

  lemma UndoRound(s: Db, t: nat, i: nat, terminated: bool)
    requires Shape(s) && t < |s.phases| && i < |s.logs[t]| && s.phases[t] == Undoing(i, terminated)
    requires s.logs[t][i].rec < |s.records|
    ensures Enabled(s, t, Advance)
    ensures var s1 := Next(s, t, Advance);
            && Shape(s1) && t < |s1.phases| && s1.phases[t] == Undoing(i + 1, terminated) && s1.logs == s.logs
            && |s1.records| == |s.records| && AfterAbort(s1, t, i + 1, terminated) == AfterAbort(s, t, i, terminated)
  {
    var log := s.logs[t];
    assert log[i..][0] == log[i] && log[i..][1..] == log[i + 1..];
  }

  lemma StashAndUnlock(s: Db, t: nat, terminated: bool)
    requires Shape(s) && t < |s.phases| && s.phases[t] == Undoing(|s.logs[t]|, terminated)
    ensures Steps(s, t, 2) == Some(AfterAbort(s, t, |s.logs[t]|, terminated))
  {
    assert s.logs[t][|s.logs[t]|..] == [];
    var s1 := Next(s, t, Advance);
    var s2 := Next(s1, t, Advance);
    assert Steps(s2, t, 0) == Some(s2);
    assert Steps(s1, t, 1) == Some(s2);
    assert s2 == AfterAbort(s, t, |s.logs[t]|, terminated);
  }

  /** The whole of `abort`, from the undo loop's round i on. */
  lemma {:induction false} AbortSteps(s: Db, t: nat, i: nat, terminated: bool)
    requires Shape(s) && t < |s.phases| && i <= |s.logs[t]| && s.phases[t] == Undoing(i, terminated)
    requires forall k :: 0 <= k < |s.logs[t]| ==> s.logs[t][k].rec < |s.records|
    ensures Steps(s, t, |s.logs[t]| - i + 2) == Some(AfterAbort(s, t, i, terminated))
    decreases |s.logs[t]| - i
  {
    if i < |s.logs[t]| {
      UndoRound(s, t, i, terminated);
      AbortSteps(Next(s, t, Advance), t, i + 1, terminated);
    } else {
      StashAndUnlock(s, t, terminated);
    }
  }

  function RolledBack(s: Db, t: nat): Db
    requires Shape(s) && t < |s.phases|
  {
    s.(records := PutBack(s.records, s.logs[t]), logs := s.logs[t := []])
  }

  lemma WholeAbort(s: Db, t: nat, terminated: bool)
    requires DbInv(s) && t < |s.phases| && s.phases[t] == Undoing(0, terminated)
    ensures forall k :: 0 <= k < |s.logs[t]| ==> s.logs[t][k].rec < |s.records|
    ensures !Waiting(s.locks, t)
    ensures Steps(s, t, |s.logs[t]| + 2).Some?
    ensures var s' := Steps(s, t, |s.logs[t]| + 2).value;
            && s' == RolledBack(s, t).(locks := Unlock(s.locks, t), ops := s'.ops, phases := s'.phases)
            && |s'.ops| == |s.ops| && s'.phases == s.phases[t := if terminated then Phase.Terminated else Ready(false)]
    ensures Restored(s.records, RolledBack(s, t).records, s.logs[t])
  {
    assert TxnOk(s, t);
    AbortSteps(s, t, 0, terminated);
    assert s.logs[t][0..] == s.logs[t];
    PutBackRestores(s.records, s.serial, s.logs[t]);
  }

  /** Every record in the log has its before-value, and no other record has changed. */
  predicate Restored(v: seq<int>, w: seq<int>, log: seq<LogEntry>) {
    && |w| == |v|
    && (forall k :: 0 <= k < |log| ==> log[k].rec < |w| && w[log[k].rec] == log[k].before)
    && forall r :: 0 <= r < |v| && (forall k :: 0 <= k < |log| ==> log[k].rec != r) ==> w[r] == v[r]
  }

  lemma PutBackRestores(v: seq<int>, serial: seq<int>, log: seq<LogEntry>)
    requires forall k :: 0 <= k < |log| ==> log[k].rec < |v| && log[k].rec < |serial| && serial[log[k].rec] == log[k].before
    ensures Restored(v, PutBack(v, log), log)
  {
    forall k | 0 <= k < |log| ensures PutBack(v, log)[log[k].rec] == log[k].before {
      EngineTheorems.PutBackAt(v, log, log[k].rec, serial[log[k].rec]);
    }
    forall r | 0 <= r < |v| && (forall k :: 0 <= k < |log| ==> log[k].rec != r) ensures PutBack(v, log)[r] == v[r] {
      EngineTheorems.PutBackAt(v, log, r, v[r]);
    }
  }

  /** Where the undo loop begins: `abort` is called by the program, or by `commit` beyond the last execution. */
  ghost function UndoStart(s: Db, t: nat): Db
    requires Shape(s) && t < |s.phases|
  {
    if s.phases[t].Ready? then Next(s, t, Action.Abort) else s
  }

  lemma AbortBegins(s: Db, t: nat)
    requires DbInv(s) && t < |s.phases| && s.phases[t].Ready?
    ensures var s1 := UndoStart(s, t);
            DbInv(s1) && s1 == s.(phases := s1.phases) && |s1.phases| == |s.phases| && s1.phases[t] == Undoing(0, false)
  {
    NextKeeps(s, t, Action.Abort);
  }

  lemma CommitBegins(s: Db, t: nat) returns (s1: Db)
    requires DbInv(s) && t < |s.phases| && s.phases[t].Ready?
    ensures Enabled(s, t, Action.Commit) && s1 == Next(s, t, Action.Commit)
    ensures DbInv(s1) && |s1.phases| == |s.phases| && !Waiting(s1.locks, t)
    ensures s1.records == s.records && s1.logs == s.logs && s1.files == s.files
    ensures s1.phases[t] == if s.executionOrder + 1 > s.maxExecution then Undoing(0, true) else Committing(s.executionOrder + 1)
  {
    s1 := Next(s, t, Action.Commit);
    NextKeeps(s, t, Action.Commit);
    assert TxnOk(s1, t);
  }

  function AfterCommit(s: Db, t: nat, id: nat): Db
    requires Shape(s) && t < |s.phases|
  {
    s.(files := s.files[t := s.files[t] + [Line(id, Recs(s.logs[t]), Afters(s.logs[t]))]],
       logs := s.logs[t := []], ops := s.ops[t := []],
       locks := Unlock(s.locks, t), phases := s.phases[t := Ready(false)])
  }

  lemma CommitSteps(s: Db, t: nat, id: nat)
    requires Shape(s) && t < |s.phases| && s.phases[t] == Committing(id)
    ensures Steps(s, t, 2) == Some(AfterCommit(s, t, id))
  {
    var s1 := Next(s, t, Advance);
    var s2 := Next(s1, t, Advance);
    assert Steps(s2, t, 0) == Some(s2);
    assert Steps(s1, t, 1) == Some(s2);
    assert s2 == AfterCommit(s, t, id);
  }

  function AfterOp(s: Db, t: nat, op: Op): Db
    requires Shape(s) && t < |s.phases| && op.rec < |s.records|
  {
    var before := s.records[op.rec];
    var after := if op.AddOp? then before + op.operand else before;
    s.(records := s.records[op.rec := after],
       logs := s.logs[t := s.logs[t] + [LogEntry(op.rec, before, after)]],
       ops := s.ops[t := s.ops[t] + [op]], phases := s.phases[t := Ready(false)])
  }

  /** The part of `read` and `add` behind the lock. */
  lemma OpSteps(s: Db, t: nat, op: Op)
    requires Shape(s) && t < |s.phases| && op.rec < |s.records| && s.phases[t] == Entered(op)
    ensures Steps(s, t, if op.ReadOp? then 2 else 5) == Some(AfterOp(s, t, op))
  {
    var s1 := Next(s, t, Advance);
    var s2 := Next(s1, t, Advance);
    assert Steps(s2, t, 0) == Some(s2);
    if op.ReadOp? {
      assert Steps(s1, t, 1) == Some(s2);
      assert s2 == AfterOp(s, t, op) by { assert s.records[op.rec := s.records[op.rec]] == s.records; }
    } else {
      var s3 := Next(s2, t, Advance);
      var s4 := Next(s3, t, Advance);
      var s5 := Next(s4, t, Advance);
      assert Steps(s5, t, 0) == Some(s5);
      assert Steps(s4, t, 1) == Some(s5);
      assert Steps(s3, t, 2) == Some(s5);
      assert Steps(s2, t, 3) == Some(s5);
      assert Steps(s1, t, 4) == Some(s5);
      assert s5 == AfterOp(s, t, op);
    }
  }

  // ---------------------------------------------------------------- Logger

  function Zip(recs: seq<nat>, befores: seq<int>, afters: seq<int>): (log: seq<LogEntry>)
    requires |recs| == |befores| == |afters|
    ensures |log| == |recs|
  {
    seq(|recs|, k requires 0 <= k < |recs| => LogEntry(recs[k], befores[k], afters[k]))
  }

  class Logger {
    var recordIds: seq<seq<nat>>
    var beforeValues: seq<seq<int>>
    var afterValues: seq<seq<int>>
    var files: seq<seq<Line>>
    var executionOrder: nat

    ghost predicate Valid()
      reads this
    {
      && |recordIds| == |beforeValues| == |afterValues| == |files|
      && forall t :: 0 <= t < |recordIds| ==> |recordIds[t]| == |beforeValues[t]| == |afterValues[t]|
    }

    /** The three deques of each transaction, entry by entry. */
    ghost predicate Shows(logs: seq<seq<LogEntry>>)
      reads this
    {
      && Valid() && |logs| == |recordIds|
      && forall t :: 0 <= t < |logs| ==> logs[t] == Zip(recordIds[t], beforeValues[t], afterValues[t])
    }

    constructor (numTxn: nat)
      ensures Shows(seq(numTxn + 1, _ => [])) && files == seq(numTxn + 1, _ => []) && executionOrder == 0
    {
      recordIds := seq(numTxn + 1, _ => []);
      beforeValues := seq(numTxn + 1, _ => []);
      afterValues := seq(numTxn + 1, _ => []);
      files := seq(numTxn + 1, _ => []);
      executionOrder := 0;
    }

    method AddLog(txnId: nat, recordId: nat, beforeValue: int, afterValue: int, ghost logs: seq<seq<LogEntry>>)
      requires Shows(logs) && txnId < |recordIds|
      modifies this`recordIds, this`beforeValues, this`afterValues
      ensures Shows(logs[txnId := logs[txnId] + [LogEntry(recordId, beforeValue, afterValue)]])
      ensures recordIds == old(recordIds)[txnId := old(recordIds)[txnId] + [recordId]]
      ensures beforeValues == old(beforeValues)[txnId := old(beforeValues)[txnId] + [beforeValue]]
      ensures afterValues == old(afterValues)[txnId := old(afterValues)[txnId] + [afterValue]]
    {
      recordIds := recordIds[txnId := recordIds[txnId] + [recordId]];
      beforeValues := beforeValues[txnId := beforeValues[txnId] + [beforeValue]];
      afterValues := afterValues[txnId := afterValues[txnId] + [afterValue]];
      assert Zip(recordIds[txnId], beforeValues[txnId], afterValues[txnId])
          == logs[txnId] + [LogEntry(recordId, beforeValue, afterValue)];
    }

    method StashLog(txnId: nat, ghost logs: seq<seq<LogEntry>>)
      requires Shows(logs) && txnId < |recordIds|
      modifies this`recordIds, this`beforeValues, this`afterValues
      ensures Shows(logs[txnId := []])
    {
      recordIds := recordIds[txnId := []];
      beforeValues := beforeValues[txnId := []];
      afterValues := afterValues[txnId := []];
    }

    method FlushLog(commitId: nat, txnId: nat, ghost logs: seq<seq<LogEntry>>)
      requires Shows(logs) && txnId < |recordIds|
      modifies this`recordIds, this`beforeValues, this`afterValues, this`files
      ensures Shows(logs[txnId := []])
      ensures files == old(files)[txnId := old(files)[txnId] +
                [Line(commitId, Recs(logs[txnId]), Afters(logs[txnId]))]]
    {
      assert recordIds[txnId] == Recs(logs[txnId]) && afterValues[txnId] == Afters(logs[txnId]);
      files := files[txnId := files[txnId] + [Line(commitId, recordIds[txnId], afterValues[txnId])]];
      recordIds := recordIds[txnId := []];
      beforeValues := beforeValues[txnId := []];
      afterValues := afterValues[txnId := []];
    }

    method GetCommitId() returns (commitId: nat)
      modifies this`executionOrder
      ensures commitId == executionOrder == old(executionOrder) + 1
    {
      executionOrder := executionOrder + 1;
      commitId := executionOrder;
    }
  }

  // ---------------------------------------------------------------- Database

  datatype State = OK | CORRUPT | TERMINATED

  class Database {
    const lockTable: LT.LockTable
    const records: array<int>
    const logger: Logger
    const maxExecution: nat

    /** The memory is that of state s of the step system. */
    ghost predicate Shows(s: Db)
      reads this, lockTable, lockTable.nodes, records, logger
    {
      && Shape(s) && lockTable.Valid() && LockModel.Inv(s.locks)
      && s.locks == lockTable.model && s.records == records[..] && logger.Shows(s.logs) && s.files == logger.files
      && s.executionOrder == logger.executionOrder && s.maxExecution == maxExecution
    }

    constructor (numRecord: nat, numTxn: nat, maxExecution: nat)
      ensures Shows(Init(numRecord, numTxn, maxExecution)) && fresh(lockTable) && fresh(records) && fresh(logger)
    {
      lockTable := new LT.LockTable(numRecord, numTxn);
      records := new int[numRecord + 1](_ => InitialValue);
      logger := new Logger(numTxn);
      this.maxExecution := maxExecution;
    }

    /** `read` behind the lock: the value, logged as both before and after. */
    method ReadLocked(txnId: nat, recordId: nat, ghost s: Db) returns (value: int)
      requires Shows(s) && txnId < |s.phases| && recordId < records.Length
      requires s.phases[txnId] == Entered(ReadOp(recordId))
      modifies logger`recordIds, logger`beforeValues, logger`afterValues
      ensures value == s.records[recordId]
      ensures Steps(s, txnId, 2).Some? && Shows(Steps(s, txnId, 2).value)
    {
      value := records[recordId];
      logger.AddLog(txnId, recordId, value, value, s.logs);
      OpSteps(s, txnId, ReadOp(recordId));
      assert s.records[recordId := s.records[recordId]] == s.records;
    }

    /** `add` behind the lock. */
    method AddLocked(txnId: nat, recordId: nat, operand: int, ghost s: Db)
      requires Shows(s) && txnId < |s.phases| && recordId < records.Length
      requires s.phases[txnId] == Entered(AddOp(recordId, operand))
      modifies records, logger`recordIds, logger`beforeValues, logger`afterValues
      ensures records[..] == old(records[..])[recordId := old(records[recordId]) + operand]
      ensures txnId < |old(logger.recordIds)| == |old(logger.beforeValues)| == |old(logger.afterValues)|
      ensures logger.recordIds == old(logger.recordIds)[txnId := old(logger.recordIds)[txnId] + [recordId]]
      ensures logger.beforeValues
           == old(logger.beforeValues)[txnId := old(logger.beforeValues)[txnId] + [old(records[recordId])]]
      ensures logger.afterValues
           == old(logger.afterValues)[txnId := old(logger.afterValues)[txnId] + [old(records[recordId]) + operand]]
      ensures Steps(s, txnId, 5).Some? && Shows(Steps(s, txnId, 5).value)
    {
      var beforeValue := records[recordId];
      records[recordId] := records[recordId] + operand;
      var afterValue := records[recordId];
      logger.AddLog(txnId, recordId, beforeValue, afterValue, s.logs);
      OpSteps(s, txnId, AddOp(recordId, operand));
    }

    /** The undo loop: it runs forwards over the log. */
    method Undo(txnId: nat, ghost logs: seq<seq<LogEntry>>)
      requires logger.Shows(logs) && txnId < |logs|
      requires forall k :: 0 <= k < |logs[txnId]| ==> logs[txnId][k].rec < records.Length
      modifies records
      ensures records[..] == PutBack(old(records[..]), logs[txnId])
    {
      var recordIds, beforeValues := logger.recordIds[txnId], logger.beforeValues[txnId];
      ghost var log := logs[txnId];
      assert log[0..] == log;
      for i := 0 to |recordIds|
        invariant PutBack(records[..], log[i..]) == PutBack(old(records[..]), log)
      {
        ghost var v, rest := records[..], log[i..];
        assert rest[0] == log[i] && rest[1..] == log[i + 1..];
        assert PutBack(v, rest) == PutBack(v[log[i].rec := log[i].before], rest[1..]);
        records[recordIds[i]] := beforeValues[i];
        assert records[..] == v[log[i].rec := log[i].before];
      }
      assert log[|recordIds|..] == [];
    }

    method UnlockAll(txnId: nat, ghost s: Db)
      requires Shows(s) && txnId < |s.phases| && !Waiting(s.locks, txnId)
      modifies lockTable, lockTable.nodes`prev, lockTable.nodes`next, lockTable.nodes`locked
      ensures Shows(s.(locks := Unlock(s.locks, txnId)))
    {
      lockTable.Unlock(txnId);
    }

    /** The undo loop, and the log thrown away. */
    method RollBack(txnId: nat, ghost s: Db)
      requires Shows(s) && txnId < |s.phases| && forall k :: 0 <= k < |s.logs[txnId]| ==> s.logs[txnId][k].rec < |s.records|
      modifies records, logger`recordIds, logger`beforeValues, logger`afterValues
      ensures Shows(RolledBack(s, txnId))
    {
      Undo(txnId, s.logs);
      logger.StashLog(txnId, s.logs);
    }

    /** What `abort` does to the memory. */
    method RollBackAndUnlock(txnId: nat, ghost s: Db)
      requires Shows(s) && txnId < |s.phases| && !Waiting(s.locks, txnId)
      requires forall k :: 0 <= k < |s.logs[txnId]| ==> s.logs[txnId][k].rec < |s.records|
      modifies records, logger`recordIds, logger`beforeValues, logger`afterValues, lockTable,
               lockTable.nodes`prev, lockTable.nodes`next, lockTable.nodes`locked
      ensures Shows(RolledBack(s, txnId).(locks := Unlock(s.locks, txnId)))
    {
      RollBack(txnId, s);
      UnlockAll(txnId, RolledBack(s, txnId));
    }

    method Abort(txnId: nat, terminated: bool, ghost s: Db) returns (state: State)
      requires Shows(s) && DbInv(s) && txnId < |s.phases|
      requires s.phases[txnId] == Undoing(0, terminated) || (s.phases[txnId].Ready? && !terminated)
      modifies records, logger`recordIds, logger`beforeValues, logger`afterValues, lockTable,
               lockTable.nodes`prev, lockTable.nodes`next, lockTable.nodes`locked
      ensures state == if terminated then TERMINATED else OK
      ensures Restored(old(records[..]), records[..], s.logs[txnId])
      ensures var s1, n := UndoStart(s, txnId), |s.logs[txnId]| + 2;
              Steps(s1, txnId, n).Some? && Shows(Steps(s1, txnId, n).value)
      ensures Steps(UndoStart(s, txnId), txnId, |s.logs[txnId]| + 2).value.phases[txnId]
           == if terminated then Phase.Terminated else Ready(false)
    {
      ghost var s1 := UndoStart(s, txnId);
      if s.phases[txnId].Ready? { AbortBegins(s, txnId); }
      WholeAbort(s1, txnId, terminated);
      RollBackAndUnlock(txnId, s1);
      state := if terminated then TERMINATED else OK;
    }

    method Flush(txnId: nat, commitId: nat, ghost s: Db)
      requires Shows(s) && txnId < |s.phases|
      modifies logger
      ensures Shows(s.(logs := s.logs[txnId := []], files := s.files[txnId := s.files[txnId] +
                [Line(commitId, Recs(s.logs[txnId]), Afters(s.logs[txnId]))]]))
    {
      logger.FlushLog(commitId, txnId, s.logs);
    }

    method FlushAndUnlock(txnId: nat, commitId: nat, ghost s: Db)
      requires Shows(s) && txnId < |s.phases| && s.phases[txnId] == Committing(commitId) && !Waiting(s.locks, txnId)
      modifies logger, lockTable, lockTable.nodes`prev, lockTable.nodes`next, lockTable.nodes`locked
      ensures Steps(s, txnId, 2).Some? && Shows(Steps(s, txnId, 2).value)
      ensures logger.files == s.files[txnId := s.files[txnId] +
                [Line(commitId, Recs(s.logs[txnId]), Afters(s.logs[txnId]))]]
    {
      CommitSteps(s, txnId, commitId);
      Flush(txnId, commitId, s);
      UnlockAll(txnId, s.(logs := s.logs[txnId := []], files := s.files[txnId := s.files[txnId] +
        [Line(commitId, Recs(s.logs[txnId]), Afters(s.logs[txnId]))]]));
    }

    method TakeId(txnId: nat, ghost s: Db) returns (commitId: nat)
      requires Shows(s) && txnId < |s.phases| && s.phases[txnId].Ready?
      modifies logger`executionOrder
      ensures commitId == s.executionOrder + 1 && Shows(Next(s, txnId, Action.Commit))
    {
      commitId := logger.GetCommitId();
    }

    /** The rest of `commit`, with its id drawn. */
    method Finish(txnId: nat, commitId: nat, ghost s: Db) returns (state: State)
      requires Shows(s) && DbInv(s) && txnId < |s.phases| && !Waiting(s.locks, txnId)
      requires s.phases[txnId] == if commitId > maxExecution then Undoing(0, true) else Committing(commitId)
      modifies records, logger, lockTable, lockTable.nodes`prev, lockTable.nodes`next, lockTable.nodes`locked
      ensures state == if commitId > maxExecution then TERMINATED else OK
      ensures if commitId > maxExecution then Restored(old(records[..]), records[..], s.logs[txnId])
              else records[..] == old(records[..])
      ensures logger.files == if commitId > maxExecution then s.files else
                s.files[txnId := s.files[txnId] + [Line(commitId, Recs(s.logs[txnId]), Afters(s.logs[txnId]))]]
      ensures var n := if commitId > maxExecution then |s.logs[txnId]| + 2 else 2;
              Steps(s, txnId, n).Some? && Shows(Steps(s, txnId, n).value)
    {
      if commitId > maxExecution {
        state := Abort(txnId, true, s);
      } else {
        FlushAndUnlock(txnId, commitId, s);
        state := OK;
      }
    }

    /** `commit`: beyond the last execution the transaction is rolled back instead. */
    method Commit(txnId: nat, ghost s: Db) returns (state: State)
      requires Shows(s) && DbInv(s) && txnId < |s.phases| && s.phases[txnId].Ready?
      modifies records, logger, lockTable, lockTable.nodes`prev, lockTable.nodes`next, lockTable.nodes`locked
      ensures state == if s.executionOrder + 1 > maxExecution then TERMINATED else OK
      ensures if s.executionOrder + 1 > maxExecution then Restored(old(records[..]), records[..], s.logs[txnId])
              else records[..] == old(records[..])
      ensures logger.files == if s.executionOrder + 1 > maxExecution then s.files else
                s.files[txnId := s.files[txnId] + [Line(s.executionOrder + 1, Recs(s.logs[txnId]), Afters(s.logs[txnId]))]]
      ensures var s1 := Next(s, txnId, Action.Commit);
              var n := if s.executionOrder + 1 > maxExecution then |s.logs[txnId]| + 2 else 2;
              Steps(s1, txnId, n).Some? && Shows(Steps(s1, txnId, n).value)
    {
      ghost var s1 := CommitBegins(s, txnId);
      var commitId := TakeId(txnId, s);
      state := Finish(txnId, commitId, s1);
    }

    /** A read asks the lock table for a reader lock, an add for a writer lock. */
    method AskLockTable(txnId: nat, op: Op) returns (myLock: LT.LockNode?)
      requires lockTable.Valid() && LockModel.Inv(lockTable.model)
      requires txnId < |lockTable.lockPerTxn| && op.rec < |lockTable.lockPerRecord|
      requires !Waiting(lockTable.model, txnId)
      modifies lockTable, lockTable.nodes
      ensures lockTable.Valid() && LockModel.Inv(lockTable.model)
      ensures myLock == null <==> Deadlock(old(lockTable.model), txnId, op.rec)
      ensures match Request(old(lockTable.model), txnId, op.rec, OpMode(op))
              case None => myLock == null && lockTable.model == old(lockTable.model)
              case Some(l) => myLock != null && lockTable.model == l
      ensures myLock != null ==>
                && myLock.txnId == txnId && myLock.recordId == op.rec && (myLock.lockMode == Read <==> op.ReadOp?)
                && (myLock.locked <==> Waiting(lockTable.model, txnId))
    {
      ghost var l := lockTable.model;
      if op.ReadOp? {
        myLock := lockTable.AddReaderLock(txnId, op.rec);
      } else {
        myLock := lockTable.AddWriterLock(txnId, op.rec);
      }
      if myLock != null { NewestWaits(l, txnId, op.rec, OpMode(op)); }
    }

    /** A transaction that does not wait gets a lock object, or none. */
    method RequestLock(txnId: nat, op: Op, ghost s: Db) returns (myLock: LT.LockNode?)
      requires Shows(s) && txnId < |s.phases| && s.phases[txnId].Ready? && op.rec < records.Length
      requires !Waiting(s.locks, txnId)
      modifies lockTable, lockTable.nodes
      ensures Shows(Next(s, txnId, Begin(op)))
      ensures myLock == null <==> Next(s, txnId, Begin(op)).phases[txnId] == Ready(true)
      ensures myLock != null ==> (myLock.locked <==> Waiting(Next(s, txnId, Begin(op)).locks, txnId))
      ensures myLock == null <==> Deadlock(s.locks, txnId, op.rec)
      ensures myLock != null ==>
                && Next(s, txnId, Begin(op)).phases[txnId] == Spinning(op)
                && myLock.txnId == txnId && myLock.recordId == op.rec && (myLock.lockMode == Read <==> op.ReadOp?)
    {
      BeginIs(s, txnId, op);
      myLock := AskLockTable(txnId, op);
    }

    /** The start of `read` and `add`: a lock object is made, or refused; it may have to spin. */
    method TryLock(txnId: nat, op: Op, ghost s: Db) returns (myLock: LT.LockNode?)
      requires Shows(s) && DbInv(s) && txnId < |s.phases| && s.phases[txnId].Ready? && op.rec < records.Length
      modifies lockTable, lockTable.nodes
      ensures Shows(Next(s, txnId, Begin(op)))
      ensures myLock == null <==> Next(s, txnId, Begin(op)).phases[txnId] == Ready(true)
      ensures myLock != null ==> (myLock.locked <==> Waiting(Next(s, txnId, Begin(op)).locks, txnId))
      ensures myLock == null <==> Deadlock(s.locks, txnId, op.rec)
      ensures myLock != null ==>
                && Next(s, txnId, Begin(op)).phases[txnId] == Spinning(op)
                && myLock.txnId == txnId && myLock.recordId == op.rec && (myLock.lockMode == Read <==> op.ReadOp?)
    {
      assert TxnOk(s, txnId);
      myLock := RequestLock(txnId, op, s);
    }
  }

  lemma BeginIs(s: Db, t: nat, op: Op)
    requires Enabled(s, t, Begin(op))
    ensures match Request(s.locks, t, op.rec, OpMode(op))
            case None => Next(s, t, Begin(op)) == s.(phases := s.phases[t := Ready(true)])
            case Some(l) => Next(s, t, Begin(op)) == s.(phases := s.phases[t := Spinning(op)], locks := l)
    ensures Request(s.locks, t, op.rec, OpMode(op)).Some? ==>
              var l := Request(s.locks, t, op.rec, OpMode(op)).value;
              |l.chains| == |s.locks.chains| && |l.queues| == |s.locks.queues|
  {
  }

  lemma NewestWaits(l: Locks, t: nat, r: nat, m: Mode)
    requires WellFormed(l) && t < |l.chains| && r < |l.queues| && Request(l, t, r, m).Some?
    ensures Waiting(Request(l, t, r, m).value, t) <==> MustWait(l.queues[r], m)
  {
    var l' := Request(l, t, r, m).value;
    var q, q' := l.queues[r], l'.queues[r];
    if HasTxn(q, t) { RelockRefused(l, t, r, m); }
    assert q'[|q|] == Entry(t, m, MustWait(q, m));
    forall i | 0 <= i < |q| ensures q'[i].txn != t { assert q'[i] == q[i]; }
  }
}
