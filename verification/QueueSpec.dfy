/** The first-in first-out queue that the concurrent queues should behave like. */
module QueueSpec {

  datatype Item = Enq(key: int) | Deq(key: int)

  /** A call that took effect: call is its number; a dequeue carries the key it returns. */
  datatype Event = Event(call: nat, item: Item)

  /** A call made: since is history, how many calls had taken effect when it was invoked. */
  datatype Call = Call(id: nat, enqueues: bool, key: int, since: nat)

  /** An enqueue adds the key it was given; a dequeue is given none. */
  predicate Fits(call: Call, item: Item) {
    item.Enq? == call.enqueues && (call.enqueues ==> item.key == call.key)
  }

  /** The call is in the log, as what it is, between its invocation and end. */
  predicate TookEffect(log: seq<Event>, call: Call, item: Item, at: nat, end: nat) {
    Fits(call, item) && call.since <= at < end <= |log| && log[at] == Event(call.id, item)
  }

  /** What is in an initially empty queue after the calls in the log. */
  function Contents(log: seq<Event>): seq<int> {
    if log == [] then []
    else
      var before := Contents(log[..|log| - 1]);
      match log[|log| - 1].item
      case Enq(key) => before + [key]
      case Deq(_) => if before == [] then [] else before[1..]
  }

  /** Every dequeue in the log takes the oldest key, and no call is there twice. */
  ghost predicate Legal(log: seq<Event>) {
    && (forall i {:trigger DeqOk(log, i)} :: 0 <= i < |log| && log[i].item.Deq? ==> DeqOk(log, i))
    && forall i, j :: 0 <= i < j < |log| ==> log[i].call != log[j].call
  }

  ghost predicate DeqOk(log: seq<Event>, i: nat)
    requires i < |log|
  {
    Contents(log[..i]) != [] && Contents(log[..i])[0] == log[i].item.key
  }

  lemma LegalAppend(log: seq<Event>, e: Event)
    requires Legal(log) && (e.item.Deq? ==> Contents(log) != [] && Contents(log)[0] == e.item.key)
    requires forall i :: 0 <= i < |log| ==> log[i].call != e.call
    ensures Legal(log + [e])
    ensures Contents(log + [e]) == if e.item.Enq? then Contents(log) + [e.item.key] else Contents(log)[1..]
  {
    var longer := log + [e];
    assert longer[..|log|] == log;
    forall i | 0 <= i < |longer| && longer[i].item.Deq? ensures DeqOk(longer, i) {
      assert longer[..i] == log[..i];
      if i < |log| { assert DeqOk(log, i); } else { assert log[..i] == log; }
    }
  }

  /** The i-th call in the log was made before it took effect. */
  predicate WasMade(log: seq<Event>, made: seq<Call>, i: nat) {
    && i < |log| && log[i].call < |made|
    && Fits(made[log[i].call], log[i].item) && made[log[i].call].since <= i
  }

  predicate CallOk(made: seq<Call>, i: nat, now: nat) {
    i < |made| && made[i].id == i && made[i].since <= now
  }

  /** The log is that of a queue with these contents now, and of calls that were made. */
  ghost predicate LogOk(log: seq<Event>, made: seq<Call>, contents: seq<int>) {
    && Legal(log) && Contents(log) == contents
    && (forall i :: 0 <= i < |log| ==> WasMade(log, made, i))
    && forall i :: 0 <= i < |made| ==> CallOk(made, i, |log|)
  }

  predicate Absent(log: seq<Event>, id: nat) {
    forall i :: 0 <= i < |log| ==> log[i].call != id
  }

  /** A call is made. */
  lemma MadeGrows(log: seq<Event>, made: seq<Call>, contents: seq<int>, call: Call)
    requires LogOk(log, made, contents) && call.id == |made| && call.since == |log|
    ensures LogOk(log, made + [call], contents) && Absent(log, call.id)
  {
    forall i | 0 <= i < |log| ensures WasMade(log, made + [call], i) && log[i].call != call.id {
      assert WasMade(log, made, i);
    }
    forall i | 0 <= i < |made| + 1 ensures CallOk(made + [call], i, |log|) {
      if i < |made| { assert CallOk(made, i, |log|); }
    }
  }

  /** A call takes effect. */
  lemma LogGrows(log: seq<Event>, made: seq<Call>, contents: seq<int>, id: nat, item: Item)
    requires LogOk(log, made, contents) && id < |made| && Fits(made[id], item) && Absent(log, id)
    requires item.Deq? ==> contents != [] && contents[0] == item.key
    ensures LogOk(log + [Event(id, item)], made, if item.Enq? then contents + [item.key] else contents[1..])
    ensures forall other :: other != id && Absent(log, other) ==> Absent(log + [Event(id, item)], other)
  {
    var log' := log + [Event(id, item)];
    LegalAppend(log, Event(id, item));
    assert CallOk(made, id, |log|);
    forall i | 0 <= i < |log'| ensures WasMade(log', made, i) {
      if i < |log| { assert WasMade(log, made, i); }
    }
    forall i | 0 <= i < |made| ensures CallOk(made, i, |log'|) { assert CallOk(made, i, |log|); }
  }

  /** The enqueued keys in order, and the dequeued keys in order. */
  function Enqueued(log: seq<Event>): seq<int> {
    if log == [] then []
    else
      var last := log[|log| - 1].item;
      Enqueued(log[..|log| - 1]) + (if last.Enq? then [last.key] else [])
  }

  function Dequeued(log: seq<Event>): seq<int> {
    if log == [] then []
    else
      var last := log[|log| - 1].item;
      Dequeued(log[..|log| - 1]) + (if last.Deq? then [last.key] else [])
  }

  lemma LegalPrefix(log: seq<Event>, n: nat)
    requires Legal(log) && n <= |log|
    ensures Legal(log[..n])
  {
    forall i | 0 <= i < n && log[..n][i].item.Deq? ensures DeqOk(log[..n], i) {
      assert DeqOk(log, i) && log[..n][..i] == log[..i];
    }
  }

  /** Nothing is lost, duplicated or overtaken: what was dequeued, followed by what is still in the queue, is what was
      enqueued. */
  lemma {:induction false} FirstInFirstOut(log: seq<Event>)
    requires Legal(log)
    ensures Enqueued(log) == Dequeued(log) + Contents(log)
  {
    if log != [] {
      var n := |log| - 1;
      LegalPrefix(log, n);
      FirstInFirstOut(log[..n]);
      var pre, key := log[..n], log[n].item.key;
      if log[n].item.Deq? {
        assert DeqOk(log, n);
        calc {
          Dequeued(log) + Contents(log);
          (Dequeued(pre) + [key]) + Contents(pre)[1..];
          Dequeued(pre) + ([key] + Contents(pre)[1..]);
          Dequeued(pre) + Contents(pre);
        }
      } else {
        calc {
          Dequeued(log) + Contents(log);
          Dequeued(pre) + (Contents(pre) + [key]);
          (Dequeued(pre) + Contents(pre)) + [key];
        }
      }
    }
  }
}
