/** The queue as it is built: a linked list that grows at its head, taken as a whole and reversed
    in place before it is handed on. */
module LogBuffer {
  import opened LogEvents
  import opened LogQueue

  class LogRecord {
    const timestamp: int
    const event: LogEvent
    var next: LogRecord?

    constructor (timestamp: int, event: LogEvent, next: LogRecord?)
      ensures this.timestamp == timestamp && this.event == event && this.next == next
    {
      this.timestamp, this.event, this.next := timestamp, event, next;
    }
  }

  /** The list at head is exactly these nodes, in this order, and no node occurs twice. */
  ghost predicate Listed(head: LogRecord?, nodes: seq<LogRecord>)
    reads nodes
  {
    if nodes == [] then head == null
    else head == nodes[0] && head !in nodes[1..] && Listed(nodes[0].next, nodes[1..])
  }

  ghost function Events(nodes: seq<LogRecord>): seq<LogEvent> {
    seq(|nodes|, i requires 0 <= i < |nodes| => nodes[i].event)
  }

  lemma {:induction false} ReverseAt<T>(s: seq<T>, i: nat)
    requires i < |s|
    ensures Reverse(s)[i] == s[|s| - 1 - i]
  {
    if i < |s| - 1 {
      ReverseAt(s[1..], i);
    }
  }

  lemma ReversedEvents(nodes: seq<LogRecord>)
    ensures Events(Reverse(nodes)) == Reverse(Events(nodes))
  {
    forall i | 0 <= i < |nodes| ensures Events(Reverse(nodes))[i] == Reverse(Events(nodes))[i] {
      ReverseAt(nodes, i);
      ReverseAt(Events(nodes), i);
    }
  }

  lemma ListedCons(head: LogRecord, nodes: seq<LogRecord>)
    requires Listed(head.next, nodes) && head !in nodes
    ensures Listed(head, [head] + nodes)
  {
    assert ([head] + nodes)[1..] == nodes;
  }

  /** Turns every next pointer around. */
  method ReverseInPlace(head: LogRecord?, ghost nodes: seq<LogRecord>) returns (records: LogRecord?, recordCount: nat)
    requires Listed(head, nodes)
    modifies nodes
    ensures Listed(records, Reverse(nodes)) && recordCount == |nodes|
  {
    hide Reverse;
    var rest, next := head, null;
    recordCount := 0;
    ghost var done: seq<LogRecord>, left: seq<LogRecord> := [], nodes;
    NothingReversed(nodes);
    while rest != null
      invariant Listed(next, done) && Listed(rest, left)
      invariant Reverse(left) + done == Reverse(nodes)
      invariant recordCount + |left| == |nodes| && forall n :: n in left ==> n in nodes
      invariant forall n :: n in left ==> n !in done
      decreases |left|
    {
      ghost var node: LogRecord, tail: seq<LogRecord> := rest, left[1..];
      assert node == left[0] && node in left && left == [node] + tail;
      var tmp := rest.next;
      rest.next := next;
      next := rest;
      rest := tmp;
      ListedCons(node, done);
      ReverseCons(node, tail);
      assert Reverse(tail) + [node] + done == Reverse(tail) + ([node] + done);
      done, left := [node] + done, tail;
      recordCount := recordCount + 1;
    }
    NothingReversed(nodes);
    assert [] + done == done;
    records := next;
  }

  lemma NothingReversed<T>(s: seq<T>)
    ensures Reverse<T>([]) == [] && Reverse(s) + [] == Reverse(s)
  {
  }

  lemma ReverseCons<T>(x: T, s: seq<T>)
    ensures Reverse([x] + s) == Reverse(s) + [x]
  {
  }

  // ----- The start time of a batch -----

  ghost function Times(nodes: seq<LogRecord>): (times: seq<int>)
    ensures |times| == |nodes|
  {
    seq(|nodes|, i requires 0 <= i < |nodes| => nodes[i].timestamp)
  }

  /** The clock did not go back between the records of a batch. */
  ghost predicate InOrder(times: seq<int>) { forall i, j :: 0 <= i < j < |times| ==> times[i] <= times[j] }

  ghost predicate Earliest(t: int, times: seq<int>) { t in times && forall i :: 0 <= i < |times| ==> t <= times[i] }

  /** What is handed on as the start time: the time of the newest record. */
  function StartTime(times: seq<int>): int
    requires times != []
  {
    times[|times| - 1]
  }

  /** Of a batch in the order of time it is the earliest if and only if all the records were made at
      one time, which the first and the last record tell. */
  lemma StartIsEarliestIff(times: seq<int>)
    requires times != [] && InOrder(times)
    ensures Earliest(StartTime(times), times) <==> times[0] == times[|times| - 1]
    ensures times[0] == times[|times| - 1] <==> forall i :: 0 <= i < |times| ==> times[i] == times[0]
    ensures forall i :: 0 <= i < |times| ==> times[i] <= StartTime(times)
  {
    assert StartTime(times) in times;
    if times[0] == times[|times| - 1] {
      forall i | 0 <= i < |times| ensures times[i] == times[0] {
        assert times[0] <= times[i] <= times[|times| - 1];
      }
    }
  }

  /** Two records made one after the other: the start time is not the earliest. */
  lemma StartTimeLate(t: int, later: nat)
    requires later > 0
    ensures var times := [t, t + later];
      InOrder(times) && StartTime(times) == t + later && Earliest(t, times) && !Earliest(StartTime(times), times)
  {
    var times := [t, t + later];
    assert times[0] == t && times[1] == t + later;
  }

  /** Records put at the head while the clock does not go back leave the batch in the order of time. */
  lemma PutInOrder(record: LogRecord, nodes: seq<LogRecord>)
    requires InOrder(Times(Reverse(nodes))) && (nodes != [] ==> nodes[0].timestamp <= record.timestamp)
    ensures InOrder(Times(Reverse([record] + nodes)))
  {
    ReverseCons(record, nodes);
    var before, times := Times(Reverse(nodes)), Times(Reverse([record] + nodes));
    assert times == before + [record.timestamp];
    if nodes != [] {
      ReverseAt(nodes, |nodes| - 1);
      assert before[|before| - 1] == nodes[0].timestamp;
    }
  }

  class TransportBackgroundIOWrapper {
    var diskRecords: LogRecord?
    var queueSize: int
    var droppedEventCount: nat
    var sentEventCount: int
    ghost var nodes: seq<LogRecord>

    ghost predicate Valid()
      reads this, nodes
    {
      Listed(diskRecords, nodes) && queueSize == |nodes|
    }

    constructor ()
      ensures Valid() && nodes == [] && droppedEventCount == 0 && sentEventCount == 0
    {
      diskRecords, nodes := null, [];
      queueSize, droppedEventCount, sentEventCount := 0, 0, 0;
    }

    method WriteLogRecord(event: LogEvent, now: int)
      requires Valid()
      modifies this
      ensures Valid() && sentEventCount == old(sentEventCount)
      ensures if Refuses(|old(nodes)|, event)
              then nodes == old(nodes) && droppedEventCount == old(droppedEventCount) + 1
              else droppedEventCount == old(droppedEventCount)
                   && nodes != [] && nodes[1..] == old(nodes) && fresh(nodes[0])
                   && nodes[0].event == event && nodes[0].timestamp == now
      ensures InOrder(Times(Reverse(old(nodes)))) && (old(nodes) != [] ==> old(nodes)[0].timestamp <= now) ==>
                InOrder(Times(Reverse(nodes)))
    {
      var bL := QueueCapacityBackoff(queueSize);
      if bL < event.level || (bL <= LEVEL_WARNING && event.level == LEVEL_NON_MESSAGE) {
        droppedEventCount := droppedEventCount + 1;
        return;
      }
      var record := new LogRecord(now, event, diskRecords);
      ListedCons(record, nodes);
      if InOrder(Times(Reverse(nodes))) && (nodes != [] ==> nodes[0].timestamp <= now) { PutInOrder(record, nodes); }
      diskRecords := record;
      nodes := [record] + nodes;
      queueSize := queueSize + 1;
    }

    /** What is handed to the transport: the batch in insertion order, how many records it holds, and
        a start time, which is that of the record at the head of the list, the newest. */
    method WriteToIO() returns (records: LogRecord?, ghost batch: seq<LogRecord>, startTime: int, recordCount: nat)
      requires Valid()
      modifies this, nodes
      ensures Valid() && nodes == [] && droppedEventCount == old(droppedEventCount)
      ensures Listed(records, batch) && batch == Reverse(old(nodes)) && Events(batch) == Reverse(Events(old(nodes)))
      ensures recordCount == |batch| && sentEventCount == old(sentEventCount) + recordCount
      ensures batch != [] ==> startTime == StartTime(Times(batch))
      ensures batch != [] && InOrder(Times(batch)) ==>
                (Earliest(startTime, Times(batch)) <==> batch[0].timestamp == startTime)
    {
      hide InOrder, Earliest;
      records := diskRecords;
      diskRecords := null;
      startTime := 0;
      if records != null {
        startTime := records.timestamp;
        ReverseAt(nodes, |nodes| - 1);
      }
      ReversedEvents(nodes);
      batch := Reverse(nodes);
      if batch != [] && InOrder(Times(batch)) { StartIsEarliestIff(Times(batch)); }
      records, recordCount := ReverseInPlace(records, nodes);
      nodes := [];
      queueSize := queueSize - recordCount;
      sentEventCount := sentEventCount + recordCount;
    }
  }
}
