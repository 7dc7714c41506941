/** Packing a batch for the wire: one growing array per tenant, set aside when it is full. */
module LogTransfer {
  import opened LogEvents
  import opened LogBuffer

  const MAX_PER_TRANSFER := 1000

  datatype Content = Content(message: string, code: int, payload: string, timestamp: int)

  class LogRecordArray {
    const tenant: string
    var records: seq<Content>

    constructor (tenant: string, first: Content)
      ensures this.tenant == tenant && records == [first]
    {
      this.tenant, records := tenant, [first];
    }

    predicate Full() reads this { |records| > MAX_PER_TRANSFER }
  }

  function ContentOf(event: LogEvent, timestamp: int): Content {
    Content(if event.message != "" then event.requestID + ": " + event.message else "",
            event.code, event.payload, timestamp)
  }

  /** A tenant's records, in order. */
  ghost function Only(nodes: seq<LogRecord>, t: string): seq<Content> {
    if nodes == [] then []
    else
      var n := nodes[|nodes| - 1];
      Only(nodes[..|nodes| - 1], t) + if n.event.tenant == t then [ContentOf(n.event, n.timestamp)] else []
  }

  /** A tenant's arrays, in output order, one after the other. */
  ghost function Sent(arrays: seq<LogRecordArray>, t: string): seq<Content>
    reads arrays
  {
    if arrays == [] then []
    else
      var a := arrays[|arrays| - 1];
      Sent(arrays[..|arrays| - 1], t) + if a.tenant == t then a.records else []
  }

  ghost predicate AllFull(arrays: seq<LogRecordArray>)
    reads arrays
  {
    forall i :: 0 <= i < |arrays| ==> |arrays[i].records| == MAX_PER_TRANSFER + 1
  }

  lemma SentSnoc(arrays: seq<LogRecordArray>, a: LogRecordArray, t: string)
    ensures Sent(arrays + [a], t) == Sent(arrays, t) + if a.tenant == t then a.records else []
  {
    assert (arrays + [a])[..|arrays|] == arrays;
  }

  lemma OnlyNext(nodes: seq<LogRecord>, k: nat, t: string)
    requires k < |nodes|
    ensures Only(nodes[..k + 1], t) ==
            Only(nodes[..k], t) + if nodes[k].event.tenant == t then [ContentOf(nodes[k].event, nodes[k].timestamp)] else []
  {
    assert nodes[..k + 1][..k] == nodes[..k];
  }

  ghost function Of(nodes: seq<LogRecord>, t: string): set<nat> {
    set k: nat | k < |nodes| && nodes[k].event.tenant == t
  }

  /** A tenant has as many records as nodes. */
  lemma {:induction false} OnlyCounts(nodes: seq<LogRecord>, t: string)
    ensures |Only(nodes, t)| == |Of(nodes, t)|
  {
    if nodes != [] {
      var n := |nodes| - 1;
      OnlyCounts(nodes[..n], t);
      assert Of(nodes, t) == Of(nodes[..n], t) + if nodes[n].event.tenant == t then {n} else {};
    }
  }

  /** The record of node k stands behind those of the nodes before it; its message is led by the
      request, unless there is none. */
  lemma {:induction false} OnlyAt(nodes: seq<LogRecord>, t: string, k: nat)
    requires k < |nodes| && nodes[k].event.tenant == t
    ensures var e, before := nodes[k].event, |Only(nodes[..k], t)|;
      && before < |Only(nodes, t)|
      && Only(nodes, t)[before] ==
         Content(if e.message == "" then "" else e.requestID + ": " + e.message, e.code, e.payload, nodes[k].timestamp)
  {
    var n := |nodes| - 1;
    if k < n {
      assert nodes[..n][..k] == nodes[..k];
      OnlyAt(nodes[..n], t, k);
    }
  }

  // ----- The arrays being filled -----

  type Open = map<string, LogRecordArray?>

  ghost function OpenSet(open: Open): set<LogRecordArray> {
    set t | t in open && open[t] != null :: open[t]
  }

  /** One array for each tenant, neither empty nor full. */
  ghost predicate OpenOk(open: Open)
    reads OpenSet(open)
  {
    forall t :: t in open && open[t] != null ==>
      open[t] in OpenSet(open) && open[t].tenant == t && 0 < |open[t].records| <= MAX_PER_TRANSFER
  }

  /** What is still being filled for a tenant. */
  ghost function Filling(open: Open, t: string): seq<Content>
    reads if t in open && open[t] != null then {open[t]} else {}
  {
    if t in open && open[t] != null then open[t].records else []
  }

  class Encoder {
    var recordsMap: Open
    var recordsReady: seq<LogRecordArray>

    ghost function Arrays(): set<LogRecordArray>
      reads this
    {
      OpenSet(recordsMap) + set a | a in recordsReady
    }

    ghost predicate Valid()
      reads this, Arrays()
    {
      && OpenOk(recordsMap) && AllFull(recordsReady)
      && forall a :: a in recordsReady ==> a !in OpenSet(recordsMap)
    }

    /** All records of a tenant so far. */
    ghost function Has(t: string): seq<Content>
      requires Valid()
      reads this, Arrays()
    {
      Sent(recordsReady, t) + Filling(recordsMap, t)
    }

    constructor ()
      ensures Valid() && Arrays() == {} && forall t :: Has(t) == []
    {
      recordsMap, recordsReady := map[], [];
    }

    method Start(tenant: string, lRC: Content)
      requires Valid() && Filling(recordsMap, tenant) == []
      modifies `recordsMap
      ensures Valid() && fresh(Arrays() - old(Arrays()))
      ensures forall t :: Has(t) == old(Has(t)) + if t == tenant then [lRC] else []
    {
      hide Sent;
      var rm := new LogRecordArray(tenant, lRC);
      recordsMap := recordsMap[tenant := rm];
      assert OpenOk(recordsMap);
      assert Valid();
      assert forall t :: t != tenant ==> Filling(recordsMap, t) == old(Filling(recordsMap, t));
    }

    method Append(tenant: string, lRC: Content)
      requires Valid() && tenant in recordsMap && recordsMap[tenant] != null
      modifies recordsMap[tenant]
      ensures forall t :: t != tenant ==> Filling(recordsMap, t) == old(Filling(recordsMap, t))
      ensures Filling(recordsMap, tenant) == old(Filling(recordsMap, tenant)) + [lRC]
      ensures forall t :: Sent(recordsReady, t) == old(Sent(recordsReady, t))
      ensures AllFull(recordsReady)
      ensures 0 < |recordsMap[tenant].records| <= MAX_PER_TRANSFER + 1
      ensures recordsMap[tenant].Full() || OpenOk(recordsMap)
      ensures OpenOk(recordsMap[tenant := null])
    {
      hide Sent;
      var rm := recordsMap[tenant];
      rm.records := rm.records + [lRC];
    }

    method SetAside(tenant: string)
      requires tenant in recordsMap && recordsMap[tenant] != null && recordsMap[tenant].Full()
      requires |recordsMap[tenant].records| == MAX_PER_TRANSFER + 1 && recordsMap[tenant].tenant == tenant
      requires AllFull(recordsReady) && OpenOk(recordsMap[tenant := null])
      requires forall a :: a in recordsReady ==> a !in OpenSet(recordsMap)
      requires forall t :: t != tenant && t in recordsMap ==> recordsMap[t] != recordsMap[tenant]
      modifies this
      ensures Valid() && Arrays() == old(Arrays())
      ensures forall t :: Has(t) == old(Sent(recordsReady, t) + Filling(recordsMap, t))
    {
      hide Sent;
      var rm := recordsMap[tenant];
      forall t
        ensures Sent(recordsReady + [rm], t) + Filling(recordsMap[tenant := null], t) ==
                Sent(recordsReady, t) + Filling(recordsMap, t)
      {
        SentSnoc(recordsReady, rm, t);
      }
      MoveOpen(recordsMap, tenant);
      recordsReady := recordsReady + [rm];
      recordsMap := recordsMap[tenant := null];
    }

    method Finish() returns (ready: seq<LogRecordArray>)
      requires Valid()
      ensures WellPacked(ready) && forall t :: Sent(ready, t) == Has(t)
      ensures forall a :: a in ready ==> a in Arrays()
    {
      ready := AddRest(recordsMap, recordsReady);
    }

    /** Adds one record to its tenant's array, and sets the array aside once it is full. */
    method Add(tenant: string, lRC: Content)
      requires Valid()
      modifies this, Arrays()
      ensures Valid() && fresh(Arrays() - old(Arrays()))
      ensures forall t :: Has(t) == old(Has(t)) + if t == tenant then [lRC] else []
    {
      hide Sent, Filling;
      if tenant in recordsMap && recordsMap[tenant] != null {
        var rm := recordsMap[tenant];
        assert rm in OpenSet(recordsMap);
        Append(tenant, lRC);
        if rm.Full() {
          SetAside(tenant);
        }
      } else {
        NothingFilling(recordsMap, tenant);
        Start(tenant, lRC);
      }
    }
  }

  /** Sizes of the arrays sent: none empty, none above the limit, and of each tenant's arrays all but
      the last are full. */
  ghost predicate WellPacked(arrays: seq<LogRecordArray>)
    reads arrays
  {
    && (forall i :: 0 <= i < |arrays| ==> 0 < |arrays[i].records| <= MAX_PER_TRANSFER + 1)
    && forall i, j :: 0 <= i < j < |arrays| && arrays[i].tenant == arrays[j].tenant ==> arrays[i].Full()
  }

  lemma FullPacked(arrays: seq<LogRecordArray>)
    requires AllFull(arrays)
    ensures WellPacked(arrays) && forall i :: 0 <= i < |arrays| ==> arrays[i].Full()
  {
  }

  lemma OpenAt(open: Open, t: string)
    requires t in open && OpenOk(open)
    ensures var rm := open[t];
      if rm == null then Filling(open, t) == []
      else rm in OpenSet(open) && rm.tenant == t && 0 < |rm.records| <= MAX_PER_TRANSFER && Filling(open, t) == rm.records
  {
  }

  lemma PackMore(arrays: seq<LogRecordArray>, rm: LogRecordArray)
    requires WellPacked(arrays) && 0 < |rm.records| <= MAX_PER_TRANSFER + 1
    requires forall i :: 0 <= i < |arrays| && arrays[i].tenant == rm.tenant ==> arrays[i].Full()
    ensures WellPacked(arrays + [rm])
  {
  }

  /** Appends the arrays that are not full, in whatever order the map yields them. */
  method AddRest(recordsMap: Open, ready: seq<LogRecordArray>) returns (recordsReady: seq<LogRecordArray>)
    requires OpenOk(recordsMap) && AllFull(ready)
    ensures WellPacked(recordsReady)
    ensures forall t :: Sent(recordsReady, t) == Sent(ready, t) + Filling(recordsMap, t)
    ensures forall a :: a in recordsReady ==> a in ready || a in OpenSet(recordsMap)
  {
    hide Sent, WellPacked, OpenOk, OpenSet, Filling, AllFull;
    forall t | t !in recordsMap { NothingFilling(recordsMap, t); }
    FullPacked(ready);
    recordsReady := ready;
    var left := recordsMap.Keys;
    while left != {}
      invariant left <= recordsMap.Keys && OpenOk(recordsMap) && WellPacked(recordsReady)
      invariant forall i :: 0 <= i < |recordsReady| && recordsReady[i].tenant in left ==> recordsReady[i].Full()
      invariant forall t :: Sent(ready, t) + Filling(recordsMap, t) ==
                            Sent(recordsReady, t) + if t in left then Filling(recordsMap, t) else []
      invariant forall a :: a in recordsReady ==> a in ready || a in OpenSet(recordsMap)
      decreases left
    {
      var tenant :| tenant in left;
      var rm := recordsMap[tenant];
      left := left - {tenant};
      OpenAt(recordsMap, tenant);
      if rm != null {
        forall t ensures Sent(recordsReady + [rm], t) == Sent(recordsReady, t) + if rm.tenant == t then rm.records else [] {
          SentSnoc(recordsReady, rm, t);
        }
        PackMore(recordsReady, rm);
        recordsReady := recordsReady + [rm];
      }
    }
  }

  /** For every tenant the arrays sent hold exactly its records, in order; nothing is lost, repeated
      or given to another tenant, whatever the order in which the map is walked. */
  method EncodeLogForTransfer(logRecords: LogRecord?, ghost nodes: seq<LogRecord>)
    returns (recordsReady: seq<LogRecordArray>)
    requires Listed(logRecords, nodes)
    ensures forall t :: Sent(recordsReady, t) == Only(nodes, t)
    ensures WellPacked(recordsReady)
    ensures forall a :: a in recordsReady ==> fresh(a)
  {
    hide Sent, Only, Encoder.Valid;
    var encoder := new Encoder();
    var currRecord := logRecords;
    ghost var k := 0;
    NoneYet(nodes);
    while currRecord != null
      invariant k <= |nodes| && Listed(currRecord, nodes[k..])
      invariant encoder.Valid() && fresh(encoder) && fresh(encoder.Arrays())
      invariant forall t :: encoder.Has(t) == Only(nodes[..k], t)
      decreases |nodes| - k
    {
      assert currRecord == nodes[k..][0] == nodes[k] && nodes[k..][1..] == nodes[k + 1..];
      forall t { OnlyNext(nodes, k, t); }
      encoder.Add(currRecord.event.tenant, ContentOf(currRecord.event, currRecord.timestamp));
      currRecord := currRecord.next;
      k := k + 1;
    }
    assert nodes[..k] == nodes;
    recordsReady := encoder.Finish();
  }

  lemma NoneYet(nodes: seq<LogRecord>)
    ensures forall t :: Only(nodes[..0], t) == []
    ensures nodes[0..] == nodes
  {
  }

  lemma NothingFilling(open: Open, t: string)
    requires t !in open || open[t] == null
    ensures Filling(open, t) == []
  {
  }

  lemma MoveOpen(open: Open, tenant: string)
    requires tenant in open && open[tenant] != null
    requires forall t :: t != tenant && t in open ==> open[t] != open[tenant]
    ensures OpenSet(open[tenant := null]) == OpenSet(open) - {open[tenant]}
  {
    assert forall t :: t != tenant && t in open ==> t in open[tenant := null] && open[tenant := null][t] == open[t];
  }
}
