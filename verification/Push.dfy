/** Pushing a tree: flattened into tables, one batch to the writer of each table that has rows. */
module Push {
  import opened Disk
  import opened FileNames
  import opened Exporter
  import opened Schemas
  import opened SignalWriters
  import MetricsRows
  import MetricsTable
  import TracesTable
  import Spec = WriterSpec

  /** The writer has written the batch, as far as its own fields go: whatever the other writers had done
      to the machine by then, it took the step of a write, no more and no less. */
  twostate predicate Wrote(w: SignalWriter, b: Batch, io: Spec.IO, r: Spec.Outcome)
    reads w
  {
    && Spec.Written(old(w.State()), w.State(), b, r)
    && WriteStep(w.cfg, old(w.State()), b, io, w.State(), r)
  }

  ghost predicate WriteStep(
    cfg: Spec.Config, before: Spec.Writer, b: Batch, io: Spec.IO, after: Spec.Writer, r: Spec.Outcome)
  {
    exists m: Spec.Machine :: Stepped(cfg, before, m, b, io, after, r)
  }

  ghost predicate Stepped(cfg: Spec.Config, before: Spec.Writer, m: Spec.Machine, b: Batch, io: Spec.IO,
                          after: Spec.Writer, r: Spec.Outcome)
  {
    && Spec.WellFormed(before) && (before.isOpen ==> |before.partPath| > |PART|)
    && var s := Spec.Write(cfg, before, m, b, io);
       s.w == after && s.r == r
  }

  method WriteOne(w: SignalWriter, b: Batch, io: Spec.IO) returns (r: Spec.Outcome)
    requires w.Valid()
    modifies w, w.host
    ensures w.Valid() && Wrote(w, b, io, r)
  {
    ghost var before, m := w.State(), w.host.Machine();
    Spec.WriteIsWritten(w.cfg, before, m, b, io);
    r := w.Write(b, io);
    assert Stepped(w.cfg, before, m, b, io, w.State(), r);
  }

  /** Nothing is written for a tree without spans; otherwise one batch, with a row for each span. */
  method PushTraces(e: ParquetExporter, td: TracesTable.Tree, id: nat, io: Spec.IO) returns (r: Spec.Outcome)
    requires e.Valid() && e.traces != null
    modifies e.traces, e.host
    ensures e.Valid()
    ensures TracesTable.TreeRows(td) == [] ==> r.Done? && unchanged(e.traces) && unchanged(e.host)
    ensures TracesTable.TreeRows(td) != [] ==>
      Wrote(e.traces, Batch(id, |TracesTable.TreeRows(td)|), io, r)
  {
    var rows := SpanRows(td);
    if rows == 0 {
      return Spec.Done;
    }
    r := WriteOne(e.traces, Batch(id, rows), io);
  }

  /** The number of rows of the table. */
  method SpanRows(td: TracesTable.Tree) returns (rows: nat)
    ensures rows == |TracesTable.TreeRows(td)|
  {
    var rec := TracesTable.TracesToRecord(td);
    rows := rec.rows;
  }

  /** Valid writers, all different, on one host. */
  ghost predicate Distinct(ws: seq<SignalWriter>, host: Host)
    reads ws
  {
    && (forall i :: 0 <= i < |ws| ==> ws[i].Valid() && ws[i].host == host)
    && (forall i, j :: 0 <= i < j < |ws| ==> ws[i] != ws[j])
  }

  method WriteTo(ws: seq<SignalWriter>, host: Host, i: nat, b: Batch, io: Spec.IO) returns (r: Spec.Outcome)
    requires i < |ws| && Distinct(ws, host)
    modifies ws[i], host
    ensures Distinct(ws, host) && Wrote(ws[i], b, io, r)
    ensures forall j :: 0 <= j < |ws| && j != i ==> unchanged(ws[j])
  {
    r := WriteOne(ws[i], b, io);
  }

  /** Each writer gets its batch, whatever the earlier ones report; the first error is returned. */
  method WriteAll(ws: seq<SignalWriter>, host: Host, bs: seq<Batch>, ios: nat -> Spec.IO)
    returns (r: Spec.Outcome, ghost outs: seq<Spec.Outcome>)
    requires Distinct(ws, host) && |bs| == |ws|
    modifies ws, host
    ensures Distinct(ws, host) && |outs| == |ws| && r == FirstError(outs)
    ensures forall i :: 0 <= i < |ws| ==> Wrote(ws[i], bs[i], ios(i), outs[i])
  {
    r, outs := Spec.Done, [];
    for i := 0 to |ws|
      invariant |outs| == i && r == FirstError(outs)
      invariant Distinct(ws, host)
      invariant forall j :: 0 <= j < i ==> Wrote(ws[j], bs[j], ios(j), outs[j])
      invariant forall j :: i <= j < |ws| ==> unchanged(ws[j])
    {
      var err := WriteTo(ws, host, i, bs[i], ios(i));
      if !err.Done? && r.Done? {
        r := err;
      }
      FirstErrorNext(outs, err);
      outs := outs + [err];
    }
  }

  /** Go ranges over a map in any order. */
  method InSomeOrder(kinds: set<Kind>) returns (order: seq<Kind>)
    ensures forall k :: k in kinds <==> k in order
    ensures forall i, j :: 0 <= i < j < |order| ==> order[i] != order[j]
  {
    order := [];
    var left := kinds;
    while left != {}
      invariant left <= kinds
      invariant forall k :: k in kinds <==> k in left || k in order
      invariant forall i :: 0 <= i < |order| ==> order[i] !in left
      invariant forall i, j :: 0 <= i < j < |order| ==> order[i] != order[j]
      decreases left
    {
      var k :| k in left;
      order := order + [k];
      left := left - {k};
    }
  }

  /** One writer per kind, all different, on one host. */
  ghost predicate WritersReady(ms: map<Kind, SignalWriter>, host: Host)
    reads ms.Values
  {
    && (forall k :: k in ms ==> ms[k].Valid() && ms[k].host == host)
    && (forall j, k :: j in ms && k in ms && j != k ==> ms[j] != ms[k])
  }

  /** The writers of these kinds, in this order. */
  method WriteTables(ms: map<Kind, SignalWriter>, host: Host, kinds: seq<Kind>, bs: seq<Batch>, ios: nat -> Spec.IO)
    returns (r: Spec.Outcome, ghost outs: seq<Spec.Outcome>)
    requires WritersReady(ms, host) && |bs| == |kinds|
    requires forall i :: 0 <= i < |kinds| ==> kinds[i] in ms
    requires forall i, j :: 0 <= i < j < |kinds| ==> kinds[i] != kinds[j]
    modifies ms.Values, host
    ensures forall k :: k in ms ==> ms[k].Valid()
    ensures |outs| == |kinds| && r == FirstError(outs)
    ensures forall i :: 0 <= i < |kinds| ==> Wrote(ms[kinds[i]], bs[i], ios(i), outs[i])
    ensures forall k :: k in ms && k !in kinds ==> unchanged(ms[k])
  {
    var ws := seq(|kinds|, i requires 0 <= i < |kinds| && kinds[i] in ms => ms[kinds[i]]);
    r, outs := WriteAll(ws, host, bs, ios);
    forall k | k in ms && k !in kinds ensures unchanged(ms[k]) && ms[k] !in ws { }
    forall k | k in ms ensures ms[k].Valid() {
      if k in kinds {
        var i :| 0 <= i < |kinds| && kinds[i] == k;
        assert ws[i] == ms[k];
      }
    }
  }

  /** The batch of one table. */
  function BatchOf(md: MetricsRows.Tree, kind: Kind, id: nat): Batch {
    Batch(id, |MetricsRows.TreeRows(kind, md)|)
  }

  method TableBatches(md: MetricsRows.Tree, id: nat) returns (kinds: seq<Kind>, bs: seq<Batch>)
    ensures forall i, j :: 0 <= i < j < |kinds| ==> kinds[i] != kinds[j]
    ensures forall k: Kind :: k in kinds <==> MetricsRows.TreeRows(k, md) != []
    ensures |bs| == |kinds| && forall i :: 0 <= i < |kinds| ==> bs[i] == BatchOf(md, kinds[i], id)
  {
    var recs := MetricsTable.MetricsToRecords(md);
    kinds := InSomeOrder(recs.Keys);
    bs := seq(|kinds|, i requires 0 <= i < |kinds| && kinds[i] in recs => Batch(id, recs[kinds[i]].rows));
  }

  method WriteKinds(e: ParquetExporter, kinds: seq<Kind>, bs: seq<Batch>, ios: nat -> Spec.IO)
    returns (r: Spec.Outcome, ghost outs: seq<Spec.Outcome>)
    requires e.Valid() && |bs| == |kinds|
    requires forall i :: 0 <= i < |kinds| ==> kinds[i] in e.metrics
    requires forall i, j :: 0 <= i < j < |kinds| ==> kinds[i] != kinds[j]
    modifies e.metrics.Values, e.host
    ensures e.Valid() && |outs| == |kinds| && r == FirstError(outs)
    ensures forall i :: 0 <= i < |kinds| ==> Wrote(e.metrics[kinds[i]], bs[i], ios(i), outs[i])
    ensures forall k :: k in e.metrics && k !in kinds ==> unchanged(e.metrics[k])
  {
    r, outs := WriteTables(e.metrics, e.host, kinds, bs, ios);
  }

  /** Every table with rows is attempted, whatever the others report, and no other writer is touched;
      the first error is returned. */
  method PushMetrics(e: ParquetExporter, md: MetricsRows.Tree, id: nat, ios: nat -> Spec.IO)
    returns (r: Spec.Outcome, ghost order: seq<Kind>, ghost outs: seq<Spec.Outcome>)
    requires e.Valid() && e.metrics.Keys == ALL_KINDS
    modifies e.metrics.Values, e.host
    ensures e.Valid() && |outs| == |order| && r == FirstError(outs)
    ensures forall i, j :: 0 <= i < j < |order| ==> order[i] != order[j]
    ensures forall k: Kind :: k in e.metrics && (k in order <==> MetricsRows.TreeRows(k, md) != [])
    ensures forall i :: 0 <= i < |order| ==> Wrote(e.metrics[order[i]], BatchOf(md, order[i], id), ios(i), outs[i])
    ensures forall k: Kind :: k !in order ==> unchanged(e.metrics[k])
  {
    forall k: Kind ensures k in e.metrics { KindsAreAll(k); }
    var kinds, bs := TableBatches(md, id);
    order := kinds;
    r, outs := WriteKinds(e, kinds, bs, ios);
  }
}
