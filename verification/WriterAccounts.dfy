/** What each operation adds to the ledger. */
module WriterAccounts {
  import opened FileNames
  import opened Disk
  import opened WriterSpec
  import opened WriterInvariant
  import opened WriterSteps
  import opened WriterOps

  /** Rows in the files with a given fate. */
  function RowsIn(recs: seq<Rec>, status: Status): nat {
    if recs == [] then 0 else
    RowsIn(recs[..|recs| - 1], status) + if Last(recs).status == status then SumRows(Last(recs).batches) else 0
  }

  /** The ledger only grows at its end: old files keep their names, at most one file is added, and
      its number is the next value of the process-wide counter. */
  ghost predicate Extends(w: Writer, m: Machine, io: IO, s: Step)
    requires WellFormed(w)
  {
    && |w.recs| <= |s.w.recs| <= |w.recs| + (if w.isOpen then 0 else 1)
    && (forall j :: 0 <= j < |w.recs| ==> s.w.recs[j].num == w.recs[j].num && s.w.recs[j].nanos == w.recs[j].nanos)
    && (|s.w.recs| > |w.recs| ==>
          Last(s.w.recs).num == m.counter + 1 == s.m.counter && Last(s.w.recs).nanos == io.nanos)
    && ((s.m.disk == m.disk && s.m.calls == m.calls)
        || (s.w.recs != [] && PathOf(w.dir, Last(s.w.recs)) == Target(w, m, io)))
    && (!w.isOpen && s.m.counter == m.counter ==> s.m.disk == m.disk)
    && Counted(w, m, s)
  }

  /** The counter grows by the rows of what is published. */
  ghost predicate Counted(w: Writer, m: Machine, s: Step) {
    s.m.rowsWritten + RowsIn(w.recs, Published) == m.rowsWritten + RowsIn(s.w.recs, Published)
  }

  lemma RowsInSetLast(recs: seq<Rec>, r: Rec, status: Status)
    requires recs != []
    ensures RowsIn(SetLast(recs, r), status)
         == RowsIn(recs[..|recs| - 1], status) + if r.status == status then SumRows(r.batches) else 0
  {
    assert SetLast(recs, r)[..|recs| - 1] == recs[..|recs| - 1];
  }

  lemma RotateExtends(w: Writer, m: Machine, io: IO)
    requires OnlyLastOpen(w) && (w.isOpen ==> |w.partPath| > |PART|)
    ensures Extends(w, m, io, RotateLocked(w, m, io))
    ensures RotateLocked(w, m, io).w.appended == w.appended
    ensures RotateLocked(w, m, io).w.refused == w.refused
  {
    if w.isOpen {
      RotateCounted(w, m, io);
      RotateNames(w, m, io, RotateLocked(w, m, io));
    }
  }

  /** The files keep their names, and only the last was worked on. */
  lemma RotateNames(w: Writer, m: Machine, io: IO, s: Step)
    requires OnlyLastOpen(w) && w.isOpen && |w.partPath| > |PART| && s == RotateLocked(w, m, io)
    ensures |s.w.recs| == |w.recs| && PathOf(w.dir, Last(s.w.recs)) == Target(w, m, io)
    ensures forall j :: 0 <= j < |w.recs| ==>
      s.w.recs[j].num == w.recs[j].num && s.w.recs[j].nanos == w.recs[j].nanos
  {
    var r := Last(w.recs).(status := if RotateOutcome(io).Done? then Published else Orphan);
    assert s.w.recs == SetLast(w.recs, r);
  }

  lemma RotateCounted(w: Writer, m: Machine, io: IO)
    requires OnlyLastOpen(w) && w.isOpen && |w.partPath| > |PART|
    ensures Counted(w, m, RotateLocked(w, m, io))
  {
    var r := Last(w.recs).(status := if RotateOutcome(io).Done? then Published else Orphan);
    assert RotateLocked(w, m, io).w.recs == SetLast(w.recs, r);
    RowsInSetLast(w.recs, r, Published);
    RotateMachineCounts(m, w.partPath, io);
  }

  lemma RotateMachineCounts(m: Machine, part: string, io: IO)
    requires |part| > |PART|
    ensures RotateMachine(m, part, io).rowsWritten == m.rowsWritten
  {
  }

  lemma OpenExtends(w: Writer, m: Machine, io: IO)
    requires OnlyLastOpen(w) && !w.isOpen
    ensures Extends(w, m, io, OpenLocked(w, m, io))
  {
    var s := OpenLocked(w, m, io);
    if !io.createFails {
      assert s.w.recs[..|w.recs|] == w.recs;
    }
  }

  lemma PutExtends(w: Writer, m: Machine, b: Batch, io: IO)
    requires OnlyLastOpen(w) && w.isOpen
    ensures Extends(w, m, io, Step(Put(w, b), Do(m, Append(w.partPath, Rows(b))), Done))
  {
    RowsInSetLast(w.recs, Last(Put(w, b).recs), Published);
  }

  lemma ComposeExtends(w: Writer, m: Machine, io: IO, s1: Step, s2: Step)
    requires WellFormed(w) && WellFormed(s1.w) && s1.w.isOpen && s1.w.dir == w.dir
    requires Extends(w, m, io, s1) && Extends(s1.w, s1.m, io, s2)
    requires Target(s1.w, s1.m, io) == Target(w, m, io)
    requires |s2.w.recs| == |s1.w.recs| && s2.m.counter == s1.m.counter
    requires w.isOpen || s1.m.counter == m.counter + 1
    ensures Extends(w, m, io, s2)
  {
  }

  lemma WriteOpenExtends(cfg: Config, w: Writer, m: Machine, b: Batch, io: IO)
    requires OnlyLastOpen(w) && w.isOpen
    ensures var s := WriteOpen(cfg, w, m, b, io);
            Extends(w, m, io, s) && |s.w.recs| == |w.recs| && s.m.counter == m.counter
  {
    if !io.writeFails {
      var s1 := Step(Put(w, b), Do(m, Append(w.partPath, Rows(b))), Done);
      PutExtends(w, m, b, io);
      PutTarget(w, m, b, io);
      PutTarget(w, s1.m, b, io);
      PutOpen(w, b);
      RotateAfterPut(w, m, s1, io);
    }
  }

  lemma RotateAfterPut(w: Writer, m: Machine, s1: Step, io: IO)
    requires OnlyLastOpen(w) && w.isOpen && OnlyLastOpen(s1.w) && s1.w.isOpen && s1.w.dir == w.dir
    requires Extends(w, m, io, s1) && |s1.w.recs| == |w.recs| && s1.m.counter == m.counter
    requires Target(s1.w, s1.m, io) == Target(w, m, io)
    ensures var s := RotateLocked(s1.w, s1.m, io);
      Extends(w, m, io, s) && |s.w.recs| == |w.recs| && s.m.counter == m.counter
  {
    RotateExtends(s1.w, s1.m, io);
    ComposeExtends(w, m, io, s1, RotateLocked(s1.w, s1.m, io));
  }

  lemma PutOpen(w: Writer, b: Batch)
    requires OnlyLastOpen(w) && w.isOpen
    ensures OnlyLastOpen(Put(w, b))
  {
    var last := Last(w.recs);
    assert (last.batches + [b])[..|last.batches|] == last.batches;
  }

  lemma WriteExtends(cfg: Config, w: Writer, m: Machine, b: Batch, io: IO)
    requires OnlyLastOpen(w)
    ensures Extends(w, m, io, Write(cfg, w, m, b, io))
    ensures Written(w, Write(cfg, w, m, b, io).w, b, Write(cfg, w, m, b, io).r)
  {
    WriteIsWritten(cfg, w, m, b, io);
    if w.isOpen {
      WriteOpenExtends(cfg, w, m, b, io);
    } else {
      var s1 := OpenLocked(w, m, io);
      OpenExtends(w, m, io);
      if s1.r.Done? {
        OpenTarget(w, m, io);
        OpenIsLast(w, s1.w, Last(s1.w.recs));
        WriteOpenExtends(cfg, s1.w, s1.m, b, io);
        ComposeExtends(w, m, io, s1, WriteOpen(cfg, s1.w, s1.m, b, io));
      }
    }
  }

  lemma AgeExtends(cfg: Config, w: Writer, m: Machine, io: IO)
    requires OnlyLastOpen(w)
    ensures var s := MaybeRotateForAge(cfg, w, m, io);
            Extends(w, m, io, s) && s.w.appended == w.appended && s.w.refused == w.refused
  {
    RotateExtends(w, m, io);
  }

  /** Rows are conserved: whatever was appended is published, still open, or orphaned. */
  lemma {:induction false} RowsConserved(recs: seq<Rec>)
    ensures SumRows(Flat(recs)) == RowsIn(recs, Published) + RowsIn(recs, Open) + RowsIn(recs, Orphan)
  {
    if recs != [] {
      RowsConserved(recs[..|recs| - 1]);
      SumRowsConcat(Flat(recs[..|recs| - 1]), Last(recs).batches);
    }
  }

  /** Where a batch of file `j` sits in the ledger. */
  function Offset(recs: seq<Rec>, j: nat): nat
    requires j <= |recs|
  {
    |Flat(recs[..j])|
  }

  lemma {:induction false} FlatAt(recs: seq<Rec>, j: nat, k: nat)
    requires j < |recs| && k < |recs[j].batches|
    ensures Offset(recs, j) + k < Offset(recs, j + 1) <= |Flat(recs)|
    ensures Flat(recs)[Offset(recs, j) + k] == recs[j].batches[k]
  {
    var init := recs[..|recs| - 1];
    assert recs[..j + 1][..j] == recs[..j];
    if j == |recs| - 1 {
      assert recs[..j + 1] == recs;
    } else {
      FlatAt(init, j, k);
      assert init[..j] == recs[..j] && init[..j + 1] == recs[..j + 1];
    }
  }

  lemma {:induction false} OffsetMonotone(recs: seq<Rec>, i: nat, j: nat)
    requires i <= j <= |recs|
    ensures Offset(recs, i) <= Offset(recs, j)
  {
    if i < j {
      OffsetMonotone(recs, i, j - 1);
      assert recs[..j][..j - 1] == recs[..j - 1];
    }
  }

  lemma {:induction false} FlatFind(recs: seq<Rec>, b: Batch) returns (j: nat, k: nat)
    requires b in Flat(recs)
    ensures j < |recs| && k < |recs[j].batches| && recs[j].batches[k] == b
  {
    if b in Last(recs).batches {
      j := |recs| - 1;
      k :| 0 <= k < |Last(recs).batches| && Last(recs).batches[k] == b;
    } else {
      j, k := FlatFind(recs[..|recs| - 1], b);
    }
  }

  /** Ledger positions are told apart by file and index. */
  lemma FlatSamePosition(recs: seq<Rec>, j: nat, k: nat, j': nat, k': nat)
    requires j < |recs| && k < |recs[j].batches| && j' < |recs| && k' < |recs[j'].batches|
    requires Offset(recs, j) + k == Offset(recs, j') + k'
    ensures j == j' && k == k'
  {
    FlatAt(recs, j, k);
    FlatAt(recs, j', k');
    if j < j' {
      OffsetMonotone(recs, j + 1, j');
    } else if j' < j {
      OffsetMonotone(recs, j' + 1, j);
    }
  }
}
