/** What a stop loses. Closing every writer publishes all rows exactly if no rotation of a file with
    rows failed on the way. */
module WriterStop {
  import opened Disk
  import opened WriterSpec
  import opened WriterInvariant
  import opened WriterSteps
  import opened WriterOps
  import opened WriterAccounts
  import opened WriterProcess
  import opened WriterTheorems
  import opened WriterAge

  /** The rows in the open file, counting those the operation appends. */
  function RowsHeld(w: Writer, op: Operation): nat {
    (if w.isOpen then w.rows else 0) + if op.Push? then op.rows else 0
  }

  /** The operation comes to rotating a file that holds rows. */
  predicate RotatesRows(cfg: Config, w: Writer, op: Operation, io: IO) {
    && RowsHeld(w, op) > 0
    && match op
       case Push(_) =>
         && (w.isOpen || (!io.createFails && !io.newWriterFails)) && !io.writeFails
         && (RowsHeld(w, op) >= cfg.maxRows || (if io.size.Some? then io.size.value else 0) >= cfg.maxBytes)
       case AgeCheck => w.isOpen && io.now - w.openedAt >= cfg.flushInterval
       case Close => w.isOpen
  }

  /** And the footer, the sync, the close or the rename fails. */
  predicate Strands(cfg: Config, w: Writer, op: Operation, io: IO) {
    && RotatesRows(cfg, w, op, io)
    && (!io.footer.FooterWritten? || io.syncFails || io.closeFails || io.renameFails)
  }

  predicate StrandsOn(cfg: Config, p: Process, a: Action, i: nat) {
    a.On? && a.i == i && i < |p.ws| && Strands(cfg, p.ws[i], a.op, a.io)
  }

  /** No operation of writer `i` in the run strands rows. */
  predicate NeverStrands(cfg: Config, p: Process, run: seq<Action>, i: nat)
    requires ValidRun(cfg, p, run)
  {
    run == [] || (
      var before := run[..|run| - 1];
      NeverStrands(cfg, p, before, i) && !StrandsOn(cfg, Run(cfg, p, before), run[|run| - 1], i))
  }

  function Stranded(w: Writer): nat {
    RowsIn(w.recs, Orphan)
  }

  lemma RotateStrands(w: Writer, m: Machine, io: IO)
    requires OnlyLastOpen(w) && w.isOpen
    ensures Stranded(RotateLocked(w, m, io).w) == Stranded(w) + if RotateOutcome(io).Done? then 0 else w.rows
  {
    var r := Last(w.recs).(status := if RotateOutcome(io).Done? then Published else Orphan);
    assert RotateLocked(w, m, io).w.recs == SetLast(w.recs, r);
    RowsInSetLast(w.recs, r, Orphan);
  }

  lemma PutStrands(w: Writer, b: Batch)
    requires OnlyLastOpen(w) && w.isOpen
    ensures Stranded(Put(w, b)) == Stranded(w) && Put(w, b).rows == w.rows + b.rows
  {
    RowsInSetLast(w.recs, Last(Put(w, b).recs), Orphan);
  }

  lemma WriteOpenStrands(cfg: Config, w: Writer, m: Machine, b: Batch, io: IO)
    requires OnlyLastOpen(w) && w.isOpen
    ensures Stranded(WriteOpen(cfg, w, m, b, io).w) > Stranded(w) <==> Strands(cfg, w, Push(b.rows), io)
    ensures Stranded(WriteOpen(cfg, w, m, b, io).w) >= Stranded(w)
  {
    PutStrands(w, b);
    PutTarget(w, m, b, io);
    PutOpen(w, b);
    RotateStrands(Put(w, b), Do(m, Append(w.partPath, Rows(b))), io);
  }

  lemma OpenStrands(w: Writer, m: Machine, io: IO)
    requires OnlyLastOpen(w) && !w.isOpen
    ensures Stranded(OpenLocked(w, m, io).w) == Stranded(w)
    ensures OpenLocked(w, m, io).r.Done? <==> !io.createFails && !io.newWriterFails
  {
    var s := OpenLocked(w, m, io);
    if !io.createFails { assert s.w.recs[..|s.w.recs| - 1] == w.recs; }
  }

  lemma WriteStrands(cfg: Config, w: Writer, m: Machine, b: Batch, io: IO)
    requires OnlyLastOpen(w)
    ensures Stranded(Write(cfg, w, m, b, io).w) > Stranded(w) <==> Strands(cfg, w, Push(b.rows), io)
    ensures Stranded(Write(cfg, w, m, b, io).w) >= Stranded(w)
  {
    if w.isOpen {
      WriteOpenStrands(cfg, w, m, b, io);
    } else {
      var s := OpenLocked(w, m, io);
      OpenStrands(w, m, io);
      if s.r.Done? {
        OpenIsLast(w, s.w, Last(s.w.recs));
        WriteOpenStrands(cfg, s.w, s.m, b, io);
      }
    }
  }

  lemma StepStrands(cfg: Config, p: Process, a: Action, i: nat)
    requires Writers(p) && Enabled(p, a) && i < |p.ws|
    ensures var w, w' := p.ws[i], Next(cfg, p, a).ws[i];
            Stranded(w') >= Stranded(w) && (Stranded(w') > Stranded(w) <==> StrandsOn(cfg, p, a, i))
  {
    if a.On? && a.i == i {
      assert Holds(p.ws[i], p.m);
      match a.op
      case Push(rows) => WriteStrands(cfg, p.ws[i], p.m, Batch(|p.sent|, rows), a.io);
      case _ => if p.ws[i].isOpen { RotateStrands(p.ws[i], p.m, a.io); }
    }
  }

  /** Rows are in orphans exactly if some operation stranded them. */
  lemma {:induction false} StrandedIff(
    cfg: Config, dirs: seq<string>, d0: Files, sc: Scope, now: int, run: seq<Action>, i: nat)
    requires Startable(d0, sc) && Scoped(sc, dirs, run) && ValidRun(cfg, Start(dirs, d0, now, cfg), run) && i < |dirs|
    ensures i < |Run(cfg, Start(dirs, d0, now, cfg), run).ws|
    ensures Stranded(Run(cfg, Start(dirs, d0, now, cfg), run).ws[i]) == 0
       <==> NeverStrands(cfg, Start(dirs, d0, now, cfg), run, i)
  {
    WriterCount(cfg, Start(dirs, d0, now, cfg), run);
    if run != [] {
      var before := run[..|run| - 1];
      StrandedIff(cfg, dirs, d0, sc, now, before, i);
      Reachable(cfg, dirs, d0, sc, now, before);
      StepStrands(cfg, Run(cfg, Start(dirs, d0, now, cfg), before), run[|run| - 1], i);
    }
  }

  lemma {:induction false} NoneOpen(recs: seq<Rec>)
    requires forall j :: 0 <= j < |recs| ==> recs[j].status != Open
    ensures RowsIn(recs, Open) == 0
  {
    if recs != [] { NoneOpen(recs[..|recs| - 1]); }
  }

  /** Once a writer is closed, all the rows it ever appended are in published files if and only if no
      rotation of a file with rows had its footer, sync, close or rename fail. */
  lemma ClosedWriterKeepsAllIff(
    cfg: Config, dirs: seq<string>, d0: Files, sc: Scope, now: int, run: seq<Action>, i: nat)
    requires Startable(d0, sc) && Scoped(sc, dirs, run) && ValidRun(cfg, Start(dirs, d0, now, cfg), run) && i < |dirs|
    requires var p := Run(cfg, Start(dirs, d0, now, cfg), run); i < |p.ws| && !p.ws[i].isOpen
    ensures var w := Run(cfg, Start(dirs, d0, now, cfg), run).ws[i];
      SumRows(w.appended) == RowsIn(w.recs, Published) <==> NeverStrands(cfg, Start(dirs, d0, now, cfg), run, i)
  {
    var p := Run(cfg, Start(dirs, d0, now, cfg), run);
    Reachable(cfg, dirs, d0, sc, now, run);
    assert Holds(p.ws[i], p.m);
    RowsConserved(p.ws[i].recs);
    NoneOpen(p.ws[i].recs);
    StrandedIff(cfg, dirs, d0, sc, now, run, i);
  }

  /** All rows ever appended. */
  function TotalAppended(ws: seq<Writer>): nat {
    if ws == [] then 0 else TotalAppended(ws[..|ws| - 1]) + SumRows(ws[|ws| - 1].appended)
  }

  lemma {:induction false} TotalsEqualIff(ws: seq<Writer>)
    requires forall i :: 0 <= i < |ws| ==> RowsIn(ws[i].recs, Published) <= SumRows(ws[i].appended)
    ensures TotalPublished(ws) <= TotalAppended(ws)
    ensures TotalPublished(ws) == TotalAppended(ws)
       <==> forall i :: 0 <= i < |ws| ==> SumRows(ws[i].appended) == RowsIn(ws[i].recs, Published)
  {
    if ws != [] {
      var init, last := ws[..|ws| - 1], |ws| - 1;
      TotalsEqualIff(init);
      assert forall i :: 0 <= i < |init| ==> ws[i] == init[i];
      if TotalPublished(init) == TotalAppended(init) {
        forall i | 0 <= i < last ensures SumRows(ws[i].appended) == RowsIn(ws[i].recs, Published) {
          assert ws[i] == init[i];
        }
      }
    }
  }

  ghost predicate NothingStrands(cfg: Config, p0: Process, run: seq<Action>)
    requires ValidRun(cfg, p0, run)
  {
    forall i :: 0 <= i < |p0.ws| ==> NeverStrands(cfg, p0, run, i)
  }

  ghost predicate AllPublished(ws: seq<Writer>) {
    forall i :: 0 <= i < |ws| ==> SumRows(ws[i].appended) == RowsIn(ws[i].recs, Published)
  }

  lemma PublishedAtMost(ws: seq<Writer>, m: Machine)
    requires forall i :: 0 <= i < |ws| ==> Holds(ws[i], m)
    ensures TotalPublished(ws) == TotalAppended(ws) <==> AllPublished(ws)
  {
    forall i | 0 <= i < |ws| ensures RowsIn(ws[i].recs, Published) <= SumRows(ws[i].appended) {
      assert Holds(ws[i], m);
      RowsConserved(ws[i].recs);
    }
    TotalsEqualIff(ws);
  }

  /** A stop that has closed every writer has lost nothing - the rows-written counter is all rows ever
      appended - if and only if no rotation of a file with rows failed, on the stop or before. */
  lemma StopLosesNothingIff(cfg: Config, dirs: seq<string>, d0: Files, sc: Scope, now: int, run: seq<Action>,
                            p0: Process, p: Process)
    requires Startable(d0, sc) && Scoped(sc, dirs, run)
    requires p0 == Start(dirs, d0, now, cfg) && ValidRun(cfg, p0, run) && p == Run(cfg, p0, run)
    requires forall i :: 0 <= i < |p.ws| ==> !p.ws[i].isOpen
    ensures p.m.rowsWritten == TotalAppended(p.ws) <==> NothingStrands(cfg, p0, run)
  {
    WriterCount(cfg, p0, run);
    Reachable(cfg, dirs, d0, sc, now, run);
    PublishedAtMost(p.ws, p.m);
    forall i | 0 <= i < |p.ws|
      ensures (SumRows(p.ws[i].appended) == RowsIn(p.ws[i].recs, Published)) <==> NeverStrands(cfg, p0, run, i)
    {
      ClosedWriterKeepsAllIff(cfg, dirs, d0, sc, now, run, i);
    }
  }

  /** A stop that loses a row: one row is pushed and the rename fails when the writer is closed. */
  lemma StopCanLose(cfg: Config, dir: string, d0: Files, now: int) returns (run: seq<Action>)
    requires ValidConfig(cfg) && cfg.maxRows > 1
    ensures ValidRun(cfg, Start([dir], d0, now, cfg), run)
    ensures var p := Run(cfg, Start([dir], d0, now, cfg), run);
      && |p.ws| == 1 && !p.ws[0].isOpen && p.stop.Waited?
      && p.ws[0].appended == [Batch(0, 1)] && p.ws[0].refused == {} && RowsIn(p.ws[0].recs, Published) == 0
  {
    var p0, io := Start([dir], d0, now, cfg), Quiet(now);
    assert p0.ws[0] == NewWriter(dir);
    assert io == Opening(cfg, now);
    OneRow(cfg, p0.ws[0], p0.m, io);
    FirstPush(cfg, p0, [], io);
    var r1 := [] + [On(0, Push(1), io)];
    PushedOne(cfg, dir, p0.m, io);
    Extend(cfg, p0, r1, SignalDone);
    Extend(cfg, p0, r1 + [SignalDone], SeeDone);
    Extend(cfg, p0, r1 + [SignalDone] + [SeeDone], StopTicker);
    Extend(cfg, p0, r1 + [SignalDone] + [SeeDone] + [StopTicker], WaitOver);
    var r2 := r1 + [SignalDone] + [SeeDone] + [StopTicker] + [WaitOver];
    var w, m := Run(cfg, p0, r2).ws[0], Run(cfg, p0, r2).m;
    Extend(cfg, p0, r2, On(0, Close, io.(renameFails := true)));
    run := r2 + [On(0, Close, io.(renameFails := true))];
    CloseOrphans(w, m, io.(renameFails := true));
  }

  lemma PushedOne(cfg: Config, dir: string, m: Machine, io: IO)
    requires ValidConfig(cfg) && cfg.maxRows > 1 && FaultFree(io) && io.size.None?
    ensures var w := Write(cfg, NewWriter(dir), m, Batch(0, 1), io).w;
      && Ready(w) && w.isOpen && w.appended == [Batch(0, 1)] && w.refused == {}
      && |w.recs| == 1 && w.recs[0].batches == [Batch(0, 1)]
  {
  }

  lemma CloseOrphans(w: Writer, m: Machine, io: IO)
    requires Ready(w) && w.isOpen && |w.recs| == 1 && !RotateOutcome(io).Done?
    ensures var u := RotateLocked(w, m, io).w;
      !u.isOpen && u.appended == w.appended && u.refused == w.refused && RowsIn(u.recs, Published) == 0
  {
    var u := RotateLocked(w, m, io).w;
    assert u.recs[..0] == [] && |u.recs| == 1 && Last(u.recs).status == Orphan;
  }
}
