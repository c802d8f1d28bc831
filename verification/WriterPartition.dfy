/** How the batches of a writer are cut into files. */
module WriterPartition {
  import opened Disk
  import opened WriterSpec
  import opened WriterInvariant
  import opened WriterSteps
  import opened WriterOps
  import opened WriterAccounts
  import opened WriterProcess

  /* ---- no file overfills ---- */

  /** Without its last batch the file has fewer than `max` rows. */
  predicate JustFull(bs: seq<Batch>, max: nat) {
    bs == [] || SumRows(bs[..|bs| - 1]) < max
  }

  ghost predicate Filled(cfg: Config, w: Writer) {
    && (forall j :: 0 <= j < |w.recs| ==> JustFull(w.recs[j].batches, cfg.maxRows))
    && (w.isOpen ==> w.recs != [] && SumRows(Last(w.recs).batches) < cfg.maxRows)
  }

  lemma RotateFilled(cfg: Config, w: Writer, m: Machine, io: IO)
    requires OnlyLastOpen(w)
    requires forall j :: 0 <= j < |w.recs| ==> JustFull(w.recs[j].batches, cfg.maxRows)
    ensures Filled(cfg, RotateLocked(w, m, io).w) || (!w.isOpen && RotateLocked(w, m, io).w == w)
  {
  }

  lemma WriteOpenFilled(cfg: Config, w: Writer, m: Machine, b: Batch, io: IO)
    requires OnlyLastOpen(w) && w.isOpen && Filled(cfg, w)
    ensures Filled(cfg, WriteOpen(cfg, w, m, b, io).w)
  {
    if !io.writeFails {
      var last, w1 := Last(w.recs), Put(w, b);
      assert (last.batches + [b])[..|last.batches|] == last.batches;
      PutTarget(w, m, b, io);
      PutOpen(w, b);
      RotateFilled(cfg, w1, Do(m, Append(w.partPath, Rows(b))), io);
    }
  }

  lemma WriteFilled(cfg: Config, w: Writer, m: Machine, b: Batch, io: IO)
    requires OnlyLastOpen(w) && Filled(cfg, w) && cfg.maxRows > 0
    ensures Filled(cfg, Write(cfg, w, m, b, io).w)
  {
    if w.isOpen {
      WriteOpenFilled(cfg, w, m, b, io);
    } else {
      var s := OpenLocked(w, m, io);
      if s.r.Done? {
        OpenIsLast(w, s.w, Last(s.w.recs));
        WriteOpenFilled(cfg, s.w, s.m, b, io);
      }
    }
  }

  ghost predicate AllFilled(cfg: Config, p: Process) {
    forall i :: 0 <= i < |p.ws| ==> Filled(cfg, p.ws[i])
  }

  lemma NextFilled(cfg: Config, p: Process, a: Action)
    requires Writers(p) && Enabled(p, a) && cfg.maxRows > 0 && AllFilled(cfg, p)
    ensures AllFilled(cfg, Next(cfg, p, a))
  {
    if a.On? {
      var w := p.ws[a.i];
      assert Holds(w, p.m) && Filled(cfg, w);
      match a.op
      case Push(rows) => WriteFilled(cfg, w, p.m, Batch(|p.sent|, rows), a.io);
      case _ => RotateFilled(cfg, w, p.m, a.io);
    }
  }

  /** Whatever fails, every file without its last batch stays below the row limit, and the open
      file stays below it altogether. */
  lemma {:induction false} NoFileOverfills(
    cfg: Config, dirs: seq<string>, d0: Files, sc: Scope, now: int, run: seq<Action>)
    requires Startable(d0, sc) && Scoped(sc, dirs, run)
    requires ValidRun(cfg, Start(dirs, d0, now, cfg), run) && cfg.maxRows > 0
    ensures AllFilled(cfg, Run(cfg, Start(dirs, d0, now, cfg), run))
  {
    if run != [] {
      var before := run[..|run| - 1];
      NoFileOverfills(cfg, dirs, d0, sc, now, before);
      Reachable(cfg, dirs, d0, sc, now, before);
      NextFilled(cfg, Run(cfg, Start(dirs, d0, now, cfg), before), run[|run| - 1]);
    }
  }

  /* ---- fault-free runs ---- */

  /** The batches sent to writer `i`, in order. */
  function SentTo(sent: seq<Sent>, i: nat): seq<Batch> {
    if sent == [] then [] else
    var n := |sent| - 1;
    SentTo(sent[..n], i) + if sent[n].to == i then [Batch(n, sent[n].rows)] else []
  }

  /** Nothing fails on writer `i`; anything may fail on the others. */
  predicate FaultFreeOn(run: seq<Action>, i: nat) {
    forall k :: 0 <= k < |run| && run[k].On? && run[k].i == i ==> FaultFree(run[k].io)
  }

  /** Nothing was lost or refused: all files but the open one are published. */
  ghost predicate Clean(w: Writer) {
    && w.refused == {}
    && forall j :: 0 <= j < |w.recs| && !(w.isOpen && j == |w.recs| - 1) ==> w.recs[j].status == Published
  }

  lemma CleanRotate(w: Writer, m: Machine, io: IO)
    requires OnlyLastOpen(w) && Clean(w) && FaultFree(io)
    ensures Clean(RotateLocked(w, m, io).w) && RotateLocked(w, m, io).r.Done?
  {
  }

  lemma CleanWriteOpen(cfg: Config, w: Writer, m: Machine, b: Batch, io: IO)
    requires OnlyLastOpen(w) && w.isOpen && Clean(w) && FaultFree(io)
    ensures Clean(WriteOpen(cfg, w, m, b, io).w) && WriteOpen(cfg, w, m, b, io).r.Done?
  {
    PutTarget(w, m, b, io);
    PutOpen(w, b);
    CleanRotate(Put(w, b), Do(m, Append(w.partPath, Rows(b))), io);
  }

  lemma CleanWrite(cfg: Config, w: Writer, m: Machine, b: Batch, io: IO)
    requires OnlyLastOpen(w) && Clean(w) && FaultFree(io)
    ensures Clean(Write(cfg, w, m, b, io).w) && Write(cfg, w, m, b, io).r.Done?
  {
    if w.isOpen {
      CleanWriteOpen(cfg, w, m, b, io);
    } else {
      var s := OpenLocked(w, m, io);
      OpenIsLast(w, s.w, Last(s.w.recs));
      CleanWriteOpen(cfg, s.w, s.m, b, io);
    }
  }

  lemma SentToSnoc(sent: seq<Sent>, s: Sent, i: nat)
    ensures SentTo(sent + [s], i) == SentTo(sent, i) + if s.to == i then [Batch(|sent|, s.rows)] else []
  {
    assert (sent + [s])[..|sent|] == sent;
  }

  lemma StepClean(cfg: Config, p: Process, a: Action)
    requires Enabled(p, a) && a.On? && FaultFree(a.io)
    requires OnlyLastOpen(p.ws[a.i]) && Clean(p.ws[a.i])
    ensures Clean(StepOf(cfg, p, a).w) && StepOf(cfg, p, a).r.Done?
  {
    var w := p.ws[a.i];
    match a.op
    case Push(rows) => CleanWrite(cfg, w, p.m, Batch(|p.sent|, rows), a.io);
    case _ => CleanRotate(w, p.m, a.io);
  }

  /** Without faults of its own a writer loses, refuses and reorders nothing: its published files in
      the order they were published, followed by its open file, concatenate to exactly what was sent
      to it, whatever happens to the other writers. */
  lemma {:induction false} FaultFreeRunsLoseNothing(cfg: Config, dirs: seq<string>, d0: Files, sc: Scope, now: int,
                                                    run: seq<Action>, i: nat)
    requires Startable(d0, sc) && Scoped(sc, dirs, run) && ValidRun(cfg, Start(dirs, d0, now, cfg), run)
    requires FaultFreeOn(run, i) && i < |dirs|
    ensures var p := Run(cfg, Start(dirs, d0, now, cfg), run);
            i < |p.ws| && Clean(p.ws[i]) && Flat(p.ws[i].recs) == p.ws[i].appended == SentTo(p.sent, i)
  {
    Reachable(cfg, dirs, d0, sc, now, run);
    WriterCount(cfg, Start(dirs, d0, now, cfg), run);
    assert Holds(Run(cfg, Start(dirs, d0, now, cfg), run).ws[i], Run(cfg, Start(dirs, d0, now, cfg), run).m);
    if run != [] {
      var before := run[..|run| - 1];
      assert FaultFreeOn(before, i);
      FaultFreeRunsLoseNothing(cfg, dirs, d0, sc, now, before, i);
      Reachable(cfg, dirs, d0, sc, now, before);
      CleanStep(d0, sc, cfg, Run(cfg, Start(dirs, d0, now, cfg), before), run[|run| - 1], i);
    }
  }

  lemma CleanStep(d0: Files, sc: Scope, cfg: Config, p: Process, a: Action, i: nat)
    requires Startable(d0, sc) && Inv(d0, sc, p) && Enabled(p, a) && (a.On? ==> a.io.nanos in sc.readings)
    requires i < |p.ws| && Clean(p.ws[i]) && p.ws[i].appended == SentTo(p.sent, i)
    requires a.On? && a.i == i ==> FaultFree(a.io)
    ensures var p' := Next(cfg, p, a); Clean(p'.ws[i]) && p'.ws[i].appended == SentTo(p'.sent, i)
  {
    if a.On? {
      assert Holds(p.ws[a.i], p.m);
      InvSteppable(d0, sc, p, a);
      StepFacts(d0, cfg, p, a);
      if a.i == i { StepClean(cfg, p, a); }
      StepSent(d0, cfg, p, a, i);
    }
  }

  /** What was sent to the writer is in its ledger, if nothing was refused. */
  lemma StepSent(d0: Files, cfg: Config, p: Process, a: Action, i: nat)
    requires Enabled(p, a) && a.On? && Stepped(d0, cfg, p, a) && i < |p.ws| && p.ws[i].appended == SentTo(p.sent, i)
    requires a.i == i ==> StepOf(cfg, p, a).r.Done?
    ensures Next(cfg, p, a).ws[i].appended == SentTo(Next(cfg, p, a).sent, i)
  {
    if a.op.Push? { SentToSnoc(p.sent, Sent(a.i, a.op.rows), i); }
  }
}
