/** A writer whose files are closed by the row limit only makes the greedy partition of what it was
    sent: each file is the shortest run of batches that reaches the limit. */
module WriterGreedy {
  import opened Disk
  import opened WriterSpec
  import opened WriterInvariant
  import opened WriterSteps
  import opened WriterOps
  import opened WriterAccounts
  import opened WriterProcess
  import opened WriterTheorems
  import opened WriterPartition

  /** Definition independent of the writer: every file reaches the limit with its last batch and
      not before, and what is left does not reach it. */
  ghost predicate Greedy(files: seq<seq<Batch>>, rest: seq<Batch>, bs: seq<Batch>, max: nat) {
    && Concat(files) + rest == bs
    && SumRows(rest) < max
    && forall j :: 0 <= j < |files| ==> Reaches(files[j], max)
  }

  predicate Reaches(f: seq<Batch>, max: nat) {
    f != [] && SumRows(f[..|f| - 1]) < max <= SumRows(f)
  }

  function Concat(files: seq<seq<Batch>>): seq<Batch> {
    if files == [] then [] else files[0] + Concat(files[1..])
  }

  lemma {:induction false} ConcatSnoc(files: seq<seq<Batch>>, f: seq<Batch>)
    ensures Concat(files + [f]) == Concat(files) + f
  {
    if files == [] {
      assert files + [f] == [f];
      assert Concat([f][1..]) == [];
    } else {
      assert (files + [f])[1..] == files[1..] + [f];
      ConcatSnoc(files[1..], f);
    }
  }

  lemma PrefixRows(a: seq<Batch>, b: seq<Batch>)
    requires a <= b
    ensures SumRows(a) <= SumRows(b)
  {
    assert b == a + b[|a|..];
    SumRowsConcat(a, b[|a|..]);
  }

  /** Two prefixes of one sequence that both just reach the limit are the same. */
  lemma ReachOnce(f: seq<Batch>, g: seq<Batch>, bs: seq<Batch>, max: nat)
    requires f <= bs && g <= bs && Reaches(f, max) && Reaches(g, max)
    ensures f == g
  {
    if |f| < |g| {
      assert f <= g[..|g| - 1];
      PrefixRows(f, g[..|g| - 1]);
    } else if |g| < |f| {
      assert g <= f[..|f| - 1];
      PrefixRows(g, f[..|f| - 1]);
    }
  }

  /** There is only one greedy partition. */
  lemma {:induction false} GreedyIsUnique(f1: seq<seq<Batch>>, r1: seq<Batch>, f2: seq<seq<Batch>>, r2: seq<Batch>,
                                          bs: seq<Batch>, max: nat)
    requires Greedy(f1, r1, bs, max) && Greedy(f2, r2, bs, max)
    ensures f1 == f2 && r1 == r2
  {
    if f1 != [] && f2 != [] {
      assert bs == f1[0] + (Concat(f1[1..]) + r1) == f2[0] + (Concat(f2[1..]) + r2);
      ReachOnce(f1[0], f2[0], bs, max);
      var tail := bs[|f1[0]|..];
      assert tail == Concat(f1[1..]) + r1 == Concat(f2[1..]) + r2;
      GreedyIsUnique(f1[1..], r1, f2[1..], r2, tail, max);
      assert f1 == [f1[0]] + f1[1..] && f2 == [f2[0]] + f2[1..];
    } else if f1 != [] {
      assert bs == f1[0] + (Concat(f1[1..]) + r1) == r2;
      PrefixRows(f1[0], bs);
    } else if f2 != [] {
      assert bs == f2[0] + (Concat(f2[1..]) + r2) == r1;
      PrefixRows(f2[0], bs);
    } else {
      assert bs == r1 == r2;
    }
  }

  /* ---- the writer's files ---- */

  function BatchesOf(recs: seq<Rec>): (files: seq<seq<Batch>>)
    ensures |files| == |recs|
    ensures forall j :: 0 <= j < |recs| ==> files[j] == recs[j].batches
  {
    seq(|recs|, j requires 0 <= j < |recs| => recs[j].batches)
  }

  /** The files that are no longer open, and the batches of the open one. */
  function ClosedFiles(w: Writer): seq<seq<Batch>> {
    BatchesOf(if w.isOpen && w.recs != [] then w.recs[..|w.recs| - 1] else w.recs)
  }

  function OpenBatches(w: Writer): seq<Batch> {
    if w.isOpen && w.recs != [] then Last(w.recs).batches else []
  }

  lemma {:induction false} FlatIsConcat(recs: seq<Rec>)
    ensures Flat(recs) == Concat(BatchesOf(recs))
  {
    if recs != [] {
      var init := recs[..|recs| - 1];
      FlatIsConcat(init);
      assert BatchesOf(recs) == BatchesOf(init) + [Last(recs).batches];
      ConcatSnoc(BatchesOf(init), Last(recs).batches);
    }
  }

  lemma LedgerSplits(w: Writer)
    requires WellFormed(w)
    ensures Flat(w.recs) == Concat(ClosedFiles(w)) + OpenBatches(w)
  {
    if w.isOpen {
      FlatIsConcat(w.recs[..|w.recs| - 1]);
    } else {
      FlatIsConcat(w.recs);
    }
  }

  /** Nothing but the row limit closes a file of writer `i` here: its own operations do not fail and
      stay below the byte limit, and an age check finds its file younger than the interval. Other
      writers, time and ticks do as they please. */
  predicate ByRowsAt(cfg: Config, p: Process, a: Action, i: nat) {
    a.On? && a.i == i && i < |p.ws| ==>
      && FaultFree(a.io) && (a.io.size.Some? ==> a.io.size.value < cfg.maxBytes)
      && (a.op.Push? || (a.op.AgeCheck? && (p.ws[i].isOpen ==> a.io.now - p.ws[i].openedAt < cfg.flushInterval)))
  }

  predicate ByRows(cfg: Config, p: Process, run: seq<Action>, i: nat)
    requires ValidRun(cfg, p, run)
  {
    run == [] || (
      var before := run[..|run| - 1];
      ByRows(cfg, p, before, i) && ByRowsAt(cfg, Run(cfg, p, before), run[|run| - 1], i))
  }

  lemma {:induction false} ByRowsIsFaultFree(cfg: Config, p: Process, run: seq<Action>, i: nat)
    requires ValidRun(cfg, p, run) && ByRows(cfg, p, run, i) && i < |p.ws|
    ensures FaultFreeOn(run, i)
  {
    if run != [] {
      var before := run[..|run| - 1];
      ByRowsIsFaultFree(cfg, p, before, i);
      WriterCount(cfg, p, before);
      forall k | 0 <= k < |run| && run[k].On? && run[k].i == i ensures FaultFree(run[k].io) {
        if k < |before| {
          assert run[k] == before[k];
        } else {
          assert ByRowsAt(cfg, Run(cfg, p, before), run[k], i);
        }
      }
    }
  }

  ghost predicate Cut(cfg: Config, w: Writer) {
    && (forall j :: 0 <= j < |w.recs| && !(w.isOpen && j == |w.recs| - 1) ==> Reaches(w.recs[j].batches, cfg.maxRows))
    && (w.isOpen ==> w.recs != [] && Last(w.recs).batches != [] && SumRows(Last(w.recs).batches) < cfg.maxRows)
  }

  /** `w` with a file just opened may hold no batch yet. */
  ghost predicate CutOrEmpty(cfg: Config, w: Writer) {
    && (forall j :: 0 <= j < |w.recs| && !(w.isOpen && j == |w.recs| - 1) ==> Reaches(w.recs[j].batches, cfg.maxRows))
    && w.isOpen && w.recs != [] && SumRows(Last(w.recs).batches) < cfg.maxRows
  }

  lemma WriteOpenCut(cfg: Config, w: Writer, m: Machine, b: Batch, io: IO)
    requires ValidConfig(cfg) && OnlyLastOpen(w) && CutOrEmpty(cfg, w)
    requires FaultFree(io) && (io.size.Some? ==> io.size.value < cfg.maxBytes)
    ensures Cut(cfg, WriteOpen(cfg, w, m, b, io).w)
  {
    var last := Last(w.recs);
    assert (last.batches + [b])[..|last.batches|] == last.batches;
    PutTarget(w, m, b, io);
    PutOpen(w, b);
  }

  lemma WriteCut(cfg: Config, w: Writer, m: Machine, b: Batch, io: IO)
    requires ValidConfig(cfg) && OnlyLastOpen(w) && Cut(cfg, w)
    requires FaultFree(io) && (io.size.Some? ==> io.size.value < cfg.maxBytes)
    ensures Cut(cfg, Write(cfg, w, m, b, io).w)
  {
    if w.isOpen {
      WriteOpenCut(cfg, w, m, b, io);
    } else {
      var s := OpenLocked(w, m, io);
      OpenIsLast(w, s.w, Last(s.w.recs));
      WriteOpenCut(cfg, s.w, s.m, b, io);
    }
  }

  lemma NextCut(cfg: Config, p: Process, a: Action, i: nat)
    requires ValidConfig(cfg) && Writers(p) && Enabled(p, a) && i < |p.ws|
    requires Cut(cfg, p.ws[i]) && ByRowsAt(cfg, p, a, i)
    ensures Cut(cfg, Next(cfg, p, a).ws[i])
  {
    if a.On? && a.i == i && a.op.Push? {
      assert Holds(p.ws[i], p.m);
      WriteCut(cfg, p.ws[i], p.m, Batch(|p.sent|, a.op.rows), a.io);
    }
  }

  lemma {:induction false} ByRowsCut(
    cfg: Config, dirs: seq<string>, d0: Files, sc: Scope, now: int, run: seq<Action>, i: nat)
    requires ValidConfig(cfg) && Startable(d0, sc) && Scoped(sc, dirs, run)
    requires ValidRun(cfg, Start(dirs, d0, now, cfg), run) && ByRows(cfg, Start(dirs, d0, now, cfg), run, i)
    requires i < |dirs|
    ensures var p := Run(cfg, Start(dirs, d0, now, cfg), run); i < |p.ws| && Cut(cfg, p.ws[i])
  {
    WriterCount(cfg, Start(dirs, d0, now, cfg), run);
    if run != [] {
      var before := run[..|run| - 1];
      ByRowsCut(cfg, dirs, d0, sc, now, before, i);
      Reachable(cfg, dirs, d0, sc, now, before);
      NextCut(cfg, Run(cfg, Start(dirs, d0, now, cfg), before), run[|run| - 1], i);
    }
  }

  /** The finished files of the writer, in publish order, and its open one are the greedy partition of
      the batches sent to it. */
  lemma RowRotationIsGreedy(cfg: Config, dirs: seq<string>, d0: Files, sc: Scope, now: int, run: seq<Action>, i: nat)
    requires ValidConfig(cfg) && Startable(d0, sc) && Scoped(sc, dirs, run)
    requires ValidRun(cfg, Start(dirs, d0, now, cfg), run) && ByRows(cfg, Start(dirs, d0, now, cfg), run, i)
    requires i < |dirs|
    ensures var p := Run(cfg, Start(dirs, d0, now, cfg), run);
            && i < |p.ws| && OnlyLastOpen(p.ws[i]) && Clean(p.ws[i]) && Cut(cfg, p.ws[i])
            && Greedy(ClosedFiles(p.ws[i]), OpenBatches(p.ws[i]), SentTo(p.sent, i), cfg.maxRows)
  {
    var p := Run(cfg, Start(dirs, d0, now, cfg), run);
    WriterCount(cfg, Start(dirs, d0, now, cfg), run);
    ByRowsIsFaultFree(cfg, Start(dirs, d0, now, cfg), run, i);
    ByRowsCut(cfg, dirs, d0, sc, now, run, i);
    Reachable(cfg, dirs, d0, sc, now, run);
    FaultFreeRunsLoseNothing(cfg, dirs, d0, sc, now, run, i);
    assert Holds(p.ws[i], p.m);
    LedgerSplits(p.ws[i]);
  }

  /* ---- one row a batch ---- */

  lemma {:induction false} RowsAreBatches(bs: seq<Batch>)
    requires forall k :: 0 <= k < |bs| ==> bs[k].rows == 1
    ensures SumRows(bs) == |bs|
  {
    if bs != [] { RowsAreBatches(bs[..|bs| - 1]); }
  }

  lemma Distribute(q: nat, max: nat)
    ensures (q + 1) * max == q * max + max
  {
  }

  /** The greedy partition of one-row batches has full files and a shorter rest. */
  lemma {:induction false} OneRowGreedy(files: seq<seq<Batch>>, rest: seq<Batch>, bs: seq<Batch>, max: nat)
    requires Greedy(files, rest, bs, max) && max > 0
    requires forall k :: 0 <= k < |bs| ==> bs[k].rows == 1
    ensures |bs| == |files| * max + |rest| && |rest| < max
    ensures forall j :: 0 <= j < |files| ==> |files[j]| == max
  {
    if files == [] {
      assert bs == rest;
      RowsAreBatches(rest);
    } else {
      var f, tail := files[0], Concat(files[1..]) + rest;
      assert bs == f + tail;
      assert forall k :: 0 <= k < |tail| ==> tail[k] == bs[|f| + k];
      assert forall k :: 0 <= k < |f| ==> f[k] == bs[k];
      RowsAreBatches(f);
      RowsAreBatches(f[..|f| - 1]);
      OneRowGreedy(files[1..], rest, tail, max);
      assert |f| == max;
      Distribute(|files[1..]|, max);
    }
  }

  /** `k` is `n / max` rounded up. */
  predicate IsCeiling(k: nat, n: nat, max: nat) {
    n <= k * max && (k > 0 ==> (k - 1) * max < n)
  }

  lemma CeilingOf(n: nat, q: nat, r: nat, max: nat)
    requires n == q * max + r && r < max
    ensures IsCeiling(if r == 0 then q else q + 1, n, max)
  {
    assert (q + 1) * max == q * max + max;
    assert (q - 1) * max == q * max - max;
  }

  /** Send a writer any number of one-row batches, then shut down and close it: it has published that
      number divided by the row limit, rounded up, and every file but the last is exactly full. */
  lemma OneRowBatchesThenClose(cfg: Config, dirs: seq<string>, d0: Files, sc: Scope, now: int, before: seq<Action>,
                               i: nat, io: IO)
    requires ValidConfig(cfg) && Startable(d0, sc) && Scoped(sc, dirs, before)
    requires ValidRun(cfg, Start(dirs, d0, now, cfg), before) && ByRows(cfg, Start(dirs, d0, now, cfg), before, i)
    requires i < |dirs| && FaultFree(io)
    requires Enabled(Run(cfg, Start(dirs, d0, now, cfg), before), On(i, Close, io))
    requires var p := Run(cfg, Start(dirs, d0, now, cfg), before);
             forall k :: 0 <= k < |SentTo(p.sent, i)| ==> SentTo(p.sent, i)[k].rows == 1
    ensures var run := before + [On(i, Close, io)];
      && ValidRun(cfg, Start(dirs, d0, now, cfg), run)
      && var q := Run(cfg, Start(dirs, d0, now, cfg), run);
          && i < |q.ws|
          && IsCeiling(|q.ws[i].recs|, |SentTo(q.sent, i)|, cfg.maxRows)
          && AllPublishedFull(q.ws[i].recs, cfg.maxRows)
  {
    var p := Run(cfg, Start(dirs, d0, now, cfg), before);
    RowRotationIsGreedy(cfg, dirs, d0, sc, now, before, i);
    CloseOneRow(cfg, p.ws[i], p.m, SentTo(p.sent, i), io);
    Extend(cfg, Start(dirs, d0, now, cfg), before, On(i, Close, io));
  }

  predicate AllPublishedFull(recs: seq<Rec>, max: nat) {
    && (forall j :: 0 <= j < |recs| ==> recs[j].status == Published)
    && (forall j :: 0 <= j < |recs| - 1 ==> |recs[j].batches| == max)
  }

  lemma CloseOneRow(cfg: Config, u: Writer, m: Machine, bs: seq<Batch>, io: IO)
    requires cfg.maxRows > 0 && OnlyLastOpen(u) && Clean(u) && Cut(cfg, u) && FaultFree(io)
    requires Greedy(ClosedFiles(u), OpenBatches(u), bs, cfg.maxRows)
    requires forall k :: 0 <= k < |bs| ==> bs[k].rows == 1
    ensures var w := RotateLocked(u, m, io).w;
            IsCeiling(|w.recs|, |bs|, cfg.maxRows) && AllPublishedFull(w.recs, cfg.maxRows)
  {
    OneRowGreedy(ClosedFiles(u), OpenBatches(u), bs, cfg.maxRows);
    CeilingOf(|bs|, |ClosedFiles(u)|, |OpenBatches(u)|, cfg.maxRows);
    CloseCounts(u, m, io, cfg);
  }

  lemma CloseCounts(u: Writer, m: Machine, io: IO, cfg: Config)
    requires OnlyLastOpen(u) && Clean(u) && Cut(cfg, u) && FaultFree(io)
    requires forall j :: 0 <= j < |ClosedFiles(u)| ==> |ClosedFiles(u)[j]| == cfg.maxRows
    ensures var w := RotateLocked(u, m, io).w;
      && |w.recs| == |ClosedFiles(u)| + (if |OpenBatches(u)| == 0 then 0 else 1)
      && AllPublishedFull(w.recs, cfg.maxRows)
  {
    var w := RotateLocked(u, m, io).w;
    forall j | 0 <= j < |w.recs| - 1 ensures |w.recs[j].batches| == cfg.maxRows {
      assert w.recs[j] == u.recs[j];
      assert ClosedFiles(u)[j] == u.recs[j].batches;
    }
  }
}
