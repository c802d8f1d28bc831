/** How long a file stays open. The flush loop looks at a file once per interval, so what matters is
    where between two ticks the file was opened. */
module WriterAge {
  import opened Options
  import opened Disk
  import opened WriterSpec
  import opened WriterProcess
  import opened WriterTheorems

  /** The current tick has not reached writer `i` yet. */
  predicate Waits(p: Process, i: nat) {
    p.tick || (p.loop.Rotating? && i in p.loop.due)
  }

  /** A file waiting for the current tick was opened after the tick before last; any other open file
      was opened after the last tick but one. */
  ghost predicate Young(cfg: Config, start: int, p: Process)
    requires cfg.flushInterval > 0
  {
    && (p.nextTick - start) % cfg.flushInterval == 0
    && p.nextTick - cfg.flushInterval <= p.now <= p.nextTick
    && (p.tick || p.loop.Rotating? ==> p.now == p.nextTick - cfg.flushInterval)
    && (forall i :: 0 <= i < |p.ws| && p.ws[i].isOpen ==> YoungAt(cfg, start, p, i))
  }

  predicate YoungAt(cfg: Config, start: int, p: Process, i: nat)
    requires i < |p.ws|
  {
    && start <= p.ws[i].openedAt <= p.now
    && p.nextTick - (if Waits(p, i) then 3 else 2) * cfg.flushInterval < p.ws[i].openedAt
  }

  /** An operation leaves the file open only if it was already, or opens one now; and an age check
      leaves none open that has reached the flush interval. */
  lemma OpenedWhen(cfg: Config, p: Process, a: Action)
    requires Enabled(p, a) && a.On? && StepOf(cfg, p, a).w.isOpen
    ensures var w, w' := p.ws[a.i], StepOf(cfg, p, a).w;
            && (if w.isOpen then w'.openedAt == w.openedAt else w'.openedAt == p.now)
            && (a.op.AgeCheck? ==> w.isOpen && p.now - w.openedAt < cfg.flushInterval)
  {
  }

  /* ---- multiples of the interval ---- */

  lemma AtLeastOnce(f: nat, k: int)
    requires k >= 1
    ensures f * k >= f
  {
    assert f * k == f * (k - 1) + f;
    assert f * (k - 1) >= 0;
  }

  lemma NegativeMultiple(f: nat, k: int)
    requires k <= -1
    ensures f * k <= 0 - f
  {
    AtLeastOnce(f, -k);
    assert f * k == -(f * -k);
  }

  /** Quotient and remainder are determined. */
  lemma ModUnique(x: int, f: nat, q: int, r: nat)
    requires r < f && x == f * q + r
    ensures x % f == r
  {
    var k := q - x / f;
    assert x == f * (x / f) + x % f;
    assert f * k == f * q - f * (x / f);
    assert f * k == x % f - r;
    if k >= 1 { AtLeastOnce(f, k); } else if k <= -1 { NegativeMultiple(f, k); }
  }

  lemma ShiftByMultiple(x: int, f: nat, k: int)
    requires f > 0
    ensures (x + f * k) % f == x % f
  {
    assert x == f * (x / f) + x % f;
    assert f * (x / f + k) == f * (x / f) + f * k;
    ModUnique(x + f * k, f, x / f + k, x % f);
  }

  /** A value beyond a multiple of `f` is beyond it by its offset, or by a whole `f`. */
  lemma BeyondMultiple(x: int, m: int, f: nat)
    requires f > 0 && m % f == 0 && m < x
    ensures x - m >= if x % f == 0 then f else x % f
  {
    var k := x / f - m / f;
    assert x == f * (x / f) + x % f && m == f * (m / f);
    assert f * k == f * (x / f) - f * (m / f);
    assert x - m == f * k + x % f;
    if k >= 1 { AtLeastOnce(f, k); } else if k <= -1 { NegativeMultiple(f, k); }
  }

  /* ---- the bound ---- */

  lemma YoungNext(cfg: Config, start: int, p: Process, a: Action)
    requires cfg.flushInterval > 0 && start <= p.now && Young(cfg, start, p)
    requires p.stop.Running? && Enabled(p, a)
    ensures Young(cfg, start, Next(cfg, p, a)) && start <= Next(cfg, p, a).now
  {
    if a.On? {
      YoungOn(cfg, start, p, a);
    } else if a.TickerFires? {
      ShiftByMultiple(p.nextTick - start, cfg.flushInterval, 1);
      assert p.nextTick + cfg.flushInterval - start == p.nextTick - start + cfg.flushInterval * 1;
    }
  }

  lemma YoungOn(cfg: Config, start: int, p: Process, a: Action)
    requires cfg.flushInterval > 0 && start <= p.now && Young(cfg, start, p)
    requires Enabled(p, a) && a.On?
    ensures Young(cfg, start, Next(cfg, p, a))
  {
    var p', s := Next(cfg, p, a), StepOf(cfg, p, a);
    assert p'.ws == p.ws[a.i := s.w] && p'.now == p.now && p'.nextTick == p.nextTick && p'.tick == p.tick;
    forall i | 0 <= i < |p'.ws| && p'.ws[i].isOpen ensures YoungAt(cfg, start, p', i) {
      if i == a.i {
        OpenedWhen(cfg, p, a);
      } else {
        assert YoungAt(cfg, start, p, i);
      }
    }
  }

  lemma OnlySignal(cfg: Config, p: Process, a: Action)
    requires Enabled(p, a) && Next(cfg, p, a).stop.Running?
    ensures p.stop.Running?
  {
  }

  lemma {:induction false} StaysYoung(cfg: Config, start: int, p: Process, run: seq<Action>)
    requires cfg.flushInterval > 0 && start <= p.now && Young(cfg, start, p) && p.stop.Running?
    requires ValidRun(cfg, p, run) && Run(cfg, p, run).stop.Running?
    ensures Young(cfg, start, Run(cfg, p, run)) && start <= Run(cfg, p, run).now
  {
    if run != [] {
      var before := run[..|run| - 1];
      OnlySignal(cfg, Run(cfg, p, before), run[|run| - 1]);
      StaysYoung(cfg, start, p, before);
      YoungNext(cfg, start, Run(cfg, p, before), run[|run| - 1]);
    }
  }

  /** How long after a tick (or the start, which counts as one) the file was opened. */
  function Offset(cfg: Config, start: int, openedAt: int): (d: nat)
    requires cfg.flushInterval > 0
    ensures d < cfg.flushInterval
  {
    (openedAt - start) % cfg.flushInterval
  }

  /** The greatest age a file opened at this offset can have. */
  function MaxAge(cfg: Config, d: nat): int {
    if d == 0 then cfg.flushInterval else 2 * cfg.flushInterval - d
  }

  /** Before shutdown no file of any writer, whatever fails, gets older than its offset allows: the
      flush interval if it was opened at a tick, and otherwise less than twice the interval. */
  lemma AgeBound(cfg: Config, dirs: seq<string>, d0: Files, now: int, run: seq<Action>, i: nat)
    requires ValidConfig(cfg) && ValidRun(cfg, Start(dirs, d0, now, cfg), run)
    requires var p := Run(cfg, Start(dirs, d0, now, cfg), run); p.stop.Running? && i < |p.ws| && p.ws[i].isOpen
    ensures var p := Run(cfg, Start(dirs, d0, now, cfg), run);
            0 <= p.now - p.ws[i].openedAt <= MaxAge(cfg, Offset(cfg, now, p.ws[i].openedAt))
  {
    var p := Run(cfg, Start(dirs, d0, now, cfg), run);
    StartYoung(cfg, dirs, d0, now);
    StaysYoung(cfg, now, Start(dirs, d0, now, cfg), run);
    YoungAge(cfg, now, p, i);
  }

  lemma StartYoung(cfg: Config, dirs: seq<string>, d0: Files, now: int)
    requires cfg.flushInterval > 0
    ensures Young(cfg, now, Start(dirs, d0, now, cfg))
  {
    ShiftByMultiple(0, cfg.flushInterval, 1);
    assert (0 + cfg.flushInterval * 1) % cfg.flushInterval == 0 % cfg.flushInterval;
  }

  lemma YoungAge(cfg: Config, start: int, p: Process, i: nat)
    requires cfg.flushInterval > 0 && Young(cfg, start, p) && i < |p.ws| && p.ws[i].isOpen
    ensures 0 <= p.now - p.ws[i].openedAt <= MaxAge(cfg, Offset(cfg, start, p.ws[i].openedAt))
  {
    var f, k: int := cfg.flushInterval, if Waits(p, i) then 3 else 2;
    ShiftByMultiple(p.nextTick - start, f, -k);
    assert p.nextTick - start + f * -k == p.nextTick - k * f - start;
    BeyondMultiple(p.ws[i].openedAt - start, p.nextTick - k * f - start, f);
  }

  /** An age check leaves a file open exactly if it is younger than the flush interval. */
  lemma AgeRotationIsDue(cfg: Config, w: Writer, m: Machine, io: IO)
    requires Ready(w) && w.isOpen
    ensures MaybeRotateForAge(cfg, w, m, io).w.isOpen <==> io.now - w.openedAt < cfg.flushInterval
  {
  }

  /* ---- every offset reaches its greatest age ---- */

  /** The clock shows `now`, the machine reports no size, and nothing fails. */
  function Quiet(now: int): IO {
    IO(0, now, None, false, false, false, FooterWritten, false, false, false)
  }

  /** The push that opens the file. With a row limit of one it has to fail after the open, or the row
      would close the file at once. */
  function Opening(cfg: Config, now: int): IO {
    Quiet(now).(writeFails := cfg.maxRows == 1)
  }

  /** One row pushed `d` after the start, and then only time and ticks, until the file is as old as
      its offset allows. */
  function OldestRun(cfg: Config, now: int, d: nat): seq<Action>
    requires d < cfg.flushInterval
  {
    var open := [Elapse(d), On(0, Push(1), Opening(cfg, now + d)), Elapse(cfg.flushInterval - d)];
    if d == 0 then open
    else
      open + [
        TickerFires, TakeTick, On(0, AgeCheck, Quiet(now + cfg.flushInterval)), RotationDone,
        Elapse(cfg.flushInterval)]
  }

  lemma OneRow(cfg: Config, w: Writer, m: Machine, io: IO)
    requires ValidConfig(cfg) && !w.isOpen && w.recs == [] && io == Opening(cfg, io.now)
    ensures var s := Write(cfg, w, m, Batch(0, 1), io);
            s.w.isOpen && s.w.openedAt == io.now && Ready(s.w)
  {
  }

  /** The state one interval after the start. */
  lemma FirstInterval(cfg: Config, dir: string, d0: Files, now: int, d: nat) returns (run: seq<Action>)
    requires ValidConfig(cfg) && d < cfg.flushInterval
    ensures run == [Elapse(d), On(0, Push(1), Opening(cfg, now + d)), Elapse(cfg.flushInterval - d)]
    ensures ValidRun(cfg, Start([dir], d0, now, cfg), run)
    ensures var p := Run(cfg, Start([dir], d0, now, cfg), run);
            && |p.ws| == 1 && p.ws[0].isOpen && Ready(p.ws[0]) && p.ws[0].openedAt == now + d
            && p.now == now + cfg.flushInterval == p.nextTick && !p.tick && p.loop.Selecting? && p.stop.Running?
  {
    var p0, io := Start([dir], d0, now, cfg), Opening(cfg, now + d);
    assert p0.ws[0] == NewWriter(dir);
    var r1 := [] + [Elapse(d)];
    Extend(cfg, p0, [], Elapse(d));
    OneRow(cfg, p0.ws[0], p0.m, io);
    FirstPush(cfg, p0, r1, io);
    var r2 := r1 + [On(0, Push(1), io)];
    Extend(cfg, p0, r2, Elapse(cfg.flushInterval - d));
    run := r2 + [Elapse(cfg.flushInterval - d)];
  }

  lemma FirstPush(cfg: Config, p0: Process, run: seq<Action>, io: IO)
    requires ValidRun(cfg, p0, run) && Enabled(Run(cfg, p0, run), On(0, Push(1), io)) && Run(cfg, p0, run).sent == []
    ensures ValidRun(cfg, p0, run + [On(0, Push(1), io)])
    ensures var p, q := Run(cfg, p0, run), Run(cfg, p0, run + [On(0, Push(1), io)]);
      && q.ws == p.ws[0 := Write(cfg, p.ws[0], p.m, Batch(0, 1), io).w]
      && q.now == p.now && q.nextTick == p.nextTick && q.tick == p.tick && q.loop == p.loop && q.stop == p.stop
  {
    Extend(cfg, p0, run, On(0, Push(1), io));
  }

  /** The bound cannot be improved, for any offset. */
  lemma AgeReached(cfg: Config, dir: string, d0: Files, now: int, d: nat)
    requires ValidConfig(cfg) && d < cfg.flushInterval
    ensures ValidRun(cfg, Start([dir], d0, now, cfg), OldestRun(cfg, now, d))
    ensures var p := Run(cfg, Start([dir], d0, now, cfg), OldestRun(cfg, now, d));
            && p.stop.Running? && |p.ws| == 1 && p.ws[0].isOpen
            && p.ws[0].openedAt == now + d && p.now - p.ws[0].openedAt == MaxAge(cfg, d)
  {
    var p0, f := Start([dir], d0, now, cfg), cfg.flushInterval;
    var run := FirstInterval(cfg, dir, d0, now, d);
    if d > 0 {
      SecondInterval(cfg, p0, run, now, d);
      FiveMore(run, TickerFires, TakeTick, On(0, AgeCheck, Quiet(now + f)), RotationDone, Elapse(f));
    }
  }

  lemma FiveMore(run: seq<Action>, a: Action, b: Action, c: Action, d: Action, e: Action)
    ensures run + [a] + [b] + [c] + [d] + [e] == run + [a, b, c, d, e]
  {
  }

  /** The first tick finds the file too young. */
  lemma SecondInterval(cfg: Config, p0: Process, run: seq<Action>, now: int, d: nat)
    requires ValidConfig(cfg) && 0 < d < cfg.flushInterval && ValidRun(cfg, p0, run)
    requires var p := Run(cfg, p0, run);
            && |p.ws| == 1 && p.ws[0].isOpen && Ready(p.ws[0]) && p.ws[0].openedAt == now + d
            && p.now == now + cfg.flushInterval == p.nextTick && !p.tick && p.loop.Selecting? && p.stop.Running?
    ensures var f := cfg.flushInterval;
      var all := run + [TickerFires] + [TakeTick] + [On(0, AgeCheck, Quiet(now + f))] + [RotationDone] + [Elapse(f)];
      && ValidRun(cfg, p0, all)
      && var q := Run(cfg, p0, all);
         q.stop.Running? && q.ws == Run(cfg, p0, run).ws && q.now == now + 2 * f
  {
    var f := cfg.flushInterval;
    var r := run;
    Extend(cfg, p0, r, TickerFires);
    r := r + [TickerFires];
    Extend(cfg, p0, r, TakeTick);
    r := r + [TakeTick];
    Extend(cfg, p0, r, On(0, AgeCheck, Quiet(now + f)));
    r := r + [On(0, AgeCheck, Quiet(now + f))];
    assert Run(cfg, p0, r).loop == Rotating({});
    Extend(cfg, p0, r, RotationDone);
    r := r + [RotationDone];
    Extend(cfg, p0, r, Elapse(f));
  }

  /** In some run before shutdown, a file opened at this offset is older than the flush interval. */
  ghost predicate CanOutlive(cfg: Config, dirs: seq<string>, d0: Files, now: int, d: nat)
    requires cfg.flushInterval > 0
  {
    exists run: seq<Action>, i: nat :: ValidRun(cfg, Start(dirs, d0, now, cfg), run)
      && OutlivesAt(cfg, Run(cfg, Start(dirs, d0, now, cfg), run), i, now, d)
  }

  predicate OutlivesAt(cfg: Config, p: Process, i: nat, start: int, d: nat)
    requires cfg.flushInterval > 0
  {
    && p.stop.Running? && i < |p.ws| && p.ws[i].isOpen && Offset(cfg, start, p.ws[i].openedAt) == d
    && p.now - p.ws[i].openedAt > cfg.flushInterval
  }

  /** A file opened at this offset can get older than the flush interval if and only if the offset is
      not that of a tick. */
  lemma OutlivesIff(cfg: Config, dir: string, d0: Files, now: int, d: nat)
    requires ValidConfig(cfg) && d < cfg.flushInterval
    ensures CanOutlive(cfg, [dir], d0, now, d) <==> d != 0
  {
    var p0 := Start([dir], d0, now, cfg);
    if d == 0 {
      forall run: seq<Action>, i: nat | ValidRun(cfg, p0, run) ensures !OutlivesAt(cfg, Run(cfg, p0, run), i, now, d) {
        if OutlivesAt(cfg, Run(cfg, p0, run), i, now, d) { AgeBound(cfg, [dir], d0, now, run, i); }
      }
    } else {
      AgeReached(cfg, dir, d0, now, d);
      ModUnique(d, cfg.flushInterval, 0, d);
      assert OutlivesAt(cfg, Run(cfg, p0, OldestRun(cfg, now, d)), 0, now, d);
    }
  }
}
