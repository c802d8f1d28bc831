/** Runs of a whole exporter process: any number of writers sharing one machine, pushes, the flush
    loop's ticks, closing, time, and any I/O failure at any point. */
module WriterProcess {
  import opened FileNames
  import opened Disk
  import opened WriterSpec
  import opened WriterInvariant
  import opened WriterSteps
  import opened WriterOps
  import opened WriterAccounts

  datatype Sent = Sent(to: nat, rows: nat)

  /** The goroutine of the flush loop: in its select, going through the writers - `due` are the ones
      it has not checked yet - or returned. */
  datatype Loop = Selecting | Rotating(due: set<nat>) | Returned

  /** How far shutdown's once has come: not called, `done` closed, ticker stopped, wait over. */
  datatype Stop = Running | Signalled | TickerStopped | Waited

  /** `tick` is a tick waiting in the ticker's channel and `wg` the wait group. Batches are numbered
      in the order they are pushed, and `sent` records the writer and the row count of each. */
  datatype Process = Process(
    ws: seq<Writer>, m: Machine, sent: seq<Sent>,
    now: int, nextTick: int, tick: bool, loop: Loop, wg: nat, stop: Stop)

  datatype Operation = Push(rows: nat) | AgeCheck | Close

  /** A locked operation of writer `i`, time, the ticker, a step of the flush loop, or a step of
      shutdown. */
  datatype Action =
    | On(i: nat, op: Operation, io: IO)
    | Elapse(dt: nat)
    | TickerFires
    | TakeTick | RotationDone | SeeDone
    | SignalDone | StopTicker | WaitOver

  /** The process once `Start` has succeeded. */
  function Start(dirs: seq<string>, d0: Files, now: int, cfg: Config): Process {
    Process(seq(|dirs|, i requires 0 <= i < |dirs| => NewWriter(dirs[i])),
            Machine(d0, 0, 0, []), [], now, now + cfg.flushInterval, false, Selecting, 1, Running)
  }

  predicate Ready(w: Writer) {
    WellFormed(w) && (w.isOpen ==> |w.partPath| > |PART|)
  }

  /** Before shutdown ticks are handled on time: no time passes while one waits or is handled. Once
      `done` is closed the select may still take a waiting tick; stopping the ticker discards it.
      Shutdown waits for the wait group and closes the writers only then. */
  predicate Enabled(p: Process, a: Action) {
    match a
    case On(i, op, io) =>
      && i < |p.ws| && Ready(p.ws[i]) && io.now == p.now
      && (op.AgeCheck? ==> p.loop.Rotating? && i in p.loop.due)
      && (op.Close? ==> p.stop.Waited?)
    case Elapse(dt) => p.stop.Running? ==> !p.tick && !p.loop.Rotating? && p.now + dt <= p.nextTick
    case TickerFires => (p.stop.Running? || p.stop.Signalled?) && !p.tick && p.now >= p.nextTick
    case TakeTick => p.loop.Selecting? && p.tick
    case RotationDone => p.loop == Rotating({})
    case SeeDone => p.loop.Selecting? && !p.stop.Running? && p.wg > 0
    case SignalDone => p.stop.Running?
    case StopTicker => p.stop.Signalled?
    case WaitOver => p.stop.TickerStopped? && p.wg == 0
  }

  /** What an operation does to its writer and the machine. */
  function StepOf(cfg: Config, p: Process, a: Action): Step
    requires Enabled(p, a) && a.On?
  {
    match a.op
    case Push(rows) => Write(cfg, p.ws[a.i], p.m, Batch(|p.sent|, rows), a.io)
    case AgeCheck => MaybeRotateForAge(cfg, p.ws[a.i], p.m, a.io)
    case Close => RotateLocked(p.ws[a.i], p.m, a.io)
  }

  function SentAfter(p: Process, i: nat, op: Operation): seq<Sent> {
    if op.Push? then p.sent + [Sent(i, op.rows)] else p.sent
  }

  function LoopAfter(p: Process, i: nat, op: Operation): Loop
    requires op.AgeCheck? ==> p.loop.Rotating?
  {
    if op.AgeCheck? then Rotating(p.loop.due - {i}) else p.loop
  }

  function Next(cfg: Config, p: Process, a: Action): Process
    requires Enabled(p, a)
  {
    match a
    case On(i, op, io) =>
      var s := StepOf(cfg, p, a);
      p.(ws := p.ws[i := s.w], m := s.m, sent := SentAfter(p, i, op), loop := LoopAfter(p, i, op))
    case Elapse(dt) => p.(now := p.now + dt)
    case TickerFires => p.(tick := true, nextTick := p.nextTick + cfg.flushInterval)
    case TakeTick => p.(tick := false, loop := Rotating(UpTo(|p.ws|)))
    case RotationDone => p.(loop := Selecting)
    case SeeDone => p.(loop := Returned, wg := p.wg - 1)
    case SignalDone => p.(stop := Signalled)
    case StopTicker => p.(stop := TickerStopped, tick := false)
    case WaitOver => p.(stop := Waited)
  }

  function UpTo(n: nat): (s: set<nat>)
    ensures forall i: nat :: i in s <==> i < n
  {
    if n == 0 then {} else UpTo(n - 1) + {n - 1}
  }

  predicate ValidRun(cfg: Config, p: Process, run: seq<Action>)
    decreases |run|, 0
  {
    run == [] || (
      var before := run[..|run| - 1];
      ValidRun(cfg, p, before) && Enabled(Run(cfg, p, before), run[|run| - 1]))
  }

  function Run(cfg: Config, p: Process, run: seq<Action>): Process
    requires ValidRun(cfg, p, run)
    decreases |run|, 1
  {
    if run == [] then p else Next(cfg, Run(cfg, p, run[..|run| - 1]), run[|run| - 1])
  }

  /** A disk to start from: safe, and without the names this process may generate. Files with other
      names, such as those an earlier process published or left behind, may be there. */
  ghost predicate Startable(d0: Files, sc: Scope) {
    Safe(d0) && NamesFresh(Machine(d0, 0, 0, []), sc)
  }

  /** The scope covers what the run puts into names. */
  predicate Scoped(sc: Scope, dirs: seq<string>, run: seq<Action>) {
    && (forall i :: 0 <= i < |dirs| ==> dirs[i] in sc.dirs)
    && (forall k :: 0 <= k < |run| && run[k].On? ==> run[k].io.nanos in sc.readings)
  }

  function TotalPublished(ws: seq<Writer>): nat {
    if ws == [] then 0 else TotalPublished(ws[..|ws| - 1]) + RowsIn(ws[|ws| - 1].recs, Published)
  }

  /** No two writers ever share a file number. */
  ghost predicate Apart(u: Writer, v: Writer) {
    forall j, k :: 0 <= j < |u.recs| && 0 <= k < |v.recs| ==> u.recs[j].num != v.recs[k].num
  }

  /** The name belongs to a file of this writer. */
  ghost predicate Names(w: Writer, q: string) {
    exists j :: 0 <= j < |w.recs| && (q == PathOf(w.dir, w.recs[j]) || q == FinalPath(PathOf(w.dir, w.recs[j])))
  }

  ghost predicate Inv(d0: Files, sc: Scope, p: Process) {
    && History(d0, p.m)
    && NamesFresh(p.m, sc)
    && Writers(p)
    && AllInScope(sc, p.ws)
    && p.m.rowsWritten == TotalPublished(p.ws)
    && (forall q :: q in p.m.disk ==> Known(d0, p.ws, q))
    && Kept(d0, p.m.disk)
  }

  ghost predicate Writers(p: Process) {
    && (forall i :: 0 <= i < |p.ws| ==> Holds(p.ws[i], p.m) && IdsBelow(p.ws[i], |p.sent|))
    && (forall i, j :: 0 <= i < j < |p.ws| ==> Apart(p.ws[i], p.ws[j]))
  }

  ghost predicate InScope(sc: Scope, w: Writer) {
    w.dir in sc.dirs && forall j :: 0 <= j < |w.recs| ==> w.recs[j].nanos in sc.readings
  }

  ghost predicate AllInScope(sc: Scope, ws: seq<Writer>) {
    forall i :: 0 <= i < |ws| ==> InScope(sc, ws[i])
  }

  /** Every file of `d0` is still there, as it was. */
  ghost predicate Kept(d0: Files, d: Files) {
    forall q :: q in d0 ==> q in d && d[q] == d0[q]
  }

  lemma {:induction false} TotalUpdate(ws: seq<Writer>, i: nat, w: Writer)
    requires i < |ws|
    ensures TotalPublished(ws[i := w]) + RowsIn(ws[i].recs, Published)
         == TotalPublished(ws) + RowsIn(w.recs, Published)
  {
    var init := ws[..|ws| - 1];
    if i == |ws| - 1 {
      assert ws[i := w][..|ws| - 1] == init;
    } else {
      TotalUpdate(init, i, w);
      assert ws[i := w][..|ws| - 1] == init[i := w];
    }
  }

  /** What a step of writer `w` needs. */
  ghost predicate Steppable(d0: Files, p: Process, a: Action)
    requires a.On?
  {
    && a.i < |p.ws| && History(d0, p.m)
    && Holds(p.ws[a.i], p.m) && IdsBelow(p.ws[a.i], |p.sent|)
    && (!p.ws[a.i].isOpen ==> NextFree(p.ws[a.i], p.m, a.io))
  }

  lemma InvSteppable(d0: Files, sc: Scope, p: Process, a: Action)
    requires Inv(d0, sc, p) && Enabled(p, a) && a.On? && a.io.nanos in sc.readings
    ensures Steppable(d0, p, a)
  {
    assert InScope(sc, p.ws[a.i]);
    assert Holds(p.ws[a.i], p.m);
  }

  /** All the writer-level facts about the step an action takes. */
  ghost predicate Stepped(d0: Files, cfg: Config, p: Process, a: Action)
    requires Enabled(p, a) && a.On?
  {
    var w, s := p.ws[a.i], StepOf(cfg, p, a);
    && Guarantee(d0, w, p.m, a.io, s) && Extends(w, p.m, a.io, s)
    && (a.op.Push? ==> Written(w, s.w, Batch(|p.sent|, a.op.rows), s.r))
    && (!a.op.Push? ==> s.w.appended == w.appended && s.w.refused == w.refused)
  }

  lemma StepFacts(d0: Files, cfg: Config, p: Process, a: Action)
    requires Enabled(p, a) && a.On? && Steppable(d0, p, a)
    ensures Stepped(d0, cfg, p, a)
  {
    var w := p.ws[a.i];
    match a.op
    case Push(rows) =>
      WriteKeeps(d0, cfg, w, p.m, Batch(|p.sent|, rows), a.io);
      WriteExtends(cfg, w, p.m, Batch(|p.sent|, rows), a.io);
    case AgeCheck =>
      AgeKeeps(d0, cfg, w, p.m, a.io);
      AgeExtends(cfg, w, p.m, a.io);
    case Close =>
      RotateKeeps(d0, w, p.m, a.io);
      RotateExtends(w, p.m, a.io);
  }

  /** The ids in the ledger are those of its files. */
  lemma IdsFromLedger(w: Writer, n: nat)
    requires w.appended == Flat(w.recs)
    requires forall k :: 0 <= k < |w.appended| ==> w.appended[k].id < n
    requires forall id :: id in w.refused ==> id < n
    ensures IdsBelow(w, n)
  {
    forall i, k | 0 <= i < |w.recs| && 0 <= k < |w.recs[i].batches|
      ensures w.recs[i].batches[k].id < n
    {
      FlatAt(w.recs, i, k);
    }
  }

  lemma IdsOfLedger(w: Writer, n: nat)
    requires w.appended == Flat(w.recs) && IdsBelow(w, n)
    ensures forall k :: 0 <= k < |w.appended| ==> w.appended[k].id < n
  {
    forall k | 0 <= k < |w.appended| ensures w.appended[k].id < n {
      assert w.appended[k] in Flat(w.recs);
      var j, l := FlatFind(w.recs, w.appended[k]);
    }
  }

  lemma BookedIds(w: Writer, w': Writer, b: Batch)
    requires w.appended == Flat(w.recs) && w'.appended == Flat(w'.recs) && IdsBelow(w, b.id)
    requires w'.appended == w.appended || w'.appended == w.appended + [b]
    requires w'.refused == w.refused || w'.refused == w.refused + {b.id}
    ensures IdsBelow(w', b.id + 1)
    ensures w'.appended == w.appended && w'.refused == w.refused ==> IdsBelow(w', b.id)
  {
    IdsOfLedger(w, b.id);
    IdsFromLedger(w', b.id + 1);
    if w'.appended == w.appended && w'.refused == w.refused { IdsFromLedger(w', b.id); }
  }

  lemma StepIds(d0: Files, cfg: Config, p: Process, a: Action)
    requires Enabled(p, a) && a.On? && Stepped(d0, cfg, p, a)
    requires Holds(p.ws[a.i], p.m) && IdsBelow(p.ws[a.i], |p.sent|)
    ensures IdsBelow(StepOf(cfg, p, a).w, |Next(cfg, p, a).sent|)
  {
    BookedIds(p.ws[a.i], StepOf(cfg, p, a).w, Batch(|p.sent|, if a.op.Push? then a.op.rows else 0));
  }

  lemma ApartKeeps(w: Writer, m: Machine, io: IO, s: Step, other: Writer)
    requires WellFormed(w) && Extends(w, m, io, s) && Apart(w, other) && Numbered(other.recs, m.counter)
    ensures Apart(s.w, other) && Apart(other, s.w)
  {
    forall j, l | 0 <= j < |s.w.recs| && 0 <= l < |other.recs|
      ensures s.w.recs[j].num != other.recs[l].num
    {
      if j < |w.recs| { assert s.w.recs[j].num == w.recs[j].num; }
    }
  }

  /** What the step of one writer leaves another. */
  lemma StepOther(w: Writer, m: Machine, io: IO, s: Step, other: Writer)
    requires OnlyLastOpen(w) && Numbered(w.recs, m.counter) && Extends(w, m, io, s)
    requires ChangedOnly(m.disk, s.m.disk, Target(w, m, io)) && m.counter <= s.m.counter
    requires Holds(other, m) && (Apart(w, other) || Apart(other, w))
    ensures Holds(other, s.m) && Apart(other, s.w) && Apart(s.w, other)
  {
    assert Apart(w, other);
    ApartKeeps(w, m, io, s, other);
    GuaranteeToOthers(w, m, io, s, other);
  }

  ghost predicate Known(d0: Files, ws: seq<Writer>, q: string) {
    q in d0 || exists i :: 0 <= i < |ws| && Names(ws[i], q)
  }

  lemma NamesPersist(w: Writer, m: Machine, io: IO, s: Step, q: string)
    requires WellFormed(w) && Extends(w, m, io, s) && s.w.dir == w.dir
    requires Names(w, q)
    ensures Names(s.w, q)
  {
    var j :| 0 <= j < |w.recs| && (q == PathOf(w.dir, w.recs[j]) || q == FinalPath(PathOf(w.dir, w.recs[j])));
    assert PathOf(s.w.dir, s.w.recs[j]) == PathOf(w.dir, w.recs[j]);
  }

  lemma NamesNew(w: Writer, m: Machine, io: IO, s: Step, q: string)
    requires WellFormed(w) && Extends(w, m, io, s) && s.w.dir == w.dir
    requires ChangedOnly(m.disk, s.m.disk, Target(w, m, io))
    requires q in s.m.disk && q !in m.disk
    ensures Names(s.w, q)
  {
    var j := |s.w.recs| - 1;
    assert PathOf(s.w.dir, s.w.recs[j]) == Target(w, m, io);
  }

  lemma StepNames(d0: Files, ws: seq<Writer>, i: nat, m: Machine, io: IO, s: Step, q: string)
    requires i < |ws| && WellFormed(ws[i]) && Extends(ws[i], m, io, s) && s.w.dir == ws[i].dir
    requires ChangedOnly(m.disk, s.m.disk, Target(ws[i], m, io))
    requires q in s.m.disk && (q in m.disk ==> Known(d0, ws, q))
    ensures Known(d0, ws[i := s.w], q)
  {
    if q !in m.disk {
      NamesNew(ws[i], m, io, s, q);
      assert Names(ws[i := s.w][i], q);
    } else if q !in d0 {
      var k :| 0 <= k < |ws| && Names(ws[k], q);
      if k == i {
        NamesPersist(ws[i], m, io, s, q);
      }
      assert Names(ws[i := s.w][k], q);
    }
  }

  /** The step works on a name of the scope. */
  lemma TargetInScope(sc: Scope, w: Writer, m: Machine, io: IO) returns (t: int, n: nat)
    requires OnlyLastOpen(w) && Numbered(w.recs, m.counter) && InScope(sc, w) && io.nanos in sc.readings
    ensures t in sc.readings && n > 0 && Target(w, m, io) == PartPath(w.dir, t, n)
  {
    assert w.isOpen ==> w.recs[|w.recs| - 1] == Last(w.recs);
    t, n := TargetTime(w, io), TargetNum(w, m);
  }

  lemma StepKept(d0: Files, sc: Scope, w: Writer, m: Machine, io: IO, d': Files)
    requires Startable(d0, sc) && Kept(d0, m.disk)
    requires OnlyLastOpen(w) && Numbered(w.recs, m.counter) && InScope(sc, w) && io.nanos in sc.readings
    requires ChangedOnly(m.disk, d', Target(w, m, io))
    ensures Kept(d0, d')
  {
    var t, n := TargetInScope(sc, w, m, io);
    assert PartPath(w.dir, t, n) !in d0 && FinalPath(PartPath(w.dir, t, n)) !in d0;
  }

  lemma StepInScope(sc: Scope, w: Writer, m: Machine, io: IO, s: Step)
    requires OnlyLastOpen(w) && InScope(sc, w) && io.nanos in sc.readings && Extends(w, m, io, s) && s.w.dir == w.dir
    ensures InScope(sc, s.w)
  {
    forall j | 0 <= j < |s.w.recs| ensures s.w.recs[j].nanos in sc.readings {
      if j < |w.recs| { assert s.w.recs[j].nanos == w.recs[j].nanos; }
    }
  }

  lemma StepWriters(d0: Files, cfg: Config, p: Process, a: Action)
    requires Enabled(p, a) && a.On? && Writers(p) && Stepped(d0, cfg, p, a)
    ensures Writers(Next(cfg, p, a))
  {
    var p', s := Next(cfg, p, a), StepOf(cfg, p, a);
    StepIds(d0, cfg, p, a);
    forall i | 0 <= i < |p.ws| ensures Holds(p'.ws[i], p'.m) && IdsBelow(p'.ws[i], |p'.sent|) {
      if i != a.i { StepOther(p.ws[a.i], p.m, a.io, s, p.ws[i]); }
    }
    forall i, j | 0 <= i < j < |p.ws| ensures Apart(p'.ws[i], p'.ws[j]) {
      if i == a.i {
        StepOther(p.ws[i], p.m, a.io, s, p.ws[j]);
      } else if j == a.i {
        StepOther(p.ws[j], p.m, a.io, s, p.ws[i]);
      }
    }
  }

  lemma StepMachine(d0: Files, sc: Scope, cfg: Config, p: Process, a: Action)
    requires Enabled(p, a) && a.On? && Holds(p.ws[a.i], p.m) && Stepped(d0, cfg, p, a)
    requires NamesFresh(p.m, sc) && p.m.rowsWritten == TotalPublished(p.ws)
    ensures var p' := Next(cfg, p, a);
            History(d0, p'.m) && NamesFresh(p'.m, sc) && p'.m.rowsWritten == TotalPublished(p'.ws)
  {
    var s := StepOf(cfg, p, a);
    GuaranteeFresh(p.ws[a.i], p.m, a.io, s, sc);
    TotalUpdate(p.ws, a.i, s.w);
  }

  lemma WriterActionKeeps(d0: Files, sc: Scope, cfg: Config, p: Process, a: Action)
    requires Startable(d0, sc) && Inv(d0, sc, p) && Enabled(p, a) && a.On? && a.io.nanos in sc.readings
    ensures Inv(d0, sc, Next(cfg, p, a)) && Stepped(d0, cfg, p, a)
  {
    var w, s, p' := p.ws[a.i], StepOf(cfg, p, a), Next(cfg, p, a);
    InvSteppable(d0, sc, p, a);
    StepFacts(d0, cfg, p, a);
    StepWriters(d0, cfg, p, a);
    StepMachine(d0, sc, cfg, p, a);
    StepKept(d0, sc, w, p.m, a.io, s.m.disk);
    StepInScope(sc, w, p.m, a.io, s);
    StepRest(d0, sc, p.ws, a.i, p.m, a.io, s);
  }

  lemma StepRest(d0: Files, sc: Scope, ws: seq<Writer>, i: nat, m: Machine, io: IO, s: Step)
    requires i < |ws| && WellFormed(ws[i]) && Extends(ws[i], m, io, s) && s.w.dir == ws[i].dir
    requires ChangedOnly(m.disk, s.m.disk, Target(ws[i], m, io))
    requires InScope(sc, s.w) && AllInScope(sc, ws)
    requires forall q :: q in m.disk ==> Known(d0, ws, q)
    ensures AllInScope(sc, ws[i := s.w])
    ensures forall q :: q in s.m.disk ==> Known(d0, ws[i := s.w], q)
  {
    forall q | q in s.m.disk ensures Known(d0, ws[i := s.w], q) {
      StepNames(d0, ws, i, m, io, s, q);
    }
  }

  lemma {:induction false} NothingPublished(ws: seq<Writer>)
    requires forall i :: 0 <= i < |ws| ==> ws[i].recs == []
    ensures TotalPublished(ws) == 0
  {
    if ws != [] { NothingPublished(ws[..|ws| - 1]); }
  }

  lemma StartInv(cfg: Config, dirs: seq<string>, d0: Files, sc: Scope, now: int)
    requires Startable(d0, sc) && Scoped(sc, dirs, [])
    ensures Inv(d0, sc, Start(dirs, d0, now, cfg))
  {
    NothingPublished(Start(dirs, d0, now, cfg).ws);
    EmptyHistory(d0);
  }

  lemma EmptyHistory(d0: Files)
    requires Safe(d0)
    ensures History(d0, Machine(d0, 0, 0, []))
  {
    var none: seq<Call> := [];
    assert forall k :: 0 <= k <= 0 ==> none[..k] == none;
  }

  lemma {:induction false} WriterCount(cfg: Config, p: Process, run: seq<Action>)
    requires ValidRun(cfg, p, run)
    ensures |Run(cfg, p, run).ws| == |p.ws|
  {
    if run != [] { WriterCount(cfg, p, run[..|run| - 1]); }
  }

  /** Every reachable state satisfies the invariant. */
  lemma {:induction false} Reachable(cfg: Config, dirs: seq<string>, d0: Files, sc: Scope, now: int, run: seq<Action>)
    requires Startable(d0, sc) && Scoped(sc, dirs, run) && ValidRun(cfg, Start(dirs, d0, now, cfg), run)
    ensures Inv(d0, sc, Run(cfg, Start(dirs, d0, now, cfg), run))
  {
    var p0 := Start(dirs, d0, now, cfg);
    if run == [] {
      StartInv(cfg, dirs, d0, sc, now);
    } else {
      var a := run[|run| - 1];
      Reachable(cfg, dirs, d0, sc, now, run[..|run| - 1]);
      var p := Run(cfg, p0, run[..|run| - 1]);
      if a.On? {
        WriterActionKeeps(d0, sc, cfg, p, a);
      }
    }
  }

  /* ---- the flush loop and the wait group ---- */

  /** The wait group counts the goroutine, shutdown got past its wait only at zero, and a stopped
      ticker leaves no tick behind. */
  predicate LoopInv(p: Process) {
    && p.wg == (if p.loop.Returned? then 0 else 1)
    && (p.stop.Waited? ==> p.wg == 0)
    && (p.stop.TickerStopped? || p.stop.Waited? ==> !p.tick)
  }

  lemma {:induction false} LoopReachable(cfg: Config, dirs: seq<string>, d0: Files, now: int, run: seq<Action>)
    requires ValidRun(cfg, Start(dirs, d0, now, cfg), run)
    ensures LoopInv(Run(cfg, Start(dirs, d0, now, cfg), run))
  {
    if run != [] {
      var before := run[..|run| - 1];
      LoopReachable(cfg, dirs, d0, now, before);
      assert Enabled(Run(cfg, Start(dirs, d0, now, cfg), before), run[|run| - 1]);
    }
  }
}
