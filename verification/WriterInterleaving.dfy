/** The process as it runs: operations of different writers interleave call by call.

    A writer's mutex keeps its fields out of sight until its operation ends; what the other writers
    and a crash can see in between is the system calls. So an operation begins by taking its step of
    WriterProcess.dfy and then issues the calls of that step one at a time, in program order, while
    other writers issue theirs. The disk and the log here are the real ones; those inside `p` are
    what they will be when the operations in progress have ended. */
module WriterInterleaving {
  import opened FileNames
  import opened Options
  import opened Disk
  import opened WriterSpec
  import opened WriterInvariant
  import opened WriterSteps
  import opened WriterAccounts
  import opened WriterProcess
  import opened WriterTheorems
  import opened WriterCalls

  /** The program counter of a writer: no operation, or one with calls still to be issued and rows
      still to be counted. */
  datatype Op = Idle | Busy(todo: seq<Call>, owed: nat)

  /** `counted` is the rows-written counter and `checking` the writer the flush loop is inside of. */
  datatype World = World(
    p: Process, disk: Files, log: seq<Call>, ops: seq<Op>, counted: nat, checking: Option<nat>)

  datatype Move = Begin(a: Action) | Issue(i: nat) | Finish(i: nat)

  function StartWorld(cfg: Config, dirs: seq<string>, d0: Files, now: int): World {
    World(Start(dirs, d0, now, cfg), d0, [], seq(|dirs|, i requires 0 <= i < |dirs| => Idle), 0, None)
  }

  /** One operation at a time on a writer; and the flush loop is one goroutine. */
  predicate Can(v: World, x: Move) {
    match x
    case Begin(a) =>
      && Enabled(v.p, a)
      && (a.On? ==> a.i < |v.ops| && v.ops[a.i].Idle?)
      && ((a.On? && a.op.AgeCheck?) || a.RotationDone? ==> v.checking.None?)
    case Issue(i) => i < |v.ops| && v.ops[i].Busy? && v.ops[i].todo != []
    case Finish(i) => i < |v.ops| && v.ops[i].Busy? && v.ops[i].todo == []
  }

  function After(cfg: Config, v: World, x: Move): World
    requires Can(v, x)
  {
    match x
    case Begin(a) => Began(v, Next(cfg, v.p, a), a)
    case Issue(i) =>
      var op := v.ops[i];
      v.(disk := Apply(v.disk, op.todo[0]), log := v.log + [op.todo[0]], ops := v.ops[i := op.(todo := op.todo[1..])])
    case Finish(i) =>
      v.(ops := v.ops[i := Idle], counted := v.counted + v.ops[i].owed,
         checking := if v.checking == Some(i) then None else v.checking)
  }

  function Began(v: World, p': Process, a: Action): World
    requires a.On? ==> a.i < |v.ops|
  {
    if !a.On? then v.(p := p') else
    var owed: nat := if p'.m.rowsWritten >= v.p.m.rowsWritten then p'.m.rowsWritten - v.p.m.rowsWritten else 0;
    v.(p := p', ops := v.ops[a.i := Busy(Since(v.p.m, p'.m), owed)],
       checking := if a.op.AgeCheck? then Some(a.i) else v.checking)
  }

  predicate ValidMoves(cfg: Config, v: World, run: seq<Move>)
    decreases |run|, 0
  {
    run == [] || (
      var before := run[..|run| - 1];
      ValidMoves(cfg, v, before) && Can(Moved(cfg, v, before), run[|run| - 1]))
  }

  function Moved(cfg: Config, v: World, run: seq<Move>): World
    requires ValidMoves(cfg, v, run)
    decreases |run|, 1
  {
    if run == [] then v else After(cfg, Moved(cfg, v, run[..|run| - 1]), run[|run| - 1])
  }

  /** The operations and other actions of a run, in the order they begin. */
  function Begun(run: seq<Move>): seq<Action> {
    if run == [] then [] else
    Begun(run[..|run| - 1]) + if run[|run| - 1].Begin? then [run[|run| - 1].a] else []
  }

  /** Only beginning something changes `p`. */
  lemma AfterProcess(cfg: Config, v: World, x: Move)
    requires Can(v, x)
    ensures x.Begin? ==> Enabled(v.p, x.a) && After(cfg, v, x).p == Next(cfg, v.p, x.a)
    ensures !x.Begin? ==> After(cfg, v, x).p == v.p
  {
  }

  /** What was begun is itself a run of the process. */
  lemma {:induction false} Projects(cfg: Config, v: World, run: seq<Move>)
    requires ValidMoves(cfg, v, run)
    ensures ValidRun(cfg, v.p, Begun(run)) && Moved(cfg, v, run).p == Run(cfg, v.p, Begun(run))
  {
    if run != [] {
      var before, x := run[..|run| - 1], run[|run| - 1];
      var u := Moved(cfg, v, before);
      Projects(cfg, v, before);
      AfterProcess(cfg, u, x);
      assert Moved(cfg, v, run) == After(cfg, u, x);
      if x.Begin? {
        Extend(cfg, v.p, Begun(before), x.a);
        assert Begun(run) == Begun(before) + [x.a];
      } else {
        assert Begun(run) == Begun(before);
      }
    }
  }

  /* ---- the invariant ---- */

  function Todo(op: Op): seq<Call> {
    if op.Idle? then [] else op.todo
  }

  /** The calls still to be issued work on the writer's last file and are proper at their turn; after
      them the writer's files are as its ledger says. */
  ghost predicate OpOk(w: Writer, ideal: Files, disk: Files, op: Op) {
    && (Todo(op) != [] ==> w.recs != [] && AllAbout(Todo(op), PathOf(w.dir, Last(w.recs))))
    && Orderly(disk, Todo(op))
    && FilesSame(w, Replay(disk, Todo(op)), ideal)
  }

  ghost predicate FilesSame(w: Writer, d: Files, e: Files) {
    forall j :: 0 <= j < |w.recs| ==> SameFile(d, e, PathOf(w.dir, w.recs[j]))
  }

  ghost predicate NameOfNone(ws: seq<Writer>, q: string) {
    forall i :: 0 <= i < |ws| ==> !Names(ws[i], q)
  }

  function Owed(ops: seq<Op>): nat {
    if ops == [] then 0 else
    Owed(ops[..|ops| - 1]) + if ops[|ops| - 1].Busy? then ops[|ops| - 1].owed else 0
  }

  ghost predicate OpsOk(v: World) {
    && |v.ops| == |v.p.ws|
    && (forall i :: 0 <= i < |v.ops| ==> OpOk(v.p.ws[i], v.p.m.disk, v.disk, v.ops[i]))
    && (forall q :: NameOfNone(v.p.ws, q) ==> Same(v.disk, v.p.m.disk, q))
  }

  ghost predicate LogOk(d0: Files, v: World) {
    v.disk == Replay(d0, v.log) && SafeThroughout(d0, v.log)
  }

  ghost predicate WorldInv(d0: Files, sc: Scope, v: World) {
    && Inv(d0, sc, v.p) && Owned(v.p) && OpsOk(v) && LogOk(d0, v)
    && v.counted + Owed(v.ops) == v.p.m.rowsWritten
  }

  lemma {:induction false} OwedUpdate(ops: seq<Op>, i: nat, op: Op)
    requires i < |ops|
    ensures Owed(ops[i := op]) + (if ops[i].Busy? then ops[i].owed else 0)
      == Owed(ops) + if op.Busy? then op.owed else 0
  {
    var init := ops[..|ops| - 1];
    if i == |ops| - 1 {
      assert ops[i := op][..|ops| - 1] == init;
    } else {
      OwedUpdate(init, i, op);
      assert ops[i := op][..|ops| - 1] == init[i := op];
    }
  }

  /* ---- beginning an operation ---- */

  lemma StepLeads(cfg: Config, p: Process, a: Action)
    requires Enabled(p, a) && a.On? && OnlyLastOpen(p.ws[a.i])
    ensures Leads(p.m, StepOf(cfg, p, a).m, Target(p.ws[a.i], p.m, a.io))
  {
    var w := p.ws[a.i];
    match a.op
    case Push(rows) => WriteLeads(cfg, w, p.m, Batch(|p.sent|, rows), a.io);
    case AgeCheck =>
      RotateLeads(w, p.m, a.io);
      LeadsNowhere(p.m, p.m, Target(w, p.m, a.io));
    case Close => RotateLeads(w, p.m, a.io);
  }

  /** Calls on one file leave a file with another counter alone. */
  lemma OtherFileSame(d: Files, cs: seq<Call>, dir: string, t: int, n: nat, dir': string, r: Rec)
    requires AllAbout(cs, PartPath(dir, t, n)) && r.num != n
    ensures SameFile(d, Replay(d, cs), PathOf(dir', r))
  {
    var p, q := PartPath(dir, t, n), PathOf(dir', r);
    NamesApart(dir, t, n, dir', r.nanos, r.num);
    ReplayElsewhere(d, cs, p, q);
    ReplayElsewhere(d, cs, p, FinalPath(q));
  }

  /** The file an operation is about to work on is on the real disk as it is in `p`. */
  lemma TargetSame(v: World, i: nat, io: IO)
    requires Writers(v.p) && OpsOk(v) && i < |v.ops| && v.ops[i].Idle?
    ensures SameFile(v.p.m.disk, v.disk, Target(v.p.ws[i], v.p.m, io))
  {
    var w := v.p.ws[i];
    assert Holds(w, v.p.m) && OpOk(w, v.p.m.disk, v.disk, v.ops[i]);
    if w.isOpen {
      assert SameFile(v.disk, v.p.m.disk, PathOf(w.dir, w.recs[|w.recs| - 1]));
    } else {
      var p := PartPath(w.dir, io.nanos, v.p.m.counter + 1);
      forall k | 0 <= k < |v.p.ws| ensures !Names(v.p.ws[k], p) && !Names(v.p.ws[k], FinalPath(p)) {
        assert Holds(v.p.ws[k], v.p.m);
        NextNamesNone(v.p.ws[k], v.p.m, w.dir, io.nanos);
      }
      assert NameOfNone(v.p.ws, p) && NameOfNone(v.p.ws, FinalPath(p));
    }
  }

  lemma NextNamesNone(w: Writer, m: Machine, dir: string, t: int)
    requires Numbered(w.recs, m.counter)
    ensures var p := PartPath(dir, t, m.counter + 1); !Names(w, p) && !Names(w, FinalPath(p))
  {
    forall j | 0 <= j < |w.recs| {
      NamesApart(dir, t, m.counter + 1, w.dir, w.recs[j].nanos, w.recs[j].num);
    }
  }

  /** The operation's own files after its calls. */
  lemma BeginOwn(w: Writer, m: Machine, disk: Files, io: IO, s: Step)
    requires OnlyLastOpen(w) && Numbered(w.recs, m.counter) && FilesSame(w, disk, m.disk)
    requires SameFile(m.disk, disk, Target(w, m, io))
    requires Extends(w, m, io, s) && s.w.dir == w.dir && Leads(m, s.m, Target(w, m, io))
    ensures FilesSame(s.w, Replay(disk, Since(m, s.m)), s.m.disk)
  {
    var t, cs := Target(w, m, io), Since(m, s.m);
    ReplaySame(m.disk, disk, cs, t);
    forall j | 0 <= j < |s.w.recs| ensures SameFile(Replay(disk, cs), s.m.disk, PathOf(s.w.dir, s.w.recs[j])) {
      if j < (if w.isOpen then |w.recs| - 1 else |w.recs|) {
        assert PathOf(s.w.dir, s.w.recs[j]) == PathOf(w.dir, w.recs[j]);
        BeginElsewhere(w, m, disk, io, cs, w.dir, w.recs[j]);
      } else {
        OwnTarget(w, m, io, s, j);
      }
    }
  }

  lemma OwnTarget(w: Writer, m: Machine, io: IO, s: Step, j: nat)
    requires OnlyLastOpen(w) && Extends(w, m, io, s) && s.w.dir == w.dir
    requires j < |s.w.recs| && j >= if w.isOpen then |w.recs| - 1 else |w.recs|
    ensures PathOf(s.w.dir, s.w.recs[j]) == Target(w, m, io)
  {
    var r := s.w.recs[j];
    if w.isOpen {
      var last := w.recs[j];
      assert r.num == last.num && r.nanos == last.nanos;
    } else {
      assert j == |s.w.recs| - 1;
      assert r.num == m.counter + 1 && r.nanos == io.nanos;
    }
  }

  /** What a file not worked on looks like after the calls, on both disks. */
  lemma BeginElsewhere(w: Writer, m: Machine, disk: Files, io: IO, cs: seq<Call>, dir: string, r: Rec)
    requires WellFormed(w) && AllAbout(cs, Target(w, m, io))
    requires r.num != TargetNum(w, m)
    requires SameFile(disk, m.disk, PathOf(dir, r))
    ensures SameFile(Replay(disk, cs), Replay(m.disk, cs), PathOf(dir, r))
  {
    OtherFileSame(disk, cs, w.dir, TargetTime(w, io), TargetNum(w, m), dir, r);
    OtherFileSame(m.disk, cs, w.dir, TargetTime(w, io), TargetNum(w, m), dir, r);
  }

  lemma TargetIsPart(w: Writer, m: Machine, io: IO)
    requires OnlyLastOpen(w)
    ensures !IsFinal(Target(w, m, io)) && IsFinal(FinalPath(Target(w, m, io)))
  {
    PartIsNotFinal(w.dir, TargetTime(w, io), TargetNum(w, m));
  }

  /** The calls that lead from one machine to another are orderly on the disk of the first. */
  lemma LeadsOrderly(d0: Files, m: Machine, m': Machine, t: string)
    requires |t| > |PART| && !IsFinal(t) && IsFinal(FinalPath(t))
    requires History(d0, m) && History(d0, m') && Leads(m, m', t)
    ensures Orderly(m.disk, Since(m, m'))
  {
    assert m'.calls[..|m.calls|] == m.calls;
    SafeLogIsOrderly(d0, m'.calls, |m.calls|, t);
  }

  lemma BeginOrderly(d0: Files, w: Writer, m: Machine, disk: Files, io: IO, s: Step)
    requires OnlyLastOpen(w) && History(d0, m) && History(d0, s.m)
    requires SameFile(m.disk, disk, Target(w, m, io)) && Leads(m, s.m, Target(w, m, io))
    ensures Orderly(disk, Since(m, s.m))
  {
    var t := Target(w, m, io);
    TargetIsPart(w, m, io);
    LeadsOrderly(d0, m, s.m, t);
    OrderlySame(m.disk, disk, Since(m, s.m), t);
  }

  /** Another writer does not notice that the operation begins. */
  lemma BeginOther(w: Writer, m: Machine, io: IO, s: Step, other: Writer, disk: Files, op: Op)
    requires OnlyLastOpen(w) && Apart(w, other) && Numbered(other.recs, m.counter)
    requires Leads(m, s.m, Target(w, m, io)) && OpOk(other, m.disk, disk, op)
    ensures OpOk(other, s.m.disk, disk, op)
  {
    forall j | 0 <= j < |other.recs|
      ensures SameFile(Replay(disk, Todo(op)), s.m.disk, PathOf(other.dir, other.recs[j]))
    {
      var r := other.recs[j];
      if w.isOpen {
        var last := w.recs[|w.recs| - 1];
        OtherFileSame(m.disk, Since(m, s.m), w.dir, last.nanos, last.num, other.dir, r);
      } else {
        OtherFileSame(m.disk, Since(m, s.m), w.dir, io.nanos, m.counter + 1, other.dir, r);
      }
    }
  }

  /** Names of no writer are untouched by the calls. */
  lemma BeginNone(ws: seq<Writer>, i: nat, m: Machine, io: IO, s: Step, disk: Files, q: string)
    requires i < |ws| && WellFormed(ws[i]) && Extends(ws[i], m, io, s) && s.w.dir == ws[i].dir
    requires Leads(m, s.m, Target(ws[i], m, io))
    requires NameOfNone(ws[i := s.w], q)
    requires NameOfNone(ws, q) ==> Same(disk, m.disk, q)
    ensures Same(disk, s.m.disk, q)
  {
    var w := ws[i];
    forall k | 0 <= k < |ws| ensures !Names(ws[k], q) {
      assert !Names(ws[i := s.w][k], q);
      if k == i && Names(w, q) { NamesPersist(w, m, io, s, q); }
    }
    assert NameOfNone(ws, q);
    if s.m.calls != m.calls {
      var j := |s.w.recs| - 1;
      assert PathOf(s.w.dir, s.w.recs[j]) == Target(w, m, io);
      assert !Names(ws[i := s.w][i], q);
      ReplayElsewhere(m.disk, Since(m, s.m), Target(w, m, io), q);
    } else {
      assert Since(m, s.m) == [];
    }
  }

  lemma BeginOpOk(d0: Files, w: Writer, m: Machine, disk: Files, io: IO, s: Step, op: Op)
    requires OnlyLastOpen(w) && Numbered(w.recs, m.counter) && History(d0, m) && History(d0, s.m)
    requires FilesSame(w, disk, m.disk) && SameFile(m.disk, disk, Target(w, m, io))
    requires Extends(w, m, io, s) && s.w.dir == w.dir && Leads(m, s.m, Target(w, m, io))
    requires op.Busy? && op.todo == Since(m, s.m)
    ensures OpOk(s.w, s.m.disk, disk, op)
  {
    BeginOwn(w, m, disk, io, s);
    BeginOrderly(d0, w, m, disk, io, s);
    assert Since(m, s.m) != [] ==> s.m.calls != m.calls;
  }

  lemma BeginOps(d0: Files, cfg: Config, v: World, a: Action)
    requires Writers(v.p) && History(d0, v.p.m) && OpsOk(v)
    requires a.On? && Can(v, Begin(a)) && Stepped(d0, cfg, v.p, a)
    ensures OpsOk(After(cfg, v, Begin(a)))
  {
    var s := StepOf(cfg, v.p, a);
    assert Holds(v.p.ws[a.i], v.p.m);
    StepLeads(cfg, v.p, a);
    BeginOwnOp(d0, cfg, v, a);
    BeginOthers(v.p, a.i, a.io, s, v.disk, v.ops);
    BeginNones(v.p, a.i, a.io, s, v.disk);
    BegunOps(v, After(cfg, v, Begin(a)), a.i, s);
  }

  lemma BegunOps(v: World, v': World, i: nat, s: Step)
    requires i < |v.p.ws| == |v.ops| == |v'.ops|
    requires v'.p.ws == v.p.ws[i := s.w] && v'.p.m == s.m && v'.disk == v.disk && v'.ops == v.ops[i := v'.ops[i]]
    requires OpOk(s.w, s.m.disk, v.disk, v'.ops[i])
    requires forall k :: 0 <= k < |v.ops| && k != i ==> OpOk(v.p.ws[k], s.m.disk, v.disk, v.ops[k])
    requires forall q :: NameOfNone(v.p.ws[i := s.w], q) ==> Same(v.disk, s.m.disk, q)
    ensures OpsOk(v')
  {
  }

  lemma BeginOwnOp(d0: Files, cfg: Config, v: World, a: Action)
    requires Writers(v.p) && History(d0, v.p.m) && OpsOk(v)
    requires a.On? && Can(v, Begin(a)) && Stepped(d0, cfg, v.p, a)
    ensures
      var s := StepOf(cfg, v.p, a);
      OpOk(s.w, s.m.disk, v.disk, After(cfg, v, Begin(a)).ops[a.i])
  {
    var w, m, s := v.p.ws[a.i], v.p.m, StepOf(cfg, v.p, a);
    assert Holds(w, m) && OpOk(w, m.disk, v.disk, v.ops[a.i]);
    StepLeads(cfg, v.p, a);
    TargetSame(v, a.i, a.io);
    BeginOpOk(d0, w, m, v.disk, a.io, s, After(cfg, v, Begin(a)).ops[a.i]);
  }

  lemma BeginNones(p: Process, i: nat, io: IO, s: Step, disk: Files)
    requires i < |p.ws| && WellFormed(p.ws[i]) && Extends(p.ws[i], p.m, io, s) && s.w.dir == p.ws[i].dir
    requires Leads(p.m, s.m, Target(p.ws[i], p.m, io))
    requires forall q :: NameOfNone(p.ws, q) ==> Same(disk, p.m.disk, q)
    ensures forall q :: NameOfNone(p.ws[i := s.w], q) ==> Same(disk, s.m.disk, q)
  {
    forall q | NameOfNone(p.ws[i := s.w], q) ensures Same(disk, s.m.disk, q) {
      BeginNone(p.ws, i, p.m, io, s, disk, q);
    }
  }

  lemma BeginOthers(p: Process, i: nat, io: IO, s: Step, disk: Files, ops: seq<Op>)
    requires Writers(p) && i < |p.ws| == |ops| && Leads(p.m, s.m, Target(p.ws[i], p.m, io))
    requires forall k :: 0 <= k < |ops| ==> OpOk(p.ws[k], p.m.disk, disk, ops[k])
    ensures forall k :: 0 <= k < |ops| && k != i ==> OpOk(p.ws[k], s.m.disk, disk, ops[k])
  {
    forall k | 0 <= k < |ops| && k != i ensures OpOk(p.ws[k], s.m.disk, disk, ops[k]) {
      assert Holds(p.ws[i], p.m) && Holds(p.ws[k], p.m);
      assert Apart(p.ws[k], p.ws[i]) || Apart(p.ws[i], p.ws[k]);
      BeginOther(p.ws[i], p.m, io, s, p.ws[k], disk, ops[k]);
    }
  }

  /* ---- issuing a call ---- */

  /** Another writer does not notice the call. */
  lemma IssueOther(w: Writer, other: Writer, n: nat, ideal: Files, disk: Files, op: Op, c: Call)
    requires w.recs != [] && About(c, PathOf(w.dir, Last(w.recs))) && Apart(w, other)
    requires Numbered(other.recs, n) && OpOk(other, ideal, disk, op)
    ensures OpOk(other, ideal, Apply(disk, c), op)
  {
    CallElsewhere(w, other, disk, c);
    if Todo(op) == [] {
      SameThrough(other, Apply(disk, c), disk, ideal);
    } else {
      IssueOtherBusy(other, n, ideal, disk, Apply(disk, c), op);
    }
  }

  lemma IssueOtherBusy(w: Writer, n: nat, ideal: Files, disk: Files, disk': Files, op: Op)
    requires Numbered(w.recs, n) && OpOk(w, ideal, disk, op) && Todo(op) != []
    requires FilesSame(w, disk, disk')
    ensures OpOk(w, ideal, disk', op)
  {
    var cs, k := Todo(op), |w.recs| - 1;
    assert SameFile(disk, disk', PathOf(w.dir, w.recs[k]));
    OrderlySame(disk, disk', cs, PathOf(w.dir, w.recs[k]));
    IssueOtherFiles(w, n, disk, disk', cs);
    SameThrough(w, Replay(disk', cs), Replay(disk, cs), ideal);
  }

  lemma SameThrough(w: Writer, d: Files, e: Files, f: Files)
    requires FilesSame(w, e, d) && FilesSame(w, e, f)
    ensures FilesSame(w, d, f)
  {
    forall j | 0 <= j < |w.recs| ensures SameFile(d, f, PathOf(w.dir, w.recs[j])) {
      assert SameFile(e, d, PathOf(w.dir, w.recs[j])) && SameFile(e, f, PathOf(w.dir, w.recs[j]));
    }
  }

  lemma IssueOtherFiles(w: Writer, n: nat, disk: Files, disk': Files, cs: seq<Call>)
    requires w.recs != [] && Numbered(w.recs, n) && AllAbout(cs, PathOf(w.dir, Last(w.recs)))
    requires FilesSame(w, disk, disk')
    ensures FilesSame(w, Replay(disk, cs), Replay(disk', cs))
  {
    forall j | 0 <= j < |w.recs| ensures SameFile(Replay(disk, cs), Replay(disk', cs), PathOf(w.dir, w.recs[j])) {
      IssueOtherFile(w, disk, disk', cs, j);
    }
  }

  lemma CallElsewhere(w: Writer, other: Writer, disk: Files, c: Call)
    requires w.recs != [] && About(c, PathOf(w.dir, Last(w.recs))) && Apart(w, other)
    ensures FilesSame(other, disk, Apply(disk, c))
  {
    var mine := w.recs[|w.recs| - 1];
    ReplayOne(disk, c);
    forall j | 0 <= j < |other.recs| ensures SameFile(disk, Apply(disk, c), PathOf(other.dir, other.recs[j])) {
      OtherFileSame(disk, [c], w.dir, mine.nanos, mine.num, other.dir, other.recs[j]);
    }
  }

  lemma IssueOtherFile(w: Writer, disk: Files, disk': Files, cs: seq<Call>, j: nat)
    requires j < |w.recs| && AllAbout(cs, PathOf(w.dir, Last(w.recs)))
    requires j < |w.recs| - 1 ==> w.recs[j].num != Last(w.recs).num
    requires SameFile(disk, disk', PathOf(w.dir, w.recs[j]))
    ensures SameFile(Replay(disk, cs), Replay(disk', cs), PathOf(w.dir, w.recs[j]))
  {
    var last, r := Last(w.recs), w.recs[j];
    if j == |w.recs| - 1 {
      ReplaySame(disk, disk', cs, PathOf(w.dir, r));
    } else {
      OtherFileSame(disk, cs, w.dir, last.nanos, last.num, w.dir, r);
      OtherFileSame(disk', cs, w.dir, last.nanos, last.num, w.dir, r);
    }
  }

  lemma IssueOps(cfg: Config, v: World, i: nat)
    requires Writers(v.p) && OpsOk(v) && Can(v, Issue(i))
    ensures OpsOk(After(cfg, v, Issue(i)))
  {
    var w, op, c := v.p.ws[i], v.ops[i], v.ops[i].todo[0];
    var v' := After(cfg, v, Issue(i));
    assert OpOk(w, v.p.m.disk, v.disk, op);
    ReplayFirst(v.disk, op.todo);
    RestAbout(op.todo, PathOf(w.dir, Last(w.recs)));
    IssueOthers(v.p, v.disk, v.ops, i, c);
    forall q | NameOfNone(v.p.ws, q) ensures Same(Apply(v.disk, c), v.p.m.disk, q) {
      CallNamed(v.p.ws, i, c, q);
    }
  }

  lemma CallNamed(ws: seq<Writer>, i: nat, c: Call, q: string)
    requires i < |ws| && ws[i].recs != [] && About(c, PathOf(ws[i].dir, Last(ws[i].recs)))
    requires NameOfNone(ws, q)
    ensures q != c.path && (c.Rename? ==> q != c.dst)
  {
    var j := |ws[i].recs| - 1;
    assert !Names(ws[i], q);
    assert PathOf(ws[i].dir, ws[i].recs[j]) == c.path;
  }

  lemma IssueOthers(p: Process, disk: Files, ops: seq<Op>, i: nat, c: Call)
    requires Writers(p) && i < |p.ws| == |ops|
    requires p.ws[i].recs != [] && About(c, PathOf(p.ws[i].dir, Last(p.ws[i].recs)))
    requires forall k :: 0 <= k < |ops| ==> OpOk(p.ws[k], p.m.disk, disk, ops[k])
    ensures forall k :: 0 <= k < |ops| && k != i ==> OpOk(p.ws[k], p.m.disk, Apply(disk, c), ops[k])
  {
    forall k | 0 <= k < |ops| && k != i ensures OpOk(p.ws[k], p.m.disk, Apply(disk, c), ops[k]) {
      assert Holds(p.ws[k], p.m);
      assert Apart(p.ws[k], p.ws[i]) || Apart(p.ws[i], p.ws[k]);
      IssueOther(p.ws[i], p.ws[k], p.m.counter, p.m.disk, disk, ops[k], c);
    }
  }

  lemma LogStep(d0: Files, disk: Files, log: seq<Call>, c: Call)
    requires disk == Replay(d0, log) && SafeThroughout(d0, log) && Proper(disk, c)
    ensures Apply(disk, c) == Replay(d0, log + [c]) && SafeThroughout(d0, log + [c])
  {
    assert log[..|log|] == log;
    ProperIsSafe(disk, c);
    assert (log + [c])[..|log|] == log;
    SafeExtend(d0, log, c);
  }

  /* ---- every move ---- */

  lemma BeginInv(d0: Files, sc: Scope, cfg: Config, p: Process, a: Action)
    requires Startable(d0, sc) && Inv(d0, sc, p) && Owned(p) && Enabled(p, a) && a.On? && a.io.nanos in sc.readings
    ensures Inv(d0, sc, Next(cfg, p, a)) && Owned(Next(cfg, p, a)) && Stepped(d0, cfg, p, a)
  {
    WriterActionKeeps(d0, sc, cfg, p, a);
    StepOwned(d0, cfg, p, a);
  }

  lemma BeginKeeps(d0: Files, sc: Scope, cfg: Config, v: World, a: Action)
    requires Startable(d0, sc) && WorldInv(d0, sc, v) && Can(v, Begin(a)) && (a.On? ==> a.io.nanos in sc.readings)
    ensures WorldInv(d0, sc, After(cfg, v, Begin(a)))
  {
    var v' := After(cfg, v, Begin(a));
    BeginTouchesNothing(cfg, v, a);
    if a.On? {
      BeginInv(d0, sc, cfg, v.p, a);
      BeginOps(d0, cfg, v, a);
      BeginOwes(cfg, v, a);
    } else {
      assert v'.p.ws == v.p.ws && v'.p.m == v.p.m && v'.p.sent == v.p.sent;
      OtherInv(d0, sc, v.p, v'.p);
    }
  }

  lemma BeginTouchesNothing(cfg: Config, v: World, a: Action)
    requires Can(v, Begin(a))
    ensures var v' := After(cfg, v, Begin(a));
      && v'.p == Next(cfg, v.p, a) && v'.disk == v.disk && v'.log == v.log
      && (!a.On? ==> v'.ops == v.ops && v'.counted == v.counted)
  {
  }

  lemma OtherInv(d0: Files, sc: Scope, p: Process, p': Process)
    requires Inv(d0, sc, p) && Owned(p) && p'.ws == p.ws && p'.m == p.m && p'.sent == p.sent
    ensures Inv(d0, sc, p') && Owned(p')
  {
  }

  lemma BeginOwes(cfg: Config, v: World, a: Action)
    requires a.On? && Can(v, Begin(a)) && Writers(v.p) && v.counted + Owed(v.ops) == v.p.m.rowsWritten
    ensures var v' := After(cfg, v, Begin(a)); v'.counted + Owed(v'.ops) == v'.p.m.rowsWritten
  {
    assert Holds(v.p.ws[a.i], v.p.m);
    StepLeads(cfg, v.p, a);
    OwedUpdate(v.ops, a.i, After(cfg, v, Begin(a)).ops[a.i]);
  }

  lemma IssueKeeps(d0: Files, sc: Scope, cfg: Config, v: World, i: nat)
    requires WorldInv(d0, sc, v) && Can(v, Issue(i))
    ensures WorldInv(d0, sc, After(cfg, v, Issue(i)))
  {
    assert OpOk(v.p.ws[i], v.p.m.disk, v.disk, v.ops[i]);
    IssueOps(cfg, v, i);
    LogStep(d0, v.disk, v.log, v.ops[i].todo[0]);
    OwedUpdate(v.ops, i, After(cfg, v, Issue(i)).ops[i]);
  }

  lemma FinishOps(cfg: Config, v: World, i: nat)
    requires OpsOk(v) && Can(v, Finish(i))
    ensures OpsOk(After(cfg, v, Finish(i)))
  {
    forall k | 0 <= k < |v.ops| ensures OpOk(v.p.ws[k], v.p.m.disk, v.disk, After(cfg, v, Finish(i)).ops[k]) {
      assert OpOk(v.p.ws[k], v.p.m.disk, v.disk, v.ops[k]);
    }
  }

  lemma FinishKeeps(d0: Files, sc: Scope, cfg: Config, v: World, i: nat)
    requires WorldInv(d0, sc, v) && Can(v, Finish(i))
    ensures WorldInv(d0, sc, After(cfg, v, Finish(i)))
  {
    FinishOps(cfg, v, i);
    OwedUpdate(v.ops, i, Idle);
  }

  lemma {:induction false} NoneOwed(ops: seq<Op>)
    requires forall i :: 0 <= i < |ops| ==> ops[i] == Idle
    ensures Owed(ops) == 0
  {
    if ops != [] { NoneOwed(ops[..|ops| - 1]); }
  }

  lemma StartWorldInv(cfg: Config, dirs: seq<string>, d0: Files, sc: Scope, now: int)
    requires Startable(d0, sc) && Scoped(sc, dirs, [])
    ensures WorldInv(d0, sc, StartWorld(cfg, dirs, d0, now))
  {
    var v := StartWorld(cfg, dirs, d0, now);
    StartInv(cfg, dirs, d0, sc, now);
    StartOps(cfg, dirs, d0, now);
    EmptyHistory(d0);
    assert LogOk(d0, v);
    NoneOwed(v.ops);
  }

  lemma StartOps(cfg: Config, dirs: seq<string>, d0: Files, now: int)
    ensures OpsOk(StartWorld(cfg, dirs, d0, now)) && Owned(Start(dirs, d0, now, cfg))
  {
    var v := StartWorld(cfg, dirs, d0, now);
    forall i | 0 <= i < |v.ops| ensures OpOk(v.p.ws[i], d0, d0, v.ops[i]) && Owns(v.p.ws[i], i, []) {
      assert v.p.ws[i] == NewWriter(dirs[i]) && v.ops[i] == Idle;
    }
  }

  lemma BegunScoped(sc: Scope, dirs: seq<string>, run: seq<Move>)
    requires run != [] && Scoped(sc, dirs, Begun(run))
    ensures Scoped(sc, dirs, Begun(run[..|run| - 1]))
    ensures run[|run| - 1].Begin? && run[|run| - 1].a.On? ==> run[|run| - 1].a.io.nanos in sc.readings
  {
    var before, x := Begun(run[..|run| - 1]), run[|run| - 1];
    forall k | 0 <= k < |before| && before[k].On? ensures before[k].io.nanos in sc.readings {
      assert Begun(run)[k] == before[k];
    }
    if x.Begin? { assert Begun(run)[|before|] == x.a; }
  }

  /** Every state of every interleaving satisfies the invariant. */
  lemma {:induction false} ReachableWorld(
    cfg: Config, dirs: seq<string>, d0: Files, sc: Scope, now: int, run: seq<Move>)
    requires Startable(d0, sc) && Scoped(sc, dirs, Begun(run))
    requires ValidMoves(cfg, StartWorld(cfg, dirs, d0, now), run)
    ensures WorldInv(d0, sc, Moved(cfg, StartWorld(cfg, dirs, d0, now), run))
  {
    if run == [] {
      StartWorldInv(cfg, dirs, d0, sc, now);
    } else {
      var before, x := run[..|run| - 1], run[|run| - 1];
      BegunScoped(sc, dirs, run);
      ReachableWorld(cfg, dirs, d0, sc, now, before);
      var v := Moved(cfg, StartWorld(cfg, dirs, d0, now), before);
      match x
      case Begin(a) => BeginKeeps(d0, sc, cfg, v, a);
      case Issue(i) => IssueKeeps(d0, sc, cfg, v, i);
      case Finish(i) => FinishKeeps(d0, sc, cfg, v, i);
    }
  }
}
