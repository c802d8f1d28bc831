/** What holds in every run of the exporter's writers, however their system calls interleave,
    whatever fails, on a disk that may hold files of earlier processes, and wherever it crashes. */
module WriterSafety {
  import opened FileNames
  import opened Disk
  import opened WriterSpec
  import opened WriterInvariant
  import opened WriterAccounts
  import opened WriterProcess
  import opened WriterTheorems
  import opened WriterCalls
  import opened WriterInterleaving

  /** `v` is reached by these moves from a start with these directories and this disk, `sc` covering
      the names that are put together on the way. */
  ghost predicate Reached(cfg: Config, dirs: seq<string>, d0: Files, sc: Scope, now: int, run: seq<Move>, v: World) {
    && Startable(d0, sc) && Scoped(sc, dirs, Begun(run))
    && ValidMoves(cfg, StartWorld(cfg, dirs, d0, now), run)
    && v == Moved(cfg, StartWorld(cfg, dirs, d0, now), run)
  }

  /* ---- publication ---- */

  /** Cut the run off between any two system calls, with any number of writers inside operations, and
      let the crash lose every byte not yet synced: each file that still shows under a published name
      has its footer, all its rows, and was closed, and it is the file that was published. */
  lemma PublicationSurvivesCrash(
    cfg: Config, dirs: seq<string>, d0: Files, sc: Scope, now: int, run: seq<Move>, v: World,
    k: nat, after: Files, q: string)
    requires Reached(cfg, dirs, d0, sc, now, run, v) && k <= |v.log|
    requires CrashOf(Replay(d0, v.log[..k]), after) && q in after && IsFinal(q)
    ensures var before := Replay(d0, v.log[..k]);
            q in before && Complete(before[q]) && after[q].chunks == before[q].chunks
  {
    ReachableWorld(cfg, dirs, d0, sc, now, run);
    CrashKeepsPublished(d0, v.log, k, after, q);
  }

  /** No system call truncates or overwrites a file, whoever made that file. */
  lemma NothingIsOverwritten(
    cfg: Config, dirs: seq<string>, d0: Files, sc: Scope, now: int, run: seq<Move>, v: World, k: nat)
    requires Reached(cfg, dirs, d0, sc, now, run, v) && k < |v.log|
    ensures !Clobbers(Replay(d0, v.log[..k]), v.log[k])
  {
    ReachableWorld(cfg, dirs, d0, sc, now, run);
  }

  lemma EarlierNameOfNone(d0: Files, sc: Scope, ws: seq<Writer>, counter: nat, q: string)
    requires Startable(d0, sc) && AllInScope(sc, ws) && q in d0
    requires forall i :: 0 <= i < |ws| ==> Numbered(ws[i].recs, counter)
    ensures NameOfNone(ws, q)
  {
    forall i | 0 <= i < |ws| ensures !Names(ws[i], q) {
      assert InScope(sc, ws[i]) && Numbered(ws[i].recs, counter);
      forall j | 0 <= j < |ws[i].recs|
        ensures q != PathOf(ws[i].dir, ws[i].recs[j]) && q != FinalPath(PathOf(ws[i].dir, ws[i].recs[j]))
      {
        var r := ws[i].recs[j];
        assert PartPath(ws[i].dir, r.nanos, r.num) !in d0;
      }
    }
  }

  /** Every file that was there at the start, whatever its name and state, is there unchanged. */
  lemma EarlierFilesStay(
    cfg: Config, dirs: seq<string>, d0: Files, sc: Scope, now: int, run: seq<Move>, v: World, q: string)
    requires Reached(cfg, dirs, d0, sc, now, run, v) && q in d0
    ensures q in v.disk && v.disk[q] == d0[q]
  {
    ReachableWorld(cfg, dirs, d0, sc, now, run);
    forall i | 0 <= i < |v.p.ws| ensures Numbered(v.p.ws[i].recs, v.p.m.counter) {
      assert Holds(v.p.ws[i], v.p.m);
    }
    EarlierNameOfNone(d0, sc, v.p.ws, v.p.m.counter, q);
    assert Same(v.disk, v.p.m.disk, q);
  }

  /* ---- the next process ---- */

  /** What is on the disk was there at the start or is a name of a writer's file. */
  lemma DiskKnown(d0: Files, sc: Scope, v: World, q: string)
    requires WorldInv(d0, sc, v) && q in v.disk
    ensures Known(d0, v.p.ws, q)
  {
    if NameOfNone(v.p.ws, q) {
      assert Same(v.disk, v.p.m.disk, q);
    } else {
      var i :| 0 <= i < |v.p.ws| && Names(v.p.ws[i], q);
    }
  }

  /** A name with a reading that the process never had is not one of its files'. */
  lemma OtherReading(sc: Scope, w: Writer, dir: string, t: int, n: nat)
    requires InScope(sc, w) && t !in sc.readings
    ensures !Names(w, PartPath(dir, t, n)) && !Names(w, FinalPath(PartPath(dir, t, n)))
  {
    var p := PartPath(dir, t, n);
    PartIsNotFinal(dir, t, n);
    forall j | 0 <= j < |w.recs|
      ensures PathOf(w.dir, w.recs[j]) != p && FinalPath(PathOf(w.dir, w.recs[j])) != FinalPath(p)
      ensures PathOf(w.dir, w.recs[j]) != FinalPath(p) && FinalPath(PathOf(w.dir, w.recs[j])) != p
    {
      var r := w.recs[j];
      PartIsNotFinal(w.dir, r.nanos, r.num);
      if PathOf(w.dir, r) == p { SamePartSameReading(w.dir, r.nanos, r.num, dir, t, n); }
      if FinalPath(PathOf(w.dir, r)) == FinalPath(p) {
        StripIsInjective(PathOf(w.dir, r), p);
        SamePartSameReading(w.dir, r.nanos, r.num, dir, t, n);
      }
    }
  }

  lemma NewReadingIsFree(d0: Files, sc: Scope, v: World, dir: string, t: int, n: nat)
    requires WorldInv(d0, sc, v) && t !in sc.readings
    requires PartPath(dir, t, n) !in d0 && FinalPath(PartPath(dir, t, n)) !in d0
    ensures PartPath(dir, t, n) !in v.disk && FinalPath(PartPath(dir, t, n)) !in v.disk
  {
    forall i | 0 <= i < |v.p.ws|
      ensures !Names(v.p.ws[i], PartPath(dir, t, n)) && !Names(v.p.ws[i], FinalPath(PartPath(dir, t, n)))
    {
      assert InScope(sc, v.p.ws[i]);
      OtherReading(sc, v.p.ws[i], dir, t, n);
    }
    if PartPath(dir, t, n) in v.disk { DiskKnown(d0, sc, v, PartPath(dir, t, n)); }
    if FinalPath(PartPath(dir, t, n)) in v.disk { DiskKnown(d0, sc, v, FinalPath(PartPath(dir, t, n))); }
  }

  /** What a crash leaves, as the next process finds it: no descriptor is open, and what is there is
      on stable storage. */
  ghost predicate Leaves(before: Files, after: Files) {
    && CrashOf(before, after) && after.Keys <= before.Keys
    && forall q :: q in after ==> !after[q].open && after[q].durable == |after[q].chunks|
  }

  /** The next process may start on what a crash of this one leaves, provided its clock shows other
      readings: the names it will put together are free. */
  lemma RestartIsCovered(cfg: Config, dirs: seq<string>, d0: Files, sc: Scope, now: int, run: seq<Move>, v: World,
                         after: Files, next: Scope)
    requires Reached(cfg, dirs, d0, sc, now, run, v) && Leaves(v.disk, after)
    requires Startable(d0, next) && next.readings !! sc.readings
    ensures Startable(after, next)
  {
    ReachableWorld(cfg, dirs, d0, sc, now, run);
    assert v.log[..|v.log|] == v.log;
    forall q | q in after && IsFinal(q) ensures Complete(after[q]) {
      CrashKeepsPublished(d0, v.log, |v.log|, after, q);
    }
    forall dir: string, t: int, n: nat {:trigger PartPath(dir, t, n)}
      | dir in next.dirs && t in next.readings && n > 0
      ensures PartPath(dir, t, n) !in after && FinalPath(PartPath(dir, t, n)) !in after
    {
      NewReadingIsFree(d0, sc, v, dir, t, n);
    }
  }

  /* ---- the ledger on the disk ---- */

  lemma IdleOnDisk(d0: Files, sc: Scope, v: World, i: nat)
    requires WorldInv(d0, sc, v) && i < |v.ops| && v.ops[i].Idle?
    ensures FilesSame(v.p.ws[i], v.disk, v.p.m.disk) && FilesOk(v.p.ws[i].dir, v.p.ws[i].recs, v.disk)
  {
    var w := v.p.ws[i];
    assert OpOk(w, v.p.m.disk, v.disk, v.ops[i]) && Holds(w, v.p.m);
    forall j | 0 <= j < |w.recs| ensures FileOk(v.disk, PathOf(w.dir, w.recs[j]), w.recs[j]) {
      assert SameFile(v.disk, v.p.m.disk, PathOf(w.dir, w.recs[j]));
    }
  }

  /** Rows are conserved per writer; between operations every file of a writer is on the disk with
      exactly the contents its ledger gives it; and the rows-written counter is the rows published,
      less those of operations that have not ended. */
  lemma RowLedger(cfg: Config, dirs: seq<string>, d0: Files, sc: Scope, now: int, run: seq<Move>, v: World)
    requires Reached(cfg, dirs, d0, sc, now, run, v)
    ensures |v.ops| == |v.p.ws| && v.counted + Owed(v.ops) == TotalPublished(v.p.ws)
    ensures forall i :: 0 <= i < |v.p.ws| ==> Balanced(v.p.ws[i])
    ensures forall i :: 0 <= i < |v.p.ws| && v.ops[i].Idle? ==> FilesOk(v.p.ws[i].dir, v.p.ws[i].recs, v.disk)
  {
    ReachableWorld(cfg, dirs, d0, sc, now, run);
    forall i | 0 <= i < |v.p.ws| ensures Balanced(v.p.ws[i]) {
      assert Holds(v.p.ws[i], v.p.m);
      RowsConserved(v.p.ws[i].recs);
    }
    forall i | 0 <= i < |v.p.ws| && v.ops[i].Idle? ensures FilesOk(v.p.ws[i].dir, v.p.ws[i].recs, v.disk) {
      IdleOnDisk(d0, sc, v, i);
    }
  }

  /** A batch that was pushed is in the ledger of its writer or its write is refused. */
  lemma EveryPushAccountedFor(
    cfg: Config, dirs: seq<string>, d0: Files, sc: Scope, now: int, run: seq<Move>, v: World, id: nat)
    requires Reached(cfg, dirs, d0, sc, now, run, v) && id < |v.p.sent| && v.p.sent[id].to < |v.p.ws|
    ensures id in v.p.ws[v.p.sent[id].to].refused || Appended(v.p.ws[v.p.sent[id].to], id)
  {
    ReachableWorld(cfg, dirs, d0, sc, now, run);
    assert Owns(v.p.ws[v.p.sent[id].to], v.p.sent[id].to, v.p.sent);
  }

  /** What is in a file of the writer now is in it, or in what it becomes, when its operation ends. */
  lemma ChunkLater(w: Writer, n: nat, ideal: Files, disk: Files, op: Op, l: nat, q: string, ch: Chunk)
    requires Numbered(w.recs, n) && OpOk(w, ideal, disk, op) && l < |w.recs|
    requires q == PathOf(w.dir, w.recs[l]) || q == FinalPath(PathOf(w.dir, w.recs[l]))
    requires q in disk && ch in disk[q].chunks
    ensures HasChunk(ideal, PathOf(w.dir, w.recs[l]), ch) || HasChunk(ideal, FinalPath(PathOf(w.dir, w.recs[l])), ch)
  {
    var p, cs := PathOf(w.dir, w.recs[l]), Todo(op);
    assert SameFile(Replay(disk, cs), ideal, p);
    if cs != [] && l == |w.recs| - 1 {
      ChunkStays(disk, cs, p, q, ch);
    } else if cs != [] {
      OldFileStays(w, n, disk, cs, l, q);
    }
  }

  /** The calls still to be issued leave the writer's earlier files alone. */
  lemma OldFileStays(w: Writer, n: nat, disk: Files, cs: seq<Call>, l: nat, q: string)
    requires Numbered(w.recs, n) && l < |w.recs| - 1 && AllAbout(cs, PathOf(w.dir, Last(w.recs)))
    requires q == PathOf(w.dir, w.recs[l]) || q == FinalPath(PathOf(w.dir, w.recs[l]))
    ensures Same(disk, Replay(disk, cs), q)
  {
    var last := w.recs[|w.recs| - 1];
    OtherFileSame(disk, cs, w.dir, last.nanos, last.num, w.dir, w.recs[l]);
  }

  predicate HasChunk(d: Files, q: string, ch: Chunk) {
    q in d && ch in d[q].chunks
  }

  lemma OwnNamesAreNew(d0: Files, sc: Scope, w: Writer, n: nat, l: nat)
    requires Startable(d0, sc) && InScope(sc, w) && Numbered(w.recs, n) && l < |w.recs|
    ensures PathOf(w.dir, w.recs[l]) !in d0 && FinalPath(PathOf(w.dir, w.recs[l])) !in d0
  {
    var r := w.recs[l];
    assert PartPath(w.dir, r.nanos, r.num) !in d0;
  }

  /** A file of another writer cannot hold the batch. */
  lemma NotElsewhere(d0: Files, sc: Scope, v: World, i: nat, j: nat, b: Batch, k: nat, l: nat, q: string)
    requires Startable(d0, sc) && WorldInv(d0, sc, v) && i < |v.ops| && j < |v.p.ws[i].recs|
    requires OnlyFileOf(d0, v.p.m.disk, Where(v.p.ws[i], j), b)
    requires k < |v.ops| && k != i && l < |v.p.ws[k].recs|
    requires q == PathOf(v.p.ws[k].dir, v.p.ws[k].recs[l]) || q == FinalPath(PathOf(v.p.ws[k].dir, v.p.ws[k].recs[l]))
    ensures !HasChunk(v.disk, q, Rows(b))
  {
    var w, r, u, x := v.p.ws[k], v.p.ws[k].recs[l], v.p.ws[i], v.p.ws[i].recs[j];
    assert OpOk(w, v.p.m.disk, v.disk, v.ops[k]) && Holds(w, v.p.m) && InScope(sc, w);
    assert Apart(w, u) || Apart(u, w);
    OwnNamesAreNew(d0, sc, w, v.p.m.counter, l);
    NamesApart(w.dir, r.nanos, r.num, u.dir, x.nanos, x.num);
    if HasChunk(v.disk, q, Rows(b)) {
      ChunkLater(w, v.p.m.counter, v.p.m.disk, v.disk, v.ops[k], l, q, Rows(b));
    }
  }

  /** The file `j` of a writer is on the disk under one of its names only. */
  lemma OneName(w: Writer, n: nat, ideal: Files, disk: Files, op: Op, j: nat)
    requires Numbered(w.recs, n) && FilesOk(w.dir, w.recs, ideal) && OpOk(w, ideal, disk, op) && j < |w.recs|
    ensures PathOf(w.dir, w.recs[j]) !in disk || FinalPath(PathOf(w.dir, w.recs[j])) !in disk
  {
    var p, cs := PathOf(w.dir, w.recs[j]), Todo(op);
    assert SameFile(Replay(disk, cs), ideal, p) && FileOk(ideal, p, w.recs[j]);
    if p in disk && FinalPath(p) in disk && cs != [] {
      if j == |w.recs| - 1 {
        BothStay(disk, cs, p);
      } else {
        OldFileStays(w, n, disk, cs, j, p);
        OldFileStays(w, n, disk, cs, j, FinalPath(p));
      }
    }
  }

  /** What file `j` holds when the operation in progress ends, and is not still to be appended, it holds
      already, as often. */
  lemma ChunkBefore(w: Writer, n: nat, ideal: Files, disk: Files, op: Op, j: nat, q: string, ch: Chunk)
    returns (q0: string)
    requires Numbered(w.recs, n) && OpOk(w, ideal, disk, op) && j < |w.recs| && !Pending(Todo(op), ch)
    requires q == PathOf(w.dir, w.recs[j]) || q == FinalPath(PathOf(w.dir, w.recs[j]))
    requires Times(ideal, q, ch) > 0
    ensures q0 == PathOf(w.dir, w.recs[j]) || q0 == FinalPath(PathOf(w.dir, w.recs[j]))
    ensures Times(disk, q0, ch) == Times(ideal, q, ch)
  {
    var p, cs := PathOf(w.dir, w.recs[j]), Todo(op);
    assert SameFile(Replay(disk, cs), ideal, p);
    q0 := q;
    if cs != [] {
      if j == |w.recs| - 1 {
        q0 := ChunkWasThere(disk, cs, p, q, ch);
      } else {
        OldFileStays(w, n, disk, cs, j, q);
      }
    }
  }

  /** A file of the writer itself that holds the batch is the file `j`. */
  lemma OwnHolder(d0: Files, w: Writer, n: nat, ideal: Files, disk: Files, op: Op, j: nat, b: Batch, l: nat, q: string)
    requires Numbered(w.recs, n) && OpOk(w, ideal, disk, op) && j < |w.recs| && l < |w.recs|
    requires PathOf(w.dir, w.recs[l]) !in d0 && FinalPath(PathOf(w.dir, w.recs[l])) !in d0
    requires OnlyFileOf(d0, ideal, Where(w, j), b)
    requires q == PathOf(w.dir, w.recs[l]) || q == FinalPath(PathOf(w.dir, w.recs[l]))
    requires HasChunk(disk, q, Rows(b))
    ensures l == j
  {
    ChunkLater(w, n, ideal, disk, op, l, q, Rows(b));
    var r, x := w.recs[l], w.recs[j];
    if r.num != x.num { NamesApart(w.dir, r.nanos, r.num, w.dir, x.nanos, x.num); }
  }

  /** The one file of a batch is also the only one in between, under one of its names. */
  lemma HolderIsHome(d0: Files, sc: Scope, v: World, i: nat, j: nat, b: Batch, q: string)
    requires Startable(d0, sc) && WorldInv(d0, sc, v) && i < |v.ops| && j < |v.p.ws[i].recs|
    requires OnlyFileOf(d0, v.p.m.disk, Where(v.p.ws[i], j), b)
    requires q !in d0 && HasChunk(v.disk, q, Rows(b))
    ensures q == PathOf(v.p.ws[i].dir, v.p.ws[i].recs[j]) || q == FinalPath(PathOf(v.p.ws[i].dir, v.p.ws[i].recs[j]))
  {
    DiskKnown(d0, sc, v, q);
    var k :| 0 <= k < |v.p.ws| && Names(v.p.ws[k], q);
    var l := NameAt(v.p.ws[k], q);
    if k == i {
      var w := v.p.ws[i];
      assert OpOk(w, v.p.m.disk, v.disk, v.ops[i]) && Holds(w, v.p.m) && InScope(sc, w);
      OwnNamesAreNew(d0, sc, w, v.p.m.counter, l);
      OwnHolder(d0, w, v.p.m.counter, v.p.m.disk, v.disk, v.ops[i], j, b, l, q);
    } else {
      NotElsewhere(d0, sc, v, i, j, b, k, l, q);
    }
  }

  lemma NameAt(w: Writer, q: string) returns (l: nat)
    requires Names(w, q)
    ensures l < |w.recs| && (q == PathOf(w.dir, w.recs[l]) || q == FinalPath(PathOf(w.dir, w.recs[l])))
  {
    l :| 0 <= l < |w.recs| && (q == PathOf(w.dir, w.recs[l]) || q == FinalPath(PathOf(w.dir, w.recs[l])));
  }

  /** At every moment each batch whose append has been issued lies in exactly one file of the disk,
      exactly once: file `j` of its writer, under its part name or its published name, whatever its
      writer and the others are inside of. */
  lemma EachBatchInOneFile(cfg: Config, dirs: seq<string>, d0: Files, sc: Scope, now: int, run: seq<Move>, v: World,
                           i: nat, b: Batch) returns (j: nat, q: string)
    requires Reached(cfg, dirs, d0, sc, now, run, v)
    requires i < |v.p.ws| && i < |v.ops| && b in v.p.ws[i].appended && !Pending(Todo(v.ops[i]), Rows(b))
    ensures OnlyFileOf(d0, v.disk, q, b) && j < |v.p.ws[i].recs|
    ensures q == PathOf(v.p.ws[i].dir, v.p.ws[i].recs[j]) || q == FinalPath(PathOf(v.p.ws[i].dir, v.p.ws[i].recs[j]))
  {
    ReachableWorld(cfg, dirs, d0, sc, now, run);
    j := BatchInOneFile(d0, sc, v.p, i, b);
    var w := v.p.ws[i];
    assert OpOk(w, v.p.m.disk, v.disk, v.ops[i]) && Holds(w, v.p.m);
    q := ChunkBefore(w, v.p.m.counter, v.p.m.disk, v.disk, v.ops[i], j, Where(w, j), Rows(b));
    OneName(w, v.p.m.counter, v.p.m.disk, v.disk, v.ops[i], j);
    forall q' | q' in v.disk && q' !in d0 && Rows(b) in v.disk[q'].chunks ensures q' == q {
      HolderIsHome(d0, sc, v, i, j, b, q');
    }
  }

  /** The calls between two machines append no batches but these. */
  ghost predicate AppendsOnly(m: Machine, m': Machine, bs: seq<Batch>) {
    && m.calls <= m'.calls
    && forall k :: |m.calls| <= k < |m'.calls| && m'.calls[k].Append? && m'.calls[k].chunk.Rows? ==>
        m'.calls[k].chunk.batch in bs
  }

  lemma RotateAppends(w: Writer, m: Machine, io: IO)
    requires WellFormed(w) && (w.isOpen ==> |w.partPath| > |PART|)
    ensures AppendsOnly(m, RotateLocked(w, m, io).m, [])
    ensures RotateLocked(w, m, io).w.appended == w.appended
  {
  }

  lemma WriteOpenAppends(cfg: Config, w: Writer, m: Machine, b: Batch, io: IO)
    requires WellFormed(w) && w.isOpen && |w.partPath| > |PART|
    ensures var s := WriteOpen(cfg, w, m, b, io);
      && w.appended <= s.w.appended <= w.appended + [b]
      && AppendsOnly(m, s.m, s.w.appended[|w.appended|..])
  {
    if !io.writeFails {
      RotateAppends(Put(w, b), Do(m, Append(w.partPath, Rows(b))), io);
    }
  }

  lemma WriteAppends(cfg: Config, w: Writer, m: Machine, b: Batch, io: IO)
    requires WellFormed(w) && (w.isOpen ==> |w.partPath| > |PART|)
    ensures var s := Write(cfg, w, m, b, io);
      && w.appended <= s.w.appended <= w.appended + [b]
      && AppendsOnly(m, s.m, s.w.appended[|w.appended|..])
  {
    var s := if w.isOpen then Step(w, m, Done) else OpenLocked(w, m, io);
    OpenAppends(w, m, io);
    if s.r.Done? {
      WriteOpenAppends(cfg, s.w, s.m, b, io);
    }
  }

  lemma OpenAppends(w: Writer, m: Machine, io: IO)
    ensures AppendsOnly(m, OpenLocked(w, m, io).m, []) && OpenLocked(w, m, io).w.appended == w.appended
  {
  }

  /** The batch that an operation in progress still has to append is the last of its writer. */
  ghost predicate PendingIsLast(w: Writer, op: Op) {
    forall b :: Pending(Todo(op), Rows(b)) ==> w.appended != [] && w.appended[|w.appended| - 1] == b
  }

  lemma StepPending(cfg: Config, p: Process, a: Action, owed: nat)
    requires Enabled(p, a) && a.On?
    ensures var s := StepOf(cfg, p, a); PendingIsLast(s.w, Busy(Since(p.m, s.m), owed))
  {
    var w, s := p.ws[a.i], StepOf(cfg, p, a);
    match a.op
    case Push(rows) =>
      WriteAppends(cfg, w, p.m, Batch(|p.sent|, rows), a.io);
      SincePending(p.m, s.m, s.w.appended[|w.appended|..]);
    case AgeCheck =>
      RotateAppends(w, p.m, a.io);
      SincePending(p.m, s.m, []);
    case Close =>
      RotateAppends(w, p.m, a.io);
      SincePending(p.m, s.m, []);
  }

  lemma SincePending(m: Machine, m': Machine, bs: seq<Batch>)
    requires AppendsOnly(m, m', bs)
    ensures forall b :: Pending(Since(m, m'), Rows(b)) ==> b in bs
  {
    forall b | Pending(Since(m, m'), Rows(b)) ensures b in bs {
      var cs := Since(m, m');
      var k :| 0 <= k < |cs| && cs[k].Append? && cs[k].chunk == Rows(b);
      assert m'.calls[|m.calls| + k] == cs[k];
    }
  }

  lemma IssuePending(w: Writer, todo: seq<Call>, owed: nat)
    requires todo != [] && PendingIsLast(w, Busy(todo, owed))
    ensures PendingIsLast(w, Busy(todo[1..], owed))
  {
    forall b | Pending(todo[1..], Rows(b)) ensures Pending(todo, Rows(b)) {
      var k :| 0 <= k < |todo[1..]| && todo[1..][k].Append? && todo[1..][k].chunk == Rows(b);
      assert todo[k + 1].chunk == Rows(b);
    }
  }

  ghost predicate AllPendingLast(v: World) {
    |v.ops| == |v.p.ws| && forall i :: 0 <= i < |v.ops| ==> PendingIsLast(v.p.ws[i], v.ops[i])
  }

  lemma PendingStep(cfg: Config, v: World, x: Move)
    requires Can(v, x) && AllPendingLast(v)
    ensures AllPendingLast(After(cfg, v, x))
  {
    match x
    case Begin(a) => if a.On? { StepPending(cfg, v.p, a, After(cfg, v, x).ops[a.i].owed); }
    case Issue(i) => IssuePending(v.p.ws[i], v.ops[i].todo, v.ops[i].owed);
    case Finish(_) =>
  }

  /** So every batch of a writer but the one its operation in progress is about has been appended:
      `EachBatchInOneFile` speaks of all of them. */
  lemma {:induction false} OnlyTheLastIsPending(cfg: Config, dirs: seq<string>, d0: Files, now: int, run: seq<Move>)
    requires ValidMoves(cfg, StartWorld(cfg, dirs, d0, now), run)
    ensures AllPendingLast(Moved(cfg, StartWorld(cfg, dirs, d0, now), run))
  {
    if run != [] {
      var before := run[..|run| - 1];
      OnlyTheLastIsPending(cfg, dirs, d0, now, before);
      PendingStep(cfg, Moved(cfg, StartWorld(cfg, dirs, d0, now), before), run[|run| - 1]);
    }
  }

  /** A published file is already as it will be when the operations in progress end. */
  lemma FinalIsFinal(d0: Files, sc: Scope, v: World, q: string)
    requires WorldInv(d0, sc, v) && q in v.disk && IsFinal(q)
    ensures Same(v.disk, v.p.m.disk, q)
  {
    if !NameOfNone(v.p.ws, q) {
      var i :| 0 <= i < |v.p.ws| && Names(v.p.ws[i], q);
      var w := v.p.ws[i];
      var j := NameAt(w, q);
      assert OpOk(w, v.p.m.disk, v.disk, v.ops[i]);
      FinalOf(w, v.p.m.disk, v.disk, v.ops[i], j, q);
    }
  }

  lemma FinalOf(w: Writer, ideal: Files, disk: Files, op: Op, j: nat, q: string)
    requires OpOk(w, ideal, disk, op) && j < |w.recs| && q in disk && IsFinal(q)
    requires q == PathOf(w.dir, w.recs[j]) || q == FinalPath(PathOf(w.dir, w.recs[j]))
    ensures Same(disk, ideal, q)
  {
    FinalStays(disk, Todo(op), q);
    assert SameFile(Replay(disk, Todo(op)), ideal, PathOf(w.dir, w.recs[j]));
  }

  /** At no time is a batch whose write returns an error in a published file of the process. */
  lemma RefusedNeverPublished(cfg: Config, dirs: seq<string>, d0: Files, sc: Scope, now: int, run: seq<Move>, v: World,
                              i: nat, b: Batch, q: string)
    requires Reached(cfg, dirs, d0, sc, now, run, v)
    requires i < |v.p.ws| && b.id in v.p.ws[i].refused && q in v.disk && q !in d0 && IsFinal(q)
    ensures Rows(b) !in v.disk[q].chunks
  {
    ReachableWorld(cfg, dirs, d0, sc, now, run);
    FinalIsFinal(d0, sc, v, q);
    RefusedNotOnDisk(d0, sc, v.p, i, b, q);
  }

  /* ---- after shutdown ---- */

  /** The flush loop is inside of a writer only while it goes through the writers. */
  predicate LoopOk(v: World) {
    && LoopInv(v.p) && |v.ops| == |v.p.ws|
    && (v.checking.Some? ==> v.p.loop.Rotating?)
  }

  lemma LoopStep(cfg: Config, v: World, x: Move)
    requires LoopOk(v) && Can(v, x)
    ensures LoopOk(After(cfg, v, x))
  {
    AfterProcess(cfg, v, x);
  }

  lemma {:induction false} LoopAlwaysOk(cfg: Config, dirs: seq<string>, d0: Files, now: int, run: seq<Move>)
    requires ValidMoves(cfg, StartWorld(cfg, dirs, d0, now), run)
    ensures LoopOk(Moved(cfg, StartWorld(cfg, dirs, d0, now), run))
  {
    if run != [] {
      var before := run[..|run| - 1];
      LoopAlwaysOk(cfg, dirs, d0, now, before);
      LoopStep(cfg, Moved(cfg, StartWorld(cfg, dirs, d0, now), before), run[|run| - 1]);
    }
  }

  /** Once the ticker is stopped there is no tick any more: none can be taken and none comes. */
  lemma NoTickAfterStop(cfg: Config, dirs: seq<string>, d0: Files, now: int, run: seq<Move>)
    requires ValidMoves(cfg, StartWorld(cfg, dirs, d0, now), run)
    requires var stop := Moved(cfg, StartWorld(cfg, dirs, d0, now), run).p.stop; stop.TickerStopped? || stop.Waited?
    ensures var v := Moved(cfg, StartWorld(cfg, dirs, d0, now), run);
      !v.p.tick && !Can(v, Begin(TakeTick)) && !Can(v, Begin(TickerFires))
  {
    LoopAlwaysOk(cfg, dirs, d0, now, run);
  }

  /** Once shutdown is past its wait the goroutine has returned, although it may still have handled a
      tick between the closing of `done` and the stop of the ticker; it is inside of no writer, and it
      can take no step any more. */
  lemma NothingRunsAfterWait(cfg: Config, dirs: seq<string>, d0: Files, now: int, run: seq<Move>, a: Action)
    requires ValidMoves(cfg, StartWorld(cfg, dirs, d0, now), run) && OfLoop(a)
    requires Moved(cfg, StartWorld(cfg, dirs, d0, now), run).p.stop.Waited?
    ensures var v := Moved(cfg, StartWorld(cfg, dirs, d0, now), run);
      v.p.loop.Returned? && v.checking.None? && !Can(v, Begin(a))
  {
    LoopAlwaysOk(cfg, dirs, d0, now, run);
  }

  /** Past the wait, with no operation in progress and all files closed. */
  predicate AtRest(v: World) {
    && LoopInv(v.p) && v.p.stop.Waited? && |v.ops| == |v.p.ws|
    && (forall i :: 0 <= i < |v.ops| ==> v.ops[i].Idle? || v.ops[i] == Busy([], 0))
    && (forall i :: 0 <= i < |v.p.ws| ==> !v.p.ws[i].isOpen)
  }

  lemma RestStep(cfg: Config, v: World, x: Move)
    requires AtRest(v) && Can(v, x) && (x.Begin? && x.a.On? ==> !x.a.op.Push?)
    ensures AtRest(After(cfg, v, x))
    ensures After(cfg, v, x).disk == v.disk && After(cfg, v, x).log == v.log
    ensures After(cfg, v, x).p.ws == v.p.ws && After(cfg, v, x).counted == v.counted
    ensures x.Begin? ==> !OfLoop(x.a)
  {
    if x.Begin? && x.a.On? {
      assert RotateLocked(v.p.ws[x.a.i], v.p.m, x.a.io) == Step(v.p.ws[x.a.i], v.p.m, Done);
      assert Since(v.p.m, v.p.m) == [];
      assert v.p.ws[x.a.i := v.p.ws[x.a.i]] == v.p.ws;
    }
  }

  predicate NoPush(more: seq<Move>) {
    forall k :: 0 <= k < |more| && more[k].Begin? && more[k].a.On? ==> !more[k].a.op.Push?
  }

  /** At rest, without pushes, nothing happens. */
  lemma {:induction false} RestStays(cfg: Config, v: World, more: seq<Move>)
    requires AtRest(v) && ValidMoves(cfg, v, more) && NoPush(more)
    ensures var u := Moved(cfg, v, more);
      AtRest(u) && u.disk == v.disk && u.log == v.log && u.p.ws == v.p.ws && u.counted == v.counted
    ensures forall k :: 0 <= k < |more| && more[k].Begin? ==> !OfLoop(more[k].a)
  {
    if more != [] {
      var before, n := more[..|more| - 1], |more| - 1;
      RestStays(cfg, v, before);
      RestStep(cfg, Moved(cfg, v, before), more[n]);
      forall k | 0 <= k < |more| && more[k].Begin? ensures !OfLoop(more[k].a) {
        if k < n { assert more[k] == before[k]; }
      }
    }
  }

  /** The move begins to close writer `i`. */
  predicate BeginsClose(x: Move, i: nat) {
    x.Begin? && x.a.On? && x.a.i == i && x.a.op.Close?
  }

  /** Writer `i` was closed: the close began and it ended. */
  ghost predicate CloseDone(more: seq<Move>, i: nat) {
    exists k, l :: 0 <= k < l < |more| && BeginsClose(more[k], i) && more[l] == Finish(i)
  }

  /** Past the wait, the close of writer `i` has begun, or it is open no more anyway. */
  predicate Shut(v: World, i: nat) {
    LoopOk(v) && v.p.stop.Waited? && i < |v.p.ws| && !v.p.ws[i].isOpen
  }

  /** And it has ended. */
  predicate ShutForGood(v: World, i: nat) {
    Shut(v, i) && (v.ops[i].Idle? || v.ops[i] == Busy([], 0))
  }

  predicate PastWait(v: World) {
    LoopOk(v) && v.p.stop.Waited?
  }

  lemma PastWaitStep(cfg: Config, v: World, x: Move)
    requires PastWait(v) && Can(v, x)
    ensures PastWait(After(cfg, v, x)) && |After(cfg, v, x).p.ws| == |v.p.ws|
  {
    LoopStep(cfg, v, x);
  }

  lemma ShutStep(cfg: Config, v: World, x: Move, i: nat)
    requires PastWait(v) && Can(v, x)
    requires x.Begin? && x.a.On? ==> !x.a.op.Push?
    ensures Shut(v, i) || BeginsClose(x, i) ==> Shut(After(cfg, v, x), i)
    ensures ShutForGood(v, i) || (Shut(v, i) && x == Finish(i)) ==> ShutForGood(After(cfg, v, x), i)
  {
    PastWaitStep(cfg, v, x);
    if x.Begin? && x.a.On? && Shut(v, i) && x.a.i == i {
      assert RotateLocked(v.p.ws[i], v.p.m, x.a.io) == Step(v.p.ws[i], v.p.m, Done);
      assert Since(v.p.m, v.p.m) == [];
    }
  }

  lemma {:induction false} StaysPastWait(cfg: Config, v: World, more: seq<Move>)
    requires PastWait(v) && ValidMoves(cfg, v, more)
    ensures PastWait(Moved(cfg, v, more)) && |Moved(cfg, v, more).p.ws| == |v.p.ws|
  {
    if more != [] {
      var before := more[..|more| - 1];
      StaysPastWait(cfg, v, before);
      PastWaitStep(cfg, Moved(cfg, v, before), more[|more| - 1]);
    }
  }

  /** `k` and `l` are where the close of writer `i` begins and ends. */
  lemma {:induction false} ShutLater(cfg: Config, v: World, more: seq<Move>, i: nat, k: nat, l: nat)
    requires PastWait(v) && ValidMoves(cfg, v, more) && NoPush(more)
    requires k < l && (k < |more| ==> BeginsClose(more[k], i)) && (l < |more| ==> more[l] == Finish(i))
    ensures k < |more| ==> Shut(Moved(cfg, v, more), i)
    ensures l < |more| ==> ShutForGood(Moved(cfg, v, more), i)
  {
    if more != [] {
      var before, n := more[..|more| - 1], |more| - 1;
      var u := Moved(cfg, v, before);
      ShutLater(cfg, v, before, i, k, l);
      StaysPastWait(cfg, v, before);
      ShutStep(cfg, u, more[n], i);
      assert Moved(cfg, v, more) == After(cfg, u, more[n]);
    }
  }

  lemma AllShut(v: World)
    requires PastWait(v)
    requires forall i :: 0 <= i < |v.p.ws| ==> ShutForGood(v, i)
    ensures AtRest(v)
  {
    forall i | 0 <= i < |v.p.ws|
      ensures (v.ops[i].Idle? || v.ops[i] == Busy([], 0)) && !v.p.ws[i].isOpen
    {
      assert ShutForGood(v, i);
    }
  }

  /** Shutdown is complete when, past its wait, the close of every writer has begun and ended. Whatever
      else happened then, pushes aside, everything is at rest. */
  lemma ShutdownComesToRest(
    cfg: Config, dirs: seq<string>, d0: Files, now: int, run: seq<Move>, more: seq<Move>, v: World, u: World)
    requires ValidMoves(cfg, StartWorld(cfg, dirs, d0, now), run)
    requires v == Moved(cfg, StartWorld(cfg, dirs, d0, now), run) && v.p.stop.Waited?
    requires ValidMoves(cfg, v, more) && NoPush(more) && u == Moved(cfg, v, more)
    requires forall i :: 0 <= i < |v.p.ws| ==> CloseDone(more, i)
    ensures AtRest(u)
  {
    LoopAlwaysOk(cfg, dirs, d0, now, run);
    StaysPastWait(cfg, v, more);
    forall i | 0 <= i < |u.p.ws| ensures ShutForGood(u, i) {
      assert CloseDone(more, i);
      var k, l :| 0 <= k < l < |more| && BeginsClose(more[k], i) && more[l] == Finish(i);
      ShutLater(cfg, v, more, i, k, l);
    }
    AllShut(u);
  }

  /** After a complete shutdown, without pushes, nothing happens: a second shutdown, or a third, issues
      no call, changes no file, no writer and no counter, and no tick is handled. */
  lemma QuietAfterShutdown(
    cfg: Config, dirs: seq<string>, d0: Files, now: int, run: seq<Move>, more: seq<Move>, again: seq<Move>,
    v: World, u: World)
    requires ValidMoves(cfg, StartWorld(cfg, dirs, d0, now), run)
    requires v == Moved(cfg, StartWorld(cfg, dirs, d0, now), run) && v.p.stop.Waited?
    requires ValidMoves(cfg, v, more) && NoPush(more) && u == Moved(cfg, v, more)
    requires forall i :: 0 <= i < |v.p.ws| ==> CloseDone(more, i)
    requires ValidMoves(cfg, u, again) && NoPush(again)
    ensures var w := Moved(cfg, u, again);
      w.disk == u.disk && w.log == u.log && w.p.ws == u.p.ws && w.counted == u.counted
    ensures forall k :: 0 <= k < |again| && again[k].Begin? ==> !OfLoop(again[k].a)
  {
    ShutdownComesToRest(cfg, dirs, d0, now, run, more, v, u);
    RestStays(cfg, u, again);
  }
}
