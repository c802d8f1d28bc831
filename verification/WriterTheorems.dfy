/** The ledger of a process: which batch is where, what was refused, what is counted; and what is
    left to happen after shutdown. */
module WriterTheorems {
  import opened FileNames
  import opened Disk
  import opened WriterSpec
  import opened WriterInvariant
  import opened WriterAccounts
  import opened WriterProcess

  /* ---- which batches a writer has seen ---- */

  /** Writer `i` holds only batches sent to it, in the order they were sent, and accounts for each
      one: it is in the ledger, or its write returned an error, or both. */
  ghost predicate Owns(w: Writer, i: nat, sent: seq<Sent>) {
    && (forall k :: 0 <= k < |w.appended| ==>
          w.appended[k].id < |sent| && sent[w.appended[k].id] == Sent(i, w.appended[k].rows))
    && (forall k, l :: 0 <= k < l < |w.appended| ==> w.appended[k].id < w.appended[l].id)
    && (forall id :: id in w.refused ==> id < |sent| && sent[id].to == i)
    && (forall id :: 0 <= id < |sent| && sent[id].to == i ==> id in w.refused || Appended(w, id))
  }

  predicate Appended(w: Writer, id: nat) {
    exists k :: 0 <= k < |w.appended| && w.appended[k].id == id
  }

  ghost predicate Owned(p: Process) {
    forall i :: 0 <= i < |p.ws| ==> Owns(p.ws[i], i, p.sent)
  }

  lemma PushOwns(w: Writer, w': Writer, i: nat, sent: seq<Sent>, rows: nat, failed: bool)
    requires Owns(w, i, sent)
    requires w'.appended == w.appended + [Batch(|sent|, rows)] || (w'.appended == w.appended && failed)
    requires w'.refused == if failed then w.refused + {|sent|} else w.refused
    ensures Owns(w', i, sent + [Sent(i, rows)])
  {
    var sent' := sent + [Sent(i, rows)];
    forall id | 0 <= id < |sent'| && sent'[id].to == i ensures id in w'.refused || Appended(w', id) {
      if id < |sent| && id !in w.refused {
        assert Appended(w, id);
        var k :| 0 <= k < |w.appended| && w.appended[k].id == id;
        assert w'.appended[k].id == id;
      } else if id == |sent| && !failed {
        assert w'.appended[|w.appended|].id == id;
      }
    }
  }

  lemma OtherOwns(w: Writer, i: nat, sent: seq<Sent>, s: Sent)
    requires Owns(w, i, sent) && s.to != i
    ensures Owns(w, i, sent + [s])
  {
  }

  lemma SameOwns(w: Writer, w': Writer, i: nat, sent: seq<Sent>)
    requires Owns(w, i, sent) && w'.appended == w.appended && w'.refused == w.refused
    ensures Owns(w', i, sent)
  {
    forall id | 0 <= id < |sent| && sent[id].to == i ensures id in w'.refused || Appended(w', id) {
      if id !in w.refused { assert Appended(w, id); }
    }
  }

  lemma StepOwned(d0: Files, cfg: Config, p: Process, a: Action)
    requires Owned(p) && Enabled(p, a) && a.On? && Stepped(d0, cfg, p, a)
    ensures Owned(Next(cfg, p, a))
  {
    var p', s := Next(cfg, p, a), StepOf(cfg, p, a);
    forall i | 0 <= i < |p.ws| ensures Owns(p'.ws[i], i, p'.sent) {
      if i != a.i {
        if a.op.Push? { OtherOwns(p.ws[i], i, p.sent, Sent(a.i, a.op.rows)); }
      } else if a.op.Push? {
        PushOwns(p.ws[i], s.w, i, p.sent, a.op.rows, !s.r.Done?);
      } else {
        SameOwns(p.ws[i], s.w, i, p.sent);
      }
    }
  }

  lemma {:induction false} ReachableOwned(
    cfg: Config, dirs: seq<string>, d0: Files, sc: Scope, now: int, run: seq<Action>)
    requires Startable(d0, sc) && Scoped(sc, dirs, run) && ValidRun(cfg, Start(dirs, d0, now, cfg), run)
    ensures Owned(Run(cfg, Start(dirs, d0, now, cfg), run))
  {
    if run != [] {
      var before, a := run[..|run| - 1], run[|run| - 1];
      var p := Run(cfg, Start(dirs, d0, now, cfg), before);
      Reachable(cfg, dirs, d0, sc, now, before);
      ReachableOwned(cfg, dirs, d0, sc, now, before);
      if a.On? {
        WriterActionKeeps(d0, sc, cfg, p, a);
        StepOwned(d0, cfg, p, a);
      }
    }
  }

  /* ---- the row ledger ---- */

  /** Rows are conserved per writer. */
  predicate Balanced(w: Writer) {
    SumRows(w.appended) == RowsIn(w.recs, Published) + RowsIn(w.recs, Open) + RowsIn(w.recs, Orphan)
  }

  /** Writer `i` put `b` into its file `j`, and no other writer or file has it. */
  lemma OneHome(d0: Files, sc: Scope, p: Process, i: nat, j: nat, k: nat, i': nat, j': nat, k': nat)
    requires Inv(d0, sc, p) && Owned(p)
    requires i < |p.ws| && j < |p.ws[i].recs| && k < |p.ws[i].recs[j].batches|
    requires i' < |p.ws| && j' < |p.ws[i'].recs| && k' < |p.ws[i'].recs[j'].batches|
    requires p.ws[i].recs[j].batches[k].id == p.ws[i'].recs[j'].batches[k'].id
    ensures i == i' && j == j' && k == k'
  {
    var w, w' := p.ws[i], p.ws[i'];
    assert Owns(w, i, p.sent) && Owns(w', i', p.sent);
    FlatAt(w.recs, j, k);
    FlatAt(w'.recs, j', k');
    assert p.sent[w.recs[j].batches[k].id].to == i;
    assert p.sent[w'.recs[j'].batches[k'].id].to == i';
    var x, y := Offset(w.recs, j) + k, Offset(w.recs, j') + k';
    OnePosition(w, i, p.sent, x, y);
    FlatSamePosition(w.recs, j, k, j', k');
  }

  lemma OnePosition(w: Writer, i: nat, sent: seq<Sent>, x: nat, y: nat)
    requires Owns(w, i, sent) && x < |w.appended| && y < |w.appended|
    requires w.appended[x].id == w.appended[y].id
    ensures x == y
  {
  }

  /** The file `j` of the writer, under the name the disk has it. */
  function Where(w: Writer, j: nat): string
    requires j < |w.recs|
  {
    Place(PathOf(w.dir, w.recs[j]), w.recs[j])
  }

  function Place(p: string, r: Rec): string
    requires |p| > |PART|
  {
    if r.status == Published then FinalPath(p) else p
  }

  /** A file on the disk: its batches, then at most one chunk that is not a batch. */
  lemma ChunksOf(d: Files, p: string, r: Rec)
    requires |p| > |PART| && FileOk(d, p, r)
    ensures Place(p, r) in d
    ensures var cs := d[Place(p, r)].chunks;
            |r.batches| <= |cs| && cs == RowChunks(r.batches) + cs[|r.batches|..] && Tail(cs[|r.batches|..])
  {
    if r.status == Published {
      assert (RowChunks(r.batches) + [Footer])[|r.batches|..] == [Footer];
    }
  }

  lemma RowAmongChunks(bs: seq<Batch>, tail: seq<Chunk>, b: Batch)
    requires Tail(tail)
    ensures Rows(b) in RowChunks(bs) + tail <==> b in bs
  {
    if b in bs {
      var k :| 0 <= k < |bs| && bs[k] == b;
      assert (RowChunks(bs) + tail)[k] == Rows(b);
    }
  }

  /** The rows in a file of the ledger are exactly its batches. */
  lemma RowsOnDisk(d0: Files, sc: Scope, p: Process, i: nat, j: nat, b: Batch)
    requires Inv(d0, sc, p) && i < |p.ws| && j < |p.ws[i].recs|
    ensures var q := Where(p.ws[i], j);
      q in p.m.disk && (Rows(b) in p.m.disk[q].chunks <==> b in p.ws[i].recs[j].batches)
  {
    var w := p.ws[i];
    assert FilesOk(w.dir, w.recs, p.m.disk);
    ChunksOf(p.m.disk, PathOf(w.dir, w.recs[j]), w.recs[j]);
    var n := |w.recs[j].batches|;
    RowAmongChunks(w.recs[j].batches, p.m.disk[Where(w, j)].chunks[n..], b);
  }

  /** A name on the disk that was not there at the start is where some file of the ledger is. */
  lemma EveryNameIsHome(d0: Files, sc: Scope, p: Process, q: string) returns (i: nat, j: nat)
    requires Inv(d0, sc, p) && q in p.m.disk && q !in d0
    ensures i < |p.ws| && j < |p.ws[i].recs| && q == Where(p.ws[i], j)
  {
    assert Known(d0, p.ws, q);
    i :| 0 <= i < |p.ws| && Names(p.ws[i], q);
    j := NameIsPlace(p.ws[i], p.m.disk, q);
  }

  lemma NameIsPlace(w: Writer, d: Files, q: string) returns (j: nat)
    requires FilesOk(w.dir, w.recs, d) && Names(w, q) && q in d
    ensures j < |w.recs| && q == Where(w, j)
  {
    j :| 0 <= j < |w.recs| && (q == PathOf(w.dir, w.recs[j]) || q == FinalPath(PathOf(w.dir, w.recs[j])));
    assert FileOk(d, PathOf(w.dir, w.recs[j]), w.recs[j]);
  }

  /** `q` is the one new file that holds `b`, and it holds it once. */
  ghost predicate OnlyFileOf(d0: Files, d: Files, q: string, b: Batch) {
    && q in d && multiset(d[q].chunks)[Rows(b)] == 1
    && forall q' :: q' in d && q' !in d0 && Rows(b) in d[q'].chunks ==> q' == q
  }

  lemma {:induction false} OnceIn(cs: seq<Chunk>, c: Chunk, k: nat)
    requires k < |cs| && cs[k] == c
    requires forall l :: 0 <= l < |cs| && l != k ==> cs[l] != c
    ensures multiset(cs)[c] == 1
  {
    assert cs == cs[..k] + [cs[k]] + cs[k + 1..];
    assert c !in multiset(cs[..k]) && c !in multiset(cs[k + 1..]);
  }

  /** Each batch that reached a file lies in exactly one file of the disk, exactly once. */
  lemma BatchInOneFile(d0: Files, sc: Scope, p: Process, i: nat, b: Batch) returns (j: nat)
    requires Inv(d0, sc, p) && Owned(p) && i < |p.ws| && b in p.ws[i].appended
    ensures j < |p.ws[i].recs| && OnlyFileOf(d0, p.m.disk, Where(p.ws[i], j), b)
  {
    assert Holds(p.ws[i], p.m);
    var k;
    j, k := FlatFind(p.ws[i].recs, b);
    var q := Where(p.ws[i], j);
    RowsOnDisk(d0, sc, p, i, j, b);
    OnceOnDisk(d0, sc, p, i, j, k);
    forall q' | q' in p.m.disk && q' !in d0 && Rows(b) in p.m.disk[q'].chunks ensures q' == q {
      var i', j' := EveryNameIsHome(d0, sc, p, q');
      RowsOnDisk(d0, sc, p, i', j', b);
      var k' :| 0 <= k' < |p.ws[i'].recs[j'].batches| && p.ws[i'].recs[j'].batches[k'] == b;
      OneHome(d0, sc, p, i, j, k, i', j', k');
    }
  }

  lemma OnceOnDisk(d0: Files, sc: Scope, p: Process, i: nat, j: nat, k: nat)
    requires Inv(d0, sc, p) && Owned(p)
    requires i < |p.ws| && j < |p.ws[i].recs| && k < |p.ws[i].recs[j].batches|
    ensures var q, b := Where(p.ws[i], j), p.ws[i].recs[j].batches[k];
            q in p.m.disk && multiset(p.m.disk[q].chunks)[Rows(b)] == 1
  {
    var w := p.ws[i];
    var bs := w.recs[j].batches;
    assert FilesOk(w.dir, w.recs, p.m.disk);
    ChunksOf(p.m.disk, PathOf(w.dir, w.recs[j]), w.recs[j]);
    forall l | 0 <= l < |bs| && l != k ensures bs[l] != bs[k] {
      if bs[l] == bs[k] { OneHome(d0, sc, p, i, j, k, i, j, l); }
    }
    OnceAmongChunks(bs, p.m.disk[Where(w, j)].chunks[|bs|..], k);
  }

  lemma OnceAmongChunks(bs: seq<Batch>, tail: seq<Chunk>, k: nat)
    requires Tail(tail) && k < |bs|
    requires forall l :: 0 <= l < |bs| && l != k ==> bs[l] != bs[k]
    ensures multiset(RowChunks(bs) + tail)[Rows(bs[k])] == 1
  {
    OnceIn(RowChunks(bs) + tail, Rows(bs[k]), k);
  }

  /** A batch whose write returned an error is in no published file. */
  lemma RefusedNotOnDisk(d0: Files, sc: Scope, p: Process, i: nat, b: Batch, q: string)
    requires Inv(d0, sc, p) && Owned(p) && i < |p.ws| && b.id in p.ws[i].refused
    requires q in p.m.disk && q !in d0 && IsFinal(q)
    ensures Rows(b) !in p.m.disk[q].chunks
  {
    var i', j := EveryNameIsHome(d0, sc, p, q);
    var w := p.ws[i'];
    PartIsNotFinal(w.dir, w.recs[j].nanos, w.recs[j].num);
    RowsOnDisk(d0, sc, p, i', j, b);
    forall k | 0 <= k < |w.recs[j].batches| ensures w.recs[j].batches[k].id != b.id {
      CountingIsNotRefused(d0, sc, p, i', j, k, i);
    }
  }

  /** A batch in a file that is not an orphan was not refused by any writer. */
  lemma CountingIsNotRefused(d0: Files, sc: Scope, p: Process, i: nat, j: nat, k: nat, i': nat)
    requires Inv(d0, sc, p) && Owned(p) && i' < |p.ws|
    requires i < |p.ws| && j < |p.ws[i].recs| && k < |p.ws[i].recs[j].batches|
    requires p.ws[i].recs[j].status != Orphan
    ensures p.ws[i].recs[j].batches[k].id !in p.ws[i'].refused
  {
    FlatAt(p.ws[i].recs, j, k);
    assert Owns(p.ws[i], i, p.sent) && Owns(p.ws[i'], i', p.sent);
    assert p.sent[p.ws[i].appended[Offset(p.ws[i].recs, j) + k].id].to == i;
    assert RefusedApart(p.ws[i].recs, p.ws[i].refused);
  }

  /* ---- after shutdown ---- */

  /** Steps of the flush loop and of the ticker. */
  predicate OfLoop(a: Action) {
    a.TickerFires? || a.TakeTick? || a.RotationDone? || a.SeeDone? || (a.On? && a.op.AgeCheck?)
  }

  /** A tick can indeed be handled after `done` is closed, until the ticker is stopped: the select may
      take either. */
  lemma LateTick(cfg: Config, dirs: seq<string>, d0: Files, now: int) returns (run: seq<Action>)
    ensures ValidRun(cfg, Start(dirs, d0, now, cfg), run)
    ensures var p := Run(cfg, Start(dirs, d0, now, cfg), run); p.stop.Signalled? && Enabled(p, TakeTick)
  {
    var p0 := Start(dirs, d0, now, cfg);
    run := [];
    Extend(cfg, p0, run, Elapse(cfg.flushInterval));
    run := run + [Elapse(cfg.flushInterval)];
    Extend(cfg, p0, run, TickerFires);
    run := run + [TickerFires];
    Extend(cfg, p0, run, SignalDone);
    run := run + [SignalDone];
  }

  /** Extending a run by one enabled action. */
  lemma Extend(cfg: Config, p: Process, run: seq<Action>, a: Action)
    requires ValidRun(cfg, p, run) && Enabled(Run(cfg, p, run), a)
    ensures ValidRun(cfg, p, run + [a]) && Run(cfg, p, run + [a]) == Next(cfg, Run(cfg, p, run), a)
  {
    assert (run + [a])[..|run|] == run;
  }
}
