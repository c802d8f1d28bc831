/** Every operation of a writer keeps the invariant, touches only its own file, and never exposes
    an incomplete file, not even between two system calls. */
module WriterSteps {
  import opened FileNames
  import opened Disk
  import opened WriterSpec
  import opened WriterInvariant

  /** The machine's log explains its disk, and the disk was safe between any two calls. */
  ghost predicate History(d0: Files, m: Machine) {
    m.disk == Replay(d0, m.calls) && SafeThroughout(d0, m.calls)
  }

  lemma DoKeepsHistory(d0: Files, m: Machine, c: Call)
    requires History(d0, m) && Safe(Apply(m.disk, c)) && !Clobbers(m.disk, c)
    ensures History(d0, Do(m, c))
  {
    assert (m.calls + [c])[..|m.calls|] == m.calls;
    SafeExtend(d0, m.calls, c);
  }

  lemma HistoryIsSafe(d0: Files, m: Machine)
    requires History(d0, m)
    ensures Safe(m.disk)
  {
    assert m.calls[..|m.calls|] == m.calls;
  }

  /** A call on an unpublished name that publishes nothing cannot break safety. */
  lemma QuietCall(d0: Files, m: Machine, c: Call)
    requires History(d0, m) && !IsFinal(c.path) && !c.Rename? && !Clobbers(m.disk, c)
    ensures History(d0, Do(m, c))
  {
    HistoryIsSafe(d0, m);
    DoKeepsHistory(d0, m, c);
  }

  /** The file an operation works on. */
  function Target(w: Writer, m: Machine, io: IO): (p: string)
    requires WellFormed(w)
    ensures |p| > |PART|
  {
    PartPath(w.dir, TargetTime(w, io), TargetNum(w, m))
  }

  /** The clock reading and the counter in its name: those of the open file, or of the next one. */
  function TargetTime(w: Writer, io: IO): int
    requires WellFormed(w)
  {
    if w.isOpen then Last(w.recs).nanos else io.nanos
  }

  function TargetNum(w: Writer, m: Machine): nat
    requires WellFormed(w)
  {
    if w.isOpen then Last(w.recs).num else m.counter + 1
  }

  /** What every operation guarantees to the rest of the process. */
  ghost predicate Guarantee(d0: Files, w: Writer, m: Machine, io: IO, s: Step)
    requires WellFormed(w)
  {
    && Holds(s.w, s.m)
    && History(d0, s.m)
    && s.w.dir == w.dir
    && m.counter <= s.m.counter <= m.counter + 1
    && ChangedOnly(m.disk, s.m.disk, Target(w, m, io))
    && (s.m.counter == m.counter + 1 ==> !w.isOpen)
  }

  /* ---- rotation ---- */

  lemma RotateFile(m: Machine, p: string, bs: seq<Batch>, io: IO)
    requires |p| > |PART| && p != FinalPath(p)
    requires FileOk(m.disk, p, Rec(0, 0, bs, Open))
    ensures var m' := RotateMachine(m, p, io);
            && m'.counter == m.counter && m'.rowsWritten == m.rowsWritten
            && ChangedOnly(m.disk, m'.disk, p)
            && FileOk(m'.disk, p, Rec(0, 0, bs, if RotateOutcome(io).Done? then Published else Orphan))
  {
  }

  lemma RotateHistory(d0: Files, m: Machine, p: string, bs: seq<Batch>, io: IO)
    requires |p| > |PART| && p != FinalPath(p) && !IsFinal(p)
    requires FileOk(m.disk, p, Rec(0, 0, bs, Open))
    requires History(d0, m)
    ensures History(d0, RotateMachine(m, p, io))
  {
    if io.footer.FooterLost? {
      QuietCall(d0, m, CloseFd(p));
    } else if io.footer.FooterTorn? {
      QuietCall(d0, m, Append(p, Torn));
      QuietCall(d0, Do(m, Append(p, Torn)), CloseFd(p));
    } else {
      RotateAfterFooter(d0, m, p, bs, io);
    }
  }

  lemma RotateAfterFooter(d0: Files, m: Machine, p: string, bs: seq<Batch>, io: IO)
    requires |p| > |PART| && p != FinalPath(p) && !IsFinal(p) && io.footer.FooterWritten?
    requires FileOk(m.disk, p, Rec(0, 0, bs, Open))
    requires History(d0, m)
    ensures History(d0, RotateMachine(m, p, io))
  {
    var m1 := Do(m, Append(p, Footer));
    QuietCall(d0, m, Append(p, Footer));
    if io.syncFails {
      QuietCall(d0, m1, CloseFd(p));
    } else {
      var m2 := Do(m1, Sync(p));
      var m3 := Do(m2, CloseFd(p));
      QuietCall(d0, m1, Sync(p));
      QuietCall(d0, m2, CloseFd(p));
      if !io.closeFails && !io.renameFails {
        FooterDurable(m, p, bs);
        Publish(d0, m3, p, bs);
      }
    }
  }

  /** Footer, sync and close leave a complete file under the part name. */
  lemma FooterDurable(m: Machine, p: string, bs: seq<Batch>)
    requires |p| > |PART| && p != FinalPath(p) && FileOk(m.disk, p, Rec(0, 0, bs, Open))
    ensures var m3 := Do(Do(Do(m, Append(p, Footer)), Sync(p)), CloseFd(p));
      && p in m3.disk && FinalPath(p) !in m3.disk
      && m3.disk[p] == File(RowChunks(bs) + [Footer], |bs| + 1, false)
  {
  }

  /** The rename is safe because the file under the part name is already complete. */
  lemma Publish(d0: Files, m: Machine, p: string, bs: seq<Batch>)
    requires |p| > |PART| && History(d0, m)
    requires p in m.disk && FinalPath(p) !in m.disk
    requires m.disk[p] == File(RowChunks(bs) + [Footer], |bs| + 1, false)
    ensures History(d0, Do(m, Rename(p, FinalPath(p))))
  {
    HistoryIsSafe(d0, m);
    assert Complete(m.disk[p]);
    DoKeepsHistory(d0, m, Rename(p, FinalPath(p)));
  }

  lemma FlatSetLast(recs: seq<Rec>, r: Rec)
    requires recs != []
    ensures Flat(SetLast(recs, r)) == Flat(recs[..|recs| - 1]) + r.batches
  {
    assert SetLast(recs, r)[..|recs| - 1] == recs[..|recs| - 1];
  }

  /** Replacing the last file by a later stage of the same file keeps the bookkeeping. */
  lemma LastStage(w: Writer, m: Machine, r: Rec)
    requires Holds(w, m) && w.recs != []
    requires r.num == Last(w.recs).num
    requires r.status != Orphan ==> forall k :: 0 <= k < |r.batches| ==> r.batches[k].id !in w.refused
    ensures Numbered(SetLast(w.recs, r), m.counter)
    ensures RefusedApart(SetLast(w.recs, r), w.refused)
    ensures forall i :: 0 <= i < |w.recs| - 1 ==> SetLast(w.recs, r)[i].status != Open
  {
  }

  lemma RotateKeeps(d0: Files, w: Writer, m: Machine, io: IO)
    requires Holds(w, m) && History(d0, m)
    ensures Guarantee(d0, w, m, io, RotateLocked(w, m, io))
  {
    if w.isOpen {
      var last := Last(w.recs);
      var s := RotateLocked(w, m, io);
      OpenFile(w, m);
      RotateFile(m, w.partPath, last.batches, io);
      RotateHistory(d0, m, w.partPath, last.batches, io);
      RotateHolds(w, m, io, s);
    }
  }

  /** What the invariant says about the open file. */
  lemma OpenFile(w: Writer, m: Machine)
    requires Holds(w, m) && w.isOpen
    ensures var p := w.partPath;
            && p == PathOf(w.dir, Last(w.recs)) && p != FinalPath(p) && !IsFinal(p)
            && FileOk(m.disk, p, Rec(0, 0, Last(w.recs).batches, Open))
  {
    var i := |w.recs| - 1;
    assert FileOk(m.disk, PathOf(w.dir, w.recs[i]), w.recs[i]);
    PartIsNotFinal(w.dir, w.recs[i].nanos, w.recs[i].num);
  }

  lemma RotateHolds(w: Writer, m: Machine, io: IO, s: Step)
    requires Holds(w, m) && w.isOpen && s == RotateLocked(w, m, io)
    requires s.m.counter == m.counter && ChangedOnly(m.disk, s.m.disk, w.partPath)
    requires FileOk(s.m.disk, w.partPath, Rec(0, 0, Last(w.recs).batches, Last(s.w.recs).status))
    ensures Holds(s.w, s.m)
  {
    var r := Last(w.recs).(status := if RotateOutcome(io).Done? then Published else Orphan);
    assert s.w.recs == SetLast(w.recs, r) && s.w.dir == w.dir;
    assert Last(s.w.recs) == r;
    RotateFilesOk(w, m, s.m.disk, r);
    RotateBooks(w, m, s, r);
  }

  lemma RotateBooks(w: Writer, m: Machine, s: Step, r: Rec)
    requires Holds(w, m) && w.isOpen && s.m.counter == m.counter
    requires s.w == Reset(w, r.status) && r == Last(w.recs).(status := r.status) && r.status != Open
    ensures OnlyLastOpen(s.w) && Numbered(s.w.recs, s.m.counter) && RefusedApart(s.w.recs, s.w.refused)
    ensures s.w.appended == Flat(s.w.recs)
  {
    assert w.recs[|w.recs| - 1] == Last(w.recs);
    assert s.w.recs == SetLast(w.recs, r);
    LastStage(w, m, r);
    FlatSetLast(w.recs, r);
  }

  /** The finished files of the writer are untouched and the last one is as `r` says. */
  lemma RotateFilesOk(w: Writer, m: Machine, d': Files, r: Rec)
    requires Holds(w, m) && w.recs != []
    requires r.num == Last(w.recs).num && r.nanos == Last(w.recs).nanos
    requires ChangedOnly(m.disk, d', PathOf(w.dir, r)) && FileOk(d', PathOf(w.dir, r), r)
    ensures FilesOk(w.dir, SetLast(w.recs, r), d')
  {
    var init := w.recs[..|w.recs| - 1];
    FilesFrame(w.dir, init, m.disk, d', w.dir, r.nanos, r.num);
    forall i | 0 <= i < |w.recs|
      ensures FileOk(d', PathOf(w.dir, SetLast(w.recs, r)[i]), SetLast(w.recs, r)[i])
    {
      if i < |init| {
        assert SetLast(w.recs, r)[i] == init[i];
      }
    }
  }

  /* ---- opening ---- */

  /** The next name of this scope is not in use. */
  ghost predicate NextFree(w: Writer, m: Machine, io: IO) {
    var p := PartPath(w.dir, io.nanos, m.counter + 1);
    p !in m.disk && FinalPath(p) !in m.disk
  }

  lemma OpenKeeps(d0: Files, w: Writer, m: Machine, io: IO)
    requires Holds(w, m) && History(d0, m) && NextFree(w, m, io) && !w.isOpen
    ensures Guarantee(d0, w, m, io, OpenLocked(w, m, io))
  {
    var s := OpenLocked(w, m, io);
    OpenHistory(d0, w, m, io, s);
    if io.createFails {
      FailedOpenHolds(w, m, io, s);
    } else {
      OpenHolds(w, m, io, s);
    }
  }

  lemma OpenHistory(d0: Files, w: Writer, m: Machine, io: IO, s: Step)
    requires History(d0, m) && NextFree(w, m, io) && s == OpenLocked(w, m, io)
    ensures History(d0, s.m)
  {
    var p, m0 := PartPath(w.dir, io.nanos, m.counter + 1), m.(counter := m.counter + 1);
    PartIsNotFinal(w.dir, io.nanos, m.counter + 1);
    SameHistory(d0, m, m0);
    CreateHistory(d0, m0, p);
    assert s.m == m0 || s.m == Do(m0, Create(p)) || s.m == Do(Do(m0, Create(p)), CloseFd(p));
  }

  lemma SameHistory(d0: Files, m: Machine, m': Machine)
    requires History(d0, m) && m'.disk == m.disk && m'.calls == m.calls
    ensures History(d0, m')
  {
  }

  lemma CreateHistory(d0: Files, m: Machine, p: string)
    requires History(d0, m) && !IsFinal(p) && p !in m.disk
    ensures History(d0, Do(m, Create(p))) && History(d0, Do(Do(m, Create(p)), CloseFd(p)))
  {
    QuietCall(d0, m, Create(p));
    QuietCall(d0, Do(m, Create(p)), CloseFd(p));
  }

  lemma FailedOpenHolds(w: Writer, m: Machine, io: IO, s: Step)
    requires Holds(w, m) && !w.isOpen && io.createFails && s == OpenLocked(w, m, io)
    ensures Holds(s.w, s.m)
  {
    assert s.w == w.(partPath := s.w.partPath) && s.m == m.(counter := m.counter + 1);
    MoreNumbers(w.recs, m.counter);
  }

  lemma MoreNumbers(recs: seq<Rec>, counter: nat)
    requires Numbered(recs, counter)
    ensures Numbered(recs, counter + 1)
  {
  }

  lemma OpenHolds(w: Writer, m: Machine, io: IO, s: Step)
    requires Holds(w, m) && NextFree(w, m, io) && !w.isOpen && !io.createFails && s == OpenLocked(w, m, io)
    ensures Holds(s.w, s.m)
    ensures ChangedOnly(m.disk, s.m.disk, Target(w, m, io))
  {
    var r := Rec(m.counter + 1, io.nanos, [], if io.newWriterFails then Orphan else Open);
    OpenFiles(w, m, io, s, r);
    OpenBooks(w, m, io, s, r);
  }

  lemma OpenBooks(w: Writer, m: Machine, io: IO, s: Step, r: Rec)
    requires OnlyLastOpen(w) && Numbered(w.recs, m.counter) && RefusedApart(w.recs, w.refused)
    requires w.appended == Flat(w.recs)
    requires !w.isOpen && !io.createFails && s == OpenLocked(w, m, io)
    requires r == Rec(m.counter + 1, io.nanos, [], if io.newWriterFails then Orphan else Open)
    ensures OnlyLastOpen(s.w) && Numbered(s.w.recs, s.m.counter) && RefusedApart(s.w.recs, s.w.refused)
    ensures s.w.appended == Flat(s.w.recs)
  {
    var recs, counter, refused := w.recs, m.counter, w.refused;
    assert s.w.recs == recs + [r] && s.m.counter == counter + 1 && s.w.refused == refused;
    SnocBooks(recs, r, counter, refused);
    OpenIsLast(w, s.w, r);
  }

  lemma OpenIsLast(w: Writer, w': Writer, r: Rec)
    requires OnlyLastOpen(w) && !w.isOpen && r.batches == []
    requires w'.recs == w.recs + [r] && w'.isOpen == (r.status == Open) && w'.dir == w.dir
    requires w'.isOpen ==> w'.partPath == PathOf(w'.dir, r) && w'.rows == 0
    ensures OnlyLastOpen(w')
  {
  }

  lemma OpenFiles(w: Writer, m: Machine, io: IO, s: Step, r: Rec)
    requires Holds(w, m) && NextFree(w, m, io) && !w.isOpen && !io.createFails && s == OpenLocked(w, m, io)
    requires r == Rec(m.counter + 1, io.nanos, [], if io.newWriterFails then Orphan else Open)
    ensures FilesOk(s.w.dir, s.w.recs, s.m.disk)
    ensures ChangedOnly(m.disk, s.m.disk, Target(w, m, io))
  {
    assert s.w.recs == w.recs + [r] && s.w.dir == w.dir;
    OpenChange(w, m, io, s, r);
    FilesFrame(w.dir, w.recs, m.disk, s.m.disk, w.dir, TargetTime(w, io), TargetNum(w, m));
    SnocFiles(w.dir, w.recs, r, s.m.disk);
  }

  lemma OpenChange(w: Writer, m: Machine, io: IO, s: Step, r: Rec)
    requires NextFree(w, m, io) && !w.isOpen && !io.createFails && s == OpenLocked(w, m, io)
    requires r == Rec(m.counter + 1, io.nanos, [], if io.newWriterFails then Orphan else Open)
    ensures ChangedOnly(m.disk, s.m.disk, Target(w, m, io)) && FileOk(s.m.disk, PathOf(w.dir, r), r)
  {
    var p := PartPath(w.dir, io.nanos, m.counter + 1);
    PartIsNotFinal(w.dir, io.nanos, m.counter + 1);
    OpenDisk(m, p, io, r);
  }

  lemma OpenDisk(m: Machine, p: string, io: IO, r: Rec)
    requires |p| > |PART| && p != FinalPath(p) && p !in m.disk && FinalPath(p) !in m.disk
    requires r.batches == [] && r.status == if io.newWriterFails then Orphan else Open
    ensures
      var created := Apply(m.disk, Create(p));
      var d' := if io.newWriterFails then Apply(created, CloseFd(p)) else created;
            ChangedOnly(m.disk, d', p) && FileOk(d', p, r)
  {
  }

  lemma SnocFiles(dir: string, recs: seq<Rec>, r: Rec, d: Files)
    requires FilesOk(dir, recs, d) && FileOk(d, PathOf(dir, r), r)
    ensures FilesOk(dir, recs + [r], d)
  {
    forall i | 0 <= i <= |recs| ensures FileOk(d, PathOf(dir, (recs + [r])[i]), (recs + [r])[i]) {
      if i < |recs| { assert (recs + [r])[i] == recs[i]; }
    }
  }

  lemma SnocBooks(recs: seq<Rec>, r: Rec, counter: nat, refused: set<nat>)
    requires Numbered(recs, counter) && RefusedApart(recs, refused)
    requires r.num == counter + 1 && r.batches == []
    ensures Numbered(recs + [r], counter + 1) && RefusedApart(recs + [r], refused)
    ensures Flat(recs + [r]) == Flat(recs)
  {
    assert (recs + [r])[..|recs|] == recs;
  }

  /* ---- writing to the open file ---- */

  lemma PutKeeps(d0: Files, w: Writer, m: Machine, b: Batch, io: IO)
    requires Holds(w, m) && History(d0, m) && w.isOpen && b.id !in w.refused
    ensures Guarantee(d0, w, m, io, Step(Put(w, b), Do(m, Append(w.partPath, Rows(b))), Done))
  {
    OpenFile(w, m);
    QuietCall(d0, m, Append(w.partPath, Rows(b)));
    PutHolds(w, m, b);
  }

  lemma PutHolds(w: Writer, m: Machine, b: Batch)
    requires Holds(w, m) && w.isOpen && b.id !in w.refused
    ensures Holds(Put(w, b), Do(m, Append(w.partPath, Rows(b))))
    ensures ChangedOnly(m.disk, Do(m, Append(w.partPath, Rows(b))).disk, w.partPath)
  {
    var last := Last(w.recs);
    var m' := Do(m, Append(w.partPath, Rows(b)));
    var r := last.(batches := last.batches + [b]);
    OpenFile(w, m);
    assert RowChunks(r.batches) == RowChunks(last.batches) + [Rows(b)];
    RotateFilesOk(w, m, m'.disk, r);
    PutBooks(w, m, b, r);
  }

  lemma PutBooks(w: Writer, m: Machine, b: Batch, r: Rec)
    requires Holds(w, m) && w.isOpen && b.id !in w.refused
    requires r == Last(w.recs).(batches := Last(w.recs).batches + [b])
    ensures OnlyLastOpen(Put(w, b)) && Numbered(Put(w, b).recs, m.counter)
    ensures RefusedApart(Put(w, b).recs, w.refused) && Put(w, b).appended == Flat(Put(w, b).recs)
  {
    var last := Last(w.recs);
    assert w.recs[|w.recs| - 1] == last;
    assert r.batches[..|last.batches|] == last.batches;
    LastStage(w, m, r);
    PutFlat(w.recs, b);
  }

  lemma PutFlat(recs: seq<Rec>, b: Batch)
    requires recs != []
    ensures Flat(SetLast(recs, Last(recs).(batches := Last(recs).batches + [b]))) == Flat(recs) + [b]
  {
    FlatSetLast(recs, Last(recs).(batches := Last(recs).batches + [b]));
  }
}
