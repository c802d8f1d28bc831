/** The three operations of a writer - write, age rotation, close - assembled from the steps. */
module WriterOps {
  import opened Disk
  import opened WriterSpec
  import opened WriterInvariant
  import opened WriterSteps

  /** All batch ids the writer has seen are below `n`. */
  ghost predicate IdsBelow(w: Writer, n: nat) {
    && (forall i, k :: 0 <= i < |w.recs| && 0 <= k < |w.recs[i].batches| ==> w.recs[i].batches[k].id < n)
    && (forall id :: id in w.refused ==> id < n)
  }

  lemma Compose(d0: Files, w: Writer, m: Machine, io: IO, s1: Step, s2: Step)
    requires WellFormed(w) && WellFormed(s1.w)
    requires Guarantee(d0, w, m, io, s1) && Guarantee(d0, s1.w, s1.m, io, s2)
    requires s1.w.isOpen && Target(s1.w, s1.m, io) == Target(w, m, io)
    ensures Guarantee(d0, w, m, io, s2)
  {
  }

  lemma Stay(d0: Files, w: Writer, m: Machine, io: IO, r: Outcome)
    requires Holds(w, m) && History(d0, m)
    ensures Guarantee(d0, w, m, io, Step(w, m, r))
  {
  }

  /** An error may be reported for a batch that no published or open file holds. */
  lemma RefuseKeeps(d0: Files, w: Writer, m: Machine, io: IO, s: Step, b: Batch)
    requires WellFormed(w) && Guarantee(d0, w, m, io, s)
    requires !s.r.Done? ==> forall i, k ::
      0 <= i < |s.w.recs| && s.w.recs[i].status != Orphan && 0 <= k < |s.w.recs[i].batches| ==>
        s.w.recs[i].batches[k].id != b.id
    ensures Guarantee(d0, w, m, io, Refuse(s, b))
  {
  }

  lemma PutTarget(w: Writer, m: Machine, b: Batch, io: IO)
    requires OnlyLastOpen(w) && w.isOpen
    ensures WellFormed(Put(w, b)) && Put(w, b).isOpen
    ensures Target(Put(w, b), m, io) == Target(w, m, io)
  {
  }

  lemma WriteOpenKeeps(d0: Files, cfg: Config, w: Writer, m: Machine, b: Batch, io: IO)
    requires Holds(w, m) && History(d0, m) && w.isOpen && b.id !in w.refused
    ensures Guarantee(d0, w, m, io, WriteOpen(cfg, w, m, b, io))
  {
    if io.writeFails {
      Stay(d0, w, m, io, WriteFailed);
    } else {
      var s1 := Step(Put(w, b), Do(m, Append(w.partPath, Rows(b))), Done);
      PutKeeps(d0, w, m, b, io);
      PutTarget(w, s1.m, b, io);
      assert Target(w, s1.m, io) == Target(w, m, io);
      RotateKeeps(d0, s1.w, s1.m, io);
      Compose(d0, w, m, io, s1, RotateLocked(s1.w, s1.m, io));
    }
  }

  /** If the write failed, the batch is in no file that counts. */
  lemma FailedWriteIsNowhere(cfg: Config, w: Writer, m: Machine, b: Batch, io: IO, i: nat, k: nat)
    requires OnlyLastOpen(w) && w.isOpen && IdsBelow(w, b.id)
    requires var s := WriteOpen(cfg, w, m, b, io);
             !s.r.Done? && i < |s.w.recs| && s.w.recs[i].status != Orphan && k < |s.w.recs[i].batches|
    ensures WriteOpen(cfg, w, m, b, io).w.recs[i].batches[k].id != b.id
  {
    var s := WriteOpen(cfg, w, m, b, io);
    if i < |w.recs| - 1 {
      assert s.w.recs[i] == w.recs[i];
    }
  }

  lemma WriteOpenRefuses(d0: Files, cfg: Config, w: Writer, m: Machine, b: Batch, io: IO)
    requires Holds(w, m) && History(d0, m) && w.isOpen && IdsBelow(w, b.id)
    ensures Guarantee(d0, w, m, io, Refuse(WriteOpen(cfg, w, m, b, io), b))
  {
    var s := WriteOpen(cfg, w, m, b, io);
    WriteOpenKeeps(d0, cfg, w, m, b, io);
    if !s.r.Done? {
      forall i, k | 0 <= i < |s.w.recs| && s.w.recs[i].status != Orphan && 0 <= k < |s.w.recs[i].batches|
        ensures s.w.recs[i].batches[k].id != b.id
      {
        FailedWriteIsNowhere(cfg, w, m, b, io, i, k);
      }
    }
    RefuseKeeps(d0, w, m, io, s, b);
  }

  lemma WriteKeeps(d0: Files, cfg: Config, w: Writer, m: Machine, b: Batch, io: IO)
    requires Holds(w, m) && History(d0, m) && IdsBelow(w, b.id)
    requires !w.isOpen ==> NextFree(w, m, io)
    ensures Guarantee(d0, w, m, io, Write(cfg, w, m, b, io))
  {
    if w.isOpen {
      WriteOpenRefuses(d0, cfg, w, m, b, io);
    } else {
      var s1 := OpenLocked(w, m, io);
      OpenKeeps(d0, w, m, io);
      OpenIds(w, m, io, b.id);
      if s1.r.Done? {
        WriteOpenRefuses(d0, cfg, s1.w, s1.m, b, io);
        OpenTarget(w, m, io);
        Compose(d0, w, m, io, s1, Refuse(WriteOpen(cfg, s1.w, s1.m, b, io), b));
      } else {
        RefuseKeeps(d0, w, m, io, s1, b);
      }
    }
  }

  lemma OpenTarget(w: Writer, m: Machine, io: IO)
    requires !w.isOpen && OpenLocked(w, m, io).r.Done?
    ensures var s := OpenLocked(w, m, io); s.w.isOpen && Target(s.w, s.m, io) == Target(w, m, io)
  {
  }

  lemma OpenIds(w: Writer, m: Machine, io: IO, n: nat)
    requires IdsBelow(w, n)
    ensures IdsBelow(OpenLocked(w, m, io).w, n)
  {
  }

  lemma AgeKeeps(d0: Files, cfg: Config, w: Writer, m: Machine, io: IO)
    requires Holds(w, m) && History(d0, m)
    ensures Guarantee(d0, w, m, io, MaybeRotateForAge(cfg, w, m, io))
  {
    RotateKeeps(d0, w, m, io);
    Stay(d0, w, m, io, Done);
  }

  /** Names stay fresh, and any other writer's files stay exactly as they were. */
  lemma GuaranteeToOthers(w: Writer, m: Machine, io: IO, s: Step, other: Writer)
    requires WellFormed(w) && Numbered(w.recs, m.counter)
    requires ChangedOnly(m.disk, s.m.disk, Target(w, m, io)) && m.counter <= s.m.counter
    requires Numbered(other.recs, m.counter) && FilesOk(other.dir, other.recs, m.disk)
    requires forall i, j :: 0 <= i < |w.recs| && 0 <= j < |other.recs| ==> w.recs[i].num != other.recs[j].num
    ensures FilesOk(other.dir, other.recs, s.m.disk)
  {
    assert w.isOpen ==> w.recs[|w.recs| - 1] == Last(w.recs);
    FilesFrame(other.dir, other.recs, m.disk, s.m.disk, w.dir, TargetTime(w, io), TargetNum(w, m));
  }

  lemma GuaranteeFresh(w: Writer, m: Machine, io: IO, s: Step, sc: Scope)
    requires OnlyLastOpen(w) && Numbered(w.recs, m.counter) && NamesFresh(m, sc)
    requires m.counter <= s.m.counter <= m.counter + 1 && ChangedOnly(m.disk, s.m.disk, Target(w, m, io))
    requires !w.isOpen && s.m.counter == m.counter ==> s.m.disk == m.disk
    ensures NamesFresh(s.m, sc)
  {
    assert w.isOpen ==> w.recs[|w.recs| - 1] == Last(w.recs);
    if TargetNum(w, m) <= s.m.counter {
      FreshFrame(m, s.m, sc, w.dir, TargetTime(w, io), TargetNum(w, m));
    } else {
      SameFresh(m, s.m, sc);
    }
  }

  lemma SameFresh(m: Machine, m': Machine, sc: Scope)
    requires NamesFresh(m, sc) && m'.disk == m.disk && m.counter <= m'.counter
    ensures NamesFresh(m', sc)
  {
  }
}
