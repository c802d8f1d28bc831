/** The system calls of one operation, one after the other, and what the calls of other writers may
    do in between: calls on different files do not disturb each other. */
module WriterCalls {
  import opened FileNames
  import opened Disk
  import opened WriterSpec
  import opened WriterInvariant
  import opened WriterSteps

  /* ---- replaying ---- */

  lemma {:induction false} ReplayConcat(d: Files, a: seq<Call>, b: seq<Call>)
    ensures Replay(d, a + b) == Replay(Replay(d, a), b)
  {
    if b == [] {
      assert a + b == a;
    } else {
      assert (a + b)[..|a + b| - 1] == a + b[..|b| - 1];
      ReplayConcat(d, a, b[..|b| - 1]);
    }
  }

  lemma ReplayOne(d: Files, c: Call)
    ensures Replay(d, [c]) == Apply(d, c)
  {
    assert [c][..0] == [];
  }

  /** The first call of the rest, and then the others. */
  lemma ReplayFirst(d: Files, cs: seq<Call>)
    requires cs != []
    ensures Replay(d, cs) == Replay(Apply(d, cs[0]), cs[1..])
  {
    assert cs == [cs[0]] + cs[1..];
    ReplayConcat(d, [cs[0]], cs[1..]);
    ReplayOne(d, cs[0]);
  }

  /* ---- which file a call is about ---- */

  /** The call works on the file whose part name is `p`. */
  predicate About(c: Call, p: string)
    requires |p| > |PART|
  {
    c.path == p && (c.Rename? ==> c.dst == FinalPath(p))
  }

  predicate AllAbout(cs: seq<Call>, p: string)
    requires |p| > |PART|
  {
    forall k :: 0 <= k < |cs| ==> About(cs[k], p)
  }

  lemma RestAbout(cs: seq<Call>, p: string)
    requires |p| > |PART| && cs != [] && AllAbout(cs, p)
    ensures About(cs[0], p) && AllAbout(cs[1..], p)
  {
  }

  /** The calls that lead from one machine to a later one. */
  function Since(m: Machine, m': Machine): seq<Call> {
    if |m.calls| <= |m'.calls| then m'.calls[|m.calls|..] else []
  }

  /** `m'` is `m` after some calls, all on the file `p`. */
  ghost predicate Leads(m: Machine, m': Machine, p: string)
    requires |p| > |PART|
  {
    && m.calls <= m'.calls && AllAbout(Since(m, m'), p)
    && m'.disk == Replay(m.disk, Since(m, m'))
    && m.rowsWritten <= m'.rowsWritten
  }

  lemma LeadsNowhere(m: Machine, m': Machine, p: string)
    requires |p| > |PART| && m'.calls == m.calls && m'.disk == m.disk && m.rowsWritten <= m'.rowsWritten
    ensures Leads(m, m', p)
  {
    assert Since(m, m') == [];
  }

  lemma LeadsOne(m: Machine, c: Call, p: string)
    requires |p| > |PART| && About(c, p)
    ensures Leads(m, Do(m, c), p)
  {
    assert Since(m, Do(m, c)) == [c];
    ReplayOne(m.disk, c);
  }

  lemma LeadsOn(m: Machine, m1: Machine, m2: Machine, p: string)
    requires |p| > |PART| && Leads(m, m1, p) && Leads(m1, m2, p)
    ensures Leads(m, m2, p)
  {
    assert Since(m, m2) == Since(m, m1) + Since(m1, m2);
    ReplayConcat(m.disk, Since(m, m1), Since(m1, m2));
  }

  lemma LeadsTwo(m: Machine, c1: Call, c2: Call, p: string)
    requires |p| > |PART| && About(c1, p) && About(c2, p)
    ensures Leads(m, Do(Do(m, c1), c2), p)
  {
    LeadsOne(m, c1, p);
    LeadsOne(Do(m, c1), c2, p);
    LeadsOn(m, Do(m, c1), Do(Do(m, c1), c2), p);
  }

  /* ---- the calls of the operations ---- */

  lemma RotateMachineLeads(m: Machine, p: string, io: IO)
    requires |p| > |PART|
    ensures Leads(m, RotateMachine(m, p, io), p)
  {
    var m1 := Do(m, Append(p, Footer));
    var m2 := Do(m1, Sync(p));
    LeadsOne(m, CloseFd(p), p);
    LeadsTwo(m, Append(p, Torn), CloseFd(p), p);
    LeadsTwo(m, Append(p, Footer), CloseFd(p), p);
    LeadsTwo(m, Append(p, Footer), Sync(p), p);
    LeadsOne(m2, CloseFd(p), p);
    LeadsTwo(m2, CloseFd(p), Rename(p, FinalPath(p)), p);
    LeadsOn(m, m2, Do(m2, CloseFd(p)), p);
    LeadsOn(m, m2, Do(Do(m2, CloseFd(p)), Rename(p, FinalPath(p))), p);
  }

  lemma RotateLeads(w: Writer, m: Machine, io: IO)
    requires OnlyLastOpen(w)
    ensures Leads(m, RotateLocked(w, m, io).m, Target(w, m, io))
  {
    if w.isOpen {
      var m1 := RotateMachine(m, w.partPath, io);
      RotateMachineLeads(m, w.partPath, io);
      LeadsNowhere(m1, m1.(rowsWritten := m1.rowsWritten + w.rows), w.partPath);
      LeadsOn(m, m1, m1.(rowsWritten := m1.rowsWritten + w.rows), w.partPath);
    } else {
      LeadsNowhere(m, m, Target(w, m, io));
    }
  }

  lemma OpenLeads(w: Writer, m: Machine, io: IO)
    requires OnlyLastOpen(w) && !w.isOpen
    ensures Leads(m, OpenLocked(w, m, io).m, Target(w, m, io))
  {
    var p := PartPath(w.dir, io.nanos, m.counter + 1);
    var m0 := m.(counter := m.counter + 1);
    LeadsNowhere(m, m0, p);
    LeadsOne(m0, Create(p), p);
    LeadsTwo(m0, Create(p), CloseFd(p), p);
    LeadsOn(m, m0, Do(m0, Create(p)), p);
    LeadsOn(m, m0, Do(Do(m0, Create(p)), CloseFd(p)), p);
  }

  lemma WriteOpenLeads(cfg: Config, w: Writer, m: Machine, b: Batch, io: IO)
    requires OnlyLastOpen(w) && w.isOpen
    ensures Leads(m, WriteOpen(cfg, w, m, b, io).m, w.partPath)
  {
    var m1 := Do(m, Append(w.partPath, Rows(b)));
    LeadsNowhere(m, m, w.partPath);
    LeadsOne(m, Append(w.partPath, Rows(b)), w.partPath);
    var last := Last(w.recs);
    assert (last.batches + [b])[..|last.batches|] == last.batches;
    RotateLeads(Put(w, b), m1, io);
    LeadsOn(m, m1, RotateLocked(Put(w, b), m1, io).m, w.partPath);
  }

  lemma WriteLeads(cfg: Config, w: Writer, m: Machine, b: Batch, io: IO)
    requires OnlyLastOpen(w)
    ensures Leads(m, Write(cfg, w, m, b, io).m, Target(w, m, io))
  {
    if w.isOpen {
      WriteOpenLeads(cfg, w, m, b, io);
    } else {
      var s := OpenLocked(w, m, io);
      OpenLeads(w, m, io);
      if s.r.Done? {
        OpenIsLast(w, s.w, Last(s.w.recs));
        WriteOpenLeads(cfg, s.w, s.m, b, io);
        LeadsOn(m, s.m, WriteOpen(cfg, s.w, s.m, b, io).m, Target(w, m, io));
      }
    }
  }

  /* ---- calls on other files ---- */

  /** The two disks say the same about a name. */
  ghost predicate Same(d: Files, e: Files, q: string) {
    (q in d <==> q in e) && (q in d ==> d[q] == e[q])
  }

  /** They say the same about the file `p`, under both its names. */
  ghost predicate SameFile(d: Files, e: Files, p: string)
    requires |p| > |PART|
  {
    Same(d, e, p) && Same(d, e, FinalPath(p))
  }

  lemma ApplySame(d: Files, e: Files, c: Call, p: string)
    requires |p| > |PART| && SameFile(d, e, p) && About(c, p)
    ensures SameFile(Apply(d, c), Apply(e, c), p)
  {
  }

  /** What calls on `p` do to the file `p` depends on the file `p` only. */
  lemma {:induction false} ReplaySame(d: Files, e: Files, cs: seq<Call>, p: string)
    requires |p| > |PART| && SameFile(d, e, p) && AllAbout(cs, p)
    ensures SameFile(Replay(d, cs), Replay(e, cs), p)
  {
    if cs != [] {
      var n := |cs| - 1;
      ReplaySame(d, e, cs[..n], p);
      ApplySame(Replay(d, cs[..n]), Replay(e, cs[..n]), cs[n], p);
    }
  }

  /** And they leave every other name alone. */
  lemma {:induction false} ReplayElsewhere(d: Files, cs: seq<Call>, p: string, q: string)
    requires |p| > |PART| && AllAbout(cs, p) && q != p && q != FinalPath(p)
    ensures Same(d, Replay(d, cs), q)
  {
    if cs != [] { ReplayElsewhere(d, cs[..|cs| - 1], p, q); }
  }

  /* ---- calls that are safe when their turn comes ---- */

  /** The call destroys nothing, and publishes only a complete file. */
  predicate Proper(d: Files, c: Call) {
    && !Clobbers(d, c) && !IsFinal(c.path)
    && (c.Rename? && c.path in d ==> Complete(d[c.path]))
  }

  /** Each of the calls is proper at its turn. */
  predicate Orderly(d: Files, cs: seq<Call>)
    decreases |cs|
  {
    cs == [] || (Proper(d, cs[0]) && Orderly(Apply(d, cs[0]), cs[1..]))
  }

  lemma ProperIsSafe(d: Files, c: Call)
    requires Safe(d) && Proper(d, c)
    ensures Safe(Apply(d, c))
  {
  }

  lemma {:induction false} OrderlySame(d: Files, e: Files, cs: seq<Call>, p: string)
    requires |p| > |PART| && SameFile(d, e, p) && AllAbout(cs, p) && Orderly(d, cs)
    ensures Orderly(e, cs)
    decreases |cs|
  {
    if cs != [] {
      ApplySame(d, e, cs[0], p);
      RestAbout(cs, p);
      OrderlySame(Apply(d, cs[0]), Apply(e, cs[0]), cs[1..], p);
    }
  }

  /** The rest of a safe log is orderly. */
  lemma {:induction false} SafeLogIsOrderly(d0: Files, calls: seq<Call>, k: nat, p: string)
    requires |p| > |PART| && !IsFinal(p) && IsFinal(FinalPath(p))
    requires SafeThroughout(d0, calls) && k <= |calls| && AllAbout(calls[k..], p)
    ensures Orderly(Replay(d0, calls[..k]), calls[k..])
    decreases |calls| - k
  {
    if k < |calls| {
      var d, c := Replay(d0, calls[..k]), calls[k];
      assert calls[..k + 1] == calls[..k] + [c];
      assert calls[k..][0] == c && calls[k..][1..] == calls[k + 1..];
      RestAbout(calls[k..], p);
      assert Safe(Replay(d0, calls[..k + 1]));
      assert calls[..k + 1][..k] == calls[..k];
      assert Replay(d0, calls[..k + 1]) == Apply(d, c);
      RenameOfComplete(d, c, p);
      SafeLogIsOrderly(d0, calls, k + 1, p);
    }
  }

  lemma RenameOfComplete(d: Files, c: Call, p: string)
    requires |p| > |PART| && About(c, p) && IsFinal(FinalPath(p)) && Safe(Apply(d, c))
    ensures c.Rename? && c.path in d ==> Complete(d[c.path])
  {
    if c.Rename? && c.path in d {
      assert Apply(d, c)[c.dst] == d[c.path];
    }
  }

  /** A published file stays as it is while orderly calls are made. */
  lemma {:induction false} FinalStays(d: Files, cs: seq<Call>, q: string)
    requires Orderly(d, cs) && q in d && IsFinal(q)
    ensures Same(d, Replay(d, cs), q)
    decreases |cs|
  {
    if cs != [] {
      ReplayFirst(d, cs);
      assert Same(d, Apply(d, cs[0]), q);
      FinalStays(Apply(d, cs[0]), cs[1..], q);
    }
  }

  /** What is in a file stays in it, or in what it becomes. */
  lemma {:induction false} ChunkStays(d: Files, cs: seq<Call>, p: string, q: string, ch: Chunk)
    requires |p| > |PART| && AllAbout(cs, p) && Orderly(d, cs)
    requires (q == p || q == FinalPath(p)) && q in d && ch in d[q].chunks
    ensures var e := Replay(d, cs);
      (p in e && ch in e[p].chunks) || (FinalPath(p) in e && ch in e[FinalPath(p)].chunks)
    decreases |cs|
  {
    if cs != [] {
      ReplayFirst(d, cs);
      var d1, c := Apply(d, cs[0]), cs[0];
      RestAbout(cs, p);
      var q1 := if c.Rename? && q == p then FinalPath(p) else q;
      assert q1 in d1 && ch in d1[q1].chunks;
      ChunkStays(d1, cs[1..], p, q1, ch);
    }
  }

  /** The chunk is still to be appended. */
  ghost predicate Pending(cs: seq<Call>, ch: Chunk) {
    exists k :: 0 <= k < |cs| && cs[k].Append? && cs[k].chunk == ch
  }

  lemma NotPendingLater(cs: seq<Call>, ch: Chunk)
    requires cs != [] && !Pending(cs, ch)
    ensures !Pending(cs[1..], ch) && (cs[0].Append? ==> cs[0].chunk != ch)
  {
  }

  /** How often a chunk is in a file. */
  function Times(d: Files, q: string, ch: Chunk): nat {
    if q in d then multiset(d[q].chunks)[ch] else 0
  }

  /** What is in a file in the end and is not still to be appended has been in it, or in what became
      it, as often. */
  lemma {:induction false} ChunkWasThere(d: Files, cs: seq<Call>, p: string, q: string, ch: Chunk) returns (q0: string)
    requires |p| > |PART| && AllAbout(cs, p) && Orderly(d, cs) && !Pending(cs, ch)
    requires (q == p || q == FinalPath(p)) && Times(Replay(d, cs), q, ch) > 0
    ensures (q0 == p || q0 == FinalPath(p)) && Times(d, q0, ch) == Times(Replay(d, cs), q, ch)
    decreases |cs|
  {
    q0 := q;
    if cs != [] {
      ReplayFirst(d, cs);
      RestAbout(cs, p);
      NotPendingLater(cs, ch);
      var q1 := ChunkWasThere(Apply(d, cs[0]), cs[1..], p, q, ch);
      q0 := if cs[0].Rename? && p in d && q1 == FinalPath(p) then p else q1;
      TimesStep(d, cs[0], p, q1, ch);
    }
  }

  lemma TimesStep(d: Files, c: Call, p: string, q: string, ch: Chunk)
    requires |p| > |PART| && About(c, p) && (q == p || q == FinalPath(p))
    requires (c.Append? ==> c.chunk != ch) && Times(Apply(d, c), q, ch) > 0
    ensures Times(d, if c.Rename? && p in d && q == FinalPath(p) then p else q, ch) == Times(Apply(d, c), q, ch)
  {
  }

  /** A file is under both its names only if it stays so. */
  lemma {:induction false} BothStay(d: Files, cs: seq<Call>, p: string)
    requires |p| > |PART| && AllAbout(cs, p) && Orderly(d, cs) && p in d && FinalPath(p) in d
    ensures p in Replay(d, cs) && FinalPath(p) in Replay(d, cs)
    decreases |cs|
  {
    if cs != [] {
      ReplayFirst(d, cs);
      RestAbout(cs, p);
      BothStay(Apply(d, cs[0]), cs[1..], p);
    }
  }
}
