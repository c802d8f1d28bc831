/** The invariant that ties a writer's fields and ledger to the disk, and its preservation by every
    operation under every combination of I/O failures. */
module WriterInvariant {
  import opened FileNames
  import opened Disk
  import opened WriterSpec

  function PathOf(dir: string, r: Rec): (p: string)
    ensures |p| > |PART|
  {
    PartPath(dir, r.nanos, r.num)
  }

  /** The batches of all files, in the order the files were created. */
  function Flat(recs: seq<Rec>): seq<Batch> {
    if recs == [] then [] else Flat(recs[..|recs| - 1]) + Last(recs).batches
  }

  /** How the chunks of an orphan may end. */
  predicate Tail(cs: seq<Chunk>) {
    cs == [] || cs == [Footer] || cs == [Torn]
  }

  /** What the disk shows for the file `r`, under its part name `p`. */
  ghost predicate FileOk(d: Files, p: string, r: Rec)
    requires |p| > |PART|
  {
    match r.status
    case Open =>
      p in d && FinalPath(p) !in d && d[p] == File(RowChunks(r.batches), 0, true)
    case Published =>
      && p !in d && FinalPath(p) in d
      && d[FinalPath(p)] == File(RowChunks(r.batches) + [Footer], |r.batches| + 1, false)
    case Orphan =>
      && p in d && FinalPath(p) !in d
      && RowChunks(r.batches) <= d[p].chunks
      && Tail(d[p].chunks[|r.batches|..])
  }

  /** What a process may put into names: its writers' directories and the readings of its clock. */
  datatype Scope = Scope(dirs: set<string>, readings: set<int>)

  /** No file yet has a name of the scope that the counter has not reached. Files with other names,
      such as those of earlier processes, may exist. */
  ghost predicate NamesFresh(m: Machine, sc: Scope) {
    forall dir: string, t: int, n: nat {:trigger PartPath(dir, t, n)} ::
      dir in sc.dirs && t in sc.readings && n > m.counter ==>
        PartPath(dir, t, n) !in m.disk && FinalPath(PartPath(dir, t, n)) !in m.disk
  }

  ghost predicate Numbered(recs: seq<Rec>, counter: nat) {
    && (forall i :: 0 <= i < |recs| ==> 1 <= recs[i].num <= counter)
    && (forall i, j :: 0 <= i < j < |recs| ==> recs[i].num < recs[j].num)
  }

  ghost predicate FilesOk(dir: string, recs: seq<Rec>, d: Files) {
    forall i :: 0 <= i < |recs| ==> FileOk(d, PathOf(dir, recs[i]), recs[i])
  }

  ghost predicate OnlyLastOpen(w: Writer) {
    && WellFormed(w)
    && (forall i :: 0 <= i < |w.recs| && w.recs[i].status == Open ==> w.isOpen && i == |w.recs| - 1)
    && (w.isOpen ==> w.partPath == PathOf(w.dir, Last(w.recs)) && w.rows == SumRows(Last(w.recs).batches))
  }

  /** No refused batch is in a published file, nor in one that may still be published. */
  ghost predicate RefusedApart(recs: seq<Rec>, refused: set<nat>) {
    forall i, k :: 0 <= i < |recs| && recs[i].status != Orphan && 0 <= k < |recs[i].batches| ==>
      recs[i].batches[k].id !in refused
  }

  ghost predicate Holds(w: Writer, m: Machine) {
    && OnlyLastOpen(w)
    && Numbered(w.recs, m.counter)
    && FilesOk(w.dir, w.recs, m.disk)
    && w.appended == Flat(w.recs)
    && RefusedApart(w.recs, w.refused)
  }

  /** The disk is the same except, possibly, under the part name `p` and its published form. */
  ghost predicate ChangedOnly(d: Files, d': Files, p: string)
    requires |p| > |PART|
  {
    forall q :: q != p && q != FinalPath(p) ==>
      (q in d <==> q in d') && (q in d ==> d[q] == d'[q])
  }

  lemma NamesApart(d1: string, t1: int, n1: nat, d2: string, t2: int, n2: nat)
    requires n1 != n2
    ensures var p, q := PartPath(d1, t1, n1), PartPath(d2, t2, n2);
            p != q && p != FinalPath(q) && FinalPath(p) != q && FinalPath(p) != FinalPath(q)
  {
    NamesNeverCollide(d1, t1, n1, d2, t2, n2);
    PartIsNotFinal(d1, t1, n1);
    PartIsNotFinal(d2, t2, n2);
  }

  /** Work on one file leaves every file with another counter alone, whoever owns it. */
  lemma FileFrame(dir: string, r: Rec, d: Files, d': Files, dir': string, t': int, n': nat)
    requires FileOk(d, PathOf(dir, r), r) && r.num != n'
    requires ChangedOnly(d, d', PartPath(dir', t', n'))
    ensures FileOk(d', PathOf(dir, r), r)
  {
    NamesApart(dir, r.nanos, r.num, dir', t', n');
  }

  lemma FilesFrame(dir: string, recs: seq<Rec>, d: Files, d': Files, dir': string, t': int, n': nat)
    requires FilesOk(dir, recs, d)
    requires forall i :: 0 <= i < |recs| ==> recs[i].num != n'
    requires ChangedOnly(d, d', PartPath(dir', t', n'))
    ensures FilesOk(dir, recs, d')
  {
    forall i | 0 <= i < |recs| ensures FileOk(d', PathOf(dir, recs[i]), recs[i]) {
      FileFrame(dir, recs[i], d, d', dir', t', n');
    }
  }

  lemma FreshFrame(m: Machine, m': Machine, sc: Scope, dir': string, t': int, n': nat)
    requires NamesFresh(m, sc) && m.counter <= m'.counter && n' <= m'.counter
    requires ChangedOnly(m.disk, m'.disk, PartPath(dir', t', n'))
    ensures NamesFresh(m', sc)
  {
    forall dir: string, t: int, n: nat {:trigger PartPath(dir, t, n)}
      | dir in sc.dirs && t in sc.readings && n > m'.counter
      ensures PartPath(dir, t, n) !in m'.disk && FinalPath(PartPath(dir, t, n)) !in m'.disk
    {
      NamesApart(dir, t, n, dir', t', n');
    }
  }
}
