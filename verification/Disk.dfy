/** The file system as the Parquet writer uses it.

    A file is a sequence of chunks: record batches, then the footer. `durable` counts the chunks
    known to be on stable storage; a crash may cut off everything behind it. System calls are
    values, so that a crash between any two of them is a prefix of the call log. */
module Disk {
  import opened FileNames

  datatype Batch = Batch(id: nat, rows: nat)

  datatype Chunk = Rows(batch: Batch) | Footer | Torn

  datatype File = File(chunks: seq<Chunk>, durable: nat, open: bool)

  type Files = map<string, File>

  /** The system calls that took effect. A call that fails without effect is not in the log;
      a footer write that fails half way appends `Torn`. */
  datatype Call =
    | Create(path: string)
    | Append(path: string, chunk: Chunk)
    | Sync(path: string)
    | CloseFd(path: string)
    | Rename(path: string, dst: string)

  function Apply(d: Files, c: Call): Files {
    match c
    case Create(p) => d[p := File([], 0, true)]
    case Append(p, ch) => if p in d then d[p := d[p].(chunks := d[p].chunks + [ch])] else d
    case Sync(p) => if p in d then d[p := d[p].(durable := |d[p].chunks|)] else d
    case CloseFd(p) => if p in d then d[p := d[p].(open := false)] else d
    case Rename(p, q) => if p in d then (d - {p})[q := d[p]] else d
  }

  function Replay(d: Files, calls: seq<Call>): Files {
    if calls == [] then d else Apply(Replay(d, calls[..|calls| - 1]), calls[|calls| - 1])
  }

  function RowChunks(bs: seq<Batch>): (cs: seq<Chunk>)
    ensures |cs| == |bs| && forall i :: 0 <= i < |bs| ==> cs[i] == Rows(bs[i])
  {
    seq(|bs|, i requires 0 <= i < |bs| => Rows(bs[i]))
  }

  function SumRows(bs: seq<Batch>): nat {
    if bs == [] then 0 else SumRows(bs[..|bs| - 1]) + bs[|bs| - 1].rows
  }

  /** A finished file: only whole batches and then the footer, every chunk durable, descriptor
      released. */
  predicate Complete(f: File) {
    && !f.open
    && f.durable == |f.chunks| > 0
    && f.chunks[|f.chunks| - 1] == Footer
    && forall i :: 0 <= i < |f.chunks| - 1 ==> f.chunks[i].Rows?
  }

  /** What readers rely on: whatever has a published name is complete. */
  ghost predicate Safe(d: Files) {
    forall p :: p in d && IsFinal(p) ==> Complete(d[p])
  }

  /** `d'` is what a crash in state `d` may leave. Every published file was already published
      and keeps at least its durable chunks; nothing is assumed about other names. */
  ghost predicate CrashOf(d: Files, d': Files) {
    forall p :: p in d' && IsFinal(p) ==>
      p in d && d'[p].chunks <= d[p].chunks && |d'[p].chunks| >= d[p].durable
  }

  /** A call that would destroy an earlier file: create truncates, rename overwrites. */
  predicate Clobbers(d: Files, c: Call) {
    (c.Create? && c.path in d) || (c.Rename? && c.dst in d)
  }

  /** Every state of the disk between two calls of the log is safe, and no call destroys a file. */
  ghost predicate SafeThroughout(d: Files, calls: seq<Call>) {
    && (forall k :: 0 <= k <= |calls| ==> Safe(Replay(d, calls[..k])))
    && (forall k :: 0 <= k < |calls| ==> !Clobbers(Replay(d, calls[..k]), calls[k]))
  }

  /** Safety of a log extends call by call. */
  lemma SafeExtend(d: Files, calls: seq<Call>, c: Call)
    requires SafeThroughout(d, calls)
    requires Safe(Replay(d, calls + [c])) && !Clobbers(Replay(d, calls), c)
    ensures SafeThroughout(d, calls + [c])
  {
    forall k | 0 <= k <= |calls| + 1 ensures Safe(Replay(d, (calls + [c])[..k])) {
      if k <= |calls| {
        assert (calls + [c])[..k] == calls[..k];
      } else {
        assert (calls + [c])[..k] == calls + [c];
      }
    }
    forall k | 0 <= k <= |calls| ensures !Clobbers(Replay(d, (calls + [c])[..k]), (calls + [c])[k]) {
      assert (calls + [c])[..k] == calls[..k];
      if k == |calls| { assert calls[..k] == calls; }
    }
  }

  /** A crash at any point of a safe log leaves every published file whole, footer included. */
  lemma CrashKeepsPublished(d: Files, calls: seq<Call>, k: nat, d': Files, p: string)
    requires SafeThroughout(d, calls) && k <= |calls|
    requires CrashOf(Replay(d, calls[..k]), d')
    requires p in d' && IsFinal(p)
    ensures var before := Replay(d, calls[..k]);
            p in before && Complete(before[p]) && d'[p].chunks == before[p].chunks
  {
    assert Safe(Replay(d, calls[..k]));
  }

  lemma {:induction false} SumRowsConcat(a: seq<Batch>, b: seq<Batch>)
    ensures SumRows(a + b) == SumRows(a) + SumRows(b)
  {
    if b == [] {
      assert a + b == a;
    } else {
      assert (a + b)[..|a + b| - 1] == a + b[..|b| - 1];
      SumRowsConcat(a, b[..|b| - 1]);
    }
  }
}
