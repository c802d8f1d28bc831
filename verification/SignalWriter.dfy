/** The writer as the program runs it: one object per table, its fields changed in place under its
    mutex, system calls issued one by one against the shared machine. Every method is proved equal
    to its function in WriterSpec.dfy, so the theorems about runs are about this code. */
module SignalWriters {
  import opened FileNames
  import opened Disk
  import opened Options
  import Spec = WriterSpec

  /** The operating system and the process-wide counters. A call told to fail has no effect. */
  class Host {
    var disk: Files
    var counter: nat
    var rowsWritten: nat
    ghost var calls: seq<Call>

    ghost function Machine(): Spec.Machine
      reads this
    {
      Spec.Machine(disk, counter, rowsWritten, calls)
    }

    constructor ()
      ensures Machine() == Spec.Machine(map[], 0, 0, [])
    {
      disk, counter, rowsWritten, calls := map[], 0, 0, [];
    }

    method AddSeq() returns (n: nat)
      modifies this`counter
      ensures n == counter == old(counter) + 1
    {
      counter := counter + 1;
      n := counter;
    }

    method AddRowsWritten(rows: nat)
      modifies this`rowsWritten
      ensures rowsWritten == old(rowsWritten) + rows
    {
      rowsWritten := rowsWritten + rows;
    }

    method Issue(c: Call, fails: bool) returns (ok: bool)
      modifies this`disk, this`calls
      ensures ok == !fails
      ensures Machine() == if fails then old(Machine()) else Spec.Do(old(Machine()), c)
    {
      if !fails {
        disk := Apply(disk, c);
        calls := calls + [c];
      }
      ok := !fails;
    }
  }

  class SignalWriter {
    const dir: string
    const cfg: Spec.Config
    const host: Host

    /** The open descriptor and the Parquet writer on top of it, each by the path it was created for. */
    var file: Option<string>
    var fw: Option<string>
    var partPath: string
    var rows: nat
    var openedAt: int

    ghost var recs: seq<Spec.Rec>
    ghost var appended: seq<Batch>
    ghost var refused: set<nat>

    ghost function State(): Spec.Writer
      reads this
    {
      Spec.Writer(dir, fw.Some?, partPath, rows, openedAt, recs, appended, refused)
    }

    /** Descriptor and Parquet writer come and go together, on the current part file. */
    ghost predicate Valid()
      reads this
    {
      && file == fw
      && (fw.Some? ==> fw == Some(partPath) && |partPath| > |PART|)
      && Spec.WellFormed(State())
    }

    constructor (dir: string, cfg: Spec.Config, host: Host)
      ensures Valid() && State() == Spec.NewWriter(dir)
      ensures this.cfg == cfg && this.host == host && this.dir == dir
    {
      this.dir, this.cfg, this.host := dir, cfg, host;
      file, fw, partPath, rows, openedAt := None, None, "", 0, 0;
      recs, appended, refused := [], [], {};
    }

    method OpenLocked(io: Spec.IO) returns (r: Spec.Outcome)
      requires Valid() && fw.None?
      modifies this, host
      ensures Valid()
      ensures Spec.Step(State(), host.Machine(), r) == Spec.OpenLocked(old(State()), old(host.Machine()), io)
    {
      var n := host.AddSeq();
      partPath := PartPath(dir, io.nanos, n);
      var ok := host.Issue(Create(partPath), io.createFails);
      if !ok {
        return Spec.CreateFailed;
      }
      if io.newWriterFails {
        var _ := host.Issue(CloseFd(partPath), false);
        recs := recs + [Spec.Rec(n, io.nanos, [], Spec.Orphan)];
        return Spec.NewWriterFailed;
      }
      file := Some(partPath);
      fw := Some(partPath);
      rows := 0;
      openedAt := io.now;
      recs := recs + [Spec.Rec(n, io.nanos, [], Spec.Open)];
      return Spec.Done;
    }

    method Reset(ghost status: Spec.Status)
      requires recs != []
      modifies this
      ensures file.None? && fw.None? && State() == Spec.Reset(old(State()), status)
    {
      file := None;
      fw := None;
      partPath := "";
      rows := 0;
      recs := Spec.SetLast(recs, Spec.Last(recs).(status := status));
    }

    /** Footer, fsync, close, rename - in that order; any failure leaves the part file behind. */
    method RotateLocked(io: Spec.IO) returns (r: Spec.Outcome)
      requires Valid()
      modifies this, host
      ensures Valid() && fw.None?
      ensures Spec.Step(State(), host.Machine(), r) == Spec.RotateLocked(old(State()), old(host.Machine()), io)
    {
      if fw.None? {
        return Spec.Done;
      }
      var n, path := rows, partPath;
      if !io.footer.FooterWritten? {
        var _ := host.Issue(Append(path, Torn), io.footer.FooterLost?);
        var _ := host.Issue(CloseFd(path), false);
        Reset(Spec.Orphan);
        return Spec.FooterFailed;
      }
      var ok := host.Issue(Append(path, Footer), false);
      ok := host.Issue(Sync(path), io.syncFails);
      if !ok {
        var _ := host.Issue(CloseFd(path), false);
        Reset(Spec.Orphan);
        return Spec.SyncFailed;
      }
      ok := host.Issue(CloseFd(path), io.closeFails);
      if !ok {
        Reset(Spec.Orphan);
        return Spec.CloseFailed;
      }
      ok := host.Issue(Rename(path, FinalPath(path)), io.renameFails);
      if !ok {
        Reset(Spec.Orphan);
        return Spec.RenameFailed;
      }
      Reset(Spec.Published);
      host.AddRowsWritten(n);
      return Spec.Done;
    }

    /** Puts the batch into the open file and rotates it when a threshold is reached. */
    method WriteOpen(b: Batch, io: Spec.IO) returns (r: Spec.Outcome)
      requires Valid() && fw.Some?
      modifies this, host
      ensures Valid()
      ensures Spec.Step(State(), host.Machine(), r) == Spec.WriteOpen(cfg, old(State()), old(host.Machine()), b, io)
    {
      var ok := host.Issue(Append(partPath, Rows(b)), io.writeFails);
      if !ok {
        return Spec.WriteFailed;
      }
      rows := rows + b.rows;
      appended := appended + [b];
      recs := Spec.SetLast(recs, Spec.Last(recs).(batches := Spec.Last(recs).batches + [b]));
      var size := 0;
      if io.size.Some? {
        size := io.size.value;
      }
      if rows >= cfg.maxRows {
        r := RotateLocked(io);
        return;
      }
      if size >= cfg.maxBytes {
        r := RotateLocked(io);
        return;
      }
      return Spec.Done;
    }

    method Write(b: Batch, io: Spec.IO) returns (r: Spec.Outcome)
      requires Valid()
      modifies this, host
      ensures Valid()
      ensures Spec.Step(State(), host.Machine(), r) == Spec.Write(cfg, old(State()), old(host.Machine()), b, io)
    {
      if fw.None? {
        r := OpenLocked(io);
        if !r.Done? {
          refused := refused + {b.id};
          return;
        }
      }
      r := WriteOpen(b, io);
      if !r.Done? {
        refused := refused + {b.id};
      }
    }

    method MaybeRotateForAge(io: Spec.IO) returns (r: Spec.Outcome)
      requires Valid()
      modifies this, host
      ensures Valid()
      ensures Spec.Step(State(), host.Machine(), r)
        == Spec.MaybeRotateForAge(cfg, old(State()), old(host.Machine()), io)
    {
      if fw.None? {
        return Spec.Done;
      }
      if io.now - openedAt >= cfg.flushInterval {
        r := RotateLocked(io);
        return;
      }
      return Spec.Done;
    }

    method Close(io: Spec.IO) returns (r: Spec.Outcome)
      requires Valid()
      modifies this, host
      ensures Valid() && fw.None?
      ensures Spec.Step(State(), host.Machine(), r) == Spec.RotateLocked(old(State()), old(host.Machine()), io)
    {
      r := RotateLocked(io);
    }
  }
}
