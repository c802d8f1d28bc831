/** What one rotating Parquet writer does, as functions of its state, the machine it runs on and
    the outcome of every I/O call. SignalWriter.dfy runs the same thing in place. */
module WriterSpec {
  import opened FileNames
  import opened Disk
  import opened Options

  datatype Config = Config(maxRows: nat, maxBytes: nat, flushInterval: nat)

  ghost predicate ValidConfig(cfg: Config) {
    cfg.maxRows > 0 && cfg.maxBytes > 0 && cfg.flushInterval > 0
  }

  /** The machine, shared by all writers of the process: its disk, the process-wide file counter,
      the rows-written counter, and the log of system calls. */
  datatype Machine = Machine(disk: Files, counter: nat, rowsWritten: nat, calls: seq<Call>)

  datatype FooterResult = FooterWritten | FooterLost | FooterTorn

  /** What the environment answers during one operation: two clock readings, the size `Stat`
      reports (if it does), and which of the fallible calls fail. */
  datatype IO = IO(
    nanos: int, now: int, size: Option<nat>,
    createFails: bool, newWriterFails: bool, writeFails: bool,
    footer: FooterResult, syncFails: bool, closeFails: bool, renameFails: bool)

  predicate FaultFree(io: IO) {
    && !io.createFails && !io.newWriterFails && !io.writeFails
    && io.footer.FooterWritten? && !io.syncFails && !io.closeFails && !io.renameFails
  }

  datatype Status = Open | Published | Orphan

  /** The history of one file: the counter and clock in its name, the batches written to it, and
      what became of it. An orphan is a `.part` file left behind by a failed call. */
  datatype Rec = Rec(num: nat, nanos: int, batches: seq<Batch>, status: Status)

  /** The fields of the writer, and its ledger: every file it ever created, in order, every batch
      it put into a file, in order, and the ids of the batches whose write returned an error. */
  datatype Writer = Writer(
    dir: string, isOpen: bool, partPath: string, rows: nat, openedAt: int,
    recs: seq<Rec>, appended: seq<Batch>, refused: set<nat>)

  datatype Outcome =
    | Done
    | CreateFailed | NewWriterFailed | WriteFailed
    | FooterFailed | SyncFailed | CloseFailed | RenameFailed

  datatype Step = Step(w: Writer, m: Machine, r: Outcome)

  function Do(m: Machine, c: Call): Machine {
    m.(disk := Apply(m.disk, c), calls := m.calls + [c])
  }

  function Last(recs: seq<Rec>): Rec
    requires recs != []
  {
    recs[|recs| - 1]
  }

  function SetLast(recs: seq<Rec>, r: Rec): seq<Rec>
    requires recs != []
  {
    recs[..|recs| - 1] + [r]
  }

  predicate WellFormed(w: Writer) {
    w.isOpen ==> w.recs != [] && Last(w.recs).status == Open
  }

  function OpenLocked(w: Writer, m: Machine, io: IO): Step {
    var n := m.counter + 1;
    var part := PartPath(w.dir, io.nanos, n);
    var m0 := m.(counter := n);
    if io.createFails then
      Step(w.(partPath := part), m0, CreateFailed)
    else if io.newWriterFails then
      Step(w.(partPath := part, recs := w.recs + [Rec(n, io.nanos, [], Orphan)]),
           Do(Do(m0, Create(part)), CloseFd(part)), NewWriterFailed)
    else
      Step(w.(isOpen := true, partPath := part, rows := 0, openedAt := io.now,
              recs := w.recs + [Rec(n, io.nanos, [], Open)]),
           Do(m0, Create(part)), Done)
  }

  function RotateOutcome(io: IO): Outcome {
    if !io.footer.FooterWritten? then FooterFailed
    else if io.syncFails then SyncFailed
    else if io.closeFails then CloseFailed
    else if io.renameFails then RenameFailed
    else Done
  }

  function RotateMachine(m: Machine, part: string, io: IO): Machine
    requires |part| > |PART|
  {
    if io.footer.FooterLost? then Do(m, CloseFd(part)) else
    if io.footer.FooterTorn? then Do(Do(m, Append(part, Torn)), CloseFd(part)) else
    var m1 := Do(m, Append(part, Footer));
    if io.syncFails then Do(m1, CloseFd(part)) else
    var m2 := Do(m1, Sync(part));
    if io.closeFails then m2 else
    var m3 := Do(m2, CloseFd(part));
    if io.renameFails then m3 else Do(m3, Rename(part, FinalPath(part)))
  }

  /** The writer after `reset`, its last file having become `status`. */
  function Reset(w: Writer, status: Status): Writer
    requires w.recs != []
  {
    w.(isOpen := false, partPath := "", rows := 0,
       recs := SetLast(w.recs, Last(w.recs).(status := status)))
  }

  function RotateLocked(w: Writer, m: Machine, io: IO): Step
    requires WellFormed(w) && (w.isOpen ==> |w.partPath| > |PART|)
  {
    if !w.isOpen then Step(w, m, Done) else
    var m1 := RotateMachine(m, w.partPath, io);
    if RotateOutcome(io).Done?
    then Step(Reset(w, Published), m1.(rowsWritten := m1.rowsWritten + w.rows), Done)
    else Step(Reset(w, Orphan), m1, RotateOutcome(io))
  }

  function Refuse(s: Step, b: Batch): Step {
    if s.r.Done? then s else s.(w := s.w.(refused := s.w.refused + {b.id}))
  }

  /** The batch reaches the open file. */
  function Put(w: Writer, b: Batch): Writer
    requires w.recs != []
  {
    var last := Last(w.recs);
    w.(rows := w.rows + b.rows, appended := w.appended + [b],
       recs := SetLast(w.recs, last.(batches := last.batches + [b])))
  }

  /** What a write does to the ledger: on success the batch is at its end; on an error it is there or
      nowhere, and it is reported refused. */
  ghost predicate Written(before: Writer, after: Writer, b: Batch, r: Outcome) {
    && (after.appended == before.appended + [b] || (after.appended == before.appended && !r.Done?))
    && after.refused == if r.Done? then before.refused else before.refused + {b.id}
  }

  function WriteOpen(cfg: Config, w: Writer, m: Machine, b: Batch, io: IO): Step
    requires WellFormed(w) && w.isOpen && |w.partPath| > |PART|
  {
    if io.writeFails then Step(w, m, WriteFailed) else
    var w1, m1 := Put(w, b), Do(m, Append(w.partPath, Rows(b)));
    var size := if io.size.Some? then io.size.value else 0;
    if w1.rows >= cfg.maxRows || size >= cfg.maxBytes then RotateLocked(w1, m1, io)
    else Step(w1, m1, Done)
  }

  function Write(cfg: Config, w: Writer, m: Machine, b: Batch, io: IO): Step
    requires WellFormed(w) && (w.isOpen ==> |w.partPath| > |PART|)
  {
    var s := if w.isOpen then Step(w, m, Done) else OpenLocked(w, m, io);
    Refuse(if s.r.Done? then WriteOpen(cfg, s.w, s.m, b, io) else s, b)
  }

  lemma WriteIsWritten(cfg: Config, w: Writer, m: Machine, b: Batch, io: IO)
    requires WellFormed(w) && (w.isOpen ==> |w.partPath| > |PART|)
    ensures var s := Write(cfg, w, m, b, io); Written(w, s.w, b, s.r)
  {
    var s := if w.isOpen then Step(w, m, Done) else OpenLocked(w, m, io);
    if s.r.Done? { WriteOpenWrites(cfg, s.w, s.m, b, io); }
  }

  lemma WriteOpenWrites(cfg: Config, w: Writer, m: Machine, b: Batch, io: IO)
    requires WellFormed(w) && w.isOpen && |w.partPath| > |PART|
    ensures var s := WriteOpen(cfg, w, m, b, io);
      && s.w.refused == w.refused
      && (s.w.appended == w.appended + [b] || (s.w.appended == w.appended && !s.r.Done?))
  {
  }

  function MaybeRotateForAge(cfg: Config, w: Writer, m: Machine, io: IO): Step
    requires WellFormed(w) && (w.isOpen ==> |w.partPath| > |PART|)
  {
    if w.isOpen && io.now - w.openedAt >= cfg.flushInterval then RotateLocked(w, m, io)
    else Step(w, m, Done)
  }

  function NewWriter(dir: string): Writer {
    Writer(dir, false, "", 0, 0, [], [], {})
  }
}
