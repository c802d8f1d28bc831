/** The exporter around the writers: start, the flush loop, and shutdown. */
module Exporter {
  import opened Schemas
  import opened SignalWriters
  import Spec = WriterSpec

  /** Which `newSignalWriter` calls fail (directory or key problems). */
  datatype StartFaults = StartFaults(traces: bool, logs: bool, metrics: set<Kind>)

  /** What closing a writer reports. */
  function CloseOutcome(isOpen: bool, io: Spec.IO): Spec.Outcome {
    if isOpen then Spec.RotateOutcome(io) else Spec.Done
  }

  /** The error kept after closing one by one: a later error never replaces an earlier one. */
  function FirstError(rs: seq<Spec.Outcome>): Spec.Outcome {
    if rs == [] then Spec.Done
    else if FirstError(rs[..|rs| - 1]).Done? then rs[|rs| - 1]
    else FirstError(rs[..|rs| - 1])
  }

  /** It is success exactly if all succeeded, and otherwise the first failure. */
  lemma {:induction false} FirstErrorIsFirst(rs: seq<Spec.Outcome>)
    ensures FirstError(rs).Done? <==> forall k :: 0 <= k < |rs| ==> rs[k].Done?
    ensures !FirstError(rs).Done? ==>
      exists k :: 0 <= k < |rs| && rs[k] == FirstError(rs) && forall l :: 0 <= l < k ==> rs[l].Done?
  {
    if rs != [] {
      var n := |rs| - 1;
      var init := rs[..n];
      FirstErrorIsFirst(init);
      assert forall l :: 0 <= l < n ==> init[l] == rs[l];
      if FirstError(init).Done? {
        if !rs[n].Done? { assert rs[n] == FirstError(rs); }
      } else {
        var k :| 0 <= k < n && init[k] == FirstError(init) && forall l :: 0 <= l < k ==> init[l].Done?;
        assert rs[k] == FirstError(rs);
      }
    }
  }

  lemma FirstErrorNext(rs: seq<Spec.Outcome>, r: Spec.Outcome)
    ensures FirstError(rs + [r]) == if FirstError(rs).Done? then r else FirstError(rs)
  {
    assert (rs + [r])[..|rs|] == rs;
  }

  /** Writers that may be worked through one by one: on one host, none twice. Nil entries are from
      a start that did not complete. */
  ghost predicate Ready(ws: seq<SignalWriter?>, host: Host)
    reads set w | w in ws && w != null
  {
    && (forall i :: 0 <= i < |ws| && ws[i] != null ==> ws[i].Valid() && ws[i].host == host)
    && (forall i, j :: 0 <= i < j < |ws| && ws[i] != null ==> ws[i] != ws[j])
  }

  /** Which of them are open. */
  ghost function Open(ws: seq<SignalWriter?>): (open: seq<bool>)
    reads set w | w in ws && w != null
    ensures |open| == |ws|
    ensures forall i :: 0 <= i < |ws| ==> (open[i] <==> ws[i] != null && ws[i].fw.Some?)
  {
    if ws == [] then [] else Open(ws[..|ws| - 1]) + [ws[|ws| - 1] != null && ws[|ws| - 1].fw.Some?]
  }

  /** `w.close()`, with what matters to the caller. */
  method CloseOne(w: SignalWriter, io: Spec.IO) returns (r: Spec.Outcome)
    requires w.Valid()
    modifies w, w.host
    ensures w.Valid() && w.fw.None?
    ensures r == CloseOutcome(old(w.fw).Some?, io)
    ensures old(w.fw).None? ==> w.State() == old(w.State()) && w.host.Machine() == old(w.host.Machine())
  {
    r := w.Close(io);
  }

  /** `w.maybeRotateForAge()`, likewise. */
  method CheckOne(w: SignalWriter, io: Spec.IO)
    requires w.Valid()
    modifies w, w.host
    ensures w.Valid()
    ensures w.fw.Some? <==> old(w.fw).Some? && io.now - old(w.openedAt) < w.cfg.flushInterval
    ensures old(w.fw).None? ==> w.host.Machine() == old(w.host.Machine())
  {
    var _ := w.MaybeRotateForAge(io);
  }

  /** Closes all writers, whatever earlier ones report, and keeps the first error. */
  method CloseAll(ws: seq<SignalWriter?>, host: Host, ios: nat -> Spec.IO)
    returns (r: Spec.Outcome, ghost outs: seq<Spec.Outcome>)
    requires Ready(ws, host)
    modifies (set w | w in ws && w != null), host
    ensures Ready(ws, host)
    ensures |outs| == |ws| && r == FirstError(outs)
    ensures forall i :: 0 <= i < |ws| && ws[i] != null ==> Closed(ws[i], outs[i], ios(i))
    ensures (forall i :: 0 <= i < |ws| && ws[i] != null ==> old(ws[i].fw).None?) ==>
      r.Done? && host.Machine() == old(host.Machine())
  {
    r := Spec.Done;
    outs := [];
    var i := 0;
    while i < |ws|
      invariant 0 <= i <= |ws| && |outs| == i && r == FirstError(outs)
      invariant Ready(ws, host)
      invariant forall j :: 0 <= j < i && ws[j] != null ==> Closed(ws[j], outs[j], ios(j))
      invariant forall j :: i <= j < |ws| && ws[j] != null ==> unchanged(ws[j])
      invariant (forall j :: 0 <= j < |ws| && ws[j] != null ==> old(ws[j].fw).None?) ==>
        r.Done? && host.Machine() == old(host.Machine())
    {
      ghost var out := Spec.Done;
      if ws[i] != null {
        var err := CloseOne(ws[i], ios(i));
        if !err.Done? && r.Done? {
          r := err;
        }
        out := err;
      }
      FirstErrorNext(outs, out);
      outs := outs + [out];
      i := i + 1;
    }
  }

  /** The writer has been closed; an idle one has not changed. */
  twostate predicate Closed(w: SignalWriter, out: Spec.Outcome, io: Spec.IO)
    reads w
  {
    && w.fw.None?
    && out == CloseOutcome(old(w.fw).Some?, io)
    && (old(w.fw).None? ==> w.State() == old(w.State()))
  }

  /** One pass of the flush loop: each writer is checked for age, whatever earlier ones report. */
  method RotateAllForAge(ws: seq<SignalWriter?>, host: Host, ios: nat -> Spec.IO)
    requires Ready(ws, host) && null !in ws
    modifies (set w | w in ws && w != null), host
    ensures Ready(ws, host)
    ensures forall i :: 0 <= i < |ws| ==>
      (ws[i].fw.Some? <==>
        old(ws[i].fw).Some? && ios(i).now - old(ws[i].openedAt) < ws[i].cfg.flushInterval)
    ensures (forall i :: 0 <= i < |ws| ==> old(ws[i].fw).None?) ==> host.Machine() == old(host.Machine())
  {
    var i := 0;
    while i < |ws|
      invariant 0 <= i <= |ws| && Ready(ws, host)
      invariant forall j :: 0 <= j < i ==>
        (ws[j].fw.Some? <==>
          old(ws[j].fw).Some? && ios(j).now - old(ws[j].openedAt) < ws[j].cfg.flushInterval)
      invariant forall j :: i <= j < |ws| ==> unchanged(ws[j])
      invariant (forall j :: 0 <= j < |ws| ==> old(ws[j].fw).None?) ==> host.Machine() == old(host.Machine())
    {
      assert ws[i] != null;
      CheckOne(ws[i], ios(i));
      i := i + 1;
    }
  }

  method NewIdle(dir: string, cfg: Spec.Config, host: Host) returns (w: SignalWriter)
    ensures fresh(w) && Idle(w, host, cfg) && w.dir == dir
  {
    w := new SignalWriter(dir, cfg, host);
  }

  /** One writer per metric kind, the kinds taken in any order; stops at the first failure. */
  method NewMetricWriters(dir: string, cfg: Spec.Config, host: Host, faults: set<Kind>)
    returns (ok: bool, ms: map<Kind, SignalWriter>, ghost repr: set<SignalWriter>)
    ensures ok <==> faults == {}
    ensures ok ==> ms.Keys == ALL_KINDS
    ensures fresh(repr) && Pool(ms, repr, host, cfg)
    ensures forall k :: k in ms ==> ms[k].dir == dir + Subdir(k)
  {
    ms, repr := map[], {};
    var kinds := ALL_KINDS;
    while kinds != {}
      invariant kinds <= ALL_KINDS && ms.Keys == ALL_KINDS - kinds && ms.Keys * faults == {}
      invariant fresh(repr) && Pool(ms, repr, host, cfg)
      invariant forall k :: k in ms ==> ms[k].dir == dir + Subdir(k)
      decreases kinds
    {
      var kind :| kind in kinds;
      if kind in faults {
        return false, ms, repr;
      }
      var w := NewIdle(dir + Subdir(kind), cfg, host);
      AddedValue(ms, kind, w);
      ms := ms[kind := w];
      repr := repr + {w};
      kinds := kinds - {kind};
    }
    ok := true;
    forall k | k in faults ensures k in ALL_KINDS {
      KindsAreAll(k);
    }
    assert faults <= ms.Keys;
  }

  lemma AddedValue(ms: map<Kind, SignalWriter>, kind: Kind, w: SignalWriter)
    requires kind !in ms
    ensures ms[kind := w].Values == ms.Values + {w}
  {
    forall x | x in ms.Values ensures x in ms[kind := w].Values {
      var k :| k in ms && ms[k] == x;
      assert ms[kind := w][k] == x;
    }
    assert ms[kind := w][kind] == w;
  }

  ghost predicate NoneOpen(ws: set<SignalWriter>)
    reads ws
  {
    forall w :: w in ws ==> w.fw.None?
  }

  /** A writer just created. */
  ghost predicate Idle(w: SignalWriter, host: Host, cfg: Spec.Config)
    reads w
  {
    w.Valid() && w.host == host && w.cfg == cfg && w.fw.None?
  }

  /** Metric writers just created, no two the same. */
  ghost predicate Pool(ms: map<Kind, SignalWriter>, repr: set<SignalWriter>, host: Host, cfg: Spec.Config)
    reads repr
  {
    && (forall w :: w in repr ==> Idle(w, host, cfg))
    && repr == ms.Values
    && (forall k, l :: k in ms && l in ms && k != l ==> ms[k] != ms[l])
  }

  /** These writers and no others, as far as there are any. */
  ghost function Held(t: SignalWriter?, l: SignalWriter?, ms: map<Kind, SignalWriter>): set<SignalWriter> {
    (if t != null then {t} else {}) + (if l != null then {l} else {}) + ms.Values
  }

  /** All writers of an exporter just created, no two the same. */
  ghost predicate Parts(
    t: SignalWriter?, l: SignalWriter?, ms: map<Kind, SignalWriter>, repr: set<SignalWriter>, host: Host,
    cfg: Spec.Config)
    reads repr
  {
    && (forall w :: w in repr ==> Idle(w, host, cfg))
    && repr == Held(t, l, ms)
    && Distinct(t, l, ms)
  }

  ghost predicate Distinct(t: SignalWriter?, l: SignalWriter?, ms: map<Kind, SignalWriter>) {
    && (l != null ==> l != t)
    && (forall k :: k in ms ==> ms[k] != t && ms[k] != l)
    && (forall k, j :: k in ms && j in ms && k != j ==> ms[k] != ms[j])
  }

  const ALL_KINDS: set<Kind> := {Gauge, Sum, Histogram, ExpHistogram, Summary}

  lemma KindsAreAll(k: Kind)
    ensures k in ALL_KINDS
  {
  }

  /** Each writer is in its own subdirectory. */
  ghost predicate Placed(dir: string, t: SignalWriter?, l: SignalWriter?, ms: map<Kind, SignalWriter>) {
    && (t != null ==> t.dir == dir + "/traces/")
    && (l != null ==> l.dir == dir + "/logs/")
    && (forall k :: k in ms ==> ms[k].dir == dir + Subdir(k))
  }

  /** The subdirectories differ, as even their lengths do. */
  lemma PlacedApart(dir: string, t: SignalWriter?, l: SignalWriter?, ms: map<Kind, SignalWriter>)
    requires Placed(dir, t, l, ms)
    ensures forall v, w :: v in Held(t, l, ms) && w in Held(t, l, ms) && v.dir == w.dir ==> v == w
  {
    forall j: Kind, k: Kind | j != k ensures |Subdir(j)| != |Subdir(k)| {
      SubdirLengths();
    }
    forall k: Kind ensures |Subdir(k)| > 8 {
      SubdirLengths();
    }
  }

  lemma SubdirLengths()
    ensures |Subdir(Gauge)| == 15 && |Subdir(Sum)| == 13 && |Subdir(Histogram)| == 19
    ensures |Subdir(ExpHistogram)| == 31 && |Subdir(Summary)| == 17
  {
  }

  /** The writers of a start, one after the other until one fails. */
  method NewWriters(dir: string, cfg: Spec.Config, host: Host, faults: StartFaults)
    returns (
      ok: bool, t: SignalWriter?, l: SignalWriter?, ms: map<Kind, SignalWriter>, ghost repr: set<SignalWriter>)
    ensures fresh(repr) && Parts(t, l, ms, repr, host, cfg) && Placed(dir, t, l, ms)
    ensures ok <==> !faults.traces && !faults.logs && faults.metrics == {}
    ensures ok ==> t != null && l != null && ms.Keys == ALL_KINDS
    ensures faults.traces ==> repr == {}
  {
    if faults.traces {
      return false, null, null, map[], {};
    }
    t := NewIdle(dir + "/traces/", cfg, host);
    if faults.logs {
      return false, t, null, map[], {t};
    }
    l := NewIdle(dir + "/logs/", cfg, host);
    ok, ms, repr := NewMetricWriters(dir, cfg, host, faults.metrics);
    repr := repr + {t, l};
  }

  /** The goroutine of the flush loop: not started, in its select, in `rotateAllForAge`, returned. */
  datatype FlushLoop = NotStarted | Selecting | Rotating | Returned

  class ParquetExporter {
    const cfg: Spec.Config
    const host: Host
    var traces: SignalWriter?
    var logs: SignalWriter?
    var metrics: map<Kind, SignalWriter>
    /** A ticker was made; it was stopped; a tick waits in its channel. */
    var ticker: bool
    var tickerStopped: bool
    var tick: bool
    /** The channel `done` is closed. */
    var done: bool
    var wg: nat
    var loop: FlushLoop
    var onceDone: bool

    /** The writers there are. */
    ghost var Repr: set<SignalWriter>

    /** The writers are distinct objects on one host; the wait group counts the loop, which exists only
        after a complete start and is gone once shutdown's once is over; a stopped ticker leaves no
        tick behind. */
    ghost predicate Valid()
      reads this, Repr
    {
      Sound() && Layout() && LoopState()
    }

    ghost predicate Sound()
      reads this`Repr, Repr
    {
      forall w :: w in Repr ==> w.Valid() && w.host == host
    }

    /** `Repr` is the writers in the fields, no two the same. */
    ghost predicate Layout()
      reads this`Repr, this`traces, this`logs, this`metrics
    {
      Repr == Held(traces, logs, metrics) && Distinct(traces, logs, metrics)
    }

    ghost predicate LoopState()
      reads this`wg, this`loop, this`ticker, this`tickerStopped, this`tick
      reads this`done, this`onceDone, this`traces, this`logs
    {
      && wg == (if loop.Selecting? || loop.Rotating? then 1 else 0)
      && (ticker <==> !loop.NotStarted?)
      && (onceDone ==> wg == 0)
      && (ticker ==> traces != null && logs != null)
      && (tickerStopped ==> ticker && !tick)
      && (loop.Returned? ==> done)
    }

    ghost predicate AllClosed()
      reads this`Repr, Repr
    {
      NoneOpen(Repr)
    }

    constructor (cfg: Spec.Config, host: Host)
      ensures Valid() && traces == null && logs == null && metrics == map[] && Repr == {} && !ticker && !onceDone
      ensures this.host == host && this.cfg == cfg
    {
      this.cfg, this.host := cfg, host;
      traces, logs, metrics, Repr := null, null, map[], {};
      ticker, tickerStopped, tick, done, onceDone := false, false, false, false, false;
      wg, loop := 0, NotStarted;
    }

    /** Creates the writers one after the other and starts the flush loop only if all succeed. */
    method Start(dir: string, faults: StartFaults) returns (ok: bool)
      requires Valid() && traces == null && logs == null && metrics == map[] && Repr == {} && !ticker && !onceDone
      modifies this
      ensures Valid() && !onceDone && fresh(Repr) && forall w :: w in Repr ==> Idle(w, host, cfg)
      ensures ok <==> !faults.traces && !faults.logs && faults.metrics == {}
      ensures loop == (if ok then Selecting else NotStarted)
      ensures ok ==> metrics.Keys == ALL_KINDS && traces != null && logs != null
      ensures faults.traces ==> Repr == {}
      ensures forall w :: w in Repr ==> w.cfg == cfg
      ensures traces != null ==> traces.dir == dir + "/traces/"
      ensures logs != null ==> logs.dir == dir + "/logs/"
      ensures Gauge in metrics ==> metrics[Gauge].dir == dir + "/metrics_gauge/"
      ensures Sum in metrics ==> metrics[Sum].dir == dir + "/metrics_sum/"
      ensures Histogram in metrics ==> metrics[Histogram].dir == dir + "/metrics_histogram/"
      ensures ExpHistogram in metrics ==> metrics[ExpHistogram].dir == dir + "/metrics_exponential_histogram/"
      ensures Summary in metrics ==> metrics[Summary].dir == dir + "/metrics_summary/"
      ensures forall v, w :: v in Repr && w in Repr && v != w ==> v.dir != w.dir
    {
      var t: SignalWriter?, l: SignalWriter?, ms;
      ghost var repr;
      ok, t, l, ms, repr := NewWriters(dir, cfg, host, faults);
      PlacedApart(dir, t, l, ms);
      Adopt(ok, t, l, ms, repr);
    }

    /** Fills the fields with the writers just created. */
    method Adopt(
      ok: bool, t: SignalWriter?, l: SignalWriter?, ms: map<Kind, SignalWriter>, ghost repr: set<SignalWriter>)
      requires Valid() && !onceDone && !ticker && (ok ==> t != null && l != null)
      requires Parts(t, l, ms, repr, host, cfg)
      modifies this
      ensures Valid() && Repr == repr && traces == t && logs == l && metrics == ms
      ensures loop == (if ok then Selecting else NotStarted) && !onceDone
      ensures forall w :: w in repr ==> Idle(w, host, cfg)
    {
      SetWriters(t, l, ms, repr);
      if ok {
        Launch();
      }
    }

    method SetWriters(t: SignalWriter?, l: SignalWriter?, ms: map<Kind, SignalWriter>, ghost repr: set<SignalWriter>)
      requires LoopState() && !ticker && Parts(t, l, ms, repr, host, cfg)
      modifies this`traces, this`logs, this`metrics, this`Repr
      ensures Valid() && Parts(t, l, ms, repr, host, cfg)
      ensures Repr == repr && traces == t && logs == l && metrics == ms
    {
      traces, logs, metrics, Repr := t, l, ms, repr;
      assert Parts(t, l, ms, repr, host, cfg);
    }

    /** Makes the ticker and starts the goroutine. */
    method Launch()
      requires Valid() && loop.NotStarted? && !onceDone && !tickerStopped && traces != null && logs != null
      modifies this`ticker, this`wg, this`loop
      ensures Valid() && ticker && loop.Selecting?
    {
      ticker := true;
      wg := wg + 1;
      loop := Selecting;
    }

    /** The traces and logs writers, then the metric writers in whatever order the map gives. */
    method AllWriters() returns (ws: seq<SignalWriter?>)
      requires Valid()
      ensures Ready(ws, host)
      ensures traces in ws && logs in ws && forall k :: k in metrics ==> metrics[k] in ws
      ensures forall w :: w in ws && w != null ==> w in Repr
      ensures forall w :: w in Repr ==> w in ws
      ensures ticker ==> null !in ws
    {
      ws := [traces, logs];
      var kinds := metrics.Keys;
      ghost var seen: set<Kind> := {};
      while kinds != {}
        invariant kinds + seen == metrics.Keys && kinds !! seen
        invariant |ws| >= 2 && ws[0] == traces && ws[1] == logs
        invariant forall i :: 2 <= i < |ws| ==> exists k :: k in seen && ws[i] == metrics[k]
        invariant forall k :: k in seen ==> metrics[k] in ws
        invariant forall i, j :: 0 <= i < j < |ws| && ws[i] != null ==> ws[i] != ws[j]
        decreases kinds
      {
        var kind :| kind in kinds;
        ghost var before := ws;
        ws := ws + [metrics[kind]];
        assert ws[|before|] == metrics[kind] && forall i :: 0 <= i < |before| ==> ws[i] == before[i];
        kinds := kinds - {kind};
        seen := seen + {kind};
      }
      assert traces == ws[0] && logs == ws[1];
    }

    /** The ticker's goroutine: a tick goes into the channel unless one is there already. */
    method TickerFires()
      requires Valid()
      modifies this`tick
      ensures Valid() && tick == (old(tick) || (ticker && !tickerStopped))
    {
      if ticker && !tickerStopped {
        tick := true;
      }
    }

    /** How many steps the loop can still take once `done` is closed and the ticker stopped. */
    ghost function StepsLeft(): nat
      reads this
    {
      (if loop.Selecting? then 1 else if loop.Rotating? then 2 else 0) + if tick then 2 else 0
    }

    /** `rotateAllForAge`: each writer keeps its file exactly if it was open and young enough. */
    method RotateAll(ios: nat -> Spec.IO, ghost idle: set<SignalWriter>) returns (ghost ws: seq<SignalWriter?>)
      requires Valid() && ticker && idle <= Repr && NoneOpen(idle)
      modifies Repr, host
      ensures Valid() && Ready(ws, host) && null !in ws
      ensures NoneOpen(idle) && (idle == Repr ==> host.Machine() == old(host.Machine()))
      ensures traces in ws && logs in ws && forall k :: k in metrics ==> metrics[k] in ws
      ensures forall i :: 0 <= i < |ws| ==>
        && ws[i] in Repr
        && (ws[i].fw.Some? <==> old(ws[i].fw).Some? && ios(i).now - old(ws[i].openedAt) < ws[i].cfg.flushInterval)
    {
      var all := AllWriters();
      RotateAllForAge(all, host, ios);
      ws := all;
    }

    /** One step of the flush loop: the select takes a waiting tick or, once `done` is closed, may
        return instead - if both are ready, either; or it goes through the writers. With neither
        ready it stays in the select. Only going through the writers touches them. */
    method LoopStep(preferTick: bool, ios: nat -> Spec.IO, ghost idle: set<SignalWriter>)
      returns (ghost ws: seq<SignalWriter?>)
      requires Valid() && wg > 0 && idle <= Repr && NoneOpen(idle)
      modifies this`tick, this`wg, this`loop, Repr, host
      ensures Valid() && (done ==> StepsLeft() < old(StepsLeft()))
      ensures old(loop).Selecting? && loop.Returned? <==> old(loop).Selecting? && done && (!old(tick) || !preferTick)
      ensures old(loop).Selecting? ==> ws == [] && host.Machine() == old(host.Machine())
      ensures old(loop).Selecting? ==> forall w :: w in Repr ==> unchanged(w)
      ensures old(loop).Rotating? ==> tick == old(tick) && loop.Selecting? && Ready(ws, host) && null !in ws
      ensures old(loop).Rotating? ==> traces in ws && logs in ws && forall k :: k in metrics ==> metrics[k] in ws
      ensures forall i :: 0 <= i < |ws| ==>
        && ws[i] != null && ws[i] in Repr
        && (ws[i].fw.Some? <==> old(ws[i].fw).Some? && ios(i).now - old(ws[i].openedAt) < ws[i].cfg.flushInterval)
      ensures NoneOpen(idle) && (idle == Repr ==> host.Machine() == old(host.Machine()))
    {
      ws := [];
      if loop.Rotating? {
        ws := Rotate(ios, idle);
      } else {
        Select(preferTick);
      }
    }

    /** The case of a tick, once it was taken. */
    method Rotate(ios: nat -> Spec.IO, ghost idle: set<SignalWriter>) returns (ghost ws: seq<SignalWriter?>)
      requires Valid() && loop.Rotating? && idle <= Repr && NoneOpen(idle)
      modifies this`loop, Repr, host
      ensures Valid() && loop.Selecting? && Ready(ws, host) && null !in ws
      ensures NoneOpen(idle) && (idle == Repr ==> host.Machine() == old(host.Machine()))
      ensures traces in ws && logs in ws && forall k :: k in metrics ==> metrics[k] in ws
      ensures forall i :: 0 <= i < |ws| ==>
        && ws[i] in Repr
        && (ws[i].fw.Some? <==> old(ws[i].fw).Some? && ios(i).now - old(ws[i].openedAt) < ws[i].cfg.flushInterval)
    {
      EndRotation();
      ws := RotateAll(ios, idle);
    }

    /** Where the loop will be when the writers are through; nothing in between looks at it. */
    method EndRotation()
      requires Valid() && loop.Rotating?
      modifies this`loop
      ensures Valid() && loop.Selecting?
    {
      loop := Selecting;
    }

    /** The select. */
    method Select(preferTick: bool)
      requires Valid() && loop.Selecting?
      modifies this`tick, this`wg, this`loop
      ensures Valid() && (done ==> StepsLeft() < old(StepsLeft()))
      ensures loop ==
        if done && (!old(tick) || !preferTick) then Returned else if old(tick) then Rotating else Selecting
      ensures tick == (old(tick) && loop.Returned?)
    {
      if done && (!tick || !preferTick) {
        loop := Returned;
        wg := wg - 1;
      } else if tick {
        tick := false;
        loop := Rotating;
      }
    }

    /** Shutdown's once: closes `done`, stops the ticker and waits, that is, lets the goroutine run
        until the wait group is zero. Before the ticker is stopped the goroutine may take any number of
        steps, handling ticks that wait or still come; a tick that waits when it stops is discarded.
        Afterwards the goroutine is gone. */
    method StopLoop(
      early: nat, fires: nat -> bool, prefer: nat -> bool, ios: nat -> nat -> Spec.IO, ghost idle: set<SignalWriter>)
      requires Valid() && idle <= Repr && NoneOpen(idle)
      modifies this`tick, this`wg, this`loop, this`done, this`tickerStopped, this`onceDone, Repr, host
      ensures Valid() && onceDone && wg == 0 && !loop.Selecting? && !loop.Rotating?
      ensures ticker && !old(onceDone) ==> tickerStopped && !tick
      ensures NoneOpen(idle) && (idle == Repr ==> host.Machine() == old(host.Machine()))
      ensures old(onceDone) || !ticker ==> forall w :: w in Repr ==> unchanged(w)
    {
      if !onceDone {
        if ticker {
          SignalDone();
          EndLoop(early, fires, prefer, ios, idle);
        }
        Once();
      }
    }

    method EndLoop(
      early: nat, fires: nat -> bool, prefer: nat -> bool, ios: nat -> nat -> Spec.IO, ghost idle: set<SignalWriter>)
      requires Valid() && ticker && done && idle <= Repr && NoneOpen(idle)
      modifies this`tick, this`wg, this`loop, this`tickerStopped, Repr, host
      ensures Valid() && wg == 0 && tickerStopped && !tick
      ensures NoneOpen(idle) && (idle == Repr ==> host.Machine() == old(host.Machine()))
    {
      RunEarly(early, fires, prefer, ios, idle);
      var _ := StopAndWait(ios(early), idle);
    }

    /** The once is over. */
    method Once()
      requires Valid() && wg == 0
      modifies this`onceDone
      ensures Valid() && onceDone
    {
      onceDone := true;
    }

    /** `close(e.done)`. */
    method SignalDone()
      requires Valid()
      modifies this`done
      ensures Valid() && done
    {
      done := true;
    }

    /** `e.ticker.Stop()`: no tick is received after it. */
    method StopTicker()
      requires Valid() && ticker
      modifies this`tickerStopped, this`tick
      ensures Valid() && tickerStopped && !tick
    {
      tickerStopped, tick := true, false;
    }

    /** What the loop and the ticker do after `done` is closed and before the ticker is stopped. */
    method RunEarly(
      early: nat, fires: nat -> bool, prefer: nat -> bool, ios: nat -> nat -> Spec.IO, ghost idle: set<SignalWriter>)
      requires Valid() && done && idle <= Repr && NoneOpen(idle)
      modifies this`tick, this`wg, this`loop, Repr, host
      ensures Valid() && NoneOpen(idle) && (idle == Repr ==> host.Machine() == old(host.Machine()))
    {
      for k := 0 to early
        invariant Valid() && NoneOpen(idle) && (idle == Repr ==> host.Machine() == old(host.Machine()))
      {
        EarlyStep(fires(k), prefer(k), ios(k), idle);
      }
    }

    method EarlyStep(fires: bool, preferTick: bool, ios: nat -> Spec.IO, ghost idle: set<SignalWriter>)
      requires Valid() && done && idle <= Repr && NoneOpen(idle)
      modifies this`tick, this`wg, this`loop, Repr, host
      ensures Valid() && NoneOpen(idle) && (idle == Repr ==> host.Machine() == old(host.Machine()))
    {
      if fires {
        TickerFires();
      }
      if wg > 0 {
        var _ := LoopStep(preferTick, ios, idle);
      }
    }

    /** Stops the ticker and waits: the loop finishes the rotation it is in, if any, and returns. No
        other begins. */
    method StopAndWait(ios: nat -> Spec.IO, ghost idle: set<SignalWriter>) returns (ghost rotations: nat)
      requires Valid() && done && ticker && idle <= Repr && NoneOpen(idle)
      modifies this`tick, this`wg, this`loop, this`tickerStopped, Repr, host
      ensures Valid() && wg == 0 && tickerStopped && !tick
      ensures rotations == if old(loop).Rotating? then 1 else 0
      ensures NoneOpen(idle) && (idle == Repr ==> host.Machine() == old(host.Machine()))
    {
      StopTicker();
      rotations := WaitForLoop(ios, idle);
    }

    method WaitForLoop(ios: nat -> Spec.IO, ghost idle: set<SignalWriter>) returns (ghost rotations: nat)
      requires Valid() && done && tickerStopped && idle <= Repr && NoneOpen(idle)
      modifies this`tick, this`wg, this`loop, Repr, host
      ensures Valid() && wg == 0 && !tick
      ensures rotations == if old(loop).Rotating? then 1 else 0
      ensures NoneOpen(idle) && (idle == Repr ==> host.Machine() == old(host.Machine()))
    {
      rotations := 0;
      while wg > 0
        invariant Valid()
        invariant rotations + (if loop.Rotating? then 1 else 0) == if old(loop).Rotating? then 1 else 0
        invariant NoneOpen(idle) && (idle == Repr ==> host.Machine() == old(host.Machine()))
        decreases StepsLeft()
      {
        if loop.Rotating? {
          rotations := rotations + 1;
        }
        var _ := LoopStep(false, ios, idle);
      }
    }

    /** Ends the flush loop and then closes every writer there is, whatever earlier ones report.
        No writer of the exporter is open afterwards, and the loop is gone; `open` says which writers were open when
        their turn came - the last tick may have closed some - and the error of the first of them that
        fails is returned. With nothing open before - such as after a first shutdown - it succeeds and
        nothing changes. */
    method Shutdown(
      early: nat, fires: nat -> bool, prefer: nat -> bool, ticks: nat -> nat -> Spec.IO, ios: nat -> Spec.IO)
      returns (r: Spec.Outcome, ghost ws: seq<SignalWriter?>, ghost open: seq<bool>, ghost outs: seq<Spec.Outcome>)
      requires Valid()
      modifies this`tick, this`wg, this`loop, this`done, this`tickerStopped, this`onceDone, Repr, host
      ensures Valid() && onceDone && wg == 0 && !loop.Selecting? && !loop.Rotating?
      ensures AllClosed()
      ensures traces in ws && logs in ws && forall k :: k in metrics ==> metrics[k] in ws
      ensures |outs| == |ws| == |open| && r == FirstError(outs)
      ensures forall i :: 0 <= i < |ws| && ws[i] != null ==>
        ws[i] in Repr && ws[i].fw.None? && outs[i] == CloseOutcome(open[i], ios(i))
      ensures forall i :: 0 <= i < |ws| && ws[i] != null ==> (open[i] ==> old(ws[i].fw).Some?)
      ensures old(onceDone) || !ticker ==>
        forall i :: 0 <= i < |ws| && ws[i] != null ==> (old(ws[i].fw).Some? ==> open[i])
      ensures old(AllClosed()) ==> r.Done? && host.Machine() == old(host.Machine())
    {
      ghost var idle := set w | w in Repr && w.fw.None?;
      assert AllClosed() ==> idle == Repr;
      StopLoop(early, fires, prefer, ticks, idle);
      r, ws, open, outs := CloseRest(ios, idle);
    }

    /** Closes every writer when those in `idle` are closed already. */
    method CloseRest(ios: nat -> Spec.IO, ghost idle: set<SignalWriter>)
      returns (r: Spec.Outcome, ghost ws: seq<SignalWriter?>, ghost open: seq<bool>, ghost outs: seq<Spec.Outcome>)
      requires Valid() && idle <= Repr && NoneOpen(idle)
      modifies Repr, host
      ensures Valid() && AllClosed()
      ensures traces in ws && logs in ws && forall k :: k in metrics ==> metrics[k] in ws
      ensures |outs| == |ws| == |open| && r == FirstError(outs)
      ensures forall i :: 0 <= i < |ws| && ws[i] != null ==>
        ws[i] in Repr && ws[i].fw.None? && outs[i] == CloseOutcome(open[i], ios(i))
      ensures forall i :: 0 <= i < |ws| && ws[i] != null ==> (open[i] <==> old(ws[i].fw).Some?)
      ensures forall i :: 0 <= i < |ws| && ws[i] != null ==> (open[i] ==> ws[i] !in idle)
      ensures idle == Repr ==> r.Done? && host.Machine() == old(host.Machine())
    {
      assert idle == Repr ==> AllClosed();
      r, ws, open, outs := CloseWriters(ios);
    }

    /** Two calls in a row: the second succeeds and leaves disk, counters and calls as the first did. */
    method ShutdownTwice(
      early: nat, fires: nat -> bool, prefer: nat -> bool, ticks: nat -> nat -> Spec.IO, ios: nat -> Spec.IO)
      returns (first: Spec.Outcome, second: Spec.Outcome, ghost between: Spec.Machine)
      requires Valid()
      modifies this`tick, this`wg, this`loop, this`done, this`tickerStopped, this`onceDone, Repr, host
      ensures Valid() && AllClosed() && second.Done? && host.Machine() == between
    {
      ghost var ws, open, outs;
      first, ws, open, outs := Shutdown(early, fires, prefer, ticks, ios);
      between := host.Machine();
      second, ws, open, outs := Shutdown(early, fires, prefer, ticks, ios);
    }

    method CloseWriters(ios: nat -> Spec.IO)
      returns (r: Spec.Outcome, ghost ws: seq<SignalWriter?>, ghost open: seq<bool>, ghost outs: seq<Spec.Outcome>)
      requires Valid()
      modifies Repr, host
      ensures Valid() && AllClosed()
      ensures traces in ws && logs in ws && forall k :: k in metrics ==> metrics[k] in ws
      ensures |outs| == |ws| == |open| && r == FirstError(outs)
      ensures forall i :: 0 <= i < |ws| && ws[i] != null ==>
        ws[i] in Repr && ws[i].fw.None? && open[i] == old(ws[i].fw).Some? && outs[i] == CloseOutcome(open[i], ios(i))
      ensures old(AllClosed()) ==> r.Done? && host.Machine() == old(host.Machine())
    {
      var all := AllWriters();
      ws := all;
      open := Open(all);
      r, outs := CloseAll(all, host, ios);
    }
  }

  function Subdir(kind: Kind): string {
    match kind
    case Gauge => "/metrics_gauge/"
    case Sum => "/metrics_sum/"
    case Histogram => "/metrics_histogram/"
    case ExpHistogram => "/metrics_exponential_histogram/"
    case Summary => "/metrics_summary/"
  }
}
