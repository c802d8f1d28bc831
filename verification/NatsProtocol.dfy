/** The NATS JetStream receiver as a step relation: two-phase start, one loop per signal, the
    disposition of every delivery, and shutdown. JetStream is the environment: it may deliver any
    message at any time, again and again, and may fail any acknowledgement. */
module NatsProtocol {
  import opened Options

  datatype Signal = Traces | Metrics | Logs

  /** The order in which `Start` creates the consumers. */
  const ORDER: seq<Signal> := [Traces, Metrics, Logs]

  /** What the next consumer returns. */
  datatype Consume = NoError | PermanentError | RetryableError

  datatype Kind = Ack | Term | Nak

  /** One attempt to answer a delivery; it may not reach the server. */
  datatype Attempt = Attempt(kind: Kind, arrived: bool)

  /** A message handed to a loop: which message, whether its data parsed, what the next consumer
      returned for it, and what was attempted. */
  datatype Delivery = Delivery(
    signal: Signal, msg: nat, parsed: Option<bool>, result: Option<Consume>, attempts: seq<Attempt>)

  /** A loop: not started, at the top, waiting in `Next`, backing off after an error, gone, or in
      `handleMessage` with delivery `d`: about to parse it, about to terminate it, in the consumer, or in
      `ackOrNak` with what the consumer returned. */
  datatype Loop =
    | Idle | Top | Fetching | BackingOff | Gone
    | Parsing(d: nat) | Terminating(d: nat) | Consuming(d: nat) | Acking(d: nat, err: Consume)

  /** Start: the next consumer to create, or the next loop to launch. */
  datatype StartPhase = NotStarted | Creating(next: nat) | Launching(next: nat) | StartFailed | Started

  datatype ShutdownPhase = NotCalled | Waiting | Complete

  /** `wg` is the wait group of the loops. */
  datatype State = State(
    start: StartPhase, conn: bool, iters: set<Signal>, hasCancel: bool, cancelled: bool,
    loops: map<Signal, Loop>, wg: int, deliveries: seq<Delivery>, closesWhileLive: nat,
    shutdown: ShutdownPhase)

  datatype Action =
    | ConnectFails | Connect | SetupFails | CreateConsumer | CreateFails | SkipSignal | AllCreated
    | LaunchLoop | AllLaunched
    | CheckTop(s: Signal) | Fetch(s: Signal, msg: nat) | FetchFails(s: Signal) | IteratorClosed(s: Signal)
    | BackOffOver(s: Signal) | BackOffCancelled(s: Signal)
    | Parse(s: Signal, ok: bool) | Return(s: Signal, err: Consume) | Answer(s: Signal, arrived: bool)
    | CallShutdown | WaitOver

  const INIT := State(
    NotStarted, false, {}, false, false, map[Traces := Idle, Metrics := Idle, Logs := Idle], 0, [], 0, NotCalled)

  predicate Live(l: Loop) {
    !l.Idle? && !l.Gone?
  }

  function LiveLoops(s: State): set<Signal> {
    set x | x in s.loops && Live(s.loops[x])
  }

  predicate Handling(l: Loop) {
    l.Parsing? || l.Terminating? || l.Consuming? || l.Acking?
  }

  /** `ackOrNak`. */
  method AckOrNak(err: Consume) returns (k: Kind)
    ensures k == AnswerTo(err)
    ensures k != Ack ==> err != NoError
  {
    if err == NoError {
      return Ack;
    }
    if err == PermanentError {
      return Term;
    }
    return Nak;
  }

  function AnswerTo(err: Consume): Kind {
    match err case NoError => Ack case PermanentError => Term case RetryableError => Nak
  }

  /** `handleMessage`, by the answers it sends: always exactly one; the consumer is asked only if the
      data parses. */
  method HandleMessage(parses: bool, c: Consume) returns (sent: seq<Kind>, asked: bool)
    ensures |sent| == 1 && asked == parses
    ensures sent[0] == Ack <==> parses && c == NoError
    ensures sent[0] == Term <==> !parses || c == PermanentError
    ensures sent[0] == Nak <==> parses && c == RetryableError
  {
    asked := false;
    if !parses {
      return [Term], asked;
    }
    asked := true;
    var k := AckOrNak(c);
    sent := [k];
  }

  /** `wanted`: the signals with a registered consumer. */
  predicate Enabled(wanted: set<Signal>, s: State, a: Action) {
    match a
    case ConnectFails => s.start.NotStarted? && s.shutdown.NotCalled?
    case Connect => s.start.NotStarted? && s.shutdown.NotCalled?
    case SetupFails => s.start == Creating(0)
    case CreateConsumer => s.start.Creating? && s.start.next < 3 && ORDER[s.start.next] in wanted
    case CreateFails => s.start.Creating? && s.start.next < 3 && ORDER[s.start.next] in wanted
    case SkipSignal => s.start.Creating? && s.start.next < 3 && ORDER[s.start.next] !in wanted
    case AllCreated => s.start == Creating(3)
    case LaunchLoop => s.start.Launching? && s.start.next < 3
    case AllLaunched => s.start == Launching(3)
    case CheckTop(x) => x in s.loops && s.loops[x].Top?
    case Fetch(x, _) => x in s.loops && s.loops[x].Fetching?
    case FetchFails(x) => x in s.loops && s.loops[x].Fetching?
    case IteratorClosed(x) => x in s.loops && s.loops[x].Fetching?
    case BackOffOver(x) => x in s.loops && s.loops[x].BackingOff?
    case BackOffCancelled(x) => x in s.loops && s.loops[x].BackingOff? && s.cancelled
    case Parse(x, _) => x in s.loops && s.loops[x].Parsing? && s.loops[x].d < |s.deliveries|
    case Return(x, _) => x in s.loops && s.loops[x].Consuming? && s.loops[x].d < |s.deliveries|
    case Answer(x, _) =>
      x in s.loops && (s.loops[x].Terminating? || s.loops[x].Acking?) && s.loops[x].d < |s.deliveries|
    case CallShutdown => s.shutdown.NotCalled? && (s.start.NotStarted? || s.start.StartFailed? || s.start.Started?)
    case WaitOver => s.shutdown.Waiting? && s.wg == 0
  }

  function Move(s: State, x: Signal, l: Loop): State {
    s.(loops := s.loops[x := l])
  }

  /** The loop returns: `defer shutdownWG.Done()`. */
  function Leave(s: State, x: Signal): State {
    Move(s, x, Gone).(wg := s.wg - 1)
  }

  /** Closing the connection, noting whether a loop was live. */
  function CloseConn(s: State): State {
    s.(conn := false, closesWhileLive := s.closesWhileLive + if LiveLoops(s) == {} then 0 else 1)
  }

  function Next(wanted: set<Signal>, s: State, a: Action): State
    requires Enabled(wanted, s, a)
  {
    match a
    case ConnectFails => s.(start := StartFailed)
    case Connect => s.(start := Creating(0), conn := true)
    case SetupFails => CloseConn(s).(start := StartFailed)
    case CreateConsumer => s.(start := Creating(s.start.next + 1), iters := s.iters + {ORDER[s.start.next]})
    case CreateFails => CloseConn(s).(start := StartFailed)
    case SkipSignal => s.(start := Creating(s.start.next + 1))
    case AllCreated => s.(start := Launching(0), hasCancel := true)
    case LaunchLoop =>
      var x := ORDER[s.start.next];
      (if x in s.iters then Move(s, x, Top).(wg := s.wg + 1) else s).(start := Launching(s.start.next + 1))
    case AllLaunched => s.(start := Started)
    case CheckTop(x) => if s.cancelled then Leave(s, x) else Move(s, x, Fetching)
    case Fetch(x, m) =>
      Move(s, x, Parsing(|s.deliveries|)).(deliveries := s.deliveries + [Delivery(x, m, None, None, [])])
    case FetchFails(x) => Move(s, x, BackingOff)
    case IteratorClosed(x) => Leave(s, x)
    case BackOffOver(x) => Move(s, x, Top)
    case BackOffCancelled(x) => Leave(s, x)
    case Parse(x, ok) =>
      var d := s.loops[x].d;
      Move(s, x, if ok then Consuming(d) else Terminating(d))
      .(deliveries := s.deliveries[d := s.deliveries[d].(parsed := Some(ok))])
    case Return(x, err) =>
      var d := s.loops[x].d;
      Move(s, x, Acking(d, err)).(deliveries := s.deliveries[d := s.deliveries[d].(result := Some(err))])
    case Answer(x, arrived) =>
      var d, kind := s.loops[x].d, if s.loops[x].Terminating? then Term else AnswerTo(s.loops[x].err);
      var was := s.deliveries[d];
      Move(s, x, Top).(deliveries := s.deliveries[d := was.(attempts := was.attempts + [Attempt(kind, arrived)])])
    case CallShutdown => s.(shutdown := Waiting, cancelled := s.cancelled || s.hasCancel)
    case WaitOver => CloseConn(s).(shutdown := Complete)
  }

  predicate ValidRun(wanted: set<Signal>, run: seq<Action>)
    decreases |run|, 0
  {
    run == [] || (
      var before := run[..|run| - 1];
      ValidRun(wanted, before) && Enabled(wanted, Run(wanted, before), run[|run| - 1]))
  }

  function Run(wanted: set<Signal>, run: seq<Action>): State
    requires ValidRun(wanted, run)
    decreases |run|, 1
  {
    if run == [] then INIT else Next(wanted, Run(wanted, run[..|run| - 1]), run[|run| - 1])
  }

  function CreatedBy(wanted: set<Signal>, n: nat): set<Signal>
    requires n <= 3
  {
    if n == 0 then {} else CreatedBy(wanted, n - 1) + if ORDER[n - 1] in wanted then {ORDER[n - 1]} else {}
  }

  lemma OrderIsComplete(wanted: set<Signal>)
    ensures CreatedBy(wanted, 3) == wanted
  {
    assert ORDER[0] == Traces && ORDER[1] == Metrics && ORDER[2] == Logs;
    assert CreatedBy(wanted, 2) == CreatedBy(wanted, 1) + if Metrics in wanted then {Metrics} else {};
    assert CreatedBy(wanted, 1) == CreatedBy(wanted, 0) + if Traces in wanted then {Traces} else {};
    forall x: Signal | x in wanted ensures x in CreatedBy(wanted, 3) {
      match x case Traces => case Metrics => case Logs =>
    }
  }

  /** Start creates the iterators in order, all of them before anything is launched. */
  predicate IterInv(wanted: set<Signal>, s: State) {
    && (s.start.NotStarted? ==> s.iters == {})
    && (s.start.Creating? ==> s.start.next <= 3 && s.iters == CreatedBy(wanted, s.start.next))
    && (s.start.Launching? || s.start.Started? ==> s.iters == wanted && s.hasCancel)
    && (s.start.NotStarted? || s.start.Creating? ==> !s.hasCancel)
    && (s.start.Creating? || s.start.Launching? ==> s.shutdown.NotCalled? && s.conn)
    && s.iters <= wanted
    && (s.start.NotStarted? || s.start.StartFailed? ==> !s.conn)
  }

  /** Where a signal is in the order of the launches. */
  function Position(x: Signal): nat {
    match x case Traces => 0 case Metrics => 1 case Logs => 2
  }

  /** Loops exist only once launching has begun, and only on iterators; there is one for every iterator
      that launching has come past. */
  ghost predicate LoopInv(s: State) {
    && s.loops.Keys == {Traces, Metrics, Logs}
    && (s.start.Launching? ==>
          && s.start.next <= 3
          && forall x :: x in s.loops && Position(x) >= s.start.next ==> s.loops[x] == Idle)
    && (!s.start.Launching? && !s.start.Started? ==> forall x :: x in s.loops ==> s.loops[x] == Idle)
    && (forall x :: x in s.loops && s.loops[x] != Idle ==> x in s.iters)
    && (s.start.Launching? ==>
          forall x :: x in s.loops && x in s.iters && Position(x) < s.start.next ==> s.loops[x] != Idle)
    && (s.start.Started? ==> forall x :: x in s.loops && x in s.iters ==> s.loops[x] != Idle)
  }

  function One(loops: map<Signal, Loop>, x: Signal): nat {
    if x in loops && Live(loops[x]) then 1 else 0
  }

  function LiveCount(loops: map<Signal, Loop>): nat {
    One(loops, Traces) + One(loops, Metrics) + One(loops, Logs)
  }

  /** The wait group counts the live loops. */
  predicate CountInv(s: State) {
    s.loops.Keys == {Traces, Metrics, Logs} && s.wg == LiveCount(s.loops)
  }

  lemma ZeroIsQuiet(s: State)
    requires CountInv(s)
    ensures s.wg == 0 <==> LiveLoops(s) == {}
  {
    if LiveLoops(s) == {} {
      assert Traces !in LiveLoops(s) && Metrics !in LiveLoops(s) && Logs !in LiveLoops(s);
    } else {
      var x :| x in LiveLoops(s);
      match x case Traces => case Metrics => case Logs =>
    }
  }

  lemma MoveCounts(loops: map<Signal, Loop>, x: Signal, l: Loop)
    requires loops.Keys == {Traces, Metrics, Logs}
    ensures LiveCount(loops[x := l]) + One(loops, x) == LiveCount(loops) + if Live(l) then 1 else 0
  {
    match x case Traces => case Metrics => case Logs =>
  }

  /** Every delivery: what is recorded of it fits where its loop is, and it is answered exactly once
      when the loop is through with it. */
  ghost predicate DeliveryInv(s: State) {
    && (forall x :: x in s.loops && Handling(s.loops[x]) ==>
          s.loops[x].d < |s.deliveries| && s.deliveries[s.loops[x].d].signal == x)
    && (forall i :: 0 <= i < |s.deliveries| ==> Handled(s.loops, s.deliveries[i], i))
  }

  predicate Handled(loops: map<Signal, Loop>, d: Delivery, i: nat) {
    if d.signal in loops && Handling(loops[d.signal]) && loops[d.signal].d == i then InHand(loops[d.signal], d)
    else Done(d)
  }

  predicate InHand(l: Loop, d: Delivery) {
    && d.attempts == []
    && match l
       case Parsing(_) => d.parsed.None? && d.result.None?
       case Terminating(_) => d.parsed == Some(false) && d.result.None?
       case Consuming(_) => d.parsed == Some(true) && d.result.None?
       case Acking(_, err) => d.parsed == Some(true) && d.result == Some(err)
       case _ => false
  }

  /** Answered once: terminated because it did not parse, or as the consumer's result calls for. */
  predicate Done(d: Delivery) {
    && d.parsed.Some? && |d.attempts| == 1
    && if !d.parsed.value then d.result.None? && d.attempts[0].kind == Term
       else d.result.Some? && d.attempts[0].kind == AnswerTo(d.result.value)
  }

  ghost predicate ShutdownInv(s: State) {
    && s.closesWhileLive == 0
    && (!s.shutdown.NotCalled? && s.hasCancel ==> s.cancelled)
    && (!s.shutdown.NotCalled? ==> s.start.NotStarted? || s.start.StartFailed? || s.start.Started?)
    && (s.shutdown.Complete? ==> LiveLoops(s) == {} && !s.conn)
  }

  ghost predicate Inv(wanted: set<Signal>, s: State) {
    IterInv(wanted, s) && LoopInv(s) && CountInv(s) && DeliveryInv(s) && ShutdownInv(s)
  }

  /** The steps of `Start`. */
  predicate OfStart(a: Action) {
    a.ConnectFails? || a.Connect? || a.SetupFails? || a.CreateConsumer? || a.CreateFails? || a.SkipSignal?
    || a.AllCreated? || a.LaunchLoop? || a.AllLaunched?
  }

  lemma StepKeepsIters(wanted: set<Signal>, s: State, a: Action)
    requires IterInv(wanted, s) && Enabled(wanted, s, a)
    requires a.CallShutdown? ==> s.start.NotStarted? || s.start.StartFailed? || s.start.Started?
    requires !s.shutdown.NotCalled? ==> s.start.NotStarted? || s.start.StartFailed? || s.start.Started?
    ensures IterInv(wanted, Next(wanted, s, a))
  {
    if a.AllCreated? { OrderIsComplete(wanted); }
    if a.CreateConsumer? || a.SkipSignal? {
      var n := s.start.next;
      assert CreatedBy(wanted, n + 1) == CreatedBy(wanted, n) + if ORDER[n] in wanted then {ORDER[n]} else {};
    }
  }

  lemma StartKeepsLoops(wanted: set<Signal>, s: State, a: Action)
    requires LoopInv(s) && Enabled(wanted, s, a) && OfStart(a)
    ensures LoopInv(Next(wanted, s, a))
  {
    if a.LaunchLoop? {
      LaunchKeepsLoops(wanted, s);
    }
  }

  lemma LaunchKeepsLoops(wanted: set<Signal>, s: State)
    requires LoopInv(s) && Enabled(wanted, s, LaunchLoop)
    ensures LoopInv(Next(wanted, s, LaunchLoop))
  {
    OrderFacts();
    var x, s' := ORDER[s.start.next], Next(wanted, s, LaunchLoop);
    assert Position(x) == s.start.next;
    assert s'.loops == if x in s.iters then s.loops[x := Top] else s.loops;
  }

  lemma MoveKeepsLoops(s: State, x: Signal, l: Loop)
    requires LoopInv(s) && x in s.loops && s.loops[x] != Idle
    ensures LoopInv(Move(s, x, l)) || l == Idle
  {
    OrderFacts();
  }

  lemma StepKeepsLoops(wanted: set<Signal>, s: State, a: Action)
    requires LoopInv(s) && Enabled(wanted, s, a)
    ensures LoopInv(Next(wanted, s, a))
  {
    if OfStart(a) {
      StartKeepsLoops(wanted, s, a);
    } else if !a.CallShutdown? && !a.WaitOver? {
      MoveKeepsLoops(s, a.s, Next(wanted, s, a).loops[a.s]);
      SameButMoved(wanted, s, a);
    }
  }

  /** A step of a loop moves that loop and leaves start and iterators alone. */
  lemma SameButMoved(wanted: set<Signal>, s: State, a: Action)
    requires Enabled(wanted, s, a) && !OfStart(a) && !a.CallShutdown? && !a.WaitOver?
    ensures var s' := Next(wanted, s, a);
      && a.s in s.loops && s.loops[a.s] != Idle && s'.loops == s.loops[a.s := s'.loops[a.s]] && s'.loops[a.s] != Idle
      && s'.start == s.start && s'.iters == s.iters
  {
  }

  lemma OrderFacts()
    ensures ORDER[0] == Traces && ORDER[1] == Metrics && ORDER[2] == Logs
  {
  }

  lemma StepCounts(wanted: set<Signal>, s: State, a: Action)
    requires CountInv(s) && LoopInv(s) && Enabled(wanted, s, a)
    ensures CountInv(Next(wanted, s, a))
  {
    if OfStart(a) {
      StartCounts(wanted, s, a);
    } else if !a.CallShutdown? && !a.WaitOver? {
      SameButMoved(wanted, s, a);
      LoopStepCounts(wanted, s, a);
    }
  }

  lemma StartCounts(wanted: set<Signal>, s: State, a: Action)
    requires CountInv(s) && LoopInv(s) && Enabled(wanted, s, a) && OfStart(a)
    ensures CountInv(Next(wanted, s, a))
  {
    if a.LaunchLoop? {
      OrderFacts();
      MoveCounts(s.loops, ORDER[s.start.next], Top);
    }
  }

  lemma LoopStepCounts(wanted: set<Signal>, s: State, a: Action)
    requires CountInv(s) && Enabled(wanted, s, a) && !OfStart(a) && !a.CallShutdown? && !a.WaitOver?
    ensures CountInv(Next(wanted, s, a))
  {
    var l := Next(wanted, s, a).loops[a.s];
    assert Next(wanted, s, a).loops == s.loops[a.s := l] && Live(s.loops[a.s]);
    MoveCounts(s.loops, a.s, l);
  }

  /** The steps that touch no delivery and no loop that handles one. */
  lemma OtherMoveKeeps(s: State, s': State, x: Signal, l: Loop)
    requires DeliveryInv(s) && s'.deliveries == s.deliveries && s'.loops == s.loops[x := l]
    requires (x in s.loops ==> !Handling(s.loops[x])) && !Handling(l)
    ensures DeliveryInv(s')
  {
    forall i | 0 <= i < |s.deliveries| ensures Handled(s'.loops, s.deliveries[i], i) {
      assert Handled(s.loops, s.deliveries[i], i);
    }
  }

  lemma FetchKeeps(s: State, s': State, x: Signal, m: nat)
    requires DeliveryInv(s) && x in s.loops && !Handling(s.loops[x])
    requires s'.loops == s.loops[x := Parsing(|s.deliveries|)]
    requires s'.deliveries == s.deliveries + [Delivery(x, m, None, None, [])]
    ensures DeliveryInv(s')
  {
    forall i | 0 <= i < |s'.deliveries| ensures Handled(s'.loops, s'.deliveries[i], i) {
      if i < |s.deliveries| { assert Handled(s.loops, s.deliveries[i], i); }
    }
  }

  /** A loop goes on with the delivery in its hands, or is through with it. */
  lemma HandlingKeeps(s: State, s': State, x: Signal, l: Loop, d: Delivery)
    requires DeliveryInv(s) && x in s.loops && Handling(s.loops[x])
    requires s'.loops == s.loops[x := l] && s'.deliveries == s.deliveries[s.loops[x].d := d] && d.signal == x
    requires (Handling(l) && l.d == s.loops[x].d && InHand(l, d)) || (!Handling(l) && Done(d))
    ensures DeliveryInv(s')
  {
    forall i | 0 <= i < |s'.deliveries| ensures Handled(s'.loops, s'.deliveries[i], i) {
      assert Handled(s.loops, s.deliveries[i], i);
    }
  }

  lemma StepKeepsDeliveries(wanted: set<Signal>, s: State, a: Action)
    requires DeliveryInv(s) && LoopInv(s) && Enabled(wanted, s, a)
    ensures DeliveryInv(Next(wanted, s, a))
  {
    var s' := Next(wanted, s, a);
    if a.Fetch? {
      FetchKeeps(s, s', a.s, a.msg);
    } else if a.Parse? || a.Return? || a.Answer? {
      HandlerKeepsDeliveries(wanted, s, a);
    } else if a.LaunchLoop? {
      LaunchKeepsDeliveries(wanted, s);
    } else if !OfStart(a) && !a.CallShutdown? && !a.WaitOver? {
      OtherMoveKeeps(s, s', a.s, s'.loops[a.s]);
    }
  }

  lemma HandlerKeepsDeliveries(wanted: set<Signal>, s: State, a: Action)
    requires DeliveryInv(s) && Enabled(wanted, s, a) && (a.Parse? || a.Return? || a.Answer?)
    ensures DeliveryInv(Next(wanted, s, a))
  {
    var s', i := Next(wanted, s, a), s.loops[a.s].d;
    assert Handled(s.loops, s.deliveries[i], i);
    assert InHand(s.loops[a.s], s.deliveries[i]);
    HandlingKeeps(s, s', a.s, s'.loops[a.s], s'.deliveries[i]);
  }

  lemma LaunchKeepsDeliveries(wanted: set<Signal>, s: State)
    requires DeliveryInv(s) && LoopInv(s) && Enabled(wanted, s, LaunchLoop)
    ensures DeliveryInv(Next(wanted, s, LaunchLoop))
  {
    OrderFacts();
    var x := ORDER[s.start.next];
    if x in s.iters { OtherMoveKeeps(s, Next(wanted, s, LaunchLoop), x, Top); }
  }

  lemma StepKeepsShutdown(wanted: set<Signal>, s: State, a: Action)
    requires ShutdownInv(s) && CountInv(s) && LoopInv(s) && IterInv(wanted, s) && Enabled(wanted, s, a)
    ensures ShutdownInv(Next(wanted, s, a))
  {
    ZeroIsQuiet(s);
    if OfStart(a) {
      StartKeepsShutdown(wanted, s, a);
    } else if !a.CallShutdown? && !a.WaitOver? {
      LoopKeepsShutdown(wanted, s, a);
    }
  }

  lemma StartKeepsShutdown(wanted: set<Signal>, s: State, a: Action)
    requires ShutdownInv(s) && LoopInv(s) && IterInv(wanted, s) && Enabled(wanted, s, a) && OfStart(a)
    ensures ShutdownInv(Next(wanted, s, a))
  {
  }

  /** After shutdown there is no loop to take a step. */
  lemma LoopKeepsShutdown(wanted: set<Signal>, s: State, a: Action)
    requires ShutdownInv(s) && Enabled(wanted, s, a) && !OfStart(a) && !a.CallShutdown? && !a.WaitOver?
    ensures ShutdownInv(Next(wanted, s, a))
  {
  }

  lemma {:induction false} Reachable(wanted: set<Signal>, run: seq<Action>)
    requires ValidRun(wanted, run)
    ensures Inv(wanted, Run(wanted, run))
  {
    if run != [] {
      var before, a := run[..|run| - 1], run[|run| - 1];
      Reachable(wanted, before);
      StepKeepsIters(wanted, Run(wanted, before), a);
      StepKeepsLoops(wanted, Run(wanted, before), a);
      StepCounts(wanted, Run(wanted, before), a);
      StepKeepsDeliveries(wanted, Run(wanted, before), a);
      StepKeepsShutdown(wanted, Run(wanted, before), a);
    }
  }

  /* ---- what follows ---- */

  /** No loop runs unless the consumers of all registered signals were created. */
  lemma LoopsNeedAllConsumers(wanted: set<Signal>, run: seq<Action>, x: Signal)
    requires ValidRun(wanted, run)
    requires x in Run(wanted, run).loops && Live(Run(wanted, run).loops[x])
    ensures Run(wanted, run).iters == wanted && x in wanted
  {
    Reachable(wanted, run);
  }

  function LoopOf(s: State, x: Signal): Loop {
    if x in s.loops then s.loops[x] else Idle
  }

  /** What a start leaves running: a loop for every registered signal once it has returned, and for those
      it has come to before that; and no loop for any other signal. */
  lemma StartLaunchesLoops(wanted: set<Signal>, run: seq<Action>, x: Signal)
    requires ValidRun(wanted, run)
    ensures Run(wanted, run).start.Started? && x in wanted ==> LoopOf(Run(wanted, run), x) != Idle
    ensures Run(wanted, run).start.Launching? && x in wanted && Position(x) < Run(wanted, run).start.next ==>
      LoopOf(Run(wanted, run), x) != Idle
    ensures x !in wanted ==> LoopOf(Run(wanted, run), x) == Idle
  {
    Reachable(wanted, run);
  }

  /** A launched loop begins at its top, and the wait group counts it; an unregistered signal is passed
      over. */
  lemma LaunchedAtTop(wanted: set<Signal>, run: seq<Action>)
    requires ValidRun(wanted, run) && Enabled(wanted, Run(wanted, run), LaunchLoop)
    ensures
      var s, s' := Run(wanted, run), Next(wanted, Run(wanted, run), LaunchLoop);
      var x := [Traces, Metrics, Logs][s.start.next];
      if x in wanted then s'.loops == s.loops[x := Top] && LoopOf(s, x) == Idle && s'.wg == s.wg + 1
      else s'.loops == s.loops && s'.wg == s.wg
  {
    Reachable(wanted, run);
    OrderFacts();
  }

  /** A loop ends only when it was told to: by the cancellation that shutdown makes, or because its
      iterator was closed. No failed fetch and no answer ends it. */
  lemma {:induction false} LoopsEndWhenTold(wanted: set<Signal>, run: seq<Action>, x: Signal)
    requires ValidRun(wanted, run) && LoopOf(Run(wanted, run), x) == Gone
    ensures CallShutdown in run || IteratorClosed(x) in run
  {
    if run != [] {
      var n := |run| - 1;
      var s, a := Run(wanted, run[..n]), run[n];
      if LoopOf(s, x) == Gone {
        LoopsEndWhenTold(wanted, run[..n], x);
      } else {
        GoneBy(wanted, s, a, x);
        if s.cancelled { CancelledByShutdown(wanted, run[..n]); }
      }
    }
  }

  lemma GoneBy(wanted: set<Signal>, s: State, a: Action, x: Signal)
    requires Enabled(wanted, s, a) && LoopOf(s, x) != Gone && LoopOf(Next(wanted, s, a), x) == Gone
    ensures s.cancelled || a == IteratorClosed(x)
  {
    if !OfStart(a) && !a.CallShutdown? && !a.WaitOver? {
      SameButMoved(wanted, s, a);
    }
  }

  lemma {:induction false} CancelledByShutdown(wanted: set<Signal>, run: seq<Action>)
    requires ValidRun(wanted, run) && Run(wanted, run).cancelled
    ensures CallShutdown in run
  {
    if run != [] {
      var n := |run| - 1;
      if Run(wanted, run[..n]).cancelled {
        CancelledByShutdown(wanted, run[..n]);
      } else {
        assert run[n] == CallShutdown;
      }
    }
  }

  /** A start that fails leaves no loop and no open connection. */
  lemma FailedStartLeavesNothing(wanted: set<Signal>, run: seq<Action>)
    requires ValidRun(wanted, run) && Run(wanted, run).start.StartFailed?
    ensures LiveLoops(Run(wanted, run)) == {} && !Run(wanted, run).conn
  {
    Reachable(wanted, run);
  }

  /** The wait group is never negative and is zero exactly when no loop is live. */
  lemma WaitGroupIsExact(wanted: set<Signal>, run: seq<Action>)
    requires ValidRun(wanted, run)
    ensures Run(wanted, run).wg >= 0
    ensures Run(wanted, run).wg == 0 <==> LiveLoops(Run(wanted, run)) == {}
  {
    Reachable(wanted, run);
    ZeroIsQuiet(Run(wanted, run));
  }

  /** The connection is never closed, by a failed start or by shutdown, while a loop is live; and once
      shutdown has returned no loop is live and none can take a step. */
  lemma ClosedOnlyWhenQuiet(wanted: set<Signal>, run: seq<Action>)
    requires ValidRun(wanted, run)
    ensures Run(wanted, run).closesWhileLive == 0
    ensures Run(wanted, run).shutdown.Complete? ==> LiveLoops(Run(wanted, run)) == {} && !Run(wanted, run).conn
    ensures Run(wanted, run).shutdown.Complete? ==> forall a ::
      Enabled(wanted, Run(wanted, run), a) ==> OfStart(a) || a.CallShutdown? || a.WaitOver?
  {
    var s := Run(wanted, run);
    Reachable(wanted, run);
    if s.shutdown.Complete? {
      assert Traces !in LiveLoops(s) && Metrics !in LiveLoops(s) && Logs !in LiveLoops(s);
    }
  }

  /** When a loop is about to fetch, every delivery it ever got has been answered exactly once. */
  lemma AnsweredBeforeNextFetch(wanted: set<Signal>, run: seq<Action>, x: Signal, i: nat)
    requires ValidRun(wanted, run)
    requires var s := Run(wanted, run);
      x in s.loops && !Handling(s.loops[x]) && i < |s.deliveries| && s.deliveries[i].signal == x
    ensures var d := Run(wanted, run).deliveries[i]; d.parsed.Some? && |d.attempts| == 1
  {
    Reachable(wanted, run);
    assert Handled(Run(wanted, run).loops, Run(wanted, run).deliveries[i], i);
  }

  /** A delivery is acknowledged only after it parsed and was consumed without error, terminated only
      because it did not parse or the consumer's error was permanent, and nothing else is sent for a
      retryable error than a negative acknowledgement. */
  lemma AnswersAreEarned(wanted: set<Signal>, run: seq<Action>, i: nat, k: nat)
    requires ValidRun(wanted, run)
    requires i < |Run(wanted, run).deliveries| && k < |Run(wanted, run).deliveries[i].attempts|
    ensures var d := Run(wanted, run).deliveries[i];
      && k == 0
      && (d.attempts[k].kind == Ack <==> d.parsed == Some(true) && d.result == Some(NoError))
      && (d.attempts[k].kind == Term <==> d.parsed == Some(false) || d.result == Some(PermanentError))
      && (d.attempts[k].kind == Nak <==> d.parsed == Some(true) && d.result == Some(RetryableError))
  {
    var s := Run(wanted, run);
    Reachable(wanted, run);
    assert Handled(s.loops, s.deliveries[i], i);
    DoneIsEarned(s.deliveries[i]);
  }

  lemma DoneIsEarned(d: Delivery)
    requires Done(d)
    ensures d.attempts[0].kind == Ack <==> d.parsed == Some(true) && d.result == Some(NoError)
    ensures d.attempts[0].kind == Term <==> d.parsed == Some(false) || d.result == Some(PermanentError)
    ensures d.attempts[0].kind == Nak <==> d.parsed == Some(true) && d.result == Some(RetryableError)
  {
  }

  lemma RetryableIsNak(loops: map<Signal, Loop>, d: Delivery, i: nat)
    requires Handled(loops, d, i) && d.parsed != Some(false) && d.result in {None, Some(RetryableError)}
    ensures forall k :: 0 <= k < |d.attempts| ==> d.attempts[k].kind == Nak
  {
  }

  /** The receiver has settled a message: some acknowledgement or termination reached the server. */
  ghost predicate Settled(s: State, m: nat) {
    exists i, k :: 0 <= i < |s.deliveries| && s.deliveries[i].msg == m && 0 <= k < |s.deliveries[i].attempts|
      && s.deliveries[i].attempts[k].arrived && s.deliveries[i].attempts[k].kind != Nak
  }

  /** A message that always parsed and was only ever refused retryably, however often it came, is never
      settled by the receiver: nothing is lost through it. */
  lemma RetryableNeverSettled(wanted: set<Signal>, run: seq<Action>, m: nat)
    requires ValidRun(wanted, run)
    requires forall i :: 0 <= i < |Run(wanted, run).deliveries| && Run(wanted, run).deliveries[i].msg == m ==>
      Run(wanted, run).deliveries[i].parsed != Some(false)
      && Run(wanted, run).deliveries[i].result in {None, Some(RetryableError)}
    ensures !Settled(Run(wanted, run), m)
  {
    var s := Run(wanted, run);
    Reachable(wanted, run);
    forall i, k | 0 <= i < |s.deliveries| && s.deliveries[i].msg == m && 0 <= k < |s.deliveries[i].attempts|
      ensures s.deliveries[i].attempts[k].kind == Nak
    {
      RetryableIsNak(s.loops, s.deliveries[i], i);
    }
  }
}
