/** Start, polling and shutdown of the SNMP receiver as a step relation: who owns the connections,
    and how the target goroutines hand their completion to `Run` over an unbuffered channel. */
module PollProtocol {

  /** `n` targets to poll (none if metrics are not wanted); whether a trap listener is wanted. */
  datatype Setup = Setup(n: nat, traps: bool)

  datatype StartPhase = NotStarted | Building | ClosingAfterFailure(next: nat) | StartFailed | Started

  /** The goroutine in `Poller.Run`: spawning targets, then receiving `got` completions. */
  datatype Runner = NoRunner | Spawning(next: nat) | Receiving(got: nat) | Returned

  /** A target goroutine: not there yet, inside `collectAndSend`, in its select, blocked on the send
      of its completion, finished. */
  datatype Target = Absent | Polling | Selecting | Sending | Finished

  datatype Listener = NoListener | Listening | Stopped

  datatype ShutdownPhase = NotCalled | Waiting | ClosingAll(next: nat) | Complete

  /** `closes[i]` counts the closes of connection `i`; `owned` says `r.connections` still lists them;
      `wg` is the wait group of the poller's and the listener's goroutines. */
  datatype State = State(
    start: StartPhase, closes: seq<nat>, owned: bool,
    hasCancel: bool, cancelled: bool,
    runner: Runner, targets: seq<Target>, listener: Listener, wg: int,
    shutdown: ShutdownPhase)

  datatype Action =
    | TrapperFails | Begin | Connect | ReadScalars | ConnectFails | CloseAfterFailure | GiveUp | Launch
    | Spawn | SpawnedAll | PollStep(i: nat) | PollEnds(i: nat) | TickerFires(i: nat) | SeesCancel(i: nat)
    | Handover(i: nat) | RunReturns | ListenerStops
    | CallShutdown | WaitOver | CloseNext | ShutdownReturns

  const INIT := State(NotStarted, [], true, false, false, NoRunner, [], NoListener, 0, NotCalled)

  /** Shutdown is called once, after `Start` returned or without it. */
  predicate Enabled(c: Setup, s: State, a: Action) {
    match a
    case TrapperFails => s.start.NotStarted? && s.shutdown.NotCalled? && c.traps
    case Begin => s.start.NotStarted? && s.shutdown.NotCalled?
    case Connect => s.start.Building? && |s.closes| < c.n
    case ReadScalars => s.start.Building? && |s.closes| > 0
    case ConnectFails => s.start.Building? && |s.closes| < c.n
    case CloseAfterFailure => s.start.ClosingAfterFailure? && s.start.next < |s.closes|
    case GiveUp => s.start.ClosingAfterFailure? && s.start.next == |s.closes|
    case Launch => s.start.Building? && |s.closes| == c.n
    case Spawn => s.runner.Spawning? && s.runner.next < |s.targets|
    case SpawnedAll => s.runner.Spawning? && s.runner.next == |s.targets|
    case PollStep(i) => i < |s.targets| && s.targets[i] == Polling
    case PollEnds(i) => i < |s.targets| && s.targets[i] == Polling
    case TickerFires(i) => i < |s.targets| && s.targets[i] == Selecting
    case SeesCancel(i) => i < |s.targets| && s.targets[i] == Selecting && s.cancelled
    case Handover(i) => i < |s.targets| && s.targets[i] == Sending && s.runner.Receiving? && s.runner.got < |s.targets|
    case RunReturns => s.runner.Receiving? && s.runner.got == |s.targets|
    case ListenerStops => s.listener.Listening?
    case CallShutdown => s.shutdown.NotCalled? && (s.start.NotStarted? || s.start.StartFailed? || s.start.Started?)
    case WaitOver => s.shutdown.Waiting? && s.wg == 0
    case CloseNext => s.shutdown.ClosingAll? && s.owned && s.shutdown.next < |s.closes|
    case ShutdownReturns => s.shutdown.ClosingAll? && (s.owned ==> s.shutdown.next == |s.closes|)
  }

  function Next(c: Setup, s: State, a: Action): State
    requires Enabled(c, s, a)
  {
    match a
    case TrapperFails => s.(start := StartFailed)
    case Begin =>
      if c.n > 0 then s.(start := Building, hasCancel := true)
      else s.(start := Started, hasCancel := true,
              listener := if c.traps then Listening else NoListener, wg := s.wg + if c.traps then 1 else 0)
    case Connect => s.(closes := s.closes + [0])
    case ReadScalars => s
    case ConnectFails => s.(start := ClosingAfterFailure(0))
    case CloseAfterFailure =>
      s.(start := ClosingAfterFailure(s.start.next + 1), closes := s.closes[s.start.next := s.closes[s.start.next] + 1])
    case GiveUp => s.(start := StartFailed, owned := false, cancelled := true)
    case Launch =>
      s.(start := Started, runner := Spawning(0), targets := seq(c.n, i => Absent),
         listener := if c.traps then Listening else NoListener, wg := s.wg + if c.traps then 2 else 1)
    case Spawn => s.(targets := s.targets[s.runner.next := Polling], runner := Spawning(s.runner.next + 1))
    case SpawnedAll => s.(runner := Receiving(0))
    case PollStep(i) => s
    case PollEnds(i) => s.(targets := s.targets[i := Selecting])
    case TickerFires(i) => s.(targets := s.targets[i := Polling])
    case SeesCancel(i) => s.(targets := s.targets[i := Sending])
    case Handover(i) => s.(targets := s.targets[i := Finished], runner := Receiving(s.runner.got + 1))
    case RunReturns => s.(runner := Returned, wg := s.wg - 1)
    case ListenerStops => s.(listener := Stopped, wg := s.wg - 1)
    case CallShutdown => s.(shutdown := Waiting, cancelled := s.cancelled || s.hasCancel)
    case WaitOver => s.(shutdown := ClosingAll(0))
    case CloseNext =>
      s.(
        shutdown := ClosingAll(s.shutdown.next + 1),
        closes := s.closes[s.shutdown.next := s.closes[s.shutdown.next] + 1])
    case ShutdownReturns => s.(shutdown := Complete)
  }

  /** The connection an action talks to. */
  function Uses(s: State, a: Action): int {
    match a
    case ReadScalars => |s.closes| - 1
    case PollStep(i) => i
    case _ => -1
  }

  predicate ValidRun(c: Setup, run: seq<Action>)
    decreases |run|, 0
  {
    run == [] || (
      var before := run[..|run| - 1];
      ValidRun(c, before) && Enabled(c, Run(c, before), run[|run| - 1]))
  }

  function Run(c: Setup, run: seq<Action>): State
    requires ValidRun(c, run)
    decreases |run|, 1
  {
    if run == [] then INIT else Next(c, Run(c, run[..|run| - 1]), run[|run| - 1])
  }

  function CountFinished(ts: seq<Target>): nat {
    if ts == [] then 0 else CountFinished(ts[..|ts| - 1]) + if ts[|ts| - 1].Finished? then 1 else 0
  }

  /** How often connection `i` should have been closed by now. */
  function ClosesDue(s: State, i: nat): nat {
    if s.start.ClosingAfterFailure? then (if i < s.start.next then 1 else 0)
    else if !s.owned then 1
    else match s.shutdown
      case ClosingAll(next) => if i < next then 1 else 0
      case Complete => 1
      case _ => 0
  }

  /** Starting: who has been launched, what is known about the cancel function. */
  predicate StartInv(c: Setup, s: State) {
    && |s.closes| <= c.n
    && (s.start.NotStarted? || s.start.Building? ==>
          s.owned && s.runner.NoRunner? && s.listener.NoListener? && !s.cancelled)
    && (s.start.NotStarted? ==> s.closes == [] && !s.hasCancel)
    && (!s.start.NotStarted? && !s.start.StartFailed? ==> s.hasCancel)
    && (s.start.Building? || s.start.ClosingAfterFailure? ==> s.shutdown.NotCalled? && c.n > 0)
    && (s.start.ClosingAfterFailure? ==> s.owned && s.start.next <= |s.closes|)
    && (s.start.StartFailed? || s.start.ClosingAfterFailure? ==> s.runner.NoRunner? && s.listener.NoListener?)
    && (s.start.StartFailed? && s.owned ==> s.closes == [])
    && (s.start.Started? ==> s.owned && |s.closes| == c.n)
    && (s.listener.Listening? ==> s.start.Started?)
  }

  /** Fork and join: which targets exist and how many completions have been received. */
  predicate RunnerInv(c: Setup, s: State) {
    && (s.runner.NoRunner? <==> s.targets == [])
    && (!s.runner.NoRunner? ==> s.start.Started? && |s.targets| == c.n)
    && (s.runner.NoRunner? && s.start.Started? ==> c.n == 0)
    && (s.runner.Spawning? ==> s.runner.next <= |s.targets| && CountFinished(s.targets) == 0)
    && (forall i :: 0 <= i < |s.targets| ==> (s.targets[i] == Absent <==> s.runner.Spawning? && i >= s.runner.next))
    && (s.runner.Receiving? ==> s.runner.got == CountFinished(s.targets))
    && (s.runner.Returned? ==> CountFinished(s.targets) == |s.targets|)
  }

  /** Shutdown: cancelled first, nothing running once it closes, and who was closed how often. */
  predicate ShutdownInv(s: State) {
    && (forall i :: 0 <= i < |s.closes| ==> s.closes[i] == ClosesDue(s, i))
    && (!s.shutdown.NotCalled? && s.hasCancel ==> s.cancelled)
    && (s.shutdown.ClosingAll? || s.shutdown.Complete? ==>
          !s.runner.Spawning? && !s.runner.Receiving? && !s.listener.Listening?)
    && (s.shutdown.ClosingAll? && s.owned ==> s.shutdown.next <= |s.closes|)
  }

  /** The wait group counts the goroutines `Start` has launched and that have not returned. */
  predicate CountInv(s: State) {
    s.wg == (if s.runner.Spawning? || s.runner.Receiving? then 1 else 0) + (if s.listener.Listening? then 1 else 0)
  }

  predicate Inv(c: Setup, s: State) {
    StartInv(c, s) && RunnerInv(c, s) && CountInv(s) && ShutdownInv(s)
  }

  lemma StepCounts(c: Setup, s: State, a: Action)
    requires StartInv(c, s) && CountInv(s) && Enabled(c, s, a)
    ensures CountInv(Next(c, s, a))
  {
  }

  lemma {:induction false} CountUpdate(ts: seq<Target>, i: nat, t: Target)
    requires i < |ts|
    ensures CountFinished(ts[i := t]) + (if ts[i].Finished? then 1 else 0)
      == CountFinished(ts) + if t.Finished? then 1 else 0
  {
    var n := |ts| - 1;
    if i == n {
      assert ts[i := t][..n] == ts[..n];
    } else {
      CountUpdate(ts[..n], i, t);
      assert ts[i := t][..n] == ts[..n][i := t];
    }
  }

  lemma {:induction false} CountBound(ts: seq<Target>)
    ensures CountFinished(ts) <= |ts|
    ensures CountFinished(ts) == |ts| <==> forall i :: 0 <= i < |ts| ==> ts[i] == Finished
    ensures (forall i :: 0 <= i < |ts| ==> ts[i] != Finished) ==> CountFinished(ts) == 0
  {
    if ts != [] {
      CountBound(ts[..|ts| - 1]);
      assert forall i :: 0 <= i < |ts| - 1 ==> ts[..|ts| - 1][i] == ts[i];
    }
  }

  lemma StepKeepsStart(c: Setup, s: State, a: Action)
    requires Inv(c, s) && Enabled(c, s, a)
    ensures StartInv(c, Next(c, s, a))
  {
  }

  lemma StepKeepsShutdown(c: Setup, s: State, a: Action)
    requires Inv(c, s) && Enabled(c, s, a)
    ensures ShutdownInv(Next(c, s, a))
  {
    if OfStart(a) {
      StartKeepsShutdown(c, s, a);
    } else if OfShutdown(a) {
      ShutdownKeepsShutdown(c, s, a);
    }
  }

  predicate OfStart(a: Action) {
    a.TrapperFails? || a.Begin? || a.Connect? || a.ReadScalars? || a.ConnectFails? || a.CloseAfterFailure? || a.GiveUp?
    || a.Launch?
  }

  predicate OfShutdown(a: Action) {
    a.CallShutdown? || a.WaitOver? || a.CloseNext? || a.ShutdownReturns?
  }

  lemma StartKeepsShutdown(c: Setup, s: State, a: Action)
    requires StartInv(c, s) && ShutdownInv(s) && Enabled(c, s, a) && OfStart(a)
    ensures ShutdownInv(Next(c, s, a))
  {
  }

  lemma ShutdownKeepsShutdown(c: Setup, s: State, a: Action)
    requires StartInv(c, s) && ShutdownInv(s) && CountInv(s) && Enabled(c, s, a) && OfShutdown(a)
    ensures ShutdownInv(Next(c, s, a))
  {
  }

  lemma StartKeepsRunner(c: Setup, s: State, a: Action)
    requires StartInv(c, s) && RunnerInv(c, s) && Enabled(c, s, a) && OfStart(a)
    ensures RunnerInv(c, Next(c, s, a))
  {
    if a.Launch? { CountBound(Next(c, s, a).targets); }
  }

  /** The steps that change one target. */
  lemma StepKeepsTargets(c: Setup, s: State, a: Action, i: nat, t: Target)
    requires Inv(c, s) && Enabled(c, s, a) && i < |s.targets|
    requires Next(c, s, a).targets == s.targets[i := t] && s.targets[i] != Finished
    requires t.Finished? <==> a.Handover?
    requires a.Spawn? ==> i == s.runner.next
    requires t.Absent? <==> s.targets[i] == Absent && !a.Spawn?
    requires a.Spawn? || a.PollEnds? || a.TickerFires? || a.SeesCancel? || a.Handover?
    ensures RunnerInv(c, Next(c, s, a))
  {
    CountUpdate(s.targets, i, t);
    CountBound(s.targets);
  }

  lemma StepKeepsRunner(c: Setup, s: State, a: Action)
    requires Inv(c, s) && Enabled(c, s, a)
    ensures RunnerInv(c, Next(c, s, a))
  {
    match a
    case Spawn => StepKeepsTargets(c, s, a, s.runner.next, Polling);
    case PollEnds(i) => StepKeepsTargets(c, s, a, i, Selecting);
    case TickerFires(i) => StepKeepsTargets(c, s, a, i, Polling);
    case SeesCancel(i) => StepKeepsTargets(c, s, a, i, Sending);
    case Handover(i) => StepKeepsTargets(c, s, a, i, Finished);
    case _ => if OfStart(a) { StartKeepsRunner(c, s, a); }
  }

  lemma StepKeepsInv(c: Setup, s: State, a: Action)
    requires Inv(c, s) && Enabled(c, s, a)
    ensures Inv(c, Next(c, s, a))
  {
    StepKeepsStart(c, s, a);
    StepKeepsRunner(c, s, a);
    StepKeepsShutdown(c, s, a);
    StepCounts(c, s, a);
  }

  lemma {:induction false} Reachable(c: Setup, run: seq<Action>)
    requires ValidRun(c, run)
    ensures Inv(c, Run(c, run))
  {
    if run != [] {
      Reachable(c, run[..|run| - 1]);
      StepKeepsInv(c, Run(c, run[..|run| - 1]), run[|run| - 1]);
    }
  }

  /* ---- what follows ---- */

  /** No poll and no scalar read ever talks to a connection that has been closed. */
  lemma NoUseAfterClose(c: Setup, run: seq<Action>, a: Action)
    requires ValidRun(c, run) && Enabled(c, Run(c, run), a) && Uses(Run(c, run), a) >= 0
    ensures var s := Run(c, run); Uses(s, a) < |s.closes| && s.closes[Uses(s, a)] == 0
  {
    Reachable(c, run);
    CountBound(Run(c, run).targets);
  }

  /** A started receiver has launched what its setup asks for: the poller if there are targets, and the
      trap listener if traps are wanted. */
  lemma {:induction false} StartLaunchesAll(c: Setup, run: seq<Action>)
    requires ValidRun(c, run) && Run(c, run).start.Started?
    ensures c.n > 0 ==> !Run(c, run).runner.NoRunner? && |Run(c, run).targets| == c.n
    ensures Run(c, run).listener.NoListener? <==> !c.traps
  {
    Reachable(c, run);
    if run != [] {
      var n := |run| - 1;
      Reachable(c, run[..n]);
      if Run(c, run[..n]).start.Started? { StartLaunchesAll(c, run[..n]); }
      ListenerStep(c, Run(c, run[..n]), run[n]);
    }
  }

  lemma ListenerStep(c: Setup, s: State, a: Action)
    requires StartInv(c, s) && Enabled(c, s, a) && Next(c, s, a).start.Started?
    requires s.start.Started? ==> (s.listener.NoListener? <==> !c.traps)
    ensures Next(c, s, a).listener.NoListener? <==> !c.traps
  {
  }

  /** The target has finished a poll. */
  predicate HasPolled(t: Target) {
    t.Selecting? || t.Sending? || t.Finished?
  }

  predicate PolledLast(s: State, i: nat) {
    i < |s.targets| && HasPolled(s.targets[i])
  }

  function Times(run: seq<Action>, a: Action): nat {
    if run == [] then 0 else Times(run[..|run| - 1], a) + if run[|run| - 1] == a then 1 else 0
  }

  /** A target polls once at once and then once for each tick: whenever it is not polling it has finished
      one poll more than its ticker has fired, and while it polls just as many. */
  lemma {:induction false} PollPerTick(c: Setup, run: seq<Action>, i: nat)
    requires ValidRun(c, run)
    ensures Times(run, PollEnds(i)) == Times(run, TickerFires(i)) + if PolledLast(Run(c, run), i) then 1 else 0
  {
    if run != [] {
      var n := |run| - 1;
      PollPerTick(c, run[..n], i);
      Reachable(c, run[..n]);
      TargetStep(c, Run(c, run[..n]), run[n], i);
    }
  }

  lemma TargetStep(c: Setup, s: State, a: Action, i: nat)
    requires RunnerInv(c, s) && StartInv(c, s) && Enabled(c, s, a)
    ensures a == PollEnds(i) ==> !PolledLast(s, i) && PolledLast(Next(c, s, a), i)
    ensures a == TickerFires(i) ==> PolledLast(s, i) && !PolledLast(Next(c, s, a), i)
    ensures a != PollEnds(i) && a != TickerFires(i) ==> (PolledLast(Next(c, s, a), i) <==> PolledLast(s, i))
  {
  }

  /** A target goes to its end only after the cancellation. */
  lemma {:induction false} EndsWhenCancelled(c: Setup, run: seq<Action>, i: nat)
    requires ValidRun(c, run) && i < |Run(c, run).targets|
    requires Run(c, run).targets[i] == Sending || Run(c, run).targets[i] == Finished
    ensures Run(c, run).cancelled
  {
    if run != [] {
      var n := |run| - 1;
      EndStep(c, Run(c, run[..n]), run[n], i);
      if !Run(c, run[..n]).cancelled { EndsWhenCancelled(c, run[..n], i); }
    }
  }

  lemma EndStep(c: Setup, s: State, a: Action, i: nat)
    requires Enabled(c, s, a) && i < |Next(c, s, a).targets|
    requires Next(c, s, a).targets[i] == Sending || Next(c, s, a).targets[i] == Finished
    ensures s.cancelled ==> Next(c, s, a).cancelled
    ensures s.cancelled || (i < |s.targets| && (s.targets[i] == Sending || s.targets[i] == Finished))
  {
  }

  /** Every opened connection is closed at most once, and exactly once when a failed start has
      returned or shutdown has. */
  lemma ClosedExactlyOnce(c: Setup, run: seq<Action>, i: nat)
    requires ValidRun(c, run) && i < |Run(c, run).closes|
    ensures Run(c, run).closes[i] <= 1
    ensures Run(c, run).start.StartFailed? || Run(c, run).shutdown.Complete? ==> Run(c, run).closes[i] == 1
  {
    Reachable(c, run);
  }

  /** `Run` has received exactly one completion from every target when it returns, so no target is
      left blocked on its send; before that, completions received and targets finished agree. */
  lemma RunReturnsAfterAll(c: Setup, run: seq<Action>)
    requires ValidRun(c, run)
    ensures var s := Run(c, run);
      && (s.runner.Receiving? ==> s.runner.got == CountFinished(s.targets))
      && (s.runner.Returned? ==> |s.targets| == c.n && forall i :: 0 <= i < c.n ==> s.targets[i] == Finished)
  {
    Reachable(c, run);
    CountBound(Run(c, run).targets);
  }

  /** Connections are closed by shutdown only after every goroutine has ended. */
  lemma CloseWaitsForAll(c: Setup, run: seq<Action>)
    requires ValidRun(c, run) && Enabled(c, Run(c, run), CloseNext)
    ensures !Run(c, run).listener.Listening?
    ensures forall i :: 0 <= i < |Run(c, run).targets| ==> Run(c, run).targets[i] == Finished
  {
    Reachable(c, run);
    CountBound(Run(c, run).targets);
  }

  /* ---- shutdown can always finish ---- */

  function Weight(t: Target): nat {
    match t case Absent => 4 case Polling => 3 case Selecting => 2 case Sending => 1 case Finished => 0
  }

  function Weights(ts: seq<Target>): nat {
    if ts == [] then 0 else Weights(ts[..|ts| - 1]) + Weight(ts[|ts| - 1])
  }

  lemma {:induction false} WeightsUpdate(ts: seq<Target>, i: nat, t: Target)
    requires i < |ts|
    ensures Weights(ts[i := t]) + Weight(ts[i]) == Weights(ts) + Weight(t)
  {
    var n := |ts| - 1;
    if i == n {
      assert ts[i := t][..n] == ts[..n];
    } else {
      WeightsUpdate(ts[..n], i, t);
      assert ts[i := t][..n] == ts[..n][i := t];
    }
  }

  /** The steps still to take until shutdown returns, if no further poll is started. */
  function Left(s: State): nat {
    Weights(s.targets)
      + (match s.runner case NoRunner => 0 case Spawning(_) => 2 case Receiving(_) => 1 case Returned => 0)
      + (if s.listener.Listening? then 1 else 0)
      + (match s.shutdown
         case NotCalled => |s.closes| + 3
         case Waiting => |s.closes| + 2
         case ClosingAll(next) => 1 + (if s.owned && next <= |s.closes| then |s.closes| - next else 0)
         case Complete => 0)
  }

  /** While shutdown has not returned some step is possible that brings it closer. */
  lemma SomeStep(c: Setup, s: State) returns (a: Action)
    requires Inv(c, s) && !s.shutdown.NotCalled? && !s.shutdown.Complete?
    ensures Enabled(c, s, a) && Left(Next(c, s, a)) < Left(s) && !Next(c, s, a).shutdown.NotCalled?
  {
    if s.shutdown.ClosingAll? {
      a := if s.owned && s.shutdown.next < |s.closes| then CloseNext else ShutdownReturns;
    } else if s.listener.Listening? {
      a := ListenerStops;
    } else if s.runner.Spawning? {
      a := if s.runner.next < |s.targets| then Spawn else SpawnedAll;
      if a.Spawn? { WeightsUpdate(s.targets, s.runner.next, Polling); }
    } else if s.runner.Receiving? {
      a := StepOfTarget(c, s);
    } else {
      a := WaitOver;
    }
  }

  lemma StepOfTarget(c: Setup, s: State) returns (a: Action)
    requires Inv(c, s) && s.runner.Receiving? && s.shutdown.Waiting?
    ensures Enabled(c, s, a) && Left(Next(c, s, a)) < Left(s) && Next(c, s, a).shutdown.Waiting?
  {
    CountBound(s.targets);
    if s.runner.got == |s.targets| {
      a := RunReturns;
    } else {
      var i :| 0 <= i < |s.targets| && s.targets[i] != Finished;
      match s.targets[i]
      case Polling => a := PollEnds(i); WeightsUpdate(s.targets, i, Selecting);
      case Selecting => a := SeesCancel(i); WeightsUpdate(s.targets, i, Sending);
      case Sending => a := Handover(i); WeightsUpdate(s.targets, i, Finished);
    }
  }

  lemma ExtendRun(c: Setup, run: seq<Action>, a: Action)
    requires ValidRun(c, run) && Enabled(c, Run(c, run), a)
    ensures ValidRun(c, run + [a]) && Run(c, run + [a]) == Next(c, Run(c, run), a)
  {
    assert (run + [a])[..|run|] == run;
  }

  /** From every reachable state in which shutdown has been called, it can return: no goroutine is
      ever left where it cannot finish. */
  lemma {:induction false} ShutdownCanReturn(c: Setup, run: seq<Action>) returns (full: seq<Action>)
    requires ValidRun(c, run) && !Run(c, run).shutdown.NotCalled?
    ensures run <= full && ValidRun(c, full) && Run(c, full).shutdown.Complete?
    decreases Left(Run(c, run))
  {
    Reachable(c, run);
    if Run(c, run).shutdown.Complete? {
      full := run;
    } else {
      var a := SomeStep(c, Run(c, run));
      ExtendRun(c, run, a);
      full := ShutdownCanReturn(c, run + [a]);
    }
  }
}
