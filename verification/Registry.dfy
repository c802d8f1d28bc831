/** The shared-instance registry of both receivers: wrappers created for one component ID share one
    underlying receiver, started and stopped at most once, until it is shut down and removed. */
module Registry {
  import opened Options

  /** `sync.Once`: its function has not run, is running, has run. */
  datatype Once = Fresh | Running | Ran

  /** Shutdown runs the receiver's shutdown and then removes the instance from the store; both are
      inside the once, but the removal takes the store's lock on its own. */
  datatype Stop = StopFresh | ShuttingDown | Removing | Removed

  /** One shared receiver; `starts` and `stops` count the underlying calls. */
  datatype Instance = Instance(id: string, start: Once, stop: Stop, starts: nat, stops: nat)

  /** `wrappers[w]` is the instance wrapper `w` shares. `evicted[j]` is what the store held under
      the ID when instance `j` had itself removed. */
  datatype State = State(
    store: map<string, nat>, instances: seq<Instance>, wrappers: seq<nat>, evicted: map<nat, Option<nat>>)

  datatype Action =
    | Create(id: string) | CreateFails(id: string)
    | StartBegins(w: nat) | StartEnds(i: nat)
    | ShutdownBegins(w: nat) | ShutdownRan(i: nat) | Remove(i: nat)

  const INIT := State(map[], [], [], map[])

  predicate Enabled(s: State, a: Action) {
    match a
    case Create(_) => true
    case CreateFails(id) => id !in s.store
    case StartBegins(w) => w < |s.wrappers| && s.wrappers[w] < |s.instances|
    case StartEnds(i) => i < |s.instances| && s.instances[i].start.Running?
    case ShutdownBegins(w) => w < |s.wrappers| && s.wrappers[w] < |s.instances|
    case ShutdownRan(i) => i < |s.instances| && s.instances[i].stop.ShuttingDown?
    case Remove(i) => i < |s.instances| && s.instances[i].stop.Removing?
  }

  function Set(s: State, i: nat, x: Instance): State
    requires i < |s.instances|
  {
    s.(instances := s.instances[i := x])
  }

  function Lookup(s: State, id: string): Option<nat> {
    if id in s.store then Some(s.store[id]) else None
  }

  /** Each action is atomic: the store's lock, or the entry to and exit from a once. A call that
      finds its once taken does nothing. */
  function Next(s: State, a: Action): State
    requires Enabled(s, a)
  {
    match a
    case Create(id) =>
      if id in s.store then s.(wrappers := s.wrappers + [s.store[id]])
      else s.(store := s.store[id := |s.instances|],
              instances := s.instances + [Instance(id, Fresh, StopFresh, 0, 0)],
              wrappers := s.wrappers + [|s.instances|])
    case CreateFails(id) => s
    case StartBegins(w) =>
      var i := s.wrappers[w];
      var x := s.instances[i];
      if x.start.Fresh? then Set(s, i, x.(start := Running, starts := x.starts + 1)) else s
    case StartEnds(i) => Set(s, i, s.instances[i].(start := Ran))
    case ShutdownBegins(w) =>
      var i := s.wrappers[w];
      var x := s.instances[i];
      if x.stop.StopFresh? then Set(s, i, x.(stop := ShuttingDown, stops := x.stops + 1)) else s
    case ShutdownRan(i) => Set(s, i, s.instances[i].(stop := Removing))
    case Remove(i) =>
      var id := s.instances[i].id;
      Set(s, i, s.instances[i].(stop := Removed)).(store := s.store - {id}, evicted := s.evicted[i := Lookup(s, id)])
  }

  predicate ValidRun(run: seq<Action>)
    decreases |run|, 0
  {
    run == [] || (ValidRun(run[..|run| - 1]) && Enabled(Run(run[..|run| - 1]), run[|run| - 1]))
  }

  function Run(run: seq<Action>): State
    requires ValidRun(run)
    decreases |run|, 1
  {
    if run == [] then INIT else Next(Run(run[..|run| - 1]), run[|run| - 1])
  }

  /** The store holds exactly the instances not yet removed, each under its own ID. */
  ghost predicate Inv(s: State) {
    && (forall id :: id in s.store ==> s.store[id] < |s.instances| && s.instances[s.store[id]].id == id)
    && (forall i :: 0 <= i < |s.instances| ==>
          (s.instances[i].stop.Removed? <==> Lookup(s, s.instances[i].id) != Some(i)))
    && (forall w :: 0 <= w < |s.wrappers| ==> s.wrappers[w] < |s.instances|)
    && (forall i :: 0 <= i < |s.instances| ==> Counted(s.instances[i]))
    && (forall i :: i in s.evicted ==> s.evicted[i] == Some(i))
    && (forall i :: 0 <= i < |s.instances| && s.instances[i].stop.Removed? ==> i in s.evicted)
  }

  predicate Counted(x: Instance) {
    && x.starts == (if x.start.Fresh? then 0 else 1)
    && x.stops == (if x.stop.StopFresh? then 0 else 1)
  }

  lemma CreateKeepsInv(s: State, id: string)
    requires Inv(s)
    ensures Inv(Next(s, Create(id)))
  {
    if id !in s.store { assert Lookup(s, id) == None; }
  }

  lemma RemoveKeepsInv(s: State, i: nat)
    requires Inv(s) && Enabled(s, Remove(i))
    ensures Inv(Next(s, Remove(i)))
  {
    assert Lookup(s, s.instances[i].id) == Some(i);
  }

  /** Entering or leaving a once changes one instance and never its place in the store. */
  lemma OnceKeepsInv(s: State, i: nat, x: Instance)
    requires Inv(s) && i < |s.instances| && Counted(x)
    requires x.id == s.instances[i].id && (x.stop.Removed? <==> s.instances[i].stop.Removed?)
    ensures Inv(Set(s, i, x))
  {
    forall j | 0 <= j < |s.instances|
      ensures Set(s, i, x).instances[j].stop.Removed? <==> Lookup(s, s.instances[j].id) != Some(j)
    {
    }
  }

  lemma StepKeepsInv(s: State, a: Action)
    requires Inv(s) && Enabled(s, a)
    ensures Inv(Next(s, a))
  {
    match a
    case Create(id) => CreateKeepsInv(s, id);
    case CreateFails(_) =>
    case Remove(i) => RemoveKeepsInv(s, i);
    case StartBegins(w) => OnceKeepsInv(s, s.wrappers[w], Next(s, a).instances[s.wrappers[w]]);
    case ShutdownBegins(w) => OnceKeepsInv(s, s.wrappers[w], Next(s, a).instances[s.wrappers[w]]);
    case StartEnds(i) => OnceKeepsInv(s, i, Next(s, a).instances[i]);
    case ShutdownRan(i) => OnceKeepsInv(s, i, Next(s, a).instances[i]);
  }

  lemma {:induction false} Reachable(run: seq<Action>)
    requires ValidRun(run)
    ensures Inv(Run(run))
  {
    if run != [] {
      Reachable(run[..|run| - 1]);
      StepKeepsInv(Run(run[..|run| - 1]), run[|run| - 1]);
    }
  }

  /** The underlying receiver is started at most once and stopped at most once, by however many
      wrappers, in any interleaving. */
  lemma RunOnce(run: seq<Action>, i: nat)
    requires ValidRun(run) && i < |Run(run).instances|
    ensures Run(run).instances[i].starts <= 1 && Run(run).instances[i].stops <= 1
  {
    Reachable(run);
  }

  /** The first wrapper that starts does start it, and no other: the call is made exactly if none was
      made before, and afterwards one has been. Likewise for the shutdown. */
  lemma FirstCallRuns(run: seq<Action>, w: nat)
    requires ValidRun(run) && w < |Run(run).wrappers|
    ensures Enabled(Run(run), StartBegins(w)) && Enabled(Run(run), ShutdownBegins(w))
    ensures
      var s, i := Run(run), Run(run).wrappers[w];
      var started, stopped := Next(s, StartBegins(w)), Next(s, ShutdownBegins(w));
      && started.instances[i].starts == 1 && (started.instances[i].start.Running? || started == s)
      && (s.instances[i].starts == 0 ==> started.instances[i].start.Running?)
      && stopped.instances[i].stops == 1 && (stopped.instances[i].stop.ShuttingDown? || stopped == s)
      && (s.instances[i].stops == 0 ==> stopped.instances[i].stop.ShuttingDown?)
  {
    Reachable(run);
  }

  /** There is never more than one instance of an ID that has not been removed, and every create in
      its lifetime hands out that one. */
  lemma OneLiveInstance(run: seq<Action>, i: nat, j: nat)
    requires ValidRun(run) && i < |Run(run).instances| && j < |Run(run).instances|
    requires !Run(run).instances[i].stop.Removed?
    requires Run(run).instances[i].id == Run(run).instances[j].id
    ensures i == j || Run(run).instances[j].stop.Removed?
    ensures var s := Next(Run(run), Create(Run(run).instances[i].id));
            s.instances == Run(run).instances && s.wrappers == Run(run).wrappers + [i]
  {
    Reachable(run);
  }

  /** A shutdown removes its own instance and nothing else: a wrapper left over from an earlier
      instance never evicts a newer one. */
  lemma NeverEvictsAnother(run: seq<Action>, a: Action)
    requires ValidRun(run) && Enabled(Run(run), a)
    ensures Run(run).evicted.Keys <= Next(Run(run), a).evicted.Keys
    ensures forall id ::
      && id in Run(run).store
      && (id !in Next(Run(run), a).store || Next(Run(run), a).store[id] != Run(run).store[id]) ==>
              a == Remove(Run(run).store[id])
    ensures forall i :: i in Run(run).evicted ==> Run(run).evicted[i] == Some(i)
  {
    Reachable(run);
    if a.Remove? {
      var s := Run(run);
      assert Lookup(s, s.instances[a.i].id) == Some(a.i);
    }
  }

  /** An instance that has been removed stays removed: a late shutdown of it changes nothing. */
  lemma StaleShutdownIsNoOp(run: seq<Action>, w: nat)
    requires ValidRun(run) && w < |Run(run).wrappers|
    requires var i := Run(run).wrappers[w]; i < |Run(run).instances| && Run(run).instances[i].stop.Removed?
    ensures Next(Run(run), ShutdownBegins(w)) == Run(run)
    ensures !Enabled(Run(run), Remove(Run(run).wrappers[w])) && !Enabled(Run(run), ShutdownRan(Run(run).wrappers[w]))
  {
  }

  /* ---- the code, with its fields ---- */

  /** The package-level store. Instances are named by their position. */
  class ReceiverStore {
    var receivers: map<string, nat>
    var instances: seq<Instance>
    ghost var wrappers: seq<nat>
    ghost var evicted: map<nat, Option<nat>>

    ghost function Current(): State
      reads this
    {
      State(receivers, instances, wrappers, evicted)
    }

    constructor ()
      ensures Current() == INIT
    {
      receivers, instances, wrappers, evicted := map[], [], [], map[];
    }

    /** `getOrCreateReceiver`, under the store's lock; `fails` says whether building one would fail. */
    method GetOrCreate(id: string, fails: bool) returns (r: Option<nat>)
      modifies this
      ensures r.None? <==> fails && id !in old(receivers)
      ensures r.Some? ==>
        Current() == Next(old(Current()), Create(id)) && Current().wrappers == old(wrappers) + [r.value]
      ensures r.None? ==> Current() == old(Current())
    {
      if id in receivers {
        wrappers := wrappers + [receivers[id]];
        return Some(receivers[id]);
      }
      if fails {
        return None;
      }
      var i := |instances|;
      instances := instances + [Instance(id, Fresh, StopFresh, 0, 0)];
      receivers := receivers[id := i];
      wrappers := wrappers + [i];
      return Some(i);
    }

    /** A wrapper's `Start` up to the underlying call; `ran` says whether it makes it. */
    method BeginStart(ghost w: nat, i: nat) returns (ran: bool)
      requires w < |wrappers| && wrappers[w] == i < |instances|
      modifies this`instances
      ensures Current() == Next(old(Current()), StartBegins(w))
      ensures ran <==> old(instances[i].start).Fresh?
      ensures |instances| == |old(instances)|
      ensures instances[i].starts == old(instances[i].starts) + if ran then 1 else 0
    {
      ran := instances[i].start.Fresh?;
      if ran {
        instances := instances[i := instances[i].(start := Running, starts := instances[i].starts + 1)];
      }
    }

    /** A wrapper's `Shutdown` up to the underlying call. */
    method BeginShutdown(ghost w: nat, i: nat) returns (ran: bool)
      requires w < |wrappers| && wrappers[w] == i < |instances|
      modifies this`instances
      ensures Current() == Next(old(Current()), ShutdownBegins(w))
      ensures ran <==> old(instances[i].stop).StopFresh?
      ensures |instances| == |old(instances)|
      ensures instances[i].stops == old(instances[i].stops) + if ran then 1 else 0
    {
      ran := instances[i].stop.StopFresh?;
      if ran {
        instances := instances[i := instances[i].(stop := ShuttingDown, stops := instances[i].stops + 1)];
      }
    }

    /** `remove`, under the store's lock: it deletes whatever is there under the ID. */
    method RemoveEntry(i: nat)
      requires i < |instances| && instances[i].stop.Removing?
      modifies this
      ensures Current() == Next(old(Current()), Remove(i))
    {
      evicted := evicted[i := if instances[i].id in receivers then Some(receivers[instances[i].id]) else None];
      receivers := receivers - {instances[i].id};
      instances := instances[i := instances[i].(stop := Removed)];
    }
  }
}
