/** MultiSim: one model built for each of several simulator modules, with
    method calls broadcast to every built net, a stepped run of all simulators
    with callbacks between steps, and a teardown that ends every simulator.

    Everything MultiSim calls (the net factory, the nets' methods, the
    simulators' run and end, the callbacks) lies outside it. Those calls go
    through a World object, which records them in order and answers each one
    by a fixed function of the calls made before it, so a stateful backend or
    one that fails on its n-th call is covered as well. */
module MultiSim {
  import opened Wrappers

  /** A Python object MultiSim passes around without looking inside it: a net,
      the net class, a parameter set, a callback, an argument, a return value
      or an exception. */
  datatype Value = Value(id: nat)

  /** A simulator module such as pyNN.nest; `name` is its __name__. Two
      different modules may carry the same name. */
  datatype Simulator = Simulator(name: string, id: nat)

  /** One call from MultiSim into code outside it. */
  datatype Call =
    | BuildNet(net: Value, sim: Simulator, parameters: Value)      // net(sim, parameters)
    | NetMethod(target: Value, attribute: string, args: seq<Value>, kwargs: map<string, Value>)
                                                                   // getattr(target, attribute)(*args, **kwargs)
    | SimRun(sim: Simulator, dt: real)                             // sim.run(dt)
    | SimEnd(sim: Simulator)                                       // sim.end()
    | Callback(func: Value)                                        // func()

  /** How an outside call finishes: it returns a value or raises an exception. */
  datatype Reply = Returned(value: Value) | Raised(exception: Value)

  /** The outside world: the reply to a call, given every call made before it. */
  type Environment = (seq<Call>, Call) -> Reply

  /** Why a MultiSim operation raised. */
  datatype PyError =
    | ZeroDivisionError            // float(simtime) / 0 in run
    | Propagated(exception: Value) // an outside call raised and nothing caught it

  class World {
    const respond: Environment
    var log: seq<Call>

    constructor (respond: Environment)
      ensures this.respond == respond && log == []
    {
      this.respond := respond;
      log := [];
    }

    /** Makes one outside call: it is recorded, and the answer depends on the
        calls made so far. */
    method Perform(c: Call) returns (r: Reply)
      modifies this
      ensures log == old(log) + [c]
      ensures r == respond(old(log), c)
    {
      r := respond(log, c);
      log := log + [c];
    }
  }

  // ---------------------------------------------------------------------------
  // Fail-fast execution of a sequence of outside calls
  // ---------------------------------------------------------------------------

  /** The log after the calls, what they returned, and the exception that
      stopped them, if any. */
  datatype Execution = Execution(log: seq<Call>, returned: seq<Value>, raised: Option<Value>)

  /** Makes `calls` one after the other, stopping at the first that raises. */
  function Exec(env: Environment, log: seq<Call>, calls: seq<Call>): (e: Execution)
    ensures e.raised.None? ==> |e.returned| == |calls|
    decreases |calls|
  {
    if calls == [] then Execution(log, [], None)
    else
      match env(log, calls[0])
      case Raised(x) => Execution(log + [calls[0]], [], Some(x))
      case Returned(v) =>
        var rest := Exec(env, log + [calls[0]], calls[1..]);
        rest.(returned := [v] + rest.returned)
  }

  /** Index of the first of `calls` that raises, or |calls| when none does. */
  function FirstRaise(env: Environment, log: seq<Call>, calls: seq<Call>): (k: nat)
    ensures k <= |calls|
    decreases |calls|
  {
    if calls == [] then 0
    else if env(log, calls[0]).Raised? then 0
    else 1 + FirstRaise(env, log + [calls[0]], calls[1..])
  }

  /** Fail-fast, first part: every call before the first raising one returns. */
  lemma {:induction false} ExecReturnsBeforeRaise(env: Environment, log: seq<Call>, calls: seq<Call>)
    ensures forall j :: 0 <= j < FirstRaise(env, log, calls) ==> env(log + calls[..j], calls[j]).Returned?
    decreases |calls|
  {
    if calls != [] && env(log, calls[0]).Returned? {
      var c, tail := calls[0], calls[1..];
      ExecReturnsBeforeRaise(env, log + [c], tail);
      forall j | 0 < j < FirstRaise(env, log, calls)
        ensures env(log + calls[..j], calls[j]).Returned?
      {
        assert calls[..j] == [c] + tail[..j - 1];
        assert log + calls[..j] == (log + [c]) + tail[..j - 1];
      }
      assert log + calls[..0] == log;
    }
  }

  /** Fail-fast, second part: a sequence of calls raises exactly when one of
      them does, and then the log ends with that call. */
  lemma {:induction false} ExecStopsAtRaise(env: Environment, log: seq<Call>, calls: seq<Call>)
    ensures var e := Exec(env, log, calls); var k := FirstRaise(env, log, calls);
      && (e.raised.None? <==> k == |calls|)
      && (k < |calls| ==>
            e.log == log + calls[..k + 1] && env(log + calls[..k], calls[k]) == Raised(e.raised.value))
    decreases |calls|
  {
    if calls != [] {
      var c, tail := calls[0], calls[1..];
      if env(log, c).Raised? {
        assert calls[..1] == [c] && log + calls[..0] == log;
      } else {
        ExecStopsAtRaise(env, log + [c], tail);
        var k := FirstRaise(env, log + [c], tail);
        if k < |tail| {
          assert calls[..k + 2] == [c] + tail[..k + 1];
          assert log + calls[..k + 2] == (log + [c]) + tail[..k + 1];
          assert calls[..k + 1] == [c] + tail[..k];
          assert log + calls[..k + 1] == (log + [c]) + tail[..k];
          assert calls[k + 1] == tail[k];
        }
      }
    }
  }

  /** Fail-fast, third part: when nothing raises, every call is made, in
      order, and each return value is kept at its call's position. */
  lemma {:induction false} ExecCompletes(env: Environment, log: seq<Call>, calls: seq<Call>)
    requires Exec(env, log, calls).raised.None?
    ensures var e := Exec(env, log, calls);
      && e.log == log + calls
      && |e.returned| == |calls|
      && forall j :: 0 <= j < |calls| ==> env(log + calls[..j], calls[j]) == Returned(e.returned[j])
    decreases |calls|
  {
    if calls != [] {
      var c, tail := calls[0], calls[1..];
      ExecCompletes(env, log + [c], tail);
      forall j | 0 < j < |calls|
        ensures env(log + calls[..j], calls[j]) == Returned(Exec(env, log, calls).returned[j])
      {
        assert calls[..j] == [c] + tail[..j - 1];
        assert log + calls[..j] == (log + [c]) + tail[..j - 1];
      }
      assert log + calls[..0] == log;
      assert calls == [c] + tail;
    }
  }

  /** A loop that has made some of `plan`'s calls without an exception and
      still has `rest` to make: finishing `rest` from `log` ends where `plan`
      ends from `log0`, with `got` the values returned so far. */
  ghost predicate Resumes(env: Environment, log0: seq<Call>, plan: seq<Call>,
                          log: seq<Call>, got: seq<Value>, rest: seq<Call>)
  {
    var e := Exec(env, log, rest);
    Exec(env, log0, plan) == e.(returned := got + e.returned)
  }

  /** Making the next call of `rest`: when it raises, the whole plan has
      raised there; otherwise the loop resumes with the remaining calls. */
  lemma ResumeFront(env: Environment, log0: seq<Call>, plan: seq<Call>,
                    log: seq<Call>, got: seq<Value>, rest: seq<Call>)
    requires rest != [] && Resumes(env, log0, plan, log, got, rest)
    ensures env(log, rest[0]).Raised? ==>
              Exec(env, log0, plan) == Execution(log + [rest[0]], got, Some(env(log, rest[0]).exception))
    ensures env(log, rest[0]).Returned? ==>
              Resumes(env, log0, plan, log + [rest[0]], got + [env(log, rest[0]).value], rest[1..])
  {
    if env(log, rest[0]).Returned? {
      var e := Exec(env, log + [rest[0]], rest[1..]);
      assert got + ([env(log, rest[0]).value] + e.returned) == (got + [env(log, rest[0]).value]) + e.returned;
    }
  }

  /** The same, for a loop that walks `plan` by index. */
  lemma ResumeAt(env: Environment, log0: seq<Call>, plan: seq<Call>, log: seq<Call>, got: seq<Value>, i: nat)
    requires i < |plan| && Resumes(env, log0, plan, log, got, plan[i..])
    ensures env(log, plan[i]).Raised? ==>
              Exec(env, log0, plan) == Execution(log + [plan[i]], got, Some(env(log, plan[i]).exception))
    ensures env(log, plan[i]).Returned? ==>
              Resumes(env, log0, plan, log + [plan[i]], got + [env(log, plan[i]).value], plan[i + 1..])
  {
    assert plan[i..][1..] == plan[i + 1..];
    ResumeFront(env, log0, plan, log, got, plan[i..]);
  }

  lemma ResumeDone(env: Environment, log0: seq<Call>, plan: seq<Call>, log: seq<Call>, got: seq<Value>, rest: seq<Call>)
    requires rest == [] && Resumes(env, log0, plan, log, got, rest)
    ensures Exec(env, log0, plan) == Execution(log, got, None)
  {
    assert got + [] == got;
  }

  // ---------------------------------------------------------------------------
  // Building dictionaries key by key
  // ---------------------------------------------------------------------------

  predicate Distinct(xs: seq<string>)
  {
    forall i, j :: 0 <= i < j < |xs| ==> xs[i] != xs[j]
  }

  /** The dictionary left by `d[keys[i]] = vals[i]` for i = 0, 1, ... in turn,
      starting from an empty one. */
  function ZipMap(keys: seq<string>, vals: seq<Value>): (d: map<string, Value>)
    requires |keys| == |vals|
    ensures d.Keys == set k | k in keys
  {
    if keys == [] then map[]
    else
      var n := |keys| - 1;
      var d0 := ZipMap(keys[..n], vals[..n]);
      assert keys == keys[..n] + [keys[n]];
      d0[keys[n] := vals[n]]
  }

  /** One more assignment `d[keys[i]] = v`. */
  lemma ZipMapStep(keys: seq<string>, i: nat, vals: seq<Value>, v: Value)
    requires i < |keys| && |vals| == i
    ensures ZipMap(keys[..i + 1], vals + [v]) == ZipMap(keys[..i], vals)[keys[i] := v]
  {
    assert keys[..i + 1][..i] == keys[..i] && (vals + [v])[..i] == vals;
  }

  /** One more insertion into the dictionary's key order. */
  lemma InsertionOrderStep(keys: seq<string>, i: nat)
    requires i < |keys|
    ensures InsertionOrder(keys[..i + 1])
            == var o := InsertionOrder(keys[..i]); if keys[i] in o then o else o + [keys[i]]
  {
    assert keys[..i + 1][..i] == keys[..i];
  }

  /** A repeated key keeps the value of its last assignment. */
  lemma {:induction false} ZipMapLastWins(keys: seq<string>, vals: seq<Value>, j: nat)
    requires |keys| == |vals| && j < |keys|
    requires keys[j] !in keys[j + 1..]
    ensures keys[j] in ZipMap(keys, vals) && ZipMap(keys, vals)[keys[j]] == vals[j]
    decreases |keys|
  {
    var n := |keys| - 1;
    if j < n {
      assert keys[n] in keys[j + 1..];
      assert keys[..n][j + 1..] == keys[j + 1..n];
      ZipMapLastWins(keys[..n], vals[..n], j);
    }
  }

  /** The keys of a dictionary filled by `d[keys[i]] = ...` in the order in
      which they were first inserted. */
  function InsertionOrder(keys: seq<string>): (order: seq<string>)
    ensures Distinct(order)
    ensures (set k | k in order) == set k | k in keys
  {
    if keys == [] then []
    else
      var n := |keys| - 1;
      var o := InsertionOrder(keys[..n]);
      assert keys == keys[..n] + [keys[n]];
      assert (set k | k in keys) == (set k | k in keys[..n]) + {keys[n]};
      if keys[n] in o then o else o + [keys[n]]
  }

  /** The __name__ of every simulator, in list order. */
  function Names(sims: seq<Simulator>): (names: seq<string>)
    ensures |names| == |sims|
    ensures forall i :: 0 <= i < |sims| ==> names[i] == sims[i].name
  {
    seq(|sims|, i requires 0 <= i < |sims| => sims[i].name)
  }

  // ---------------------------------------------------------------------------
  // What each operation calls, and what it leaves behind
  // ---------------------------------------------------------------------------

  /** The calls of __init__: net(sim, parameters) for each sim in sim_list. */
  function BuildPlan(net: Value, sims: seq<Simulator>, parameters: Value): (plan: seq<Call>)
    ensures |plan| == |sims|
  {
    seq(|sims|, i requires 0 <= i < |sims| => BuildNet(net, sims[i], parameters))
  }

  /** The nets dictionary and its iteration order, or the exception that
      stopped the construction. */
  datatype Registry = Registry(nets: map<string, Value>, order: seq<string>)

  function BuildOutcome(env: Environment, log: seq<Call>, sims: seq<Simulator>, net: Value, parameters: Value)
    : (seq<Call>, Result<Registry, PyError>)
  {
    var e := Exec(env, log, BuildPlan(net, sims, parameters));
    if e.raised.Some? then (e.log, Failure(Propagated(e.raised.value)))
    else (e.log, Success(Registry(ZipMap(Names(sims), e.returned), InsertionOrder(Names(sims)))))
  }

  /** The calls of one broadcast: getattr(net, name)(*args, **kwargs) for each
      net, in the dictionary's iteration order. */
  function BroadcastPlan(nets: map<string, Value>, order: seq<string>, name: string,
                         args: seq<Value>, kwargs: map<string, Value>): (plan: seq<Call>)
    requires forall k :: k in order ==> k in nets
    ensures |plan| == |order|
  {
    seq(|order|, i requires 0 <= i < |order| => NetMethod(nets[order[i]], name, args, kwargs))
  }

  function BroadcastOutcome(env: Environment, log: seq<Call>, nets: map<string, Value>, order: seq<string>,
                            name: string, args: seq<Value>, kwargs: map<string, Value>)
    : (seq<Call>, Result<map<string, Value>, PyError>)
    requires forall k :: k in order ==> k in nets
  {
    var e := Exec(env, log, BroadcastPlan(nets, order, name, args, kwargs));
    if e.raised.Some? then (e.log, Failure(Propagated(e.raised.value)))
    else (e.log, Success(ZipMap(order, e.returned)))
  }

  /** sim.run(dt) for each sim, in list order. */
  function SimRuns(sims: seq<Simulator>, dt: real): (calls: seq<Call>)
    ensures |calls| == |sims|
  {
    if sims == [] then [] else [SimRun(sims[0], dt)] + SimRuns(sims[1..], dt)
  }

  /** func() for each callback, in order. */
  function Callbacks(funcs: seq<Value>): (calls: seq<Call>)
    ensures |calls| == |funcs|
  {
    if funcs == [] then [] else [Callback(funcs[0])] + Callbacks(funcs[1..])
  }

  /** The calls of `steps` iterations of run's outer loop. */
  function RunPlan(sims: seq<Simulator>, dt: real, funcs: seq<Value>, steps: int): seq<Call>
    decreases steps
  {
    if steps <= 0 then [] else SimRuns(sims, dt) + Callbacks(funcs) + RunPlan(sims, dt, funcs, steps - 1)
  }

  function RunOutcome(env: Environment, log: seq<Call>, sims: seq<Simulator>, simtime: real,
                      steps: int, funcs: seq<Value>): (seq<Call>, Result<(), PyError>)
  {
    if steps == 0 then (log, Failure(ZeroDivisionError))
    else
      var e := Exec(env, log, RunPlan(sims, simtime / steps as real, funcs, steps));
      if e.raised.Some? then (e.log, Failure(Propagated(e.raised.value))) else (e.log, Success(()))
  }

  /** sim.end() for each sim, in list order. */
  function EndPlan(sims: seq<Simulator>): (calls: seq<Call>)
    ensures |calls| == |sims|
    ensures forall j :: 0 <= j < |sims| ==> calls[j] == SimEnd(sims[j])
  {
    seq(|sims|, i requires 0 <= i < |sims| => SimEnd(sims[i]))
  }

  function EndOutcome(env: Environment, log: seq<Call>, sims: seq<Simulator>): (seq<Call>, Result<(), PyError>)
  {
    var e := Exec(env, log, EndPlan(sims));
    if e.raised.Some? then (e.log, Failure(Propagated(e.raised.value))) else (e.log, Success(()))
  }

  lemma SimRunsFront(sims: seq<Simulator>, j: nat, dt: real, tail: seq<Call>)
    requires j <= |sims|
    ensures j == |sims| ==> SimRuns(sims[j..], dt) + tail == tail
    ensures j < |sims| ==>
              var s := SimRuns(sims[j..], dt) + tail;
              s != [] && s[0] == SimRun(sims[j], dt) && s[1..] == SimRuns(sims[j + 1..], dt) + tail
  {
    if j < |sims| {
      assert sims[j..][1..] == sims[j + 1..];
    } else {
      assert sims[j..] == [];
    }
  }

  lemma CallbacksFront(funcs: seq<Value>, k: nat, tail: seq<Call>)
    requires k <= |funcs|
    ensures k == |funcs| ==> Callbacks(funcs[k..]) + tail == tail
    ensures k < |funcs| ==>
              var s := Callbacks(funcs[k..]) + tail;
              s != [] && s[0] == Callback(funcs[k]) && s[1..] == Callbacks(funcs[k + 1..]) + tail
  {
    if k < |funcs| {
      assert funcs[k..][1..] == funcs[k + 1..];
    } else {
      assert funcs[k..] == [];
    }
  }

  // ---------------------------------------------------------------------------
  // The coordinator
  // ---------------------------------------------------------------------------

  class MultiSim {
    const world: World
    const simList: seq<Simulator>
    const nets: map<string, Value>
    /** The order in which nets.items() yields the names. */
    const order: seq<string>

    ghost predicate Valid()
    {
      && Distinct(order)
      && (set k | k in order) == nets.Keys
      && (forall i :: 0 <= i < |order| ==> order[i] in nets)
    }

    constructor Init(world: World, simList: seq<Simulator>, nets: map<string, Value>, order: seq<string>)
      requires Distinct(order) && (set k | k in order) == nets.Keys
      ensures Valid()
      ensures this.world == world && this.simList == simList && this.nets == nets && this.order == order
    {
      this.world := world;
      this.simList := simList;
      this.nets := nets;
      this.order := order;
    }

    /** __init__: builds `net(sim, parameters)` for each simulator in
        sim_list, keyed by the simulator's name. A raising factory call
        aborts the construction and no object is returned. */
    static method Create(world: World, simList: seq<Simulator>, net: Value, parameters: Value)
      returns (r: Result<MultiSim, PyError>)
      modifies world
      ensures var (log, outcome) := BuildOutcome(world.respond, old(world.log), simList, net, parameters);
        && world.log == log
        && (r.Failure? <==> outcome.Failure?)
        && (r.Failure? ==> r.error == outcome.error)
        && (r.Success? ==>
              && fresh(r.value) && r.value.Valid()
              && r.value.world == world && r.value.simList == simList
              && r.value.nets == outcome.value.nets && r.value.order == outcome.value.order)
    {
      ghost var log0 := world.log;
      ghost var plan := BuildPlan(net, simList, parameters);
      ghost var names := Names(simList);
      ghost var built: seq<Value> := [];
      var nets: map<string, Value> := map[];
      var order: seq<string> := [];
      var i := 0;
      while i < |simList|
        invariant 0 <= i <= |simList| && |built| == i
        invariant nets == ZipMap(names[..i], built)
        invariant order == InsertionOrder(names[..i])
        invariant Resumes(world.respond, log0, plan, world.log, built, plan[i..])
      {
        var sim := simList[i];
        ResumeAt(world.respond, log0, plan, world.log, built, i);
        var reply := world.Perform(BuildNet(net, sim, parameters));
        if reply.Raised? {
          return Failure(Propagated(reply.exception));
        }
        ZipMapStep(names, i, built, reply.value);
        InsertionOrderStep(names, i);
        nets := nets[sim.name := reply.value];
        if sim.name !in order {
          order := order + [sim.name];
        }
        built := built + [reply.value];
        i := i + 1;
      }
      assert names[..i] == names;
      ResumeDone(world.respond, log0, plan, world.log, built, plan[i..]);
      var ms := new MultiSim.Init(world, simList, nets, order);
      r := Success(ms);
    }

    /** __iter__: the built nets, one per distinct simulator name: each net
        occurs as often as there are names that map to it. */
    function Instances(): (nets: seq<Value>)
      requires Valid()
      ensures |nets| == |this.nets|
      ensures forall v :: v in nets <==> v in this.nets.Values
      ensures forall v :: multiset(nets)[v] == |set k | k in this.nets && this.nets[k] == v|
    {
      ValuesAlongAll(this.nets, order);
      ValuesAlong(this.nets, order)
    }

    /** The broadcast __getattr__ returns, called with (args, kwargs): calls
        `name` on each net and collects the results by simulator name. The
        first exception propagates and the partial results are dropped. */
    method Broadcast(name: string, args: seq<Value>, kwargs: map<string, Value>)
      returns (r: Result<map<string, Value>, PyError>)
      requires Valid()
      modifies world
      ensures var (log, outcome) := BroadcastOutcome(world.respond, old(world.log), nets, order, name, args, kwargs);
        world.log == log && r == outcome
    {
      ghost var log0 := world.log;
      ghost var plan := BroadcastPlan(nets, order, name, args, kwargs);
      ghost var got: seq<Value> := [];
      var retvals: map<string, Value> := map[];
      var i := 0;
      while i < |order|
        invariant 0 <= i <= |order| && |got| == i
        invariant retvals == ZipMap(order[..i], got)
        invariant Resumes(world.respond, log0, plan, world.log, got, plan[i..])
      {
        var simName := order[i];
        ResumeAt(world.respond, log0, plan, world.log, got, i);
        var reply := world.Perform(NetMethod(nets[simName], name, args, kwargs));
        if reply.Raised? {
          return Failure(Propagated(reply.exception));
        }
        ZipMapStep(order, i, got, reply.value);
        retvals := retvals[simName := reply.value];
        got := got + [reply.value];
        i := i + 1;
      }
      assert order[..i] == order;
      ResumeDone(world.respond, log0, plan, world.log, got, plan[i..]);
      r := Success(retvals);
    }

    /** run(simtime, steps, *callbacks): `steps` rounds, each advancing every
        simulator module of sim_list by simtime/steps and then calling every
        callback. */
    method Run(simtime: real, steps: int, callbacks: seq<Value>) returns (r: Result<(), PyError>)
      modifies world
      ensures var (log, outcome) := RunOutcome(world.respond, old(world.log), simList, simtime, steps, callbacks);
        world.log == log && r == outcome
    {
      if steps == 0 {
        return Failure(ZeroDivisionError);
      }
      var dt := simtime / steps as real;
      ghost var log0 := world.log;
      ghost var plan := RunPlan(simList, dt, callbacks, steps);
      ghost var got: seq<Value> := [];
      var i := 0;
      while i < steps
        invariant Resumes(world.respond, log0, plan, world.log, got, RunPlan(simList, dt, callbacks, steps - i))
      {
        ghost var later := RunPlan(simList, dt, callbacks, steps - i - 1);
        var raised;
        raised, got := RunRound(dt, callbacks, log0, plan, got, later);
        if raised.Some? {
          return Failure(Propagated(raised.value));
        }
        i := i + 1;
      }
      ResumeDone(world.respond, log0, plan, world.log, got, []);
      r := Success(());
    }

    /** One iteration of run's outer loop: sim.run(dt) for each simulator of
        sim_list, then each callback; the first exception stops the round. */
    method RunRound(dt: real, callbacks: seq<Value>, ghost log0: seq<Call>, ghost plan: seq<Call>,
                    ghost got: seq<Value>, ghost later: seq<Call>)
      returns (raised: Option<Value>, ghost gotAfter: seq<Value>)
      requires Resumes(world.respond, log0, plan, world.log, got, SimRuns(simList, dt) + Callbacks(callbacks) + later)
      modifies world
      ensures raised.Some? ==> Exec(world.respond, log0, plan) == Execution(world.log, gotAfter, Some(raised.value))
      ensures raised.None? ==> Resumes(world.respond, log0, plan, world.log, gotAfter, later)
    {
      ghost var env := world.respond;
      gotAfter := got;
      ghost var afterSims := Callbacks(callbacks[0..]) + later;
      ghost var rest := SimRuns(simList[0..], dt) + afterSims;
      assert simList[0..] == simList && callbacks[0..] == callbacks;
      assert rest == SimRuns(simList, dt) + Callbacks(callbacks) + later;
      for j := 0 to |simList|
        invariant rest == SimRuns(simList[j..], dt) + afterSims
        invariant Resumes(env, log0, plan, world.log, gotAfter, rest)
      {
        var sim := simList[j];
        SimRunsFront(simList, j, dt, afterSims);
        ResumeFront(env, log0, plan, world.log, gotAfter, rest);
        var reply := world.Perform(SimRun(sim, dt));
        if reply.Raised? {
          return Some(reply.exception), gotAfter;
        }
        gotAfter := gotAfter + [reply.value];
        rest := rest[1..];
      }
      SimRunsFront(simList, |simList|, dt, afterSims);
      for k := 0 to |callbacks|
        invariant rest == Callbacks(callbacks[k..]) + later
        invariant Resumes(env, log0, plan, world.log, gotAfter, rest)
      {
        var func := callbacks[k];
        CallbacksFront(callbacks, k, later);
        ResumeFront(env, log0, plan, world.log, gotAfter, rest);
        var reply := world.Perform(Callback(func));
        if reply.Raised? {
          return Some(reply.exception), gotAfter;
        }
        gotAfter := gotAfter + [reply.value];
        rest := rest[1..];
      }
      CallbacksFront(callbacks, |callbacks|, later);
      raised := None;
    }

    /** end(): sim.end() on each simulator module of sim_list in order; the
        first exception stops the loop. */
    method End() returns (r: Result<(), PyError>)
      modifies world
      ensures var (log, outcome) := EndOutcome(world.respond, old(world.log), simList);
        world.log == log && r == outcome
    {
      ghost var env := world.respond;
      ghost var log0 := world.log;
      ghost var plan := EndPlan(simList);
      ghost var got: seq<Value> := [];
      var i := 0;
      while i < |simList|
        invariant 0 <= i <= |simList|
        invariant Resumes(env, log0, plan, world.log, got, plan[i..])
      {
        var sim := simList[i];
        ResumeAt(env, log0, plan, world.log, got, i);
        var reply := world.Perform(SimEnd(sim));
        if reply.Raised? {
          return Failure(Propagated(reply.exception));
        }
        got := got + [reply.value];
        i := i + 1;
      }
      ResumeDone(env, log0, plan, world.log, got, plan[i..]);
      r := Success(());
    }
  }

  /** Every value of a dictionary is found at some position of a list that
      holds each of its keys. */
  lemma IndexedValues(d: map<string, Value>, keys: seq<string>)
    requires (set k | k in keys) == d.Keys
    ensures forall v :: v in d.Values <==> exists i :: 0 <= i < |keys| && d[keys[i]] == v
  {
    forall v | v in d.Values
      ensures exists i :: 0 <= i < |keys| && d[keys[i]] == v
    {
      var k :| k in d && d[k] == v;
      assert k in (set k | k in keys);
      var i :| 0 <= i < |keys| && keys[i] == k;
    }
  }

  /** The values of a dictionary taken along a list of its keys. */
  function ValuesAlong(d: map<string, Value>, keys: seq<string>): (vs: seq<Value>)
    requires forall k :: k in keys ==> k in d
    ensures |vs| == |keys|
    ensures forall i :: 0 <= i < |keys| ==> vs[i] == d[keys[i]]
  {
    if keys == [] then []
    else ValuesAlong(d, keys[..|keys| - 1]) + [d[keys[|keys| - 1]]]
  }

  /** Along a list that holds each key of a dictionary once, every value
      of the dictionary occurs, once per key that maps to it. */
  lemma ValuesAlongAll(d: map<string, Value>, keys: seq<string>)
    requires Distinct(keys) && (set k | k in keys) == d.Keys && forall i :: 0 <= i < |keys| ==> keys[i] in d
    ensures |ValuesAlong(d, keys)| == |d|
    ensures forall v :: v in ValuesAlong(d, keys) <==> v in d.Values
    ensures forall v :: multiset(ValuesAlong(d, keys))[v] == |set k | k in d && d[k] == v|
  {
    var vs := ValuesAlong(d, keys);
    DistinctCardinality(keys);
    IndexedValues(d, keys);
    assert |d| == |d.Keys|;
    forall v ensures multiset(vs)[v] == |set k | k in d && d[k] == v| {
      ValuesAlongCount(d, keys, v);
      assert (set k | k in keys && d[k] == v) == (set k | k in d && d[k] == v);
    }
  }

  /** Along a list of distinct keys, a value occurs once per key that maps
      to it. */
  lemma {:induction false} ValuesAlongCount(d: map<string, Value>, keys: seq<string>, v: Value)
    requires Distinct(keys) && forall k :: k in keys ==> k in d
    ensures multiset(ValuesAlong(d, keys))[v] == |set k | k in keys && d[k] == v|
    decreases |keys|
  {
    if keys != [] {
      var n := |keys| - 1;
      ValuesAlongCount(d, keys[..n], v);
      ValuesAlongStep(d, keys, v);
      KeysOfValueStep(d, keys, v);
    }
  }

  lemma ValuesAlongStep(d: map<string, Value>, keys: seq<string>, v: Value)
    requires keys != [] && forall k :: k in keys ==> k in d
    ensures var n := |keys| - 1;
      multiset(ValuesAlong(d, keys))[v]
      == multiset(ValuesAlong(d, keys[..n]))[v] + if d[keys[n]] == v then 1 else 0
  {
    var n := |keys| - 1;
    assert multiset(ValuesAlong(d, keys)) == multiset(ValuesAlong(d, keys[..n])) + multiset{d[keys[n]]};
  }

  lemma KeysOfValueStep(d: map<string, Value>, keys: seq<string>, v: Value)
    requires keys != [] && Distinct(keys) && forall k :: k in keys ==> k in d
    ensures var n := |keys| - 1;
      |set k | k in keys && d[k] == v| == |set k | k in keys[..n] && d[k] == v| + if d[keys[n]] == v then 1 else 0
  {
    var n := |keys| - 1;
    var init, last := keys[..n], keys[n];
    var before := set k | k in init && d[k] == v;
    var after := set k | k in keys && d[k] == v;
    assert last !in init;
    assert keys == init + [last];
    if d[last] == v {
      assert after == before + {last};
    } else {
      assert after == before;
    }
  }

  lemma {:induction false} DistinctCardinality(xs: seq<string>)
    requires Distinct(xs)
    ensures |set k | k in xs| == |xs|
    decreases |xs|
  {
    if xs != [] {
      var n := |xs| - 1;
      DistinctCardinality(xs[..n]);
      assert xs == xs[..n] + [xs[n]];
      assert (set k | k in xs) == (set k | k in xs[..n]) + {xs[n]};
    }
  }

  // ---------------------------------------------------------------------------
  // Properties of the operations
  // ---------------------------------------------------------------------------

  lemma Distribute(n: int, a: int, b: int)
    ensures (n - 1) * a + b + a == n * a + b
  {
  }

  /** A count that grows by `a` per round is `a` times the number of rounds. */
  lemma PerRound(total: int, previous: int, a: int, rounds: int)
    requires previous == (rounds - 1) * a && total == a + previous
    ensures total == rounds * a
  {
    Distribute(rounds, a, 0);
  }

  /** A run of `steps` rounds makes (|sims| + |funcs|) calls per round. */
  lemma {:induction false} RunPlanLength(sims: seq<Simulator>, dt: real, funcs: seq<Value>, steps: int)
    requires steps >= 0
    ensures |RunPlan(sims, dt, funcs, steps)| == steps * (|sims| + |funcs|)
    decreases steps
  {
    if steps > 0 {
      RunPlanLength(sims, dt, funcs, steps - 1);
      Distribute(steps, |sims| + |funcs|, 0);
    }
  }

  /** The calls of one round: the j-th simulator's run, then the callbacks. */
  lemma {:induction false} RoundAt(sims: seq<Simulator>, dt: real, funcs: seq<Value>, j: nat)
    requires j < |sims| + |funcs|
    ensures (SimRuns(sims, dt) + Callbacks(funcs))[j]
            == if j < |sims| then SimRun(sims[j], dt) else Callback(funcs[j - |sims|])
    decreases |sims| + |funcs|
  {
    if j < |sims| {
      if j > 0 {
        RoundAt(sims[1..], dt, funcs, j - 1);
      }
    } else if j > |sims| {
      RoundAt(sims, dt, funcs[1..], j - 1);
      assert Callbacks(funcs)[j - |sims|] == Callbacks(funcs[1..])[j - 1 - |sims|];
    }
  }

  /** The calls of run, position by position: in round i the simulators of
      sim_list advance in list order, and only then do the callbacks run, in
      their order. */
  lemma {:induction false} RunPlanAt(sims: seq<Simulator>, dt: real, funcs: seq<Value>, steps: int, i: nat, j: nat)
    requires i < steps && j < |sims| + |funcs|
    ensures i * (|sims| + |funcs|) + j < |RunPlan(sims, dt, funcs, steps)|
    ensures RunPlan(sims, dt, funcs, steps)[i * (|sims| + |funcs|) + j]
            == if j < |sims| then SimRun(sims[j], dt) else Callback(funcs[j - |sims|])
    decreases steps
  {
    var width := |sims| + |funcs|;
    if i == 0 {
      RunPlanFront(sims, dt, funcs, steps, j);
    } else {
      var p := (i - 1) * width + j;
      RunPlanAt(sims, dt, funcs, steps - 1, i - 1, j);
      Distribute(i, width, j);
      RunPlanShift(sims, dt, funcs, steps, p);
    }
  }

  /** The first round of a run. */
  lemma RunPlanFront(sims: seq<Simulator>, dt: real, funcs: seq<Value>, steps: int, j: nat)
    requires 0 < steps && j < |sims| + |funcs|
    ensures j < |RunPlan(sims, dt, funcs, steps)|
    ensures RunPlan(sims, dt, funcs, steps)[j]
            == if j < |sims| then SimRun(sims[j], dt) else Callback(funcs[j - |sims|])
  {
    RoundAt(sims, dt, funcs, j);
    assert RunPlan(sims, dt, funcs, steps)
           == SimRuns(sims, dt) + Callbacks(funcs) + RunPlan(sims, dt, funcs, steps - 1);
  }

  /** After the first round, a run continues as a run one step shorter. */
  lemma RunPlanShift(sims: seq<Simulator>, dt: real, funcs: seq<Value>, steps: int, p: nat)
    requires 0 < steps && p < |RunPlan(sims, dt, funcs, steps - 1)|
    ensures p + |sims| + |funcs| < |RunPlan(sims, dt, funcs, steps)|
    ensures RunPlan(sims, dt, funcs, steps)[p + |sims| + |funcs|] == RunPlan(sims, dt, funcs, steps - 1)[p]
  {
  }

  lemma {:induction false} SimRunsCount(sims: seq<Simulator>, dt: real, s: Simulator)
    ensures multiset(SimRuns(sims, dt))[SimRun(s, dt)] == multiset(sims)[s]
    decreases |sims|
  {
    if sims != [] {
      SimRunsCount(sims[1..], dt, s);
      assert sims == [sims[0]] + sims[1..];
    }
  }

  lemma {:induction false} CallbacksCount(funcs: seq<Value>, f: Value)
    ensures multiset(Callbacks(funcs))[Callback(f)] == multiset(funcs)[f]
    decreases |funcs|
  {
    if funcs != [] {
      CallbacksCount(funcs[1..], f);
      assert funcs == [funcs[0]] + funcs[1..];
    }
  }

  lemma {:induction false} NoCallbackInSimRuns(sims: seq<Simulator>, dt: real, f: Value)
    ensures Callback(f) !in SimRuns(sims, dt)
    decreases |sims|
  {
    if sims != [] {
      NoCallbackInSimRuns(sims[1..], dt, f);
    }
  }

  lemma {:induction false} NoSimRunInCallbacks(funcs: seq<Value>, s: Simulator, dt: real)
    ensures SimRun(s, dt) !in Callbacks(funcs)
    decreases |funcs|
  {
    if funcs != [] {
      NoSimRunInCallbacks(funcs[1..], s, dt);
    }
  }

  /** One round adds one run of s per occurrence of s in sim_list. */
  lemma SimRunCountStep(sims: seq<Simulator>, dt: real, funcs: seq<Value>, steps: int, s: Simulator)
    requires steps > 0
    requires multiset(RunPlan(sims, dt, funcs, steps - 1))[SimRun(s, dt)] == (steps - 1) * multiset(sims)[s]
    ensures multiset(RunPlan(sims, dt, funcs, steps))[SimRun(s, dt)] == steps * multiset(sims)[s]
  {
    SimRunsCount(sims, dt, s);
    NoSimRunInCallbacks(funcs, s, dt);
    assert multiset(RunPlan(sims, dt, funcs, steps))
           == multiset(SimRuns(sims, dt)) + multiset(Callbacks(funcs)) + multiset(RunPlan(sims, dt, funcs, steps - 1));
    PerRound(multiset(RunPlan(sims, dt, funcs, steps))[SimRun(s, dt)],
             multiset(RunPlan(sims, dt, funcs, steps - 1))[SimRun(s, dt)], multiset(sims)[s], steps);
  }

  /** One round adds one call of f per occurrence of f among the callbacks. */
  lemma CallbackCountStep(sims: seq<Simulator>, dt: real, funcs: seq<Value>, steps: int, f: Value)
    requires steps > 0
    requires multiset(RunPlan(sims, dt, funcs, steps - 1))[Callback(f)] == (steps - 1) * multiset(funcs)[f]
    ensures multiset(RunPlan(sims, dt, funcs, steps))[Callback(f)] == steps * multiset(funcs)[f]
  {
    CallbacksCount(funcs, f);
    NoCallbackInSimRuns(sims, dt, f);
    assert multiset(RunPlan(sims, dt, funcs, steps))
           == multiset(SimRuns(sims, dt)) + multiset(Callbacks(funcs)) + multiset(RunPlan(sims, dt, funcs, steps - 1));
    PerRound(multiset(RunPlan(sims, dt, funcs, steps))[Callback(f)],
             multiset(RunPlan(sims, dt, funcs, steps - 1))[Callback(f)], multiset(funcs)[f], steps);
  }

  /** Over a whole run each simulator module is advanced by dt once per
      round for each time it occurs in sim_list. */
  lemma {:induction false} SimRunCounts(sims: seq<Simulator>, dt: real, funcs: seq<Value>, steps: int, s: Simulator)
    requires steps >= 0
    ensures multiset(RunPlan(sims, dt, funcs, steps))[SimRun(s, dt)] == steps * multiset(sims)[s]
    decreases steps
  {
    if steps > 0 {
      SimRunCounts(sims, dt, funcs, steps - 1, s);
      SimRunCountStep(sims, dt, funcs, steps, s);
    }
  }

  /** Over a whole run each callback is called once per round for each time
      it was passed. */
  lemma {:induction false} CallbackCounts(sims: seq<Simulator>, dt: real, funcs: seq<Value>, steps: int, f: Value)
    requires steps >= 0
    ensures multiset(RunPlan(sims, dt, funcs, steps))[Callback(f)] == steps * multiset(funcs)[f]
    decreases steps
  {
    if steps > 0 {
      CallbackCounts(sims, dt, funcs, steps - 1, f);
      CallbackCountStep(sims, dt, funcs, steps, f);
    }
  }

  /** What run leaves behind: steps == 0 raises ZeroDivisionError before any
      call, negative steps make no call at all, and otherwise the run's calls
      are made in order up to and including the first that raises. */
  lemma RunBehaviour(env: Environment, log: seq<Call>, sims: seq<Simulator>, simtime: real, steps: int, funcs: seq<Value>)
    ensures var (after, outcome) := RunOutcome(env, log, sims, simtime, steps, funcs);
      && (steps == 0 ==> after == log && outcome == Failure(ZeroDivisionError))
      && (steps < 0 ==> after == log && outcome == Success(()))
      && (steps > 0 ==>
            var plan := RunPlan(sims, simtime / steps as real, funcs, steps);
            var k := FirstRaise(env, log, plan);
            && (outcome.Success? <==> k == |plan|)
            && (outcome.Success? ==> after == log + plan)
            && (outcome.Failure? ==>
                  after == log + plan[..k + 1] && env(log + plan[..k], plan[k]) == Raised(outcome.error.exception)))
  {
    if steps > 0 {
      var plan := RunPlan(sims, simtime / steps as real, funcs, steps);
      ExecStopsAtRaise(env, log, plan);
      if Exec(env, log, plan).raised.None? {
        ExecCompletes(env, log, plan);
      }
    }
  }

  /** end() ends the simulator modules of sim_list in order; the first that
      raises stops it, and a module that occurs only after that one is never
      ended. */
  lemma EndStopsAtFirstFailure(env: Environment, log: seq<Call>, sims: seq<Simulator>)
    ensures var (after, outcome) := EndOutcome(env, log, sims); var k := FirstRaise(env, log, EndPlan(sims));
      && (outcome.Success? <==> k == |sims|)
      && (outcome.Success? ==> after == log + EndPlan(sims))
      && (outcome.Failure? ==>
            && after == log + EndPlan(sims[..k + 1])
            && env(log + EndPlan(sims[..k]), SimEnd(sims[k])) == Raised(outcome.error.exception)
            && forall j :: k < j < |sims| && sims[j] !in sims[..k + 1] ==> SimEnd(sims[j]) !in after[|log|..])
  {
    var plan := EndPlan(sims);
    ExecStopsAtRaise(env, log, plan);
    var e := Exec(env, log, plan);
    if e.raised.None? {
      ExecCompletes(env, log, plan);
    } else {
      var k := FirstRaise(env, log, plan);
      assert plan[..k + 1] == EndPlan(sims[..k + 1]);
      assert plan[..k] == EndPlan(sims[..k]);
      var after := log + plan[..k + 1];
      assert after[|log|..] == EndPlan(sims[..k + 1]);
    }
  }

  /** After __init__, nets has one entry per distinct simulator name. Each
      entry holds what the net factory returned for the LAST simulator of
      that name; the iteration order lists every name once. A raising factory
      call leaves the calls made up to it and no object. */
  lemma BuildRegistry(env: Environment, log: seq<Call>, sims: seq<Simulator>, net: Value, parameters: Value)
    ensures var (after, outcome) := BuildOutcome(env, log, sims, net, parameters);
      var plan := BuildPlan(net, sims, parameters); var k := FirstRaise(env, log, plan);
      && (outcome.Success? <==> k == |sims|)
      && (outcome.Success? ==>
            && after == log + plan
            && outcome.value.nets.Keys == (set s | s in sims :: s.name)
            && Distinct(outcome.value.order)
            && (set n | n in outcome.value.order) == outcome.value.nets.Keys
            && forall j :: 0 <= j < |sims| && (forall l :: j < l < |sims| ==> sims[l].name != sims[j].name) ==>
                 env(log + plan[..j], BuildNet(net, sims[j], parameters)) == Returned(outcome.value.nets[sims[j].name]))
      && (outcome.Failure? ==>
            after == log + plan[..k + 1] && env(log + plan[..k], plan[k]) == Raised(outcome.error.exception))
  {
    var plan := BuildPlan(net, sims, parameters);
    var names := Names(sims);
    ExecStopsAtRaise(env, log, plan);
    var e := Exec(env, log, plan);
    if e.raised.None? {
      ExecCompletes(env, log, plan);
      var nets := ZipMap(names, e.returned);
      assert (set n | n in names) == (set s | s in sims :: s.name) by {
        forall n | n in names ensures n in (set s | s in sims :: s.name) {
          var j :| 0 <= j < |names| && names[j] == n;
          assert sims[j] in sims;
        }
        forall s | s in sims ensures s.name in names {
          var j :| 0 <= j < |sims| && sims[j] == s;
          assert names[j] == s.name;
        }
      }
      forall j | 0 <= j < |sims| && (forall l :: j < l < |sims| ==> sims[l].name != sims[j].name)
        ensures env(log + plan[..j], BuildNet(net, sims[j], parameters)) == Returned(nets[sims[j].name])
      {
        ZipMapLastWins(names, e.returned, j);
      }
    }
  }

  /** A broadcast that raises nowhere returns a dictionary with exactly the
      keys of nets, each mapped to what its own net's method returned for the
      same arguments; otherwise the calls stop at the first net that raises
      and its exception is what propagates. */
  lemma BroadcastCollects(env: Environment, log: seq<Call>, nets: map<string, Value>, order: seq<string>,
                          name: string, args: seq<Value>, kwargs: map<string, Value>)
    requires Distinct(order) && (set k | k in order) == nets.Keys
    ensures var (after, outcome) := BroadcastOutcome(env, log, nets, order, name, args, kwargs);
      var plan := BroadcastPlan(nets, order, name, args, kwargs); var k := FirstRaise(env, log, plan);
      && (outcome.Success? <==> k == |order|)
      && (outcome.Success? ==>
            && after == log + plan
            && outcome.value.Keys == nets.Keys
            && forall i :: 0 <= i < |order| ==>
                 env(log + plan[..i], NetMethod(nets[order[i]], name, args, kwargs)) == Returned(outcome.value[order[i]]))
      && (outcome.Failure? ==>
            && after == log + plan[..k + 1]
            && env(log + plan[..k], NetMethod(nets[order[k]], name, args, kwargs)) == Raised(outcome.error.exception))
  {
    var plan := BroadcastPlan(nets, order, name, args, kwargs);
    ExecStopsAtRaise(env, log, plan);
    var e := Exec(env, log, plan);
    if e.raised.None? {
      ExecCompletes(env, log, plan);
      forall i | 0 <= i < |order|
        ensures ZipMap(order, e.returned)[order[i]] == e.returned[i]
      {
        ZipMapLastWins(order, e.returned, i);
      }
    }
  }
}
