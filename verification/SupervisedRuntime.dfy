/** A supervisor at work in the runtime. It lives inside an actor, the boss; `start_all` and
    `handle_failure` are calls made by the boss's handler, and each factory they call spawns through the
    context of that handler, while all other threads go on. */
module SupervisedRuntime {
  import opened Actors
  import opened RuntimeModel
  import opened Reachable
  import opened ShutdownProtocol
  import opened Frames
  import opened Stops
  import opened SupervisorSpec

  /** A call of the supervisor: `done` factories have returned, and one may be `spawning`. */
  datatype Call = Idle | Within(op: Op, done: nat, spawning: bool)

  /** `ops` are the calls that have returned. */
  datatype Setting = Setting(world: World, worker: nat, boss: ActorId, sup: Sup, ops: seq<Op>, call: Call)

  /** What happens next: a step of the runtime in which the supervisor has no part, or a move of the
      supervisor. */
  datatype Event =
    | Outside(step: Step)
    | Called(op: Op)
    | FactoryCalled
    | FactoryReturned(actor: State)
    | Returned

  /** The boss's handler is running. */
  predicate AtWork(s: Setting) {
    && s.worker < |s.world.workers| && Unblocked(s.world.workers[s.worker].phase)
    && s.world.workers[s.worker].phase.envelope.target == s.boss
  }

  /** How many factories a call uses. */
  function CallsOf(sup: Sup, supply: Supply, op: Op): nat {
    match op
    case Register => 0
    case Start => sup.factories
    case Report(failed) =>
      match HandleFailure(sup, supply, failed).1
      case Restarted(ids) => |ids|
      case NoFactory => 0
  }

  function Done(call: Call): nat { if call.Idle? then 0 else call.done }

  /** What the next factory returns. */
  function NextChild(s: Setting, supply: Supply): ActorId { supply(|s.sup.made| + Done(s.call)) }

  /** A factory spawns through the context: it begins a child and inserts it. */
  function StepOf(s: Setting, supply: Supply, e: Event): Option<Step> {
    match e
    case Outside(step) => Some(step)
    case FactoryCalled => Some(ChildBegin(s.worker, None))
    case FactoryReturned(actor) => Some(ChildInsert(NextChild(s, supply), actor))
    case _ => None
  }

  /** While the supervisor is called, the boss's handler does not end, and nobody else inserts the child
      of the factory. The supply is what the identity counter hands out to the factories. */
  predicate Possible(s: Setting, supply: Supply, e: Event) {
    && (StepOf(s, supply, e).Some? ==> Enabled(s.world, StepOf(s, supply, e).value))
    && match e
       case Outside(step) =>
         s.call.Within? ==>
           && step != FinishTurn(s.worker)
           && !(s.call.spawning && step.ChildInsert? && step.id == NextChild(s, supply))
       case Called(_) => s.call.Idle? && AtWork(s)
       case FactoryCalled =>
         && s.call.Within? && !s.call.spawning && s.call.done < CallsOf(s.sup, supply, s.call.op)
         && s.world.nextId == NextChild(s, supply)
       case FactoryReturned(_) => s.call.Within? && s.call.spawning
       case Returned =>
         && s.call.Within? && !s.call.spawning && s.call.done == CallsOf(s.sup, supply, s.call.op)
         && AtWork(s)
  }

  function WorldAfter(h: Behaviour, s: Setting, supply: Supply, e: Event): World
    requires Possible(s, supply, e)
  {
    match StepOf(s, supply, e)
    case None => s.world
    case Some(step) => Apply(h, s.world, step)
  }

  function CallAfter(s: Setting, e: Event): Call {
    match e
    case Outside(_) => s.call
    case Called(op) => Within(op, 0, false)
    case FactoryCalled => if s.call.Within? then s.call.(spawning := true) else s.call
    case FactoryReturned(_) => if s.call.Within? then Within(s.call.op, s.call.done + 1, false) else s.call
    case Returned => Idle
  }

  function Next(h: Behaviour, s: Setting, supply: Supply, e: Event): Setting
    requires Possible(s, supply, e)
  {
    var s' := s.(world := WorldAfter(h, s, supply, e), call := CallAfter(s, e));
    if e.Returned? then s'.(sup := Do(s.sup, supply, s.call.op), ops := s.ops + [s.call.op]) else s'
  }

  /** `s` leads to `s'` through the given events. */
  ghost predicate Works(h: Behaviour, s: Setting, supply: Supply, events: seq<Event>, s': Setting)
    decreases |events|
  {
    if events == [] then s' == s
    else Possible(s, supply, events[0]) && Works(h, Next(h, s, supply, events[0]), supply, events[1..], s')
  }

  /** The steps of the runtime in it. */
  ghost function StepsOf(h: Behaviour, s: Setting, supply: Supply, events: seq<Event>): seq<Step>
    decreases |events|
  {
    if events == [] || !Possible(s, supply, events[0]) then []
    else
      (match StepOf(s, supply, events[0]) case None => [] case Some(step) => [step])
      + StepsOf(h, Next(h, s, supply, events[0]), supply, events[1..])
  }

  /** A supervisor at work is a run of the runtime. */
  lemma {:induction false} RunOfWork(h: Behaviour, s: Setting, supply: Supply, events: seq<Event>, s': Setting)
    requires Works(h, s, supply, events, s')
    ensures Run(h, s.world, StepsOf(h, s, supply, events), s'.world)
    decreases |events|
  {
    hide Apply, Enabled;
    if events != [] {
      var s1 := Next(h, s, supply, events[0]);
      RunOfWork(h, s1, supply, events[1..], s');
      var rest := StepsOf(h, s1, supply, events[1..]);
      match StepOf(s, supply, events[0])
      case None => assert [] + rest == rest;
      case Some(step) => assert ([step] + rest)[1..] == rest;
    }
  }

  // ---- the invariant ----

  /** Everyone the factories have made was placed on the boss's worker. */
  ghost predicate MadeAtHome(s: Setting, supply: Supply) {
    forall k: nat :: k < |s.sup.made| + Done(s.call) ==> HomedAt(s.world, s.worker, supply(k))
  }

  /** During a call the boss's handler runs, and a factory's child is inside its spawn. */
  ghost predicate CallOk(s: Setting, supply: Supply) {
    s.call.Within? ==>
      && s.worker < |s.world.workers| && s.world.workers[s.worker].phase.Handling?
      && s.world.workers[s.worker].phase.envelope.target == s.boss
      && (s.call.spawning ==> IsStarting(s.world, NextChild(s, supply), s.worker))
  }

  ghost predicate IsStarting(s: World, id: ActorId, w: nat) {
    id in s.starting && s.starting[id] == Starting(w, ByWorker)
  }

  ghost predicate SettingOk(h: Behaviour, s: Setting, supply: Supply) {
    Inv(h, s.world) && MadeAtHome(s, supply) && CallOk(s, supply)
  }

  /** What a call makes is what its factories return. */
  lemma CallsMade(sup: Sup, supply: Supply, op: Op)
    ensures |Do(sup, supply, op).made| == |sup.made| + CallsOf(sup, supply, op)
  {
  }

  lemma StillStarting(h: Behaviour, s: World, step: Step, id: ActorId, w: nat)
    requires Inv(h, s) && Enabled(s, step) && IsStarting(s, id, w) && !(step.ChildInsert? && step.id == id)
    ensures IsStarting(Apply(h, s, step), id, w)
  {
    SpawnsStep(h, s, step);
    assert SpawnsOf(Apply(h, s, step)).starting == Apply(h, s, step).starting;
    StartingIsNotNext(h, s, id);
    hide Inv, Apply;
  }

  lemma StartingIsNotNext(h: Behaviour, s: World, id: ActorId)
    requires Inv(h, s) && id in s.starting
    ensures id !in s.unpicked && id != s.nextId
  {
    if id in s.unpicked {
      ActorNotTwice(h, s, id, Allocated, InStarted);
    }
    FoundAt(h, s, id, InStarted);
    InvPlaces(h, s);
  }

  lemma ChildBegins(h: Behaviour, s: World, w: nat)
    requires Enabled(s, ChildBegin(w, None))
    ensures IsStarting(Apply(h, s, ChildBegin(w, None)), s.nextId, w)
  {
  }

  lemma ChildEnters(h: Behaviour, s: World, id: ActorId, actor: State, w: nat)
    requires Enabled(s, ChildInsert(id, actor)) && IsStarting(s, id, w)
    ensures var s' := Apply(h, s, ChildInsert(id, actor));
            HomedAt(s', w, id) && w < |s'.workers| && id in s'.workers[w].actors
  {
  }

  /** A step of the runtime during or between calls. */
  lemma StepOk(h: Behaviour, s: Setting, supply: Supply, step: Step)
    requires SettingOk(h, s, supply) && Possible(s, supply, Outside(step))
    ensures SettingOk(h, Next(h, s, supply, Outside(step)), supply)
  {
    hide Inv, Apply, Enabled, IsStarting, HomedAt;
    StepInv(h, s.world, step);
    forall k: nat | k < |s.sup.made| + Done(s.call) ensures HomedAt(Apply(h, s.world, step), s.worker, supply(k)) {
      StepStillHome(h, s.world, step, s.worker, supply(k));
    }
    if s.call.Within? {
      HandlerGoesOn(h, s.world, step, s.worker);
      if s.call.spawning {
        StillStarting(h, s.world, step, NextChild(s, supply), s.worker);
      }
    }
  }

  lemma FactoryOk(h: Behaviour, s: Setting, supply: Supply, e: Event)
    requires SettingOk(h, s, supply) && Possible(s, supply, e) && (e.FactoryCalled? || e.FactoryReturned?)
    ensures SettingOk(h, Next(h, s, supply, e), supply)
  {
    hide Inv, Apply, Enabled, IsStarting, HomedAt, CallsOf;
    var step := StepOf(s, supply, e).value;
    StepInv(h, s.world, step);
    HandlerGoesOn(h, s.world, step, s.worker);
    forall k: nat | k < |s.sup.made| + s.call.done ensures HomedAt(Apply(h, s.world, step), s.worker, supply(k)) {
      StepStillHome(h, s.world, step, s.worker, supply(k));
    }
    if e.FactoryCalled? {
      ChildBegins(h, s.world, s.worker);
    } else {
      ChildEnters(h, s.world, NextChild(s, supply), e.actor, s.worker);
    }
  }

  lemma EventOk(h: Behaviour, s: Setting, supply: Supply, e: Event)
    requires SettingOk(h, s, supply) && Possible(s, supply, e)
    ensures SettingOk(h, Next(h, s, supply, e), supply)
  {
    match e
    case Outside(step) => StepOk(h, s, supply, step);
    case FactoryCalled => FactoryOk(h, s, supply, e);
    case FactoryReturned(_) => FactoryOk(h, s, supply, e);
    case Called(_) => hide Inv;
    case Returned =>
      hide Inv, CallsOf, Do;
      CallsMade(s.sup, supply, s.call.op);
  }

  lemma {:induction false} WorkOk(h: Behaviour, s: Setting, supply: Supply, events: seq<Event>, s': Setting)
    requires SettingOk(h, s, supply) && Works(h, s, supply, events, s')
    ensures SettingOk(h, s', supply) && s'.worker == s.worker
    decreases |events|
  {
    hide SettingOk, Possible;
    if events != [] {
      EventOk(h, s, supply, events[0]);
      WorkOk(h, Next(h, s, supply, events[0]), supply, events[1..], s');
    }
  }

  // ---- a call stops nobody ----

  /** The actors in the map of the boss's worker. */
  function Neighbours(s: Setting): set<ActorId> {
    if s.worker < |s.world.workers| then s.world.workers[s.worker].actors.Keys else {}
  }

  /** While the boss's handler runs, nobody leaves the map of its worker. */
  lemma StepLosesNobody(h: Behaviour, s: World, step: Step, w: nat)
    requires Inv(h, s) && Enabled(s, step) && w < |s.workers| && s.workers[w].phase.Handling?
    ensures |Apply(h, s, step).workers| == |s.workers|
    ensures s.workers[w].actors.Keys <= Apply(h, s, step).workers[w].actors.Keys
  {
    SpawnsStep(h, s, step);
    forall id | id in s.workers[w].actors ensures id in Apply(h, s, step).workers[w].actors {
      LeavesTheMap(h, s, step, w, id);
    }
    hide Inv, Apply;
  }

  lemma EventLosesNobody(h: Behaviour, s: Setting, supply: Supply, e: Event)
    requires SettingOk(h, s, supply) && Possible(s, supply, e) && s.call.Within?
    ensures Neighbours(s) <= Neighbours(Next(h, s, supply, e))
    ensures e.FactoryReturned? ==> NextChild(s, supply) in Neighbours(Next(h, s, supply, e))
  {
    hide Inv, Apply, Enabled, CallsOf, Do;
    var step := StepOf(s, supply, e);
    if step.Some? {
      StepLosesNobody(h, s.world, step.value, s.worker);
      if e.FactoryReturned? {
        ChildEnters(h, s.world, NextChild(s, supply), e.actor, s.worker);
      }
    }
  }

  /** The actors numbers `m` to `n` of the supervisor's making are among the neighbours. */
  ghost predicate Near(s: Setting, supply: Supply, m: nat, n: nat) {
    forall k: nat :: m <= k < n ==> supply(k) in Neighbours(s)
  }

  /** A call in which `done` factories have returned, in a later state of the same call. */
  ghost predicate SameCall(s: Setting, s': Setting) {
    && s.call.Within? && s'.call.Within? && s'.call.op == s.call.op && s.call.done <= s'.call.done
    && s'.sup == s.sup && s'.ops == s.ops && s'.worker == s.worker
  }

  lemma InCall(h: Behaviour, s: Setting, supply: Supply, e: Event)
    requires Possible(s, supply, e) && s.call.Within? && e != Returned
    ensures SameCall(s, Next(h, s, supply, e))
    ensures var s' := Next(h, s, supply, e);
            s'.call.done == s.call.done || (e.FactoryReturned? && s'.call.done == s.call.done + 1)
  {
    hide Apply, Enabled, CallsOf, Do;
  }

  lemma {:induction false} DuringCall(h: Behaviour, s: Setting, supply: Supply, events: seq<Event>, s': Setting)
    requires SettingOk(h, s, supply) && s.call.Within? && Works(h, s, supply, events, s') && Returned !in events
    ensures SameCall(s, s') && Neighbours(s) <= Neighbours(s')
    ensures Near(s', supply, |s.sup.made| + s.call.done, |s.sup.made| + s'.call.done)
    decreases |events|
  {
    hide SettingOk, Possible, Next;
    if events != [] {
      var s1 := Next(h, s, supply, events[0]);
      EventOk(h, s, supply, events[0]);
      EventLosesNobody(h, s, supply, events[0]);
      InCall(h, s, supply, events[0]);
      assert Returned !in events[1..];
      DuringCall(h, s1, supply, events[1..], s');
      hide Neighbours, Works;
    }
  }

  /** `start_all` and `handle_failure` in the runtime, under both strategies and whatever other threads do
      meanwhile: from the call to its return nobody leaves the map of the boss's worker, so every sibling
      of the reported child is still there and no stopped hook of theirs has run; and whoever the call
      made is in that map, too. */
  lemma CallStopsNobody(h: Behaviour, s: Setting, supply: Supply, op: Op, events: seq<Event>, s1: Setting)
    requires SettingOk(h, s, supply) && Possible(s, supply, Called(op))
    requires Works(h, Next(h, s, supply, Called(op)), supply, events, s1) && Returned !in events
    requires Possible(s1, supply, Returned)
    ensures var s' := Next(h, s1, supply, Returned);
            && s'.sup == Do(s.sup, supply, op) && s'.ops == s.ops + [op]
            && Neighbours(s) <= Neighbours(s') && Near(s', supply, |s.sup.made|, |s'.sup.made|)
            && (forall id :: id in Neighbours(s) ==> id !in s'.world.stops)
  {
    var s0 := Next(h, s, supply, Called(op));
    EventOk(h, s, supply, Called(op));
    CallBegins(h, s, supply, op);
    hide SettingOk, Possible, Do, Neighbours;
    DuringCall(h, s0, supply, events, s1);
    WorkOk(h, s0, supply, events, s1);
    CallEnds(h, s1, supply);
    hide Next, Works;
    CallsMade(s.sup, supply, op);
  }

  lemma CallBegins(h: Behaviour, s: Setting, supply: Supply, op: Op)
    requires Possible(s, supply, Called(op))
    ensures Next(h, s, supply, Called(op)) == s.(call := Within(op, 0, false))
  {
  }

  lemma CallEnds(h: Behaviour, s: Setting, supply: Supply)
    requires SettingOk(h, s, supply) && Possible(s, supply, Returned)
    ensures s.call.Within? && s.call.done == CallsOf(s.sup, supply, s.call.op)
    ensures Next(h, s, supply, Returned)
         == s.(call := Idle, sup := Do(s.sup, supply, s.call.op), ops := s.ops + [s.call.op])
    ensures forall id :: id in Neighbours(s) ==> id !in s.world.stops
  {
    hide Do, CallsOf, Inv;
    forall id | id in Neighbours(s) ensures id !in s.world.stops {
      AliveIsHome(h, s.world, s.worker, id);
    }
  }
  // ---- a call can run ----

  /** Each factory in turn is called and spawns the given actor. */
  function FactoryEvents(actors: seq<State>): seq<Event> {
    if actors == [] then [] else [FactoryCalled, FactoryReturned(actors[0])] + FactoryEvents(actors[1..])
  }

  /** The identity counter goes on with what the supply says the next `k` factories return. */
  ghost predicate Supplies(s: Setting, supply: Supply, k: nat) {
    var m := |s.sup.made| + Done(s.call);
    && s.world.nextId + k <= ID_RANGE
    && forall j: nat :: m <= j < m + k ==> supply(j) == s.world.nextId + (j - m)
  }

  lemma FactoryCalls(h: Behaviour, s: Setting, supply: Supply)
    requires s.call.Within? && !s.call.spawning && AtWork(s) && s.call.done < CallsOf(s.sup, supply, s.call.op)
    requires s.world.nextId == NextChild(s, supply) && s.world.nextId < ID_RANGE
    ensures Possible(s, supply, FactoryCalled)
    ensures var s1 := Next(h, s, supply, FactoryCalled);
            && s1 == s.(world := s1.world, call := s.call.(spawning := true)) && AtWork(s1)
            && s1.world.nextId == s.world.nextId + 1
            && IsStarting(s1.world, NextChild(s1, supply), s1.worker)
  {
    hide CallsOf;
  }

  lemma FactoryReturns(h: Behaviour, s: Setting, supply: Supply, actor: State)
    requires s.call.Within? && s.call.spawning && AtWork(s)
    requires IsStarting(s.world, NextChild(s, supply), s.worker)
    ensures Possible(s, supply, FactoryReturned(actor))
    ensures var s1 := Next(h, s, supply, FactoryReturned(actor));
            && s1 == s.(world := s1.world, call := Within(s.call.op, s.call.done + 1, false)) && AtWork(s1)
            && s1.world.nextId == s.world.nextId
  {
    hide CallsOf;
    var step := ChildInsert(NextChild(s, supply), actor);
    assert Enabled(s.world, step);
    SpawnsStep(h, s.world, step);
    HandlerGoesOn(h, s.world, step, s.worker);
    hide Apply;
    assert SpawnsOf(Apply(h, s.world, step)).nextId == s.world.nextId;
  }

  lemma {:induction false} FactoriesRun(h: Behaviour, s: Setting, supply: Supply, actors: seq<State>)
    returns (s': Setting)
    requires s.call.Within? && !s.call.spawning && AtWork(s) && Supplies(s, supply, |actors|)
    requires s.call.done + |actors| <= CallsOf(s.sup, supply, s.call.op)
    ensures Works(h, s, supply, FactoryEvents(actors), s') && AtWork(s')
    ensures s' == s.(world := s'.world, call := Within(s.call.op, s.call.done + |actors|, false))
    decreases |actors|
  {
    hide Possible, Next, AtWork, CallsOf;
    if actors == [] {
      s' := s;
    } else {
      FactoryCalls(h, s, supply);
      var s1 := Next(h, s, supply, FactoryCalled);
      FactoryReturns(h, s1, supply, actors[0]);
      var s2 := Next(h, s1, supply, FactoryReturned(actors[0]));
      s' := FactoriesRun(h, s2, supply, actors[1..]);
      WorksFrom(h, s, supply, FactoryCalled, s1, FactoryReturned(actors[0]), s2, FactoryEvents(actors[1..]), s');
    }
  }

  lemma WorksFrom(h: Behaviour, s: Setting, supply: Supply, e: Event, s1: Setting, e1: Event, s2: Setting,
                  rest: seq<Event>, s': Setting)
    requires Possible(s, supply, e) && s1 == Next(h, s, supply, e)
    requires Possible(s1, supply, e1) && s2 == Next(h, s1, supply, e1)
    requires Works(h, s2, supply, rest, s')
    ensures Works(h, s, supply, [e, e1] + rest, s')
  {
    hide Possible, Next;
    var events := [e, e1] + rest;
    assert events[0] == e && events[1..] == [e1] + rest && events[1..][1..] == rest;
  }

  /** From any state in which the boss's handler runs, a call can run to its return with nobody else
      stepping in between: its factories spawn one after the other, each by two steps of the runtime. */
  lemma CallCanRun(h: Behaviour, s: Setting, supply: Supply, op: Op, actors: seq<State>) returns (s1: Setting)
    requires s.call.Idle? && AtWork(s) && |actors| == CallsOf(s.sup, supply, op) && Supplies(s, supply, |actors|)
    ensures Possible(s, supply, Called(op))
    ensures Works(h, Next(h, s, supply, Called(op)), supply, FactoryEvents(actors), s1)
    ensures Possible(s1, supply, Returned) && AtWork(Next(h, s1, supply, Returned))
  {
    hide CallsOf, Do;
    CallBegins(h, s, supply, op);
    var s0 := s.(call := Within(op, 0, false));
    s1 := FactoriesRun(h, s0, supply, actors);
  }

  // ---- who is alive ----

  /** Results `m` to `n` of the factories. */
  ghost function Between(supply: Supply, m: nat, n: nat): set<ActorId> {
    set k | m <= k < n :: supply(k)
  }

  ghost function EverMade(s: Setting, supply: Supply): set<ActorId> { Between(supply, 0, |s.sup.made|) }

  /** The actors of the supervisor's making that are in the map of their worker or in its dispatch. */
  ghost function LiveOnes(s: Setting, supply: Supply): set<ActorId> {
    set id | id in EverMade(s, supply) && Alive(s.world, s.worker, id)
  }

  /** Those whose stopped hook has run. */
  ghost function StoppedOnes(s: Setting, supply: Supply): set<ActorId> {
    set id | id in EverMade(s, supply) && id in s.world.stops
  }

  /** A new supervisor in a runtime in any state. */
  ghost predicate IsNew(h: Behaviour, s: Setting, strategy: Strategy, maxRestarts: nat) {
    Inv(h, s.world) && s.call.Idle? && s.sup == NewSupervisor(strategy, maxRestarts) && s.ops == []
  }

  lemma NewOk(h: Behaviour, s: Setting, supply: Supply, strategy: Strategy, maxRestarts: nat)
    requires IsNew(h, s, strategy, maxRestarts)
    ensures SettingOk(h, s, supply)
  {
    hide Inv;
  }

  lemma {:induction false} DoAllConcat(sup: Sup, supply: Supply, ops: seq<Op>, more: seq<Op>)
    ensures DoAll(sup, supply, ops + more) == DoAll(DoAll(sup, supply, ops), supply, more)
    decreases |ops|
  {
    hide Do;
    if ops == [] {
      assert ops + more == more;
    } else {
      assert (ops + more)[1..] == ops[1..] + more;
      DoAllConcat(Do(sup, supply, ops[0]), supply, ops[1..], more);
    }
  }

  lemma DoAllOne(sup: Sup, supply: Supply, op: Op)
    ensures DoAll(sup, supply, [op]) == Do(sup, supply, op)
  {
    hide Do;
    assert [op][1..] == [];
  }

  lemma OpsStep(h: Behaviour, s: Setting, supply: Supply, e: Event, sup: Sup)
    requires Possible(s, supply, e) && s.sup == DoAll(sup, supply, s.ops)
    ensures var s' := Next(h, s, supply, e); s'.sup == DoAll(sup, supply, s'.ops)
  {
    hide Apply, Enabled, Do, CallsOf;
    if e == Returned {
      DoAllConcat(sup, supply, s.ops, [s.call.op]);
      DoAllOne(s.sup, supply, s.call.op);
      hide DoAll;
    }
  }

  /** The supervisor is what its calls make of it, one after the other. */
  lemma {:induction false} OpsOfWork(h: Behaviour, s: Setting, supply: Supply, events: seq<Event>, s': Setting,
                                     sup: Sup)
    requires Works(h, s, supply, events, s') && s.sup == DoAll(sup, supply, s.ops)
    ensures s'.sup == DoAll(sup, supply, s'.ops)
    decreases |events|
  {
    hide Possible, DoAll, Next;
    if events != [] {
      OpsStep(h, s, supply, events[0], sup);
      OpsOfWork(h, Next(h, s, supply, events[0]), supply, events[1..], s', sup);
    }
  }

  lemma {:induction false} BetweenSize(supply: Supply, m: nat, n: nat)
    requires Fresh(supply) && m <= n
    ensures |Between(supply, m, n)| == n - m
    decreases n
  {
    if m < n {
      BetweenSize(supply, m, n - 1);
      assert Between(supply, m, n) == Between(supply, m, n - 1) + {supply(n - 1)};
    } else {
      assert Between(supply, m, n) == {};
    }
  }

  /** Over every run of a supervisor at work, whatever it is called for and whatever else happens: its
      state is what its calls make of it; whoever a factory made is alive until its stopped hook has run;
      and those alive and those stopped add up to the factory calls. */
  lemma LiveOrStopped(h: Behaviour, s: Setting, supply: Supply, events: seq<Event>, s': Setting, strategy: Strategy,
                      maxRestarts: nat)
    requires Fresh(supply) && IsNew(h, s, strategy, maxRestarts) && Works(h, s, supply, events, s')
    ensures s'.sup == DoAll(NewSupervisor(strategy, maxRestarts), supply, s'.ops)
    ensures LiveOnes(s', supply) == EverMade(s', supply) - StoppedOnes(s', supply)
    ensures |LiveOnes(s', supply)| + |StoppedOnes(s', supply)| == |s'.sup.made|
  {
    NewOk(h, s, supply, strategy, maxRestarts);
    OpsOfWork(h, s, supply, events, s', NewSupervisor(strategy, maxRestarts));
    WorkOk(h, s, supply, events, s');
    forall id | id in EverMade(s', supply)
      ensures Alive(s'.world, s'.worker, id) <==> id !in s'.world.stops
    {
      var k: nat :| k < |s'.sup.made| && supply(k) == id;
      AliveIffNotStopped(h, s'.world, s'.worker, id);
    }
    BetweenSize(supply, 0, |s'.sup.made|);
    hide Inv, Works, DoAll, Alive, Fresh, SettingOk, Between;
    var all, stopped := EverMade(s', supply), StoppedOnes(s', supply);
    assert LiveOnes(s', supply) == all - stopped;
    assert all == (all - stopped) + stopped;
  }

  // ---- all for one ----

  /** `n` registrations, one start, and then reports. */
  function Career(n: nat, failures: seq<ActorId>): seq<Op> {
    seq(n, _ => Register) + [Start] + seq(|failures|, i requires 0 <= i < |failures| => Report(failures[i]))
  }

  lemma {:induction false} Registrations(sup: Sup, supply: Supply, n: nat)
    ensures DoAll(sup, supply, seq(n, _ => Register)) == sup.(factories := sup.factories + n)
    decreases n
  {
    if n > 0 {
      assert seq(n, _ => Register)[1..] == seq(n - 1, _ => Register);
      Registrations(Do(sup, supply, Register), supply, n - 1);
    }
  }

  lemma {:induction false} OnlyReports(sup: Sup, supply: Supply, failures: seq<ActorId>)
    ensures DoAll(sup, supply, seq(|failures|, i requires 0 <= i < |failures| => Report(failures[i])))
         == Reports(sup, supply, failures)
    decreases |failures|
  {
    hide HandleFailure;
    if failures != [] {
      var ops := seq(|failures|, i requires 0 <= i < |failures| => Report(failures[i]));
      var rest := failures[1..];
      assert ops[1..] == seq(|rest|, i requires 0 <= i < |rest| => Report(rest[i]));
      OnlyReports(Do(sup, supply, ops[0]), supply, rest);
    }
  }

  lemma CareerReports(strategy: Strategy, maxRestarts: nat, supply: Supply, n: nat, failures: seq<ActorId>)
    ensures DoAll(NewSupervisor(strategy, maxRestarts), supply, Career(n, failures))
         == Reports(Started(strategy, maxRestarts, n, supply), supply, failures)
  {
    var s0 := NewSupervisor(strategy, maxRestarts);
    var s1 := s0.(factories := n);
    var reports := seq(|failures|, i requires 0 <= i < |failures| => Report(failures[i]));
    Registrations(s0, supply, n);
    assert Started(strategy, maxRestarts, n, supply) == Do(s1, supply, Start);
    DoAllOne(s1, supply, Start);
    OnlyReports(Do(s1, supply, Start), supply, failures);
    hide DoAll, Reports, Do;
    DoAllConcat(s0, supply, seq(n, _ => Register), [Start]);
    DoAllConcat(s0, supply, seq(n, _ => Register) + [Start], reports);
  }

  /** All for one, with a positive limit, in every run: after the start of `n` factories and `k` reports,
      of whatever actors, those alive and those stopped are `n + k * n`. So as many siblings are left over
      as have not stopped by themselves. */
  lemma RestartsPileUp(h: Behaviour, s: Setting, supply: Supply, events: seq<Event>, s': Setting, maxRestarts: nat,
                       n: nat, failures: seq<ActorId>)
    requires Fresh(supply) && maxRestarts > 0 && IsNew(h, s, AllForOne, maxRestarts)
    requires Works(h, s, supply, events, s') && s'.ops == Career(n, failures)
    ensures |LiveOnes(s', supply)| + |StoppedOnes(s', supply)| == n + |failures| * n
  {
    LiveOrStopped(h, s, supply, events, s', AllForOne, maxRestarts);
    CareerReports(AllForOne, maxRestarts, supply, n, failures);
    AllForOneForEver(maxRestarts, n, supply, failures);
  }

  lemma NewBetween(sup: Sup, supply: Supply, n: nat)
    ensures Members(NewIds(sup, supply, n)) == Between(supply, |sup.made|, |sup.made| + n)
  {
    var ids := NewIds(sup, supply, n);
    forall id | id in Between(supply, |sup.made|, |sup.made| + n) ensures id in ids {
      var k: nat :| |sup.made| <= k < |sup.made| + n && supply(k) == id;
      assert ids[k - |sup.made|] == id;
    }
  }

  lemma BetweenJoined(supply: Supply, l: nat, m: nat, n: nat)
    requires l <= m <= n
    ensures Between(supply, l, n) == Between(supply, l, m) + Between(supply, m, n)
  {
  }

  lemma NotBetween(supply: Supply, id: ActorId, m: nat, n: nat)
    requires Fresh(supply) && Issued(supply, m, id)
    ensures id !in Between(supply, m, n)
  {
  }

  /** One report, of a current child: it goes, and the new ones come. */
  lemma FamilyStep(f: Family, supply: Supply, failed: ActorId)
    requires Fresh(supply) && FamilyOk(f, supply) && failed in f.sup.ids
    ensures var f', m := FailIn(f, supply, failed), |f.sup.made|;
            && FamilyOk(f', supply) && f'.sup == HandleFailure(f.sup, supply, failed).0
            && f'.live == f.live - {failed} + Between(supply, m, m + f.sup.factories)
            && |f'.sup.made| == m + f.sup.factories && f'.sup.factories == f.sup.factories
            && Issued(supply, m, failed)
  {
    FailInRestarts(f, supply, failed);
    RestartFamily(f, supply, failed);
    NewBetween(f.sup, supply, f.sup.factories);
    AtMostFactories(f.sup, supply);
    RestartAllSizes(f.sup, supply);
    assert failed in Members(f.sup.ids);
    assert FailIn(f, supply, failed).sup == HandleFailure(f.sup, supply, failed).0;
    hide FailIn, HandleFailure, AllOk, Fresh, Between, RestartAll;
  }

  /** The live set of `AllForOnePilesUp`: whoever has been made and not reported. */
  lemma {:induction false} FamilyLive(f: Family, supply: Supply, failures: seq<ActorId>)
    requires Fresh(supply) && FamilyOk(f, supply) && OfChildren(f, supply, failures)
    ensures var f' := FailAllIn(f, supply, failures);
            && f'.sup == Reports(f.sup, supply, failures) && |f.sup.made| <= |f'.sup.made|
            && f'.live == f.live + Between(supply, |f.sup.made|, |f'.sup.made|) - Members(failures)
    decreases |failures|
  {
    hide Fresh, FamilyOk, FailIn, HandleFailure, Between, Issued;
    var m := |f.sup.made|;
    if failures == [] {
      assert Between(supply, m, m) == {} by { BetweenSize(supply, m, m); }
    } else {
      var f1 := FailIn(f, supply, failures[0]);
      FamilyStep(f, supply, failures[0]);
      FamilyLive(f1, supply, failures[1..]);
      var m1, m' := |f1.sup.made|, |FailAllIn(f, supply, failures).sup.made|;
      BetweenJoined(supply, m, m1, m');
      NotBetween(supply, failures[0], m, m');
      assert failures == [failures[0]] + failures[1..];
      assert Members(failures) == {failures[0]} + Members(failures[1..]);
    }
  }

  /** So if, of the actors the supervisor made, exactly the reported ones have stopped, and each was a
      child when it was reported, the runtime's own maps and dispatches hold exactly the live set of
      `AllForOnePilesUp`: `n + k * (n - 1)` actors. */
  lemma SiblingsLiveOnInRuntime(h: Behaviour, s: Setting, supply: Supply, events: seq<Event>, s': Setting,
                                maxRestarts: nat, n: nat, failures: seq<ActorId>)
    requires Fresh(supply) && maxRestarts > 0 && IsNew(h, s, AllForOne, maxRestarts)
    requires Works(h, s, supply, events, s') && s'.ops == Career(n, failures)
    requires OfChildren(StartFamily(maxRestarts, n, supply), supply, failures)
    requires forall id :: id in EverMade(s', supply) ==> (id in s'.world.stops <==> id in failures)
    ensures LiveOnes(s', supply) == FailAllIn(StartFamily(maxRestarts, n, supply), supply, failures).live
    ensures |LiveOnes(s', supply)| == n + |failures| * (n - 1)
  {
    LiveOrStopped(h, s, supply, events, s', AllForOne, maxRestarts);
    CareerReports(AllForOne, maxRestarts, supply, n, failures);
    hide Works, IsNew, Alive, FailAllIn, OfChildren, Fresh, Reports, Started, DoAll, Career, StartFamily, Between;
    CareerLive(maxRestarts, n, supply, failures);
    AllForOnePilesUp(maxRestarts, n, supply, failures);
    StoppedAsReported(s', supply, failures);
    hide LiveOnes, EverMade, StoppedOnes, Members;
  }

  lemma StoppedAsReported(s: Setting, supply: Supply, failures: seq<ActorId>)
    requires forall id :: id in EverMade(s, supply) ==> (id in s.world.stops <==> id in failures)
    ensures EverMade(s, supply) - StoppedOnes(s, supply) == Between(supply, 0, |s.sup.made|) - Members(failures)
  {
    hide Between;
  }

  /** The live set of the bookkeeping, for a whole career. */
  lemma CareerLive(maxRestarts: nat, n: nat, supply: Supply, failures: seq<ActorId>)
    requires Fresh(supply) && maxRestarts > 0 && OfChildren(StartFamily(maxRestarts, n, supply), supply, failures)
    ensures var sup := Reports(Started(AllForOne, maxRestarts, n, supply), supply, failures);
            && FailAllIn(StartFamily(maxRestarts, n, supply), supply, failures).live
               == Between(supply, 0, |sup.made|) - Members(failures)
  {
    var f := StartFamily(maxRestarts, n, supply);
    StartedLive(maxRestarts, n, supply);
    StartFamilyOk(maxRestarts, n, supply);
    hide StartFamily, Started, FailAllIn, OfChildren, Fresh, Reports, FamilyOk, Between;
    FamilyLive(f, supply, failures);
    BetweenJoined(supply, 0, n, |FailAllIn(f, supply, failures).sup.made|);
  }

  lemma StartedLive(maxRestarts: nat, n: nat, supply: Supply)
    requires Fresh(supply)
    ensures var f := StartFamily(maxRestarts, n, supply);
            f.live == Between(supply, 0, n) && |f.sup.made| == n && f.sup == Started(AllForOne, maxRestarts, n, supply)
  {
    var s0 := NewSupervisor(AllForOne, maxRestarts).(factories := n);
    NewBetween(s0, supply, n);
    StartedChildren(AllForOne, maxRestarts, n, supply);
    assert Started(AllForOne, maxRestarts, n, supply).ids == NewIds(s0, supply, n);
  }
}
