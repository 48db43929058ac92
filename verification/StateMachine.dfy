/** The cyclic state wrapper of src/stateful.rs, alone and as an actor of the runtime. */
module StateMachines {
  import opened Actors
  import opened Modular
  import opened RuntimeModel
  import opened Mail
  import opened History
  import opened Reachable
  import Places

  /** The wrapped actor and the states it cycles through. */
  type Inner(!new)
  type CycleState(!new)

  /** What one call of `handle_in_state` does; a panic leaves the wrapped actor as far as it got. */
  datatype InnerOutcome =
    | Went(inner: Inner, reply: Reply)
    | WentAndStops(inner: Inner, reply: Reply)
    | WentWrong(inner: Inner)

  type InState = (Inner, nat, CycleState, Msg) -> InnerOutcome

  datatype Machine = Machine(inner: Inner, current: nat, states: seq<CycleState>)

  predicate InRange(m: Machine) { m.current < |m.states| }

  function New(inner: Inner, states: seq<CycleState>): Machine { Machine(inner, 0, states) }

  function Next(m: Machine, inner: Inner): (n: Machine)
    requires InRange(m)
    ensures InRange(n)
  {
    m.(inner := inner, current := (m.current + 1) % |m.states|)
  }

  /** The state the `k`-th message is meant to be handled in. */
  function Scheduled(states: seq<CycleState>, k: nat): CycleState
    requires states != []
  {
    states[k % |states|]
  }

  /** What the runtime makes of an outcome that leaves the machine at `m`. */
  function Boxed(b: Boxing, m: Machine, o: InnerOutcome): Outcome {
    match o
    case Went(_, reply) => Continued(b(m), reply)
    case WentAndStops(_, reply) => StopRequested(b(m), reply)
    case WentWrong(_) => Panicked
  }

  class StateMachine {
    var inner: Inner
    var current: nat
    const states: seq<CycleState>
    /** How many messages have been handled to their end. */
    ghost var handled: nat

    ghost predicate Valid()
      reads this
    {
      states != [] && current == handled % |states|
    }

    function Value(): Machine
      reads this
    {
      Machine(inner, current, states)
    }

    /** `StateMachine::new` panics on an empty state sequence. */
    constructor (inner: Inner, states: seq<CycleState>)
      requires states != []
      ensures Valid() && Value() == New(inner, states) && handled == 0 && this.states == states
    {
      this.inner := inner;
      this.current := 0;
      this.states := states;
      this.handled := 0;
    }

    /** Handles the message in the state scheduled for it and moves on to the next one, also when the
        actor asked to stop; a panic unwinds before the move. */
    method Handle(handleInState: InState, msg: Msg) returns (o: InnerOutcome)
      requires Valid()
      modifies this
      ensures Valid() && handled == old(handled) + (if o.WentWrong? then 0 else 1)
      ensures o == handleInState(old(inner), old(handled) % |states|, Scheduled(states, old(handled)), msg)
      ensures inner == o.inner
      ensures InRange(old(Value())) &&
              forall b: Boxing :: MachineOutcome(b, handleInState, old(Value()), msg) == Boxed(b, Value(), o)
    {
      var state := states[current];
      o := handleInState(inner, current, state, msg);
      inner := o.inner;
      if !o.WentWrong? {
        NextIndex(handled, |states|);
        current := (current + 1) % |states|;
        handled := handled + 1;
      }
    }
  }

  /** Message `k` is handled in the state scheduled for it, by the wrapped actor as the messages before it
      left it. */
  ghost predicate HandledAt(hs: InState, inner: Inner, states: seq<CycleState>, es: seq<Envelope>, k: nat,
                            o: InnerOutcome)
    requires states != [] && k < |es|
  {
    match InnerAfter(hs, inner, states, es[..k])
    case None => false
    case Some(i) => o == hs(i, k % |states|, Scheduled(states, k), es[k].msg)
  }

  lemma InnerStep(hs: InState, inner: Inner, states: seq<CycleState>, es: seq<Envelope>, k: nat, i: Inner)
    requires states != [] && k < |es| && InnerAfter(hs, inner, states, es[..k]) == Some(i)
    ensures InnerAfter(hs, inner, states, es[..k + 1])
         == match hs(i, k % |states|, Scheduled(states, k), es[k].msg)
            case Went(i', _) => Some(i')
            case _ => None
  {
    assert es[..k + 1][..k] == es[..k];
  }

  /** A machine on its own, from `new` through its messages until it stops or panics: every message it
      gets is handled in its scheduled state, and afterwards the wrapped actor is what the messages made
      of it. */
  method HandleAll(hs: InState, inner: Inner, states: seq<CycleState>, es: seq<Envelope>)
    returns (outcomes: seq<InnerOutcome>, last: Inner)
    requires states != []
    ensures |outcomes| <= |es|
    ensures forall k :: 0 <= k < |outcomes| ==> HandledAt(hs, inner, states, es, k, outcomes[k])
    ensures |outcomes| < |es| ==> outcomes != [] && !outcomes[|outcomes| - 1].Went?
    ensures outcomes == [] || outcomes[|outcomes| - 1].Went? ==>
              |outcomes| == |es| && InnerAfter(hs, inner, states, es) == Some(last)
    ensures outcomes != [] ==> last == outcomes[|outcomes| - 1].inner
  {
    var machine := new StateMachine(inner, states);
    outcomes := [];
    var going := true;
    while going && |outcomes| < |es|
      invariant machine.Valid() && machine.states == states && |outcomes| <= |es|
      invariant forall k :: 0 <= k < |outcomes| ==> HandledAt(hs, inner, states, es, k, outcomes[k])
      invariant going ==>
                  && machine.handled == |outcomes|
                  && InnerAfter(hs, inner, states, es[..|outcomes|]) == Some(machine.inner)
                  && (outcomes == [] || outcomes[|outcomes| - 1].Went?)
      invariant !going ==> outcomes != [] && !outcomes[|outcomes| - 1].Went?
      invariant outcomes != [] ==> machine.inner == outcomes[|outcomes| - 1].inner
      decreases |es| - |outcomes|
    {
      var k := |outcomes|;
      InnerStep(hs, inner, states, es, k, machine.inner);
      var o := machine.Handle(hs, es[k].msg);
      outcomes := outcomes + [o];
      going := o.Went?;
    }
    assert es[..|es|] == es;
    last := machine.inner;
  }

  // ---- as an actor ----

  /** How the runtime boxes a machine as an untyped actor. */
  type Boxing = Machine -> State

  function MachineOutcome(b: Boxing, hs: InState, m: Machine, msg: Msg): Outcome
    requires InRange(m)
  {
    match hs(m.inner, m.current, m.states[m.current], msg)
    case Went(inner, reply) => Continued(b(Next(m, inner)), reply)
    case WentAndStops(inner, reply) => StopRequested(b(Next(m, inner)), reply)
    case WentWrong(_) => Panicked
  }

  /** Actor `a` is a state machine around `hs`. */
  ghost predicate IsMachine(h: Behaviour, a: ActorId, b: Boxing, hs: InState) {
    forall m: Machine, msg: Msg :: InRange(m) ==> h(a, b(m), msg) == MachineOutcome(b, hs, m, msg)
  }

  /** The wrapped actor after message `i` was handled in state `i` modulo the length of the cycle,
      for every `i`; nothing if it stopped or panicked on the way. */
  function InnerAfter(hs: InState, inner: Inner, states: seq<CycleState>, es: seq<Envelope>): Option<Inner>
    requires states != []
    decreases |es|
  {
    if es == [] then Some(inner)
    else
      var k := |es| - 1;
      match InnerAfter(hs, inner, states, es[..k])
      case None => None
      case Some(i) =>
        match hs(i, k % |states|, Scheduled(states, k), es[k].msg)
        case Went(i', _) => Some(i')
        case _ => None
  }

  /** What the `k`-th message ends in: it is handled in the `k`-th scheduled state. */
  function InnerFate(hs: InState, inner: Inner, states: seq<CycleState>, es: seq<Envelope>, k: nat): Fate
    requires states != [] && k < |es|
  {
    match InnerAfter(hs, inner, states, es[..k])
    case None => Dropped
    case Some(i) =>
      match hs(i, k % |states|, Scheduled(states, k), es[k].msg)
      case Went(_, reply) => Handled(reply)
      case WentAndStops(_, reply) => Handled(reply)
      case WentWrong(_) => Crashed
  }

  /** One actor offered `es`: after all of them it is at index `|es|` modulo the cycle, and
      message `k` met its fate in state `k` modulo the cycle. */
  lemma {:induction false} RunCycles(h: Behaviour, a: ActorId, b: Boxing, hs: InState, inner: Inner,
                                     states: seq<CycleState>, es: seq<Envelope>)
    requires states != [] && IsMachine(h, a, b, hs)
    requires forall i :: 0 <= i < |es| ==> es[i].target == a
    ensures var run := RunActor(h, b(New(inner, states)), es);
            && run.alive == (match InnerAfter(hs, inner, states, es)
                             case None => None
                             case Some(i) => Some(b(Machine(i, |es| % |states|, states))))
            && forall k :: 0 <= k < |es| ==> run.fates[k] == InnerFate(hs, inner, states, es, k)
    decreases |es|
  {
    if es != [] {
      var k := |es| - 1;
      var front := es[..k];
      RunCycles(h, a, b, hs, inner, states, front);
      NextIndex(k, |states|);
      forall j | 0 <= j < k ensures front[..j] == es[..j] {
      }
      var before := InnerAfter(hs, inner, states, front);
      if before.Some? {
        var m := Machine(before.value, k % |states|, states);
        assert h(a, b(m), es[k].msg) == MachineOutcome(b, hs, m, es[k].msg);
      }
    }
  }

  lemma {:induction false} InnerPrefix(hs: InState, inner: Inner, states: seq<CycleState>, es: seq<Envelope>, k: nat)
    requires states != [] && k <= |es| && InnerAfter(hs, inner, states, es).Some?
    ensures InnerAfter(hs, inner, states, es[..k]).Some?
    decreases |es|
  {
    if k < |es| {
      var front := es[..|es| - 1];
      InnerPrefix(hs, inner, states, front, k);
      assert front[..k] == es[..k];
    } else {
      assert es[..k] == es;
    }
  }

  /** An actor at home that has not stopped is present. */
  lemma NotStoppedIsPresent(h: Behaviour, s: World, a: ActorId)
    requires Inv(h, s) && a in s.home && a !in s.stops
    ensures s.home[a] < |s.workers| && Present(s.workers[s.home[a]], a).Some?
  {
    hide MailOk, HistoryOk;
    var w := s.home[a];
    assert Places.AtHome(s.place, a, w);
    assert Places.WorkerPlaces(s.place, w, s.workers[w]);
  }

  /** The envelopes of one machine: those the reference run explains met their fate in their
      scheduled state. */
  lemma ExplainedCycles(h: Behaviour, a: ActorId, b: Boxing, hs: InState, inner: Inner, states: seq<CycleState>,
                        f: seq<Envelope>, n: nat, fate: FateMap, j: nat, k: nat)
    requires states != [] && IsMachine(h, a, b, hs) && forall i :: 0 <= i < |f| ==> f[i].target == a
    requires Explained(h, b(New(inner, states)), f, n, fate, j) && k < n
    ensures fate[f[k].ticket] == if k < j then InnerFate(hs, inner, states, f, k) else Dropped
    ensures k < j && RunActor(h, b(New(inner, states)), f[..j]).alive.Some? ==>
              InnerAfter(hs, inner, states, f[..k]).Some? && InnerAfter(hs, inner, states, f[..k + 1]).Some?
  {
    var g := f[..j];
    RunCycles(h, a, b, hs, inner, states, g);
    hide RunActor, IsMachine, InnerAfter;
    if k < j {
      assert g[..k] == f[..k] && g[..k + 1] == f[..k + 1];
      if RunActor(h, b(New(inner, states)), g).alive.Some? {
        InnerPrefix(hs, inner, states, g, k);
        InnerPrefix(hs, inner, states, g, k + 1);
      }
    }
  }

  /** Accepted envelope `t` is for a state machine. */
  ghost predicate ForMachine(h: Behaviour, s: World, t: nat, b: Boxing, hs: InState, inner: Inner,
                             states: seq<CycleState>) {
    && t < |s.accepted| && states != []
    && var a := s.accepted[t].target;
       a in s.births && s.births[a] == b(New(inner, states)) && IsMachine(h, a, b, hs)
  }

  /** How many envelopes were accepted for the same actor before envelope `t`. */
  function OrdinalOf(s: World, t: nat): (k: nat)
    requires t < |s.accepted|
    ensures k < |ForActor(s.accepted, s.accepted[t].target)|
    ensures ForActor(s.accepted, s.accepted[t].target)[k] == s.accepted[t]
  {
    FilterIndex(s.accepted, t);
    |ForActor(s.accepted[..t], s.accepted[t].target)|
  }

  /** Decided envelopes come before those still in the pipe. */
  lemma DecidedBefore(h: Behaviour, s: World, t: nat)
    requires Inv(h, s) && t in s.fate && t < |s.accepted|
    ensures var a := s.accepted[t].target;
            a in s.home && s.home[a] < |s.workers|
            && OrdinalOf(s, t) < |ForActor(s.accepted, a)| - |Pipe(s.workers[s.home[a]], a)|
  {
    AcceptedHome(h, s, t);
    var k := OrdinalOf(s, t);
    hide Inv, OrdinalOf, PipeOk, HistOk;
    assert PipeOk(s.accepted, s.fate, s.home, s.home[s.accepted[t].target], s.workers[s.home[s.accepted[t].target]],
                  s.accepted[t].target);
    TicketOf(h, s, t);
    BeforePipe(s.accepted, s.fate, s.home, s.workers[s.home[s.accepted[t].target]], s.accepted[t].target, k);
  }

  lemma TicketOf(h: Behaviour, s: World, t: nat)
    requires Inv(h, s) && t < |s.accepted|
    ensures s.accepted[t].ticket == t
  {
    hide Places.PlacesOk, HistoryOk;
  }

  lemma BeforePipe(accepted: seq<Envelope>, fate: FateMap, home: map<ActorId, nat>, x: Worker, a: ActorId, k: nat)
    requires a in home && PipeOk(accepted, fate, home, home[a], x, a)
    requires k < |ForActor(accepted, a)| && ForActor(accepted, a)[k].ticket in fate
    ensures k < |ForActor(accepted, a)| - |Pipe(x, a)|
  {
  }

  /** In every reachable state of the runtime, whatever other traffic is interleaved: the `k`-th
      envelope accepted for a state machine, once decided, was handled in the `k`-th scheduled
      state, and only a shutdown can have discarded it instead. */
  lemma KthMessageInKthState(h: Behaviour, s: World, t: nat, b: Boxing, hs: InState, inner: Inner,
                             states: seq<CycleState>)
    requires Inv(h, s) && t in s.fate && ForMachine(h, s, t, b, hs, inner, states)
    ensures var a := s.accepted[t].target;
            a in s.home && s.home[a] < |s.workers|
            && (s.fate[t] == InnerFate(hs, inner, states, ForActor(s.accepted, a), OrdinalOf(s, t))
                || (s.fate[t] == Dropped && !Live(s.workers[s.home[a]], a)))
  {
    AcceptedHome(h, s, t);
    DecidedBefore(h, s, t);
    TicketOf(h, s, t);
    ForActorMembers(s.accepted, s.accepted[t].target);
    hide Inv, IsMachine, RunActor, ForActor, OrdinalOf, PipeOk, InnerFate, Pipe;
    var a := s.accepted[t].target;
    var f, x := ForActor(s.accepted, a), s.workers[s.home[a]];
    var j := ExplainedUpTo(h, f, s.fate, s.births[a], x, a);
    ExplainedCycles(h, a, b, hs, inner, states, f, |f| - |Pipe(x, a)|, s.fate, j, OrdinalOf(s, t));
  }

  /** ... and while the machine has not stopped, its wrapped actor was there for the `k`-th message
      and went on after it, so the message was handled and its reply is the one of that state. */
  lemma MachineGoesOn(h: Behaviour, s: World, t: nat, b: Boxing, hs: InState, inner: Inner, states: seq<CycleState>)
    returns (i: Inner)
    requires Inv(h, s) && t in s.fate && ForMachine(h, s, t, b, hs, inner, states)
    requires var a := s.accepted[t].target;
             a !in s.stops && a in s.home && s.home[a] < |s.workers| && Live(s.workers[s.home[a]], a)
    ensures var k := OrdinalOf(s, t);
            && InnerAfter(hs, inner, states, ForActor(s.accepted, s.accepted[t].target)[..k]) == Some(i)
            && var o := hs(i, k % |states|, Scheduled(states, k), s.accepted[t].msg);
               o.Went? && s.fate[t] == Handled(o.reply)
  {
    hide Inv, IsMachine, RunActor, ForActor, OrdinalOf, PipeOk, Pipe, Live, Present, InnerAfter, Explained;
    AcceptedHome(h, s, t);
    DecidedBefore(h, s, t);
    TicketOf(h, s, t);
    NotStoppedIsPresent(h, s, s.accepted[t].target);
    ForActorMembers(s.accepted, s.accepted[t].target);
    var f := ForActor(s.accepted, s.accepted[t].target);
    var x := s.workers[s.home[s.accepted[t].target]];
    i := GoesOn(h, s.accepted[t].target, b, hs, inner, states, f, |f| - |Pipe(x, s.accepted[t].target)|, s.fate,
                OrdinalOf(s, t));
  }

  lemma GoesOn(h: Behaviour, a: ActorId, b: Boxing, hs: InState, inner: Inner, states: seq<CycleState>,
               f: seq<Envelope>, n: nat, fate: FateMap, k: nat)
    returns (i: Inner)
    requires states != [] && IsMachine(h, a, b, hs) && forall i :: 0 <= i < |f| ==> f[i].target == a
    requires Explained(h, b(New(inner, states)), f, n, fate, n) && k < n
    requires RunActor(h, b(New(inner, states)), f[..n]).alive.Some?
    ensures InnerAfter(hs, inner, states, f[..k]) == Some(i)
    ensures var o := hs(i, k % |states|, Scheduled(states, k), f[k].msg);
            o.Went? && fate[f[k].ticket] == Handled(o.reply)
  {
    ExplainedCycles(h, a, b, hs, inner, states, f, n, fate, n, k);
    i := InnerAfter(hs, inner, states, f[..k]).value;
    InnerNext(hs, inner, states, f, k);
  }

  lemma InnerNext(hs: InState, inner: Inner, states: seq<CycleState>, f: seq<Envelope>, k: nat)
    requires states != [] && k < |f| && InnerAfter(hs, inner, states, f[..k]).Some?
    requires InnerAfter(hs, inner, states, f[..k + 1]).Some?
    ensures var o := hs(InnerAfter(hs, inner, states, f[..k]).value, k % |states|, Scheduled(states, k), f[k].msg);
            o.Went? && InnerFate(hs, inner, states, f, k) == Handled(o.reply)
  {
    assert f[..k + 1][..k] == f[..k];
  }

  lemma {:induction false} CycleStart(c: nat, n: nat)
    requires n > 0
    ensures (c * n) % n == 0
  {
    Remainder(c * n, c, 0, n);
  }

  /** The documented start in `initial_state()` holds exactly for the sequences that begin with it:
      every cycle begins in that state if and only if the sequence does. */
  lemma CyclesBeginInInitialState(states: seq<CycleState>, initial: CycleState)
    requires states != []
    ensures (forall c: nat :: Scheduled(states, c * |states|) == initial) <==> states[0] == initial
  {
    assert Scheduled(states, 0 * |states|) == states[0];
    forall c: nat ensures Scheduled(states, c * |states|) == states[0] {
      CycleStart(c, |states|);
    }
  }
}
