/** When `ActorSystem::run` returns. Every address owns a sender of the one channel, and addresses
    can be held by the rest of the program, inside an actor's state, or inside a message; the
    event loop ends when the channel is empty and none of them is left. */
module SystemRun {
  import opened Actors
  import opened SystemSpec

  /** The actors whose addresses a state or a message owns. */
  datatype Custody = Custody(state: State -> set<ActorId>, msg: Msg -> set<ActorId>)

  /** `done` is the system as it was when the loop ended. */
  datatype Phase = Receiving | Stopping(done: Sys) | Returned(done: Sys)

  /** `outside` are the actors whose addresses the rest of the program holds. */
  datatype Loop = Loop(sys: Sys, outside: set<ActorId>, phase: Phase)

  datatype Event =
    | ClientSend(m: Outgoing)
    | ClientDrop(a: ActorId)
    | Receive(leak: set<ActorId>)
    | Disconnect
    | StopActor(id: ActorId)
    | Return

  /** Nobody can send any more. */
  ghost predicate NoSenders(k: Custody, s: Loop) {
    && s.outside == {}
    && (forall a :: a in s.sys.actors ==> k.state(s.sys.actors[a]) == {})
    && (forall i :: s.sys.next <= i < |s.sys.accepted| ==> k.msg(s.sys.accepted[i].msg) == {})
  }

  /** What a handler may use: an envelope it sends is addressed by an address it was given, and so
      are the addresses inside. */
  predicate MadeFrom(k: Custody, given: set<ActorId>, m: Outgoing) {
    m.target in given && k.msg(m.msg) <= given
  }

  /** Addresses are only made from addresses: a handler keeps and uses only those its state and the
      message gave it. */
  ghost predicate Honest(r: Reactor, k: Custody) {
    forall a: ActorId, state: State, msg: Msg ::
      var o, given := r(a, state, msg), k.state(state) + k.msg(msg);
      k.state(o.state) <= given && forall i :: 0 <= i < |o.sends| ==> MadeFrom(k, given, o.sends[i])
  }

  /** The addresses the handler of the next envelope is given. */
  function Given(k: Custody, s: Loop): set<ActorId>
    requires s.sys.next < |s.sys.accepted|
  {
    var e := s.sys.accepted[s.sys.next];
    if e.target in s.sys.actors then k.state(s.sys.actors[e.target]) + k.msg(e.msg) else {}
  }

  ghost predicate Enabled(k: Custody, s: Loop, ev: Event) {
    match ev
    case ClientSend(m) => s.phase.Receiving? && MadeFrom(k, s.outside, m)
    case ClientDrop(a) => a in s.outside
    case Receive(leak) => s.phase.Receiving? && s.sys.next < |s.sys.accepted| && leak <= Given(k, s)
    case Disconnect => s.phase.Receiving? && s.sys.next == |s.sys.accepted| && NoSenders(k, s)
    case StopActor(id) => s.phase.Stopping? && id in s.sys.actors
    case Return => s.phase.Stopping? && s.sys.actors == map[]
  }

  /** `leak`: the addresses the handler passes to the rest of the program. */
  function Apply(r: Reactor, k: Custody, s: Loop, ev: Event): Loop
    requires Enabled(k, s, ev)
  {
    match ev
    case ClientSend(m) => s.(sys := Accept(s.sys, m))
    case ClientDrop(a) => s.(outside := s.outside - {a})
    case Receive(leak) => s.(sys := Dispatch(r, s.sys), outside := s.outside + leak)
    case Disconnect => s.(phase := Stopping(s.sys))
    case StopActor(id) => s.(sys := Remove(s.sys, id))
    case Return => s.(phase := Returned(s.phase.done))
  }

  ghost predicate Run(r: Reactor, k: Custody, s: Loop, evs: seq<Event>, s': Loop)
    decreases |evs|
  {
    if evs == [] then s' == s
    else Enabled(k, s, evs[0]) && Run(r, k, Apply(r, k, s, evs[0]), evs[1..], s')
  }

  /** While it runs the system is on the reference semantics; once it stops, nobody can send. */
  ghost predicate LoopOk(r: Reactor, k: Custody, s: Loop) {
    match s.phase
    case Receiving => SysOk(r, s.sys)
    case Stopping(done) => Ended(r, done, s.sys) && NoSenders(k, s)
    case Returned(done) => Ended(r, done, s.sys) && NoSenders(k, s) && s.sys.actors == map[]
  }

  lemma DisconnectOk(r: Reactor, k: Custody, s: Loop)
    requires LoopOk(r, k, s) && Enabled(k, s, Disconnect)
    ensures LoopOk(r, k, Apply(r, k, s, Disconnect))
  {
    hide SysOk;
    SysBounds(r, s.sys);
  }

  lemma StopOk(r: Reactor, k: Custody, s: Loop, id: ActorId)
    requires LoopOk(r, k, s) && Enabled(k, s, StopActor(id))
    ensures LoopOk(r, k, Apply(r, k, s, StopActor(id)))
  {
    hide SysOk, Ended;
    RemoveEnded(r, s.phase.done, s.sys, id);
  }

  lemma EventOk(r: Reactor, k: Custody, s: Loop, ev: Event)
    requires LoopOk(r, k, s) && Enabled(k, s, ev)
    ensures LoopOk(r, k, Apply(r, k, s, ev))
  {
    hide SysOk, Ended, Dispatch, Accept;
    match ev
    case ClientSend(m) => AcceptOk(r, s.sys, m);
    case Receive(leak) => DispatchOk(r, s.sys);
    case Disconnect => DisconnectOk(r, k, s);
    case StopActor(id) => StopOk(r, k, s, id);
    case _ =>
  }

  lemma {:induction false} RunOk(r: Reactor, k: Custody, s: Loop, evs: seq<Event>, s': Loop)
    requires LoopOk(r, k, s) && Run(r, k, s, evs, s')
    ensures LoopOk(r, k, s')
    decreases |evs|
  {
    hide LoopOk, Apply, Enabled;
    if evs != [] {
      EventOk(r, k, s, evs[0]);
      RunOk(r, k, Apply(r, k, s, evs[0]), evs[1..], s');
    }
  }

  // ---- who can be sent to ----

  /** Envelopes are addressed to spawned actors, and every address held anywhere is one's. */
  ghost predicate Known(k: Custody, s: Loop) {
    && s.outside <= s.sys.births.Keys
    && (forall a :: a in s.sys.actors ==> k.state(s.sys.actors[a]) <= s.sys.births.Keys)
    && (forall i :: 0 <= i < |s.sys.accepted| ==> s.sys.accepted[i].target in s.sys.births)
    && (forall i :: s.sys.next <= i < |s.sys.accepted| ==> k.msg(s.sys.accepted[i].msg) <= s.sys.births.Keys)
  }

  lemma NothingFromNothing(k: Custody, given: set<ActorId>, sends: seq<Outgoing>)
    requires forall i :: 0 <= i < |sends| ==> MadeFrom(k, given, sends[i])
    ensures given == {} ==> sends == []
  {
    if sends != [] {
      assert MadeFrom(k, given, sends[0]);
    }
  }

  /** A dispatch hands on nothing but what the handler was given. */
  lemma DispatchHandsOn(r: Reactor, k: Custody, s: Loop)
    requires Honest(r, k) && s.sys.next < |s.sys.accepted|
    ensures var q, q', given := s.sys, Dispatch(r, s.sys), Given(k, s);
            && q'.births == q.births && q'.next == q.next + 1 && q.accepted <= q'.accepted
            && (given == {} ==> q'.accepted == q.accepted)
            && (forall i :: |q.accepted| <= i < |q'.accepted| ==>
                  q'.accepted[i].target in given && k.msg(q'.accepted[i].msg) <= given)
            && (forall a :: a in q'.actors ==>
                  a in q.actors && (k.state(q'.actors[a]) <= k.state(q.actors[a]) || k.state(q'.actors[a]) <= given))
  {
    var q, given := s.sys, Given(k, s);
    var e := q.accepted[q.next];
    if e.target in q.actors {
      var o := r(e.target, q.actors[e.target], e.msg);
      assert k.state(o.state) <= given;
      forall i | 0 <= i < |o.sends| ensures MadeFrom(k, given, o.sends[i]) {
      }
      NothingFromNothing(k, given, o.sends);
      hide Honest;
      var q' := Dispatch(r, q);
      assert o.sends == [] ==> q'.accepted == q.accepted;
      forall i | |q.accepted| <= i < |q'.accepted|
        ensures q'.accepted[i].target in given && k.msg(q'.accepted[i].msg) <= given
      {
        assert q'.accepted[i] == Seal(o.sends, |q.accepted|)[i - |q.accepted|];
        assert MadeFrom(k, given, o.sends[i - |q.accepted|]);
      }
    }
  }

  lemma GivenKnown(k: Custody, s: Loop)
    requires Known(k, s) && s.sys.next < |s.sys.accepted|
    ensures Given(k, s) <= s.sys.births.Keys
  {
  }

  lemma KnownStep(r: Reactor, k: Custody, s: Loop, ev: Event)
    requires Honest(r, k) && Known(k, s) && Enabled(k, s, ev)
    ensures Known(k, Apply(r, k, s, ev))
  {
    if ev.Receive? {
      DispatchHandsOn(r, k, s);
      GivenKnown(k, s);
      hide Dispatch, Honest, Given;
      var q, q' := s.sys, Dispatch(r, s.sys);
      forall i | 0 <= i < |q'.accepted| ensures q'.accepted[i].target in q.births {
        assert i < |q.accepted| ==> q'.accepted[i] == q.accepted[i];
      }
      forall i | q'.next <= i < |q'.accepted| ensures k.msg(q'.accepted[i].msg) <= q.births.Keys {
        assert i < |q.accepted| ==> q'.accepted[i] == q.accepted[i];
      }
    }
  }

  lemma {:induction false} RunKnown(r: Reactor, k: Custody, s: Loop, evs: seq<Event>, s': Loop)
    requires Honest(r, k) && Known(k, s) && Run(r, k, s, evs, s')
    ensures Known(k, s')
    decreases |evs|
  {
    hide Known, Apply, Enabled, Honest;
    if evs != [] {
      KnownStep(r, k, s, evs[0]);
      RunKnown(r, k, Apply(r, k, s, evs[0]), evs[1..], s');
    }
  }

  lemma AddresseeKnown(k: Custody, s: Loop, t: nat)
    requires Known(k, s) && t < |s.sys.accepted|
    ensures s.sys.accepted[t].target in s.sys.births
  {
  }

  /** The event loop returns only when no sender is left anywhere. By then the channel is empty,
      every envelope ever accepted has the fate the reference run of its actor gives it, and
      every actor ever spawned has stopped exactly once. */
  lemma ReturnsOnlyWhenDone(r: Reactor, k: Custody, s: Loop, evs: seq<Event>, s': Loop, t: nat)
    requires Honest(r, k) && Known(k, s) && s.phase.Receiving? && SysOk(r, s.sys)
    requires Run(r, k, s, evs, s') && s'.phase.Returned?
    ensures NoSenders(k, s') && s'.sys.actors == map[] && |s'.sys.fates| == s'.sys.next == |s'.sys.accepted|
    ensures forall a :: a in s'.sys.births <==> a in s'.sys.stops
    ensures forall i, j :: 0 <= i < j < |s'.sys.stops| ==> s'.sys.stops[i] != s'.sys.stops[j]
    ensures t < |s'.sys.accepted| ==> FatedByReference(r, s'.sys, t)
  {
    hide SysOk, FatedByReference, Honest, Known;
    RunOk(r, k, s, evs, s');
    RunKnown(r, k, s, evs, s');
    var done := s'.phase.done;
    assert Ended(r, done, s'.sys);
    SysBounds(r, done);
    if t < |done.accepted| {
      AddresseeKnown(k, s', t);
      SysFate(r, done, t);
      SameFate(r, done, s'.sys, t);
    }
  }

  // ---- without senders ----

  lemma NothingGiven(k: Custody, s: Loop)
    requires NoSenders(k, s) && s.sys.next < |s.sys.accepted|
    ensures Given(k, s) == {}
  {
  }

  lemma DispatchWithoutSender(r: Reactor, k: Custody, s: Loop)
    requires Honest(r, k) && NoSenders(k, s) && s.sys.next < |s.sys.accepted|
    ensures Dispatch(r, s.sys).accepted == s.sys.accepted && Dispatch(r, s.sys).next == s.sys.next + 1
    ensures forall a :: a in Dispatch(r, s.sys).actors ==> k.state(Dispatch(r, s.sys).actors[a]) == {}
  {
    DispatchHandsOn(r, k, s);
    NothingGiven(k, s);
    hide Dispatch, Honest, Given;
    var q, q' := s.sys, Dispatch(r, s.sys);
    forall a | a in q'.actors ensures k.state(q'.actors[a]) == {} {
      assert k.state(q.actors[a]) == {};
    }
  }

  lemma NoSendersStep(r: Reactor, k: Custody, s: Loop, ev: Event)
    requires Honest(r, k) && NoSenders(k, s) && Enabled(k, s, ev)
    ensures NoSenders(k, Apply(r, k, s, ev)) && Apply(r, k, s, ev).sys.accepted == s.sys.accepted
  {
    if ev.Receive? {
      DispatchWithoutSender(r, k, s);
      NothingGiven(k, s);
      hide Dispatch, Honest, Given;
    }
  }

  /** Once the last address is gone nothing is ever accepted again, whatever is still handled. */
  lemma {:induction false} ClosedForGood(r: Reactor, k: Custody, s: Loop, evs: seq<Event>, s': Loop)
    requires Honest(r, k) && NoSenders(k, s) && Run(r, k, s, evs, s')
    ensures NoSenders(k, s') && s'.sys.accepted == s.sys.accepted
    decreases |evs|
  {
    hide NoSenders, Apply, Enabled, Honest;
    if evs != [] {
      NoSendersStep(r, k, s, evs[0]);
      ClosedForGood(r, k, Apply(r, k, s, evs[0]), evs[1..], s');
    }
  }

  /** ... and the loop does return then: after receiving what the channel still holds and stopping
      what is left. */
  lemma {:induction false} ReturnsOnceClosed(r: Reactor, k: Custody, s: Loop) returns (evs: seq<Event>, s': Loop)
    requires Honest(r, k) && NoSenders(k, s) && s.phase.Receiving? && s.sys.next <= |s.sys.accepted|
    ensures Run(r, k, s, evs, s') && s'.phase.Returned?
    decreases |s.sys.accepted| - s.sys.next
  {
    var ev := if s.sys.next < |s.sys.accepted| then Receive({}) else Disconnect;
    var s1 := Apply(r, k, s, ev);
    NoSendersStep(r, k, s, ev);
    var rest: seq<Event>;
    if ev.Receive? {
      DispatchWithoutSender(r, k, s);
      rest, s' := ReturnsOnceClosed(r, k, s1);
    } else {
      rest, s' := StopsAll(r, k, s1);
    }
    evs := [ev] + rest;
    assert evs[1..] == rest;
  }

  lemma {:induction false} StopsAll(r: Reactor, k: Custody, s: Loop) returns (evs: seq<Event>, s': Loop)
    requires s.phase.Stopping?
    ensures Run(r, k, s, evs, s') && s'.phase.Returned?
    decreases |s.sys.actors|
  {
    var ev := Return;
    var rest: seq<Event> := [];
    if s.sys.actors == map[] {
      s' := Apply(r, k, s, ev);
    } else {
      var id :| id in s.sys.actors;
      ev := StopActor(id);
      assert (s.sys.actors - {id}).Keys < s.sys.actors.Keys;
      rest, s' := StopsAll(r, k, Apply(r, k, s, ev));
    }
    evs := [ev] + rest;
    assert evs[1..] == rest;
  }

  /** Only the rest of the program holds addresses; no actor and no waiting message does. */
  ghost predicate OnlyOutside(k: Custody, s: Loop) { NoSenders(k, s.(outside := {})) }

  lemma {:induction false} DropsAll(r: Reactor, k: Custody, s: Loop) returns (evs: seq<Event>)
    ensures Run(r, k, s, evs, s.(outside := {}))
    decreases |s.outside|
  {
    if s.outside == {} {
      evs := [];
      assert s == s.(outside := {});
    } else {
      var a :| a in s.outside;
      var s1 := Apply(r, k, s, ClientDrop(a));
      assert s1.outside < s.outside;
      var rest := DropsAll(r, k, s1);
      evs := [ClientDrop(a)] + rest;
      assert evs[1..] == rest && s1.(outside := {}) == s.(outside := {});
    }
  }

  /** Dropping one address takes away that one only. */
  lemma DropsOne(r: Reactor, k: Custody, s: Loop, a: ActorId, m: Outgoing)
    requires a in s.outside && s.phase.Receiving? && a !in k.msg(m.msg) + {m.target}
    ensures Enabled(k, s, ClientDrop(a))
    ensures var s' := Apply(r, k, s, ClientDrop(a));
            a !in s'.outside && s'.sys == s.sys && (Enabled(k, s', ClientSend(m)) <==> Enabled(k, s, ClientSend(m)))
  {
  }

  lemma {:induction false} RunThen(r: Reactor, k: Custody, s: Loop, evs: seq<Event>, s1: Loop, more: seq<Event>,
                                   s2: Loop)
    requires Run(r, k, s, evs, s1) && Run(r, k, s1, more, s2)
    ensures Run(r, k, s, evs + more, s2)
    decreases |evs|
  {
    hide Enabled, Apply;
    if evs == [] {
      assert evs + more == more;
    } else {
      assert (evs + more)[1..] == evs[1..] + more;
      RunThen(r, k, Apply(r, k, s, evs[0]), evs[1..], s1, more, s2);
    }
  }

  /** So when nobody but the rest of the program holds an address, the program can always end the loop, by
      dropping them. */
  lemma ReturnsWhenDropped(r: Reactor, k: Custody, s: Loop) returns (evs: seq<Event>, s': Loop)
    requires Honest(r, k) && OnlyOutside(k, s) && s.phase.Receiving? && s.sys.next <= |s.sys.accepted|
    ensures Run(r, k, s, evs, s') && s'.phase.Returned? && s'.sys.accepted == s.sys.accepted
  {
    hide Honest, Run, NoSenders;
    var drops := DropsAll(r, k, s);
    var s1 := s.(outside := {});
    var rest;
    rest, s' := ReturnsOnceClosed(r, k, s1);
    ClosedForGood(r, k, s1, rest, s');
    RunThen(r, k, s, drops, s1, rest, s');
    evs := drops + rest;
  }

  /** An address that a handler passes to the rest of the program works there: what is sent by it waits in
      the channel, behind everything else. */
  lemma LeakedAddressWorks(r: Reactor, k: Custody, s: Loop, leak: set<ActorId>, m: Outgoing)
    requires Enabled(k, s, Receive(leak)) && MadeFrom(k, leak, m)
    ensures var s1 := Apply(r, k, s, Receive(leak));
            && s.outside <= s1.outside && Enabled(k, s1, ClientSend(m))
            && var s2 := Apply(r, k, s1, ClientSend(m));
               && s1.sys.next <= |s1.sys.accepted| && s2.sys.next <= |s2.sys.accepted|
               && Queue(s2.sys) == Queue(s1.sys) + [Envelope(|s1.sys.accepted|, m.target, m.msg)]
  {
    DispatchPrefix(r, s.sys);
    hide Dispatch;
    AcceptAppends(Dispatch(r, s.sys), m);
  }

  // ---- an address inside an actor ----

  /** Actor `a` never stops and never lets go of the address it holds. */
  ghost predicate Clings(r: Reactor, k: Custody, a: ActorId) {
    forall state: State, msg: Msg ::
      k.state(state) != {} ==> r(a, state, msg).running && k.state(r(a, state, msg).state) != {}
  }

  ghost predicate HoldsOn(k: Custody, s: Loop, a: ActorId) {
    s.phase.Receiving? && a in s.sys.actors && k.state(s.sys.actors[a]) != {}
  }

  lemma ClingsStep(r: Reactor, k: Custody, s: Loop, ev: Event, a: ActorId)
    requires Clings(r, k, a) && HoldsOn(k, s, a) && Enabled(k, s, ev)
    ensures HoldsOn(k, Apply(r, k, s, ev), a)
  {
  }

  /** An actor that keeps an address, its own for instance, keeps the loop from ever returning,
      whatever the rest of the program drops. */
  lemma {:induction false} HeldAddressPreventsReturn(r: Reactor, k: Custody, s: Loop, evs: seq<Event>, s': Loop,
                                                     a: ActorId)
    requires Clings(r, k, a) && HoldsOn(k, s, a) && Run(r, k, s, evs, s')
    ensures HoldsOn(k, s', a) && !s'.phase.Returned?
    decreases |evs|
  {
    hide Apply, Enabled, Clings;
    if evs != [] {
      ClingsStep(r, k, s, evs[0], a);
      HeldAddressPreventsReturn(r, k, Apply(r, k, s, evs[0]), evs[1..], s', a);
    }
  }
}
