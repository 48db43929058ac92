/** The single-threaded runtime of src/system.rs: one channel, dispatched in global order. */
module SystemSpec {
  import opened Actors
  import Modular

  datatype Outgoing = Outgoing(target: ActorId, msg: Msg)

  /** What a handler does here: it may also send. A panic is not caught by this runtime, so
      handlers that panic are outside its model. */
  datatype Reaction = Reaction(state: State, reply: Reply, running: bool, sends: seq<Outgoing>)

  type Reactor = (ActorId, State, Msg) -> Reaction

  /** The same handler as the multi-threaded runtime sees it. */
  function AsBehaviour(r: Reactor): Behaviour {
    (a: ActorId, state: State, msg: Msg) =>
      var o := r(a, state, msg);
      if o.running then Continued(o.state, o.reply) else StopRequested(o.state, o.reply)
  }

  /** `accepted` is everything the channel ever took; the first `next` envelopes of it have been
      received, the rest is what the channel holds. */
  datatype Sys = Sys(
    actors: map<ActorId, State>,
    accepted: seq<Envelope>,
    next: nat,
    fates: seq<Fate>,
    stops: seq<ActorId>,
    births: map<ActorId, State>)

  function Queue(s: Sys): seq<Envelope>
    requires s.next <= |s.accepted|
  {
    s.accepted[s.next..]
  }

  function Lookup(actors: map<ActorId, State>, a: ActorId): Option<State> {
    if a in actors then Some(actors[a]) else None
  }

  /** Consecutive tickets for what a handler sends. */
  function Seal(sends: seq<Outgoing>, first: nat): (es: seq<Envelope>)
    ensures |es| == |sends|
    ensures forall i :: 0 <= i < |es| ==> es[i] == Envelope(first + i, sends[i].target, sends[i].msg)
  {
    seq(|sends|, i requires 0 <= i < |sends| => Envelope(first + i, sends[i].target, sends[i].msg))
  }

  /** `spawn`: the actor gets the next identity. */
  function Spawn(s: Sys, id: ActorId, actor: State): Sys {
    s.(actors := s.actors[id := actor], births := s.births[id := actor])
  }

  /** The channel takes an envelope from outside. */
  function Accept(s: Sys, m: Outgoing): Sys {
    s.(accepted := s.accepted + [Envelope(|s.accepted|, m.target, m.msg)])
  }

  /** `dispatch` of the next envelope. */
  function Dispatch(r: Reactor, s: Sys): Sys
    requires s.next < |s.accepted|
  {
    var e := s.accepted[s.next];
    if e.target in s.actors then
      var o := r(e.target, s.actors[e.target], e.msg);
      var s1 := s.(accepted := s.accepted + Seal(o.sends, |s.accepted|), next := s.next + 1,
                   fates := s.fates + [Handled(o.reply)]);
      if o.running then s1.(actors := s.actors[e.target := o.state])
      else s1.(actors := s.actors - {e.target}, stops := s.stops + [e.target])
    else s.(next := s.next + 1, fates := s.fates + [Dropped])
  }

  /** Each actor, and each received envelope, is where the reference run leaves it. */
  ghost predicate OnReference(r: Reactor, s: Sys, a: ActorId) {
    a in s.births && |s.fates| == s.next <= |s.accepted| ==>
      var f := ForActor(s.accepted[..s.next], a);
      var run := RunActor(AsBehaviour(r), s.births[a], f);
      && run.alive == Lookup(s.actors, a)
      && (forall i :: 0 <= i < |f| ==> f[i].ticket < s.next && s.fates[f[i].ticket] == run.fates[i])
  }

  ghost predicate StopsOnce(s: Sys) {
    && (forall i, j :: 0 <= i < j < |s.stops| ==> s.stops[i] != s.stops[j])
    && (forall a :: a in s.births <==> a in s.actors || a in s.stops)
    && (forall a :: a in s.stops ==> a !in s.actors)
  }

  ghost predicate SysOk(r: Reactor, s: Sys) {
    && |s.fates| == s.next <= |s.accepted| && Numbered(s.accepted)
    && StopsOnce(s)
    && (forall a :: OnReference(r, s, a))
  }

  /** `remove_actor`: the actor leaves the map and its stopped hook runs. */
  function Remove(s: Sys, id: ActorId): Sys {
    if id in s.actors then s.(actors := s.actors - {id}, stops := s.stops + [id]) else s
  }

  lemma RemoveStopsOnce(s: Sys, id: ActorId)
    requires StopsOnce(s)
    ensures StopsOnce(Remove(s, id))
  {
  }

  /** `s` is what is left when all actors of `done` have been stopped: `done` had nothing more to
      receive, and every actor ever spawned has stopped exactly once. */
  ghost predicate Ended(r: Reactor, done: Sys, s: Sys) {
    && SysOk(r, done) && done.next == |done.accepted|
    && s == done.(actors := s.actors, stops := s.stops) && done.stops <= s.stops
    && StopsOnce(s) && s.actors.Keys <= done.actors.Keys
  }

  lemma RemoveEnded(r: Reactor, done: Sys, s: Sys, id: ActorId)
    requires Ended(r, done, s)
    ensures Ended(r, done, Remove(s, id))
  {
    hide SysOk, StopsOnce;
    RemoveStopsOnce(s, id);
  }

  /** The fate of envelope `t` is the one the reference run of its actor gives it. */
  ghost predicate FatedByReference(r: Reactor, s: Sys, t: nat) {
    && t < s.next <= |s.accepted| && |s.fates| == s.next && s.accepted[t].target in s.births
    && var a := s.accepted[t].target;
       var f := ForActor(s.accepted[..s.next], a);
       var run := RunActor(AsBehaviour(r), s.births[a], f);
       exists i :: 0 <= i < |f| && f[i] == s.accepted[t] && s.fates[t] == run.fates[i]
  }

  lemma SysFate(r: Reactor, s: Sys, t: nat)
    requires SysOk(r, s) && t < s.next && s.accepted[t].target in s.births
    ensures FatedByReference(r, s, t)
  {
    hide RunActor, ForActor;
    var a := s.accepted[t].target;
    assert OnReference(r, s, a);
    ForActorMembers(s.accepted[..s.next], a);
    var f := ForActor(s.accepted[..s.next], a);
    assert s.accepted[..s.next][t] in f;
    var i :| 0 <= i < |f| && f[i] == s.accepted[t];
    assert f[i].ticket == t;
  }

  /** Stopping what is left changes no fate. */
  lemma SameFate(r: Reactor, done: Sys, s: Sys, t: nat)
    requires Ended(r, done, s) && FatedByReference(r, done, t)
    ensures FatedByReference(r, s, t)
  {
  }

  lemma SysBounds(r: Reactor, s: Sys)
    requires SysOk(r, s)
    ensures |s.fates| == s.next <= |s.accepted| && StopsOnce(s)
  {
  }

  lemma NumberedSeal(accepted: seq<Envelope>, sends: seq<Outgoing>)
    requires Numbered(accepted)
    ensures Numbered(accepted + Seal(sends, |accepted|))
  {
  }

  lemma DispatchPrefix(r: Reactor, s: Sys)
    requires s.next < |s.accepted|
    ensures var s' := Dispatch(r, s);
            && s'.next == s.next + 1 && s.accepted <= s'.accepted && s'.births == s.births
            && s'.accepted[..s'.next] == s.accepted[..s.next] + [s.accepted[s.next]]
            && |s'.fates| == |s.fates| + 1 && s'.fates[..|s.fates|] == s.fates
  {
  }

  /** Receiving the next envelope is offering it to its actor. */
  lemma DispatchOffers(r: Reactor, s: Sys)
    requires s.next < |s.accepted|
    ensures var e, s' := s.accepted[s.next], Dispatch(r, s);
            Offer(AsBehaviour(r), ActorRun(Lookup(s.actors, e.target), []), e)
            == ActorRun(Lookup(s'.actors, e.target), [s'.fates[|s.fates|]])
    ensures forall a :: a != s.accepted[s.next].target ==> Lookup(Dispatch(r, s).actors, a) == Lookup(s.actors, a)
  {
  }

  /** The fates already decided stay, and the new one has the ticket of the received envelope. */
  lemma DispatchFates(r: Reactor, s: Sys, f: seq<Envelope>)
    requires |s.fates| == s.next < |s.accepted|
    requires forall i :: 0 <= i < |f| ==> f[i].ticket < s.next
    ensures |Dispatch(r, s).fates| == s.next + 1
    ensures forall i :: 0 <= i < |f| ==> Dispatch(r, s).fates[f[i].ticket] == s.fates[f[i].ticket]
  {
    DispatchPrefix(r, s);
    hide Dispatch;
    var fates := Dispatch(r, s).fates;
    forall i | 0 <= i < |f| ensures fates[f[i].ticket] == s.fates[f[i].ticket] {
      assert fates[..|s.fates|][f[i].ticket] == s.fates[f[i].ticket];
    }
  }

  /** The addressee of the received envelope. */
  lemma DispatchOnTarget(r: Reactor, s: Sys)
    requires |s.fates| == s.next < |s.accepted| && Numbered(s.accepted)
    requires OnReference(r, s, s.accepted[s.next].target)
    ensures OnReference(r, Dispatch(r, s), s.accepted[s.next].target)
  {
    hide Dispatch, OnReference, Offer, AsBehaviour;
    DispatchPrefix(r, s);
    DispatchOffers(r, s);
    OfferedOnReference(r, s, Dispatch(r, s), s.accepted[s.next]);
  }

  /** One more envelope received and offered. */
  lemma OfferedOnReference(r: Reactor, s: Sys, s': Sys, e: Envelope)
    requires |s.fates| == s.next == e.ticket <= |s.accepted| && OnReference(r, s, e.target)
    requires s'.births == s.births && |s'.fates| == s'.next == s.next + 1 <= |s'.accepted|
    requires s'.accepted[..s'.next] == s.accepted[..s.next] + [e] && s'.fates[..s.next] == s.fates
    requires Offer(AsBehaviour(r), ActorRun(Lookup(s.actors, e.target), []), e)
          == ActorRun(Lookup(s'.actors, e.target), [s'.fates[s.next]])
    ensures OnReference(r, s', e.target)
  {
    hide RunActor, ForActor, Offer, AsBehaviour;
    var a := e.target;
    if a in s.births {
      var f := ForActor(s.accepted[..s.next], a);
      var run := RunActor(AsBehaviour(r), s.births[a], f);
      ForActorSnoc(s.accepted[..s.next], e, a);
      RunActorSnoc(AsBehaviour(r), s.births[a], f, e);
      OfferSplit(AsBehaviour(r), run, e);
      forall i | 0 <= i < |f| ensures s'.fates[f[i].ticket] == run.fates[i] {
        assert s'.fates[..s.next][f[i].ticket] == run.fates[i];
      }
      FatesSnoc(f, e, s'.fates, run.fates);
    }
  }

  lemma FatesSnoc(f: seq<Envelope>, e: Envelope, fates: seq<Fate>, run: seq<Fate>)
    requires |run| == |f| && e.ticket < |fates|
    requires forall i :: 0 <= i < |f| ==> f[i].ticket < e.ticket && fates[f[i].ticket] == run[i]
    ensures forall i :: 0 <= i < |f| + 1 ==>
                          && (f + [e])[i].ticket <= e.ticket
                          && fates[(f + [e])[i].ticket] == (run + [fates[e.ticket]])[i]
  {
  }

  lemma DispatchOnReference(r: Reactor, s: Sys, a: ActorId)
    requires |s.fates| == s.next < |s.accepted| && Numbered(s.accepted) && OnReference(r, s, a)
    ensures OnReference(r, Dispatch(r, s), a)
  {
    var e := s.accepted[s.next];
    if e.target == a {
      DispatchOnTarget(r, s);
    } else {
      DispatchPrefix(r, s);
      DispatchOffers(r, s);
      ForActorSnoc(s.accepted[..s.next], e, a);
      if a in s.births {
        DispatchFates(r, s, ForActor(s.accepted[..s.next], a));
      }
      hide Dispatch, RunActor, ForActor, Offer, AsBehaviour;
    }
  }

  lemma DispatchStopsOnce(r: Reactor, s: Sys)
    requires s.next < |s.accepted| && StopsOnce(s)
    ensures StopsOnce(Dispatch(r, s))
  {
  }

  lemma DispatchOk(r: Reactor, s: Sys)
    requires SysOk(r, s) && s.next < |s.accepted|
    ensures SysOk(r, Dispatch(r, s))
  {
    var e := s.accepted[s.next];
    DispatchPrefix(r, s);
    DispatchStopsOnce(r, s);
    forall a ensures OnReference(r, Dispatch(r, s), a) {
      DispatchOnReference(r, s, a);
    }
    if e.target in s.actors {
      NumberedSeal(s.accepted, r(e.target, s.actors[e.target], e.msg).sends);
    }
  }

  lemma DispatchGrows(r: Reactor, s: Sys)
    requires s.next < |s.accepted|
    ensures s.accepted <= Dispatch(r, s).accepted && s.stops <= Dispatch(r, s).stops
    ensures Dispatch(r, s).births == s.births
  {
  }

  lemma AcceptOk(r: Reactor, s: Sys, m: Outgoing)
    requires SysOk(r, s)
    ensures SysOk(r, Accept(s, m))
  {
    var s' := Accept(s, m);
    forall a ensures OnReference(r, s', a) {
      assert OnReference(r, s, a);
      assert s'.accepted[..s'.next] == s.accepted[..s.next];
    }
  }

  lemma {:induction false} NoneForActor(es: seq<Envelope>, a: ActorId)
    requires forall i :: 0 <= i < |es| ==> es[i].target != a
    ensures ForActor(es, a) == []
  {
    if es != [] {
      NoneForActor(es[1..], a);
    }
  }

  /** Spawning needs an identity nobody has used or been sent anything under. */
  lemma SpawnOk(r: Reactor, s: Sys, id: ActorId, actor: State)
    requires SysOk(r, s) && id !in s.births && (forall i :: 0 <= i < s.next ==> s.accepted[i].target != id)
    ensures SysOk(r, Spawn(s, id, actor))
  {
    var s' := Spawn(s, id, actor);
    NoneForActor(s.accepted[..s.next], id);
    forall a ensures OnReference(r, s', a) {
      assert OnReference(r, s, a);
    }
  }

  /** The new actor is there in exactly its given state; nobody else, and no envelope, has changed. */
  lemma SpawnAdds(s: Sys, id: ActorId, actor: State)
    ensures var s' := Spawn(s, id, actor);
            && Lookup(s'.actors, id) == Some(actor) && Lookup(s'.births, id) == Some(actor)
            && (forall a :: a != id ==>
                  Lookup(s'.actors, a) == Lookup(s.actors, a) && Lookup(s'.births, a) == Lookup(s.births, a))
            && s'.accepted == s.accepted && s'.next == s.next && s'.fates == s.fates && s'.stops == s.stops
  {
  }

  /** An accepted envelope waits behind all others, with the next ticket, and nothing else changes. */
  lemma AcceptAppends(s: Sys, m: Outgoing)
    requires s.next <= |s.accepted|
    ensures var s' := Accept(s, m);
            && s'.next <= |s'.accepted| && Queue(s') == Queue(s) + [Envelope(|s.accepted|, m.target, m.msg)]
            && s'.accepted[..|s.accepted|] == s.accepted && s'.actors == s.actors && s'.next == s.next
            && s'.fates == s.fates && s'.stops == s.stops && s'.births == s.births
  {
  }

  /** What is spawned is what handles: the first message sent to a new actor of a drained system gets the
      reply of the handler on the spawned state, and the actor is left as that handler leaves it. */
  lemma SpawnedHandles(r: Reactor, s: Sys, id: ActorId, actor: State, msg: Msg)
    requires s.next == |s.accepted| == |s.fates|
    ensures var s1 := Accept(Spawn(s, id, actor), Outgoing(id, msg));
            && s1.next < |s1.accepted|
            && var s', o := Dispatch(r, s1), r(id, actor, msg);
               && s'.fates == s.fates + [Handled(o.reply)]
               && Lookup(s'.actors, id) == (if o.running then Some(o.state) else None)
               && s'.stops == s.stops + (if o.running then [] else [id])
               && forall a :: a != id ==> Lookup(s'.actors, a) == Lookup(s.actors, a)
  {
  }

  lemma {:induction false} NoneBefore(es: seq<Envelope>, t: nat)
    requires t < |es| && forall i :: 0 <= i < t ==> es[i].target != es[t].target
    ensures ForActor(es, es[t].target) == [es[t]] + ForActor(es[t + 1..], es[t].target)
  {
    if t > 0 {
      NoneBefore(es[1..], t - 1);
      assert es[1..][t - 1 + 1..] == es[t + 1..];
    }
  }

  /** And whatever else the channel held: the first envelope ever received for an actor is handled by the
      state the actor was spawned with. */
  lemma FirstEnvelope(r: Reactor, s: Sys, t: nat)
    requires SysOk(r, s) && t < s.next && s.accepted[t].target in s.births
    requires forall i :: 0 <= i < t ==> s.accepted[i].target != s.accepted[t].target
    ensures |s.fates| == s.next
    ensures var e := s.accepted[t]; s.fates[t] == Handled(r(e.target, s.births[e.target], e.msg).reply)
  {
    var e, es := s.accepted[t], s.accepted[..s.next];
    var f := ForActor(es, e.target);
    assert OnReference(r, s, e.target);
    NoneBefore(es, t);
    hide RunActor, ForActor, SysOk;
    assert f[0] == e;
    FirstFate(r, s.births[e.target], f);
    assert Numbered(s.accepted) && e.ticket == t by { SysNumbered(r, s); }
  }

  lemma SysNumbered(r: Reactor, s: Sys)
    requires SysOk(r, s)
    ensures Numbered(s.accepted)
  {
  }

  lemma FirstFate(r: Reactor, init: State, f: seq<Envelope>)
    requires f != []
    ensures RunActor(AsBehaviour(r), init, f).fates[0] == Handled(r(f[0].target, init, f[0].msg).reply)
  {
    var h, e := AsBehaviour(r), f[0];
    RunActorPrefix(h, init, f, 1);
    assert f[..1] == [] + [e];
    RunActorSnoc(h, init, [], e);
    assert RunActor(h, init, []) == ActorRun(Some(init), []);
    hide RunActor;
    assert RunActor(h, init, f).fates[0] == RunActor(h, init, f[..1]).fates[0];
  }

  // ---- draining the channel ----

  function Pow(b: nat, n: nat): (p: nat)
    ensures b >= 1 ==> p >= 1
  {
    if n == 0 then 1 else b * Pow(b, n - 1)
  }

  type Rank = (ActorId, Msg) -> nat

  /** Every handled message sends at most `b` messages, all of strictly lower rank. */
  ghost predicate SendsDown(r: Reactor, rank: Rank, b: nat) {
    forall a: ActorId, state: State, msg: Msg ::
      var sends := r(a, state, msg).sends;
      |sends| <= b && forall i :: 0 <= i < |sends| ==> rank(sends[i].target, sends[i].msg) < rank(a, msg)
  }

  /** The work the channel still holds. */
  ghost function Weight(es: seq<Envelope>, rank: Rank, b: nat): nat {
    if es == [] then 0 else Pow(b + 1, rank(es[0].target, es[0].msg)) + Weight(es[1..], rank, b)
  }

  lemma {:induction false} WeightConcat(es: seq<Envelope>, more: seq<Envelope>, rank: Rank, b: nat)
    ensures Weight(es + more, rank, b) == Weight(es, rank, b) + Weight(more, rank, b)
  {
    if es == [] {
      assert es + more == more;
    } else {
      assert (es + more)[1..] == es[1..] + more;
      WeightConcat(es[1..], more, rank, b);
    }
  }

  lemma {:induction false} PowMonotone(b: nat, m: nat, n: nat)
    requires b >= 1 && m <= n
    ensures Pow(b, m) <= Pow(b, n)
    decreases n - m
  {
    if m < n {
      PowMonotone(b, m, n - 1);
      assert Pow(b, n) == b * Pow(b, n - 1) >= Pow(b, n - 1);
    }
  }

  /** Envelopes below rank `k` weigh at most `(b + 1) ^ (k - 1)` each. */
  lemma {:induction false} WeightBelow(es: seq<Envelope>, rank: Rank, b: nat, k: nat)
    requires k >= 1 && forall i :: 0 <= i < |es| ==> rank(es[i].target, es[i].msg) < k
    ensures Weight(es, rank, b) <= |es| * Pow(b + 1, k - 1)
  {
    hide Pow;
    if es != [] {
      PowMonotone(b + 1, rank(es[0].target, es[0].msg), k - 1);
      WeightBelow(es[1..], rank, b, k);
      Modular.OneTermMore(|es| - 1, Pow(b + 1, k - 1));
    }
  }

  /** Whatever the handler sends weighs less than the message it handled. */
  lemma SendsWeighLess(r: Reactor, rank: Rank, b: nat, a: ActorId, state: State, msg: Msg, first: nat)
    requires SendsDown(r, rank, b)
    ensures Weight(Seal(r(a, state, msg).sends, first), rank, b) < Pow(b + 1, rank(a, msg))
  {
    var sends, k := r(a, state, msg).sends, rank(a, msg);
    var es := Seal(sends, first);
    assert |sends| <= b && forall i :: 0 <= i < |sends| ==> rank(sends[i].target, sends[i].msg) < k;
    if sends != [] {
      assert rank(sends[0].target, sends[0].msg) < k;
      WeightBelow(es, rank, b, k);
      var p := Pow(b + 1, k - 1);
      assert |es| * p <= b * p by {
        MulMonotone(|es|, b, p);
      }
      assert Pow(b + 1, k) == (b + 1) * p == b * p + p;
    }
  }

  lemma MulMonotone(x: nat, y: nat, p: nat)
    requires x <= y
    ensures x * p <= y * p
  {
  }

  /** The channel's queue after a dispatch: its tail and what the handler sent. */
  lemma DispatchQueue(r: Reactor, s: Sys)
    requires s.next < |s.accepted|
    ensures var e, s' := s.accepted[s.next], Dispatch(r, s);
            var sent :=
              if e.target in s.actors then Seal(r(e.target, s.actors[e.target], e.msg).sends, |s.accepted|) else [];
            s'.next <= |s'.accepted| && Queue(s') == Queue(s)[1..] + sent && s'.accepted == s.accepted + sent
  {
  }

  /** Every dispatch makes the channel lighter. */
  lemma DispatchLighter(r: Reactor, s: Sys, rank: Rank, b: nat)
    requires SendsDown(r, rank, b) && s.next < |s.accepted|
    ensures Dispatch(r, s).next <= |Dispatch(r, s).accepted|
    ensures Weight(Queue(Dispatch(r, s)), rank, b) < Weight(Queue(s), rank, b)
  {
    var e, q := s.accepted[s.next], Queue(s);
    DispatchQueue(r, s);
    assert q[0] == e;
    if e.target in s.actors {
      var sent := Seal(r(e.target, s.actors[e.target], e.msg).sends, |s.accepted|);
      SendsWeighLess(r, rank, b, e.target, s.actors[e.target], e.msg, |s.accepted|);
      WeightConcat(q[1..], sent, rank, b);
    } else {
      assert q[1..] + [] == q[1..];
      assert Pow(b + 1, rank(e.target, e.msg)) >= 1;
    }
  }

  /** Receiving ends after at most `n` envelopes. Handlers that go on sending for ever never let it
      end; there is no result to speak of then. */
  ghost predicate DrainsIn(r: Reactor, s: Sys, n: nat)
    decreases n
  {
    && s.next <= |s.accepted|
    && (s.next == |s.accepted| || (n > 0 && DrainsIn(r, Dispatch(r, s), n - 1)))
  }

  /** Dispatch until the channel is empty. */
  ghost function Drain(r: Reactor, s: Sys, n: nat): (s': Sys)
    requires DrainsIn(r, s, n)
    ensures s'.next == |s'.accepted| && s.next <= s'.next && s.accepted <= s'.accepted && s'.births == s.births
    decreases n
  {
    if s.next == |s.accepted| then s
    else
      DispatchPrefix(r, s);
      Drain(r, Dispatch(r, s), n - 1)
  }

  lemma {:induction false} DrainsInMore(r: Reactor, s: Sys, n: nat, m: nat)
    requires DrainsIn(r, s, n) && n <= m
    ensures DrainsIn(r, s, m)
    decreases n
  {
    hide Dispatch;
    if s.next < |s.accepted| {
      DrainsInMore(r, Dispatch(r, s), n - 1, m - 1);
    }
  }

  /** If every handled message sends at most `b` messages, of strictly lower rank, draining ends,
      after at most as many dispatches as the channel weighs. */
  lemma {:induction false} DrainsByRank(r: Reactor, s: Sys, rank: Rank, b: nat)
    requires SendsDown(r, rank, b) && s.next <= |s.accepted|
    ensures DrainsIn(r, s, Weight(Queue(s), rank, b))
    decreases Weight(Queue(s), rank, b)
  {
    hide SendsDown, Dispatch, Weight;
    if s.next < |s.accepted| {
      DispatchLighter(r, s, rank, b);
      DrainsByRank(r, Dispatch(r, s), rank, b);
      DrainsInMore(r, Dispatch(r, s), Weight(Queue(Dispatch(r, s)), rank, b), Weight(Queue(s), rank, b) - 1);
    }
  }

  lemma {:induction false} DrainOk(r: Reactor, s: Sys, n: nat)
    requires DrainsIn(r, s, n) && SysOk(r, s)
    ensures SysOk(r, Drain(r, s, n))
    decreases n
  {
    hide SysOk, Dispatch;
    if s.next < |s.accepted| {
      DispatchOk(r, s);
      DrainOk(r, Dispatch(r, s), n - 1);
    }
  }

  // ---- the event loop, given what comes from outside ----

  function AcceptAll(s: Sys, batch: seq<Outgoing>): Sys
    decreases |batch|
  {
    if batch == [] then s else AcceptAll(Accept(s, batch[0]), batch[1..])
  }

  /** One receive, if there is anything to receive. */
  function Received(r: Reactor, s: Sys): Sys {
    if s.next < |s.accepted| then Dispatch(r, s) else s
  }

  /** The loop ends when the rest of the program sends the batches `arrivals`, one before each receive
      whatever the channel then holds, and nothing more after them. A batch may be empty; a receive on
      an empty channel waits for the next batch. */
  ghost predicate EndsIn(r: Reactor, s: Sys, arrivals: seq<seq<Outgoing>>, n: nat)
    decreases |arrivals|
  {
    if arrivals == [] then DrainsIn(r, s, n) else EndsIn(r, Received(r, AcceptAll(s, arrivals[0])), arrivals[1..], n)
  }

  /** The system when the loop ends. */
  ghost function LoopEnd(r: Reactor, s: Sys, arrivals: seq<seq<Outgoing>>, n: nat): (s': Sys)
    requires EndsIn(r, s, arrivals, n)
    decreases |arrivals|
  {
    if arrivals == [] then Drain(r, s, n)
    else LoopEnd(r, Received(r, AcceptAll(s, arrivals[0])), arrivals[1..], n)
  }

  function Flatten(batches: seq<seq<Outgoing>>): seq<Outgoing> {
    if batches == [] then [] else batches[0] + Flatten(batches[1..])
  }

  /** `es[places[i]]` carries message `i` of `mail`, in order, from position `from` on. */
  ghost predicate Carries(es: seq<Envelope>, from: nat, mail: seq<Outgoing>, places: seq<nat>) {
    && |places| == |mail|
    && (forall i, j :: 0 <= i < j < |places| ==> places[i] < places[j])
    && (forall i :: 0 <= i < |places| ==>
          from <= places[i] < |es| && Outgoing(es[places[i]].target, es[places[i]].msg) == mail[i])
  }

  lemma CarriesLonger(es: seq<Envelope>, es': seq<Envelope>, from: nat, mail: seq<Outgoing>, places: seq<nat>)
    requires Carries(es, from, mail, places) && es <= es'
    ensures Carries(es', from, mail, places)
  {
  }

  lemma CarriesOn(es: seq<Envelope>, from: nat, mail: seq<Outgoing>, places: seq<nat>, middle: nat,
                  more: seq<Outgoing>, others: seq<nat>)
    requires middle <= |es| && from <= middle && Carries(es[..middle], from, mail, places)
    requires Carries(es, middle, more, others)
    ensures Carries(es, from, mail + more, places + others)
  {
    CarriesLonger(es[..middle], es, from, mail, places);
  }

  lemma {:induction false} AcceptAllCarries(s: Sys, batch: seq<Outgoing>) returns (places: seq<nat>)
    ensures Carries(AcceptAll(s, batch).accepted, |s.accepted|, batch, places)
    ensures |AcceptAll(s, batch).accepted| == |s.accepted| + |batch|
    decreases |batch|
  {
    if batch == [] {
      places := [];
    } else {
      var s1 := Accept(s, batch[0]);
      var others := AcceptAllCarries(s1, batch[1..]);
      AcceptAllGrows(s1, batch[1..]);
      places := [|s.accepted|] + others;
      assert AcceptAll(s, batch).accepted[|s.accepted|] == s1.accepted[|s.accepted|];
    }
  }

  lemma ReceivedGrows(r: Reactor, s: Sys)
    ensures s.accepted <= Received(r, s).accepted && s.next <= Received(r, s).next
    ensures s.next <= |s.accepted| ==> Received(r, s).next <= |Received(r, s).accepted|
  {
  }

  /** Whatever arrives is accepted: every message of every batch is in the channel's history when the loop
      ends, in the order of sending; and by then everything accepted has been received. */
  lemma {:induction false} LoopEndCarries(r: Reactor, s: Sys, arrivals: seq<seq<Outgoing>>, n: nat)
    returns (places: seq<nat>)
    requires EndsIn(r, s, arrivals, n)
    ensures var s' := LoopEnd(r, s, arrivals, n);
            && Carries(s'.accepted, |s.accepted|, Flatten(arrivals), places)
            && s.accepted <= s'.accepted && s'.next == |s'.accepted|
    decreases |arrivals|
  {
    hide Received, AcceptAll, Drain, DrainsIn, Carries;
    if arrivals == [] {
      places := [];
      assert Carries(LoopEnd(r, s, arrivals, n).accepted, |s.accepted|, [], []) by {
        CarriesNothing(LoopEnd(r, s, arrivals, n).accepted, |s.accepted|);
      }
    } else {
      var s1 := AcceptAll(s, arrivals[0]);
      var s2 := Received(r, s1);
      var s' := LoopEnd(r, s, arrivals, n);
      var first := AcceptAllCarries(s, arrivals[0]);
      AcceptAllGrows(s, arrivals[0]);
      ReceivedGrows(r, s1);
      var others := LoopEndCarries(r, s2, arrivals[1..], n);
      CarriesLonger(s1.accepted, s2.accepted, |s.accepted|, arrivals[0], first);
      assert s'.accepted[..|s2.accepted|] == s2.accepted;
      CarriesOn(s'.accepted, |s.accepted|, arrivals[0], first, |s2.accepted|, Flatten(arrivals[1..]), others);
      places := first + others;
    }
  }

  lemma CarriesNothing(es: seq<Envelope>, from: nat)
    ensures Carries(es, from, [], [])
  {
  }

  lemma {:induction false} AcceptAllGrows(s: Sys, batch: seq<Outgoing>)
    ensures AcceptAll(s, batch).next == s.next && s.accepted <= AcceptAll(s, batch).accepted
    decreases |batch|
  {
    if batch != [] {
      AcceptAllGrows(Accept(s, batch[0]), batch[1..]);
    }
  }

  /** With the ranks of `DrainsByRank` the event loop ends, whatever arrives. */
  lemma {:induction false} EndsByRank(r: Reactor, s: Sys, arrivals: seq<seq<Outgoing>>, rank: Rank, b: nat)
    returns (n: nat)
    requires SendsDown(r, rank, b) && s.next <= |s.accepted|
    ensures EndsIn(r, s, arrivals, n)
    decreases |arrivals|
  {
    hide SendsDown, Dispatch, Weight, AcceptAll, DrainsIn;
    if arrivals == [] {
      DrainsByRank(r, s, rank, b);
      n := Weight(Queue(s), rank, b);
    } else {
      var s1 := AcceptAll(s, arrivals[0]);
      AcceptAllGrows(s, arrivals[0]);
      if s1.next < |s1.accepted| {
        DispatchLighter(r, s1, rank, b);
      }
      n := EndsByRank(r, Received(r, s1), arrivals[1..], rank, b);
    }
  }
}

/** The runtime object itself. */
module SystemClass {
  import opened Actors
  import opened SystemSpec

  class ActorSystem {
    var actors: map<ActorId, State>
    var rx: seq<Envelope>
    var open: bool
    var nextId: nat
    var fates: seq<Fate>
    var stops: seq<ActorId>
    ghost var accepted: seq<Envelope>
    ghost var births: map<ActorId, State>

    ghost predicate Valid()
      reads this
    {
      && |fates| + |rx| == |accepted| && rx == accepted[|fates|..]
      && nextId >= 1 && (forall a :: a in births ==> a < nextId)
    }

    ghost function Value(): Sys
      reads this
    {
      Sys(actors, accepted, |fates|, fates, stops, births)
    }

    constructor ()
      ensures Valid() && Value() == Sys(map[], [], 0, [], [], map[]) && open && nextId == 1
    {
      actors, rx, open, nextId, fates, stops := map[], [], true, 1, [], [];
      accepted, births := [], map[];
    }

    /** Returns the identity of the new actor; the caller panics once the system has run. */
    method Spawn(actor: State) returns (id: ActorId)
      requires Valid() && open
      modifies this
      ensures Valid() && open && id == old(nextId) && nextId == id + 1 && id !in old(births)
      ensures Value() == SystemSpec.Spawn(old(Value()), id, actor)
      ensures Lookup(actors, id) == Some(actor) && rx == old(rx)
      ensures forall a :: a != id ==> Lookup(actors, a) == old(Lookup(actors, a))
    {
      id := nextId;
      nextId := nextId + 1;
      actors := actors[id := actor];
      births := births[id := actor];
    }

    /** An address sends to the channel. */
    method Send(m: Outgoing)
      requires Valid()
      modifies this
      ensures Valid() && open == old(open) && nextId == old(nextId)
      ensures Value() == SystemSpec.Accept(old(Value()), m)
      ensures rx == old(rx) + [Envelope(|old(accepted)|, m.target, m.msg)]
    {
      var e := Envelope(|fates| + |rx|, m.target, m.msg);
      rx := rx + [e];
      accepted := accepted + [e];
    }

    /** The channel takes what a handler sends while its envelope is out of the channel. */
    method Emit(sends: seq<Outgoing>)
      requires |fates| + 1 + |rx| == |accepted| && rx == accepted[|fates| + 1..]
      modifies this`rx, this`accepted
      ensures |fates| + 1 + |rx| == |accepted| && rx == accepted[|fates| + 1..]
      ensures accepted == old(accepted) + Seal(sends, |old(accepted)|)
    {
      var sent := Seal(sends, |fates| + 1 + |rx|);
      assert rx + sent == (accepted + sent)[|fates| + 1..];
      rx := rx + sent;
      accepted := accepted + sent;
    }

    /** Receives the head of the channel and dispatches it. */
    method Dispatch(r: Reactor)
      requires Valid() && rx != []
      modifies this
      ensures Valid() && open == old(open) && nextId == old(nextId)
      ensures Value() == SystemSpec.Dispatch(r, old(Value()))
    {
      var e := rx[0];
      rx := rx[1..];
      assert rx == accepted[|fates| + 1..];
      if e.target in actors {
        var o := r(e.target, actors[e.target], e.msg);
        Emit(o.sends);
        fates := fates + [Handled(o.reply)];
        actors := actors[e.target := o.state];
        if !o.running {
          RemoveActor(e.target);
        }
      } else {
        fates := fates + [Dropped];
      }
    }

    method RemoveActor(id: ActorId)
      requires Valid()
      modifies this`actors, this`stops
      ensures Valid() && Value() == Remove(old(Value()), id)
      ensures old(StopsOnce(Value())) ==> StopsOnce(Value()) && (id in births ==> id in stops && id !in actors)
      ensures forall a :: a != id ==> Lookup(actors, a) == old(Lookup(actors, a)) && (a in stops <==> a in old(stops))
    {
      if id in actors {
        actors := actors - {id};
        stops := stops + [id];
      }
    }

    /** Processes everything the channel holds, and everything sent meanwhile. The one condition is
        that this ends. */
    method RunOnce(r: Reactor, ghost n: nat) returns (count: nat)
      requires Valid() && DrainsIn(r, Value(), n)
      modifies this
      ensures Valid() && open == old(open) && nextId == old(nextId) && rx == []
      ensures Value() == Drain(r, old(Value()), n)
      ensures count == |fates| - old(|fates|)
    {
      count := 0;
      ghost var left: nat := n;
      while rx != []
        invariant Valid() && open == old(open) && nextId == old(nextId) && DrainsIn(r, Value(), left)
        invariant Drain(r, Value(), left) == Drain(r, old(Value()), n)
        invariant count == |fates| - old(|fates|)
        decreases left
      {
        Dispatch(r);
        left := left - 1;
        count := count + 1;
      }
    }

    /** Every remaining actor is stopped, once. */
    method StopAllActors(ghost r: Reactor, ghost done: Sys)
      requires Valid() && Ended(r, done, Value())
      modifies this`actors, this`stops
      ensures Valid() && Ended(r, done, Value()) && actors == map[]
    {
      hide Ended;
      var ids := actors.Keys;
      while ids != {}
        invariant Valid() && Ended(r, done, Value()) && actors.Keys == ids
        decreases |ids|
      {
        var id :| id in ids;
        ids := ids - {id};
        RemoveEnded(r, done, Value(), id);
        RemoveActor(id);
      }
    }

    /** The event loop. `arrivals` is what the rest of the program sends: one batch, possibly empty,
        before each receive, whatever the channel then holds. After the last batch no sender is left,
        and the next receive on the empty channel fails. The one condition is that the loop ends. */
    method Run(r: Reactor, arrivals: seq<seq<Outgoing>>, ghost n: nat) returns (ghost done: Sys, ghost places: seq<nat>)
      requires Valid() && SysOk(r, Value()) && EndsIn(r, Value(), arrivals, n)
      modifies this
      ensures Valid() && !open && rx == [] && actors == map[] && nextId == old(nextId)
      ensures Ended(r, done, Value()) && done == LoopEnd(r, old(Value()), arrivals, n)
      ensures Carries(accepted, |old(accepted)|, Flatten(arrivals), places)
      ensures births == old(births) && old(accepted) <= accepted && old(stops) <= stops
    {
      hide SysOk, AcceptAll, SystemSpec.Dispatch, Carries;
      open := false;
      var i := 0;
      var running := true;
      ghost var left: nat := n;
      assert arrivals[0..] == arrivals;
      places := LoopEndCarries(r, Value(), arrivals, n);
      while running
        invariant Valid() && !open && nextId == old(nextId) && SysOk(r, Value()) && i <= |arrivals|
        invariant running ==> EndsIn(r, Value(), arrivals[i..], left)
        invariant running ==> LoopEnd(r, Value(), arrivals[i..], left) == LoopEnd(r, old(Value()), arrivals, n)
        invariant births == old(births) && old(accepted) <= accepted && old(stops) <= stops
        invariant !running ==> rx == [] && Value() == LoopEnd(r, old(Value()), arrivals, n)
        decreases running, |arrivals| - i, left
      {
        if i < |arrivals| {
          assert arrivals[i..][0] == arrivals[i] && arrivals[i..][1..] == arrivals[i + 1..];
          Deliver(r, arrivals[i]);
          i := i + 1;
          if rx != [] {
            Receive(r);
          }
        } else if rx != [] {
          Receive(r);
          left := left - 1;
        } else {
          running := false;
        }
      }
      done := Value();
      assert Ended(r, done, Value()) by {
        SysBounds(r, done);
      }
      StopAllActors(r, done);
    }

    /** A receive that finds an envelope. */
    method Receive(r: Reactor)
      requires Valid() && SysOk(r, Value()) && rx != []
      modifies this
      ensures Valid() && SysOk(r, Value()) && open == old(open) && nextId == old(nextId) && births == old(births)
      ensures Value() == SystemSpec.Dispatch(r, old(Value()))
      ensures old(accepted) <= accepted && old(stops) <= stops
    {
      hide SysOk, SystemSpec.Dispatch;
      DispatchOk(r, Value());
      DispatchGrows(r, Value());
      Dispatch(r);
    }

    /** A batch of sends from outside. */
    method Deliver(ghost r: Reactor, batch: seq<Outgoing>)
      requires Valid() && SysOk(r, Value())
      modifies this
      ensures Valid() && SysOk(r, Value()) && open == old(open) && births == old(births) && stops == old(stops)
      ensures nextId == old(nextId)
      ensures old(accepted) <= accepted && Value() == AcceptAll(old(Value()), batch)
    {
      hide SysOk;
      assert batch[0..] == batch;
      for k := 0 to |batch|
        invariant Valid() && SysOk(r, Value()) && open == old(open) && births == old(births) && stops == old(stops)
        invariant nextId == old(nextId)
        invariant old(accepted) <= accepted && AcceptAll(Value(), batch[k..]) == AcceptAll(old(Value()), batch)
      {
        AcceptOk(r, Value(), batch[k]);
        assert batch[k..][0] == batch[k] && batch[k..][1..] == batch[k + 1..];
        Send(batch[k]);
      }
    }
  }

  /** The test harness of src/testkit.rs. */
  class TestKit {
    const system: ActorSystem

    constructor ()
      ensures fresh(system) && system.Valid() && system.open
      ensures system.Value() == Sys(map[], [], 0, [], [], map[])
    {
      system := new ActorSystem();
    }

    /** Drains to quiescence. When nobody else sends, the first pass does all the work: the
        second one finds the channel empty and ends the loop. The one condition is that the first
        pass ends. */
    method RunUntilIdle(r: Reactor, ghost n: nat) returns (passes: nat)
      requires system.Valid() && DrainsIn(r, system.Value(), n)
      modifies system
      ensures system.Valid() && system.rx == []
      ensures system.Value() == Drain(r, old(system.Value()), n)
      ensures passes == if old(system.rx) == [] then 1 else 2
    {
      passes := 1;
      var count := system.RunOnce(r, n);
      while count > 0
        invariant system.Valid() && system.rx == [] && system.Value() == Drain(r, old(system.Value()), n)
        invariant count > 0 ==> passes == 1
        invariant count == 0 ==> passes == if old(system.rx) == [] then 1 else 2
        invariant count > 0 ==> old(system.rx) != []
        decreases count
      {
        count := system.RunOnce(r, 0);
        passes := passes + 1;
      }
    }
  }
}
