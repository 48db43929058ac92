/** Values shared by every part of the model: identities, envelopes, handler outcomes,
    and the per-actor reference semantics every runtime is compared with. */
module Actors {

  /** The boxed actor values, the messages and the replies are arbitrary: nothing in the model
      looks inside them. */
  type State(!new)
  type Msg(!new)
  type Reply(!new)

  /** The raw number inside an `ActorId`. */
  type ActorId = nat

  datatype Option<T> = None | Some(value: T)

  /** A type-erased envelope. `ticket` is the position of the envelope in the global order in
      which channels accepted it; it identifies the envelope in statements and is never read
      by the runtime. */
  datatype Envelope = Envelope(ticket: nat, target: ActorId, msg: Msg)

  /** What one run of a dispatch closure does to the actor it is given. */
  datatype Outcome =
    | Continued(state: State, reply: Reply)
    | StopRequested(state: State, reply: Reply)
    | Panicked

  /** Handlers are deterministic functions of the actor, its state and the message. */
  type Behaviour = (ActorId, State, Msg) -> Outcome

  /** How an accepted envelope ends. */
  datatype Fate = Handled(reply: Reply) | Crashed | Dropped

  datatype SendError = ActorNotRunning | RuntimeShutdown

  datatype SendResult = Ok(reply: Reply) | Err(error: SendError)

  /** What a blocking send returns once its envelope has met its fate: the reply sender lives
      in the dispatch closure, so any end other than a returning handler disconnects it. */
  function ResultOf(f: Fate): SendResult {
    match f
    case Handled(reply) => Ok(reply)
    case Crashed => Err(ActorNotRunning)
    case Dropped => Err(ActorNotRunning)
  }

  /** The envelopes of `s` addressed to `a`, in order. */
  function ForActor(s: seq<Envelope>, a: ActorId): seq<Envelope> {
    if s == [] then [] else (if s[0].target == a then [s[0]] else []) + ForActor(s[1..], a)
  }

  lemma {:induction false} ForActorConcat(s: seq<Envelope>, t: seq<Envelope>, a: ActorId)
    ensures ForActor(s + t, a) == ForActor(s, a) + ForActor(t, a)
  {
    if s == [] {
      assert s + t == t;
    } else {
      assert (s + t)[1..] == s[1..] + t;
      ForActorConcat(s[1..], t, a);
      var head := if s[0].target == a then [s[0]] else [];
      assert ForActor(s + t, a) == head + (ForActor(s[1..], a) + ForActor(t, a));
      assert head + (ForActor(s[1..], a) + ForActor(t, a)) == head + ForActor(s[1..], a) + ForActor(t, a);
    }
  }

  lemma ForActorSnoc(s: seq<Envelope>, e: Envelope, a: ActorId)
    ensures ForActor(s + [e], a) == if e.target == a then ForActor(s, a) + [e] else ForActor(s, a)
  {
    ForActorConcat(s, [e], a);
    assert [e][1..] == [];
    assert ForActor([e], a) == (if e.target == a then [e] else []) + ForActor([e][1..], a);
  }

  /** ForActor keeps exactly the envelopes for `a`. */
  lemma {:induction false} ForActorMembers(s: seq<Envelope>, a: ActorId)
    ensures forall i :: 0 <= i < |ForActor(s, a)| ==> ForActor(s, a)[i] in s && ForActor(s, a)[i].target == a
    ensures forall i :: 0 <= i < |s| && s[i].target == a ==> s[i] in ForActor(s, a)
  {
    if s != [] {
      ForActorMembers(s[1..], a);
      assert s == [s[0]] + s[1..];
    }
  }

  /** Envelopes are numbered by acceptance order. */
  ghost predicate Numbered(accepted: seq<Envelope>) {
    forall i :: 0 <= i < |accepted| ==> accepted[i].ticket == i
  }

  ghost predicate Increasing(s: seq<Envelope>) {
    forall i, j :: 0 <= i < j < |s| ==> s[i].ticket < s[j].ticket
  }

  /** Filtering keeps the acceptance order. */
  lemma {:induction false} ForActorIncreasing(s: seq<Envelope>, a: ActorId)
    requires Increasing(s)
    ensures Increasing(ForActor(s, a))
  {
    if s != [] {
      var tail := s[1..];
      ForActorIncreasing(tail, a);
      ForActorMembers(tail, a);
      var f := ForActor(tail, a);
      forall i | 0 <= i < |f| ensures s[0].ticket < f[i].ticket {
        assert f[i] in tail;
      }
    }
  }

  /** The reference semantics of one actor: what is left of it, and the fate of every envelope,
      after it was offered `es` in order starting from state `init`. An actor that stopped or
      crashed leaves every later envelope to be dropped. */
  datatype ActorRun = ActorRun(alive: Option<State>, fates: seq<Fate>)

  function Offer(h: Behaviour, r: ActorRun, e: Envelope): ActorRun {
    match r.alive
    case None => ActorRun(None, r.fates + [Dropped])
    case Some(state) =>
      match h(e.target, state, e.msg)
      case Continued(state', reply) => ActorRun(Some(state'), r.fates + [Handled(reply)])
      case StopRequested(_, reply) => ActorRun(None, r.fates + [Handled(reply)])
      case Panicked => ActorRun(None, r.fates + [Crashed])
  }

  function RunActor(h: Behaviour, init: State, es: seq<Envelope>): (r: ActorRun)
    ensures |r.fates| == |es|
  {
    if es == [] then ActorRun(Some(init), [])
    else Offer(h, RunActor(h, init, es[..|es| - 1]), es[|es| - 1])
  }

  lemma RunActorSnoc(h: Behaviour, init: State, es: seq<Envelope>, e: Envelope)
    ensures RunActor(h, init, es + [e]) == Offer(h, RunActor(h, init, es), e)
  {
    assert (es + [e])[..|es|] == es;
  }

  lemma OfferSplit(h: Behaviour, r: ActorRun, e: Envelope)
    ensures var o := Offer(h, ActorRun(r.alive, []), e);
            |o.fates| == 1 && Offer(h, r, e) == ActorRun(o.alive, r.fates + o.fates)
  {
  }

  /** Once the actor is gone, all further envelopes are dropped. */
  lemma {:induction false} RunActorAfterEnd(h: Behaviour, init: State, es: seq<Envelope>, more: seq<Envelope>)
    requires RunActor(h, init, es).alive == None
    ensures RunActor(h, init, es + more).alive == None
    ensures RunActor(h, init, es + more).fates == RunActor(h, init, es).fates + seq(|more|, _ => Dropped)
    decreases |more|
  {
    if more == [] {
      assert es + more == es;
    } else {
      var front := more[..|more| - 1];
      RunActorAfterEnd(h, init, es, front);
      RunActorSnoc(h, init, es + front, more[|more| - 1]);
      assert es + more == es + front + [more[|more| - 1]];
    }
  }

  /** Earlier fates do not depend on later envelopes. */
  lemma {:induction false} RunActorPrefix(h: Behaviour, init: State, es: seq<Envelope>, n: nat)
    requires n <= |es|
    ensures RunActor(h, init, es[..n]).fates == RunActor(h, init, es).fates[..n]
    decreases |es|
  {
    if n < |es| {
      var front := es[..|es| - 1];
      RunActorPrefix(h, init, front, n);
      assert es[..n] == front[..n];
    } else {
      assert es[..n] == es;
    }
  }
}
