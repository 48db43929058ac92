/** Bounded waiting: the round-robin claim of src/scheduler.rs as theorems over every sequence
    of worker turns, whatever arrives in between and whichever actors stop. */
module Fairness {
  import opened Actors
  import opened SchedulerSpec

  /** One pass of the worker loop: what the channel delivered before the turn, and whether the
      handler that ran asked to stop (or panicked). */
  datatype Round = Round(arrivals: seq<Envelope>, stops: bool)

  function Filled(q: Sched, r: Round): Sched { EnqueueAll(q, r.arrivals) }

  /** Whose turn it is in round `r`. */
  function TurnOf(q: Sched, r: Round): Option<ActorId> { NextReady(Filled(q, r)).1 }

  /** The envelope handed to `dispatch` in round `r`. */
  function DispatchedIn(q: Sched, r: Round): Option<Envelope> {
    match NextReady(Filled(q, r))
    case (_, None) => None
    case (q', Some(id)) => Dequeue(q', id).1
  }

  function AfterRound(q: Sched, r: Round): Sched {
    match NextReady(Filled(q, r))
    case (q', None) => q'
    case (q', Some(id)) =>
      var q'' := Dequeue(q', id).0;
      RequeueIfReady(if r.stops then RemoveActor(q'', id) else q'', id)
  }

  function After(q: Sched, rounds: seq<Round>): Sched
    decreases |rounds|
  {
    if rounds == [] then q else After(AfterRound(q, rounds[0]), rounds[1..])
  }

  /** Every round starts and ends with mailboxes and ready queue in agreement. */
  lemma RoundSettled(q: Sched, r: Round)
    requires Settled(q, None)
    ensures Settled(AfterRound(q, r), None)
  {
    EnqueueAllSettled(q, r.arrivals);
    var f := Filled(q, r);
    NextReadySettled(f);
    if f.ready != [] {
      TurnBegin(f);
      TurnBeginSettled(f);
      if r.stops {
        RemoveSettled(Served(f), f.ready[0], Some(f.ready[0]));
      } else {
        RequeueSettled(Served(f), f.ready[0]);
      }
    }
  }

  lemma {:induction false} RoundsSettled(q: Sched, rounds: seq<Round>)
    requires Settled(q, None)
    ensures Settled(After(q, rounds), None)
    decreases |rounds|
  {
    if rounds != [] {
      RoundSettled(q, rounds[0]);
      RoundsSettled(AfterRound(q, rounds[0]), rounds[1..]);
    }
  }

  /** An actor that is not at the head moves up exactly one place and keeps its mail. */
  lemma MovesUp(q: Sched, r: Round, p: nat)
    requires Settled(q, None) && 0 < p < |q.ready|
    ensures var q' := AfterRound(q, r);
            p - 1 < |q'.ready| && q'.ready[p - 1] == q.ready[p] && Box(q, q.ready[p]) <= Box(q', q.ready[p])
  {
    var id := q.ready[p];
    EnqueueAllSettled(q, r.arrivals);
    EnqueueAllBox(q, r.arrivals, id);
    var f := Filled(q, r);
    NextReadySettled(f);
    TurnBegin(f);
    var head := f.ready[0];
    assert head != id && f.ready[p] == id;
    var g := Served(f);
    if r.stops {
      TurnBeginSettled(f);
      assert head !in g.ready;
      WithoutMembers(g.ready, head);
      assert RemoveActor(g, head).ready == g.ready;
    }
    assert AfterRound(q, r).ready[p - 1] == g.ready[p - 1];
  }

  /** The actor at the head is served its oldest envelope. If it goes on and has more mail it
      joins the back of the queue; if it stops, its mail is gone. */
  lemma HeadServed(q: Sched, r: Round)
    requires Settled(q, None) && q.ready != []
    ensures var id, q' := q.ready[0], AfterRound(q, r);
            && Box(q, id) != []
            && TurnOf(q, r) == Some(id) && DispatchedIn(q, r) == Some(Box(q, id)[0])
            && (r.stops ==> Box(q', id) == [])
            && (!r.stops ==> Box(q, id)[1..] <= Box(q', id))
            && (!r.stops && |Box(q, id)| > 1 ==> |q'.ready| == |Filled(q, r).ready| && q'.ready[|q'.ready| - 1] == id)
  {
    var id := q.ready[0];
    EnqueueAllSettled(q, r.arrivals);
    EnqueueAllBox(q, r.arrivals, id);
    var f := Filled(q, r);
    assert f.ready[0] == id && id in q.ready;
    NextReadySettled(f);
    TurnBegin(f);
    assert Box(Served(f), id) == Box(f, id)[1..];
    assert Box(q, id)[1..] <= Box(f, id)[1..];
  }

  /** An actor at position `p` of the ready queue is served on exactly turn `p + 1`, with the
      envelope that was at the head of its mailbox, whatever else arrives. */
  lemma {:induction false} ServedOnItsTurn(q: Sched, rounds: seq<Round>, p: nat)
    requires Settled(q, None) && p < |q.ready| && p < |rounds|
    ensures Box(q, q.ready[p]) != []
    ensures TurnOf(After(q, rounds[..p]), rounds[p]) == Some(q.ready[p])
    ensures DispatchedIn(After(q, rounds[..p]), rounds[p]) == Some(Box(q, q.ready[p])[0])
    decreases p
  {
    if p == 0 {
      HeadServed(q, rounds[0]);
    } else {
      RoundSettled(q, rounds[0]);
      MovesUp(q, rounds[0], p);
      ServedOnItsTurn(AfterRound(q, rounds[0]), rounds[1..], p - 1);
      assert rounds[..p][1..] == rounds[1..][..p - 1] && rounds[..p][0] == rounds[0];
      assert q.ready[p] in q.ready;
    }
  }

  /** At no turn are more than `n` actors waiting. */
  ghost predicate AtMostReady(q: Sched, rounds: seq<Round>, n: nat) {
    forall k :: 0 <= k < |rounds| ==> |Filled(After(q, rounds[..k]), rounds[k]).ready| <= n
  }

  /** Round `k` settles the envelope `e` of actor `id`: it is dispatched, or its actor stops and
      takes the whole mailbox, with `e` in it, along. */
  ghost predicate SettledIn(q: Sched, rounds: seq<Round>, k: nat, id: ActorId, e: Envelope)
    requires k < |rounds|
  {
    var qk := After(q, rounds[..k]);
    && TurnOf(qk, rounds[k]) == Some(id)
    && (|| DispatchedIn(qk, rounds[k]) == Some(e)
        || (rounds[k].stops && e in Box(Filled(qk, rounds[k]), id) && Box(AfterRound(qk, rounds[k]), id) == []))
  }

  lemma AtMostReadyTail(q: Sched, rounds: seq<Round>, n: nat)
    requires rounds != [] && AtMostReady(q, rounds, n)
    ensures AtMostReady(AfterRound(q, rounds[0]), rounds[1..], n)
  {
    forall k | 0 <= k < |rounds| - 1
      ensures |Filled(After(AfterRound(q, rounds[0]), rounds[1..][..k]), rounds[1..][k]).ready| <= n
    {
      assert rounds[..k + 1][1..] == rounds[1..][..k] && rounds[..k + 1][0] == rounds[0];
      assert |Filled(After(q, rounds[..k + 1]), rounds[k + 1]).ready| <= n;
    }
  }

  lemma SettledLater(q: Sched, rounds: seq<Round>, k: nat, id: ActorId, e: Envelope)
    requires k + 1 < |rounds| && SettledIn(AfterRound(q, rounds[0]), rounds[1..], k, id, e)
    ensures SettledIn(q, rounds, k + 1, id, e)
  {
    assert rounds[..k + 1][1..] == rounds[1..][..k] && rounds[..k + 1][0] == rounds[0];
  }

  /** One round brings an envelope that it does not settle strictly closer to its turn. */
  lemma Advance(q: Sched, r: Round, p: nat, m: nat, n: nat) returns (p': nat, m': nat)
    requires Settled(q, None) && p < |q.ready| && m < |Box(q, q.ready[p])| && |Filled(q, r).ready| <= n
    requires p > 0 || (m > 0 && !r.stops)
    ensures var q' := AfterRound(q, r);
            && Settled(q', None) && p' < |q'.ready| && q'.ready[p'] == q.ready[p]
            && m' < |Box(q', q.ready[p])| && Box(q', q.ready[p])[m'] == Box(q, q.ready[p])[m]
    ensures p' + 1 + m' * n <= p + m * n
  {
    RoundSettled(q, r);
    if p == 0 {
      HeadServed(q, r);
      p', m' := |AfterRound(q, r).ready| - 1, m - 1;
      assert m * n == (m - 1) * n + n;
    } else {
      MovesUp(q, r, p);
      p', m' := p - 1, m;
    }
  }

  lemma HeadSettles(q: Sched, rounds: seq<Round>, m: nat)
    requires Settled(q, None) && q.ready != [] && m < |Box(q, q.ready[0])| && rounds != []
    requires m == 0 || rounds[0].stops
    ensures SettledIn(q, rounds, 0, q.ready[0], Box(q, q.ready[0])[m])
  {
    assert rounds[..0] == [];
    HeadServed(q, rounds[0]);
    EnqueueAllBox(q, rounds[0].arrivals, q.ready[0]);
    assert Box(Filled(q, rounds[0]), q.ready[0])[m] == Box(q, q.ready[0])[m];
  }

  /** Bounded waiting. An envelope with `m` others ahead of it in the mailbox of the actor at
      position `p` is dispatched, or discarded with its stopped actor, within `p + 1 + m * n`
      turns, where `n` bounds the number of actors with pending mail at any turn. */
  lemma {:induction false} BoundedWaiting(q: Sched, rounds: seq<Round>, p: nat, m: nat, n: nat) returns (k: nat)
    requires Settled(q, None) && p < |q.ready| && m < |Box(q, q.ready[p])|
    requires AtMostReady(q, rounds, n) && |rounds| >= p + 1 + m * n
    ensures k < p + 1 + m * n && k < |rounds|
    ensures SettledIn(q, rounds, k, q.ready[p], Box(q, q.ready[p])[m])
    decreases |rounds|
  {
    hide Settled, AfterRound, SettledIn;
    var r := rounds[0];
    if p == 0 && (m == 0 || r.stops) {
      HeadSettles(q, rounds, m);
      k := 0;
    } else {
      assert rounds[..0] == [];
      assert |Filled(After(q, rounds[..0]), rounds[0]).ready| <= n;
      var p', m' := Advance(q, r, p, m, n);
      AtMostReadyTail(q, rounds, n);
      k := BoundedWaiting(AfterRound(q, r), rounds[1..], p', m', n);
      SettledLater(q, rounds, k, q.ready[p], Box(q, q.ready[p])[m]);
      k := k + 1;
    }
  }

  // ---- draining ----

  /** The places of the mailboxes that hold an envelope. */
  function Pending(q: Sched): set<(ActorId, nat)> {
    set id, i: nat | id in q.mailboxes && i < |q.mailboxes[id]| :: (id, i)
  }

  /** A round without arrivals leaves no mailbox longer, and the served one shorter. */
  lemma QuietRound(q: Sched, stops: bool, x: ActorId)
    requires Settled(q, None) && q.ready != []
    ensures var q' := AfterRound(q, Round([], stops));
            && |Box(q', x)| <= |Box(q, x)|
            && Box(q, q.ready[0]) != [] && |Box(q', q.ready[0])| < |Box(q, q.ready[0])|
  {
    NextReadySettled(q);
    TurnBegin(q);
    TurnBeginSettled(q);
    var id, g := q.ready[0], Served(q);
    if stops {
      RemoveSettled(g, id, Some(id));
    } else {
      RequeueSettled(g, id);
    }
    hide NextReady, Settled, Served;
    assert forall y :: |Box(AfterRound(q, Round([], stops)), y)| <= |Box(g, y)|;
  }

  lemma PendingShrinks(q: Sched, stops: bool)
    requires Settled(q, None) && q.ready != []
    ensures |Pending(AfterRound(q, Round([], stops)))| < |Pending(q)|
  {
    var q' := AfterRound(q, Round([], stops));
    var id := q.ready[0];
    QuietRound(q, stops, id);
    hide AfterRound;
    forall x, i: nat | (x, i) in Pending(q') ensures (x, i) in Pending(q) {
      QuietRound(q, stops, x);
      assert i < |Box(q', x)|;
    }
    var last := (id, |Box(q, id)| - 1);
    assert last in Pending(q) && last !in Pending(q');
    Smaller(Pending(q'), Pending(q), last);
  }

  lemma Smaller<T>(a: set<T>, b: set<T>, x: T)
    requires a <= b && x in b && x !in a
    ensures |a| < |b|
  {
    assert a <= b - {x};
    SubsetSize(a, b - {x});
  }

  lemma {:induction false} SubsetSize<T>(a: set<T>, b: set<T>)
    requires a <= b
    ensures |a| <= |b|
    decreases |a|
  {
    if a != {} {
      var x :| x in a;
      SubsetSize(a - {x}, b - {x});
    }
  }

  /** When nothing more arrives, the worker has drained its mailboxes after at most as many turns
      as there were envelopes. */
  lemma {:induction false} DrainsOut(q: Sched, rounds: seq<Round>)
    requires Settled(q, None) && |rounds| >= |Pending(q)|
    requires forall k :: 0 <= k < |rounds| ==> rounds[k].arrivals == []
    ensures After(q, rounds) == Empty()
    decreases |rounds|
  {
    if q.ready == [] {
      NothingReady(q);
      IdleRounds(rounds);
    } else {
      var r := if rounds == [] then Round([], false) else rounds[0];
      PendingShrinks(q, r.stops);
      RoundSettled(q, r);
      assert r == Round([], r.stops);
      DrainsOut(AfterRound(q, r), rounds[1..]);
    }
  }

  lemma NothingReady(q: Sched)
    requires Settled(q, None) && q.ready == []
    ensures q == Empty()
  {
    assert forall id :: id in q.mailboxes ==> id in q.ready;
    assert q.mailboxes == map[];
  }

  lemma {:induction false} IdleRounds(rounds: seq<Round>)
    requires forall k :: 0 <= k < |rounds| ==> rounds[k].arrivals == []
    ensures After(Empty(), rounds) == Empty()
    decreases |rounds|
  {
    if rounds != [] {
      IdleRounds(rounds[1..]);
    }
  }
}
