/** The per-worker round-robin scheduler of src/scheduler.rs: its state as a value, what each
    operation does to that value, and the class that does it in place. */
module SchedulerSpec {
  import opened Actors

  datatype Sched = Sched(mailboxes: map<ActorId, seq<Envelope>>, ready: seq<ActorId>)

  function Empty(): Sched { Sched(map[], []) }

  function Box(q: Sched, id: ActorId): seq<Envelope> {
    if id in q.mailboxes then q.mailboxes[id] else []
  }

  predicate HasPending(q: Sched, id: ActorId) { Box(q, id) != [] }

  function Enqueue(q: Sched, e: Envelope): Sched {
    Sched(q.mailboxes[e.target := Box(q, e.target) + [e]],
          if e.target in q.ready then q.ready else q.ready + [e.target])
  }

  function EnqueueAll(q: Sched, es: seq<Envelope>): Sched
    decreases |es|
  {
    if es == [] then q else EnqueueAll(Enqueue(q, es[0]), es[1..])
  }

  /** Pop ready actors until one has mail; the others are forgotten. */
  function NextReady(q: Sched): (Sched, Option<ActorId>)
    decreases |q.ready|
  {
    if q.ready == [] then (q, None)
    else
      var rest := q.(ready := q.ready[1..]);
      if HasPending(q, q.ready[0]) then (rest, Some(q.ready[0])) else NextReady(rest)
  }

  function Dequeue(q: Sched, id: ActorId): (Sched, Option<Envelope>) {
    if HasPending(q, id) then (q.(mailboxes := q.mailboxes[id := q.mailboxes[id][1..]]), Some(q.mailboxes[id][0]))
    else (q, None)
  }

  function RequeueIfReady(q: Sched, id: ActorId): Sched {
    if HasPending(q, id) then q.(ready := q.ready + [id])
    else q.(mailboxes := q.mailboxes - {id})
  }

  function Without(ids: seq<ActorId>, id: ActorId): seq<ActorId> {
    if ids == [] then [] else (if ids[0] == id then [] else [ids[0]]) + Without(ids[1..], id)
  }

  function RemoveActor(q: Sched, id: ActorId): Sched {
    Sched(q.mailboxes - {id}, Without(q.ready, id))
  }

  ghost predicate NoDuplicates(ids: seq<ActorId>) {
    forall i, j :: 0 <= i < j < |ids| ==> ids[i] != ids[j]
  }

  /** The agreement between mailboxes and ready queue. `busy` is the actor whose turn it is:
      it has left the ready queue and its mailbox may be empty. */
  ghost predicate Settled(q: Sched, busy: Option<ActorId>) {
    && NoDuplicates(q.ready)
    && (forall id :: id in q.ready <==> id in q.mailboxes && busy != Some(id))
    && (forall id :: id in q.mailboxes && busy != Some(id) ==> q.mailboxes[id] != [])
    && (forall id, i :: id in q.mailboxes && 0 <= i < |q.mailboxes[id]| ==> q.mailboxes[id][i].target == id)
  }

  lemma {:induction false} WithoutMembers(ids: seq<ActorId>, id: ActorId)
    ensures forall x :: x in Without(ids, id) <==> x in ids && x != id
    ensures NoDuplicates(ids) ==> NoDuplicates(Without(ids, id))
    ensures id !in ids ==> Without(ids, id) == ids
  {
    if ids != [] {
      WithoutMembers(ids[1..], id);
      assert ids == [ids[0]] + ids[1..];
      if NoDuplicates(ids) {
        var w := Without(ids[1..], id);
        forall i | 0 <= i < |w| ensures w[i] != ids[0] {
          assert w[i] in w;
          var j :| 0 <= j < |ids[1..]| && ids[1..][j] == w[i];
          assert ids[j + 1] == w[i];
        }
      }
    }
  }

  /** Arrivals between turns keep the scheduler settled and only grow mailboxes. */
  lemma EnqueueSettled(q: Sched, e: Envelope)
    requires Settled(q, None)
    ensures Settled(Enqueue(q, e), None)
    ensures forall id :: Box(Enqueue(q, e), id) == if id == e.target then Box(q, id) + [e] else Box(q, id)
    ensures q.ready <= Enqueue(q, e).ready
  {
  }

  lemma {:induction false} EnqueueAllSettled(q: Sched, es: seq<Envelope>)
    requires Settled(q, None)
    ensures Settled(EnqueueAll(q, es), None)
    ensures q.ready <= EnqueueAll(q, es).ready
    decreases |es|
  {
    if es != [] {
      EnqueueSettled(q, es[0]);
      EnqueueAllSettled(Enqueue(q, es[0]), es[1..]);
    }
  }

  lemma EnqueueBox(q: Sched, e: Envelope, id: ActorId)
    ensures Box(Enqueue(q, e), id) == if e.target == id then Box(q, id) + [e] else Box(q, id)
  {
  }

  lemma Associate(a: seq<Envelope>, b: seq<Envelope>, c: seq<Envelope>)
    ensures (a + b) + c == a + (b + c)
  {
  }

  /** Each mailbox receives its own envelopes in arrival order. */
  lemma {:induction false} EnqueueAllBox(q: Sched, es: seq<Envelope>, id: ActorId)
    ensures Box(EnqueueAll(q, es), id) == Box(q, id) + ForActor(es, id)
    decreases |es|
  {
    if es != [] {
      EnqueueBox(q, es[0], id);
      EnqueueAllBox(Enqueue(q, es[0]), es[1..], id);
      Associate(Box(q, id), [es[0]], ForActor(es[1..], id));
    }
  }

  /** In a settled scheduler `next_ready` never skips: it serves the head of the queue, and
      yields nothing exactly when no actor has mail. */
  lemma NextReadySettled(q: Sched)
    requires Settled(q, None)
    ensures NextReady(q).1 == None <==> forall id :: !HasPending(q, id)
    ensures NextReady(q).1 == None <==> q.ready == []
    ensures q.ready != [] ==> NextReady(q) == (q.(ready := q.ready[1..]), Some(q.ready[0]))
    ensures q.ready == [] ==> NextReady(q) == (q, None)
  {
    if q.ready != [] {
      assert q.ready[0] in q.ready;
      assert HasPending(q, q.ready[0]);
    } else {
      assert forall id :: id in q.mailboxes ==> id in q.ready;
    }
  }

  /** The scheduler once the head of the ready queue has been popped and one of its envelopes
      taken. */
  function Served(q: Sched): Sched
    requires q.ready != [] && q.ready[0] in q.mailboxes && q.mailboxes[q.ready[0]] != []
  {
    Sched(q.mailboxes[q.ready[0] := q.mailboxes[q.ready[0]][1..]], q.ready[1..])
  }

  lemma TurnBegin(q: Sched)
    requires Settled(q, None) && q.ready != []
    ensures q.ready[0] in q.mailboxes && q.mailboxes[q.ready[0]] != []
    ensures Dequeue(NextReady(q).0, q.ready[0]) == (Served(q), Some(q.mailboxes[q.ready[0]][0]))
    ensures q.mailboxes[q.ready[0]][0].target == q.ready[0]
  {
    NextReadySettled(q);
    assert q.ready[0] in q.ready;
  }

  /** Taking a turn leaves the scheduler settled but for the actor being served. */
  lemma TurnBeginSettled(q: Sched)
    requires Settled(q, None) && q.ready != []
    requires q.ready[0] in q.mailboxes && q.mailboxes[q.ready[0]] != []
    ensures Settled(Served(q), Some(q.ready[0]))
  {
    var id, tail, q' := q.ready[0], q.ready[1..], Served(q);
    assert q.ready == [id] + tail;
    assert forall i :: 0 <= i < |tail| ==> tail[i] == q.ready[i + 1];
    forall x ensures x in q'.ready <==> x in q'.mailboxes && x != id {
      assert x in q.ready <==> x in q.mailboxes;
    }
  }

  /** `requeue_if_ready` restores the full agreement, although it pushes without looking for a
      duplicate: the served actor is known to be out of the queue. */
  lemma RequeueSettled(q: Sched, id: ActorId)
    requires Settled(q, Some(id))
    ensures Settled(RequeueIfReady(q, id), None)
    ensures forall x :: Box(RequeueIfReady(q, id), x) == Box(q, x)
  {
  }

  /** Exactly when the unchecked push makes a duplicate: when the actor has mail and is queued
      already, which the worker's protocol rules out. */
  lemma RequeueDuplicates(q: Sched, id: ActorId)
    requires NoDuplicates(q.ready)
    ensures NoDuplicates(RequeueIfReady(q, id).ready) <==> !(HasPending(q, id) && id in q.ready)
  {
    var ready := RequeueIfReady(q, id).ready;
    if HasPending(q, id) && id in q.ready {
      var i :| 0 <= i < |q.ready| && q.ready[i] == id;
      assert ready[i] == ready[|q.ready|] == id;
    }
  }

  /** Such a scheduler is one `enqueue` away. */
  lemma RequeueNeedsProtocol(q: Sched, e: Envelope)
    requires Settled(q, None)
    ensures Settled(Enqueue(q, e), None) && !NoDuplicates(RequeueIfReady(Enqueue(q, e), e.target).ready)
  {
    EnqueueSettled(q, e);
    assert e.target in Enqueue(q, e).ready;
    RequeueDuplicates(Enqueue(q, e), e.target);
  }

  /** Removing an actor forgets its mailbox and its place in the queue, and nothing else. */
  lemma RemoveSettled(q: Sched, id: ActorId, busy: Option<ActorId>)
    requires Settled(q, busy) && (busy == None || busy == Some(id))
    ensures Settled(RemoveActor(q, id), None)
    ensures RequeueIfReady(RemoveActor(q, id), id) == RemoveActor(q, id)
    ensures forall x :: Box(RemoveActor(q, id), x) == if x == id then [] else Box(q, x)
  {
    WithoutMembers(q.ready, id);
    assert RemoveActor(q, id).mailboxes - {id} == RemoveActor(q, id).mailboxes;
  }
}

module SchedulerClass {
  import opened Actors
  import opened SchedulerSpec

  class Scheduler {
    var mailboxes: map<ActorId, seq<Envelope>>
    var readyQueue: seq<ActorId>

    /** The abstract value of the scheduler. */
    function Value(): (q: Sched)
      reads this
    {
      Sched(mailboxes, readyQueue)
    }

    constructor ()
      ensures Value() == Empty() && Settled(Value(), None)
    {
      mailboxes := map[];
      readyQueue := [];
    }

    method Enqueue(e: Envelope)
      modifies this
      ensures Value() == SchedulerSpec.Enqueue(old(Value()), e)
      ensures old(Settled(Value(), None)) ==> Settled(Value(), None)
    {
      if old(Settled(Value(), None)) { EnqueueSettled(Value(), e); }
      var box := if e.target in mailboxes then mailboxes[e.target] else [];
      mailboxes := mailboxes[e.target := box + [e]];
      if e.target !in readyQueue {
        readyQueue := readyQueue + [e.target];
      }
    }

    /** Pops at most as many entries as the queue held on entry. */
    method NextReady() returns (next: Option<ActorId>)
      modifies this
      ensures (Value(), next) == SchedulerSpec.NextReady(old(Value()))
      ensures old(Settled(Value(), None)) ==>
                (next == None <==> forall id :: !SchedulerSpec.HasPending(old(Value()), id))
    {
      if old(Settled(Value(), None)) { NextReadySettled(Value()); }
      var n := |readyQueue|;
      for k := 0 to n
        invariant |readyQueue| == n - k && mailboxes == old(mailboxes)
        invariant SchedulerSpec.NextReady(Value()) == SchedulerSpec.NextReady(old(Value()))
      {
        var id := readyQueue[0];
        readyQueue := readyQueue[1..];
        if HasPending(id) {
          return Some(id);
        }
      }
      next := None;
    }

    method Dequeue(id: ActorId) returns (e: Option<Envelope>)
      modifies this
      ensures (Value(), e) == SchedulerSpec.Dequeue(old(Value()), id)
      ensures e.Some? ==> Box(old(Value()), id) == [e.value] + Box(Value(), id)
      ensures e == None <==> Box(old(Value()), id) == []
      ensures forall x :: x != id ==> Box(Value(), x) == Box(old(Value()), x)
      ensures old(Settled(Value(), Some(id))) ==> Settled(Value(), Some(id)) && (e.Some? ==> e.value.target == id)
    {
      if id in mailboxes && mailboxes[id] != [] {
        e := Some(mailboxes[id][0]);
        mailboxes := mailboxes[id := mailboxes[id][1..]];
      } else {
        e := None;
      }
    }

    method RequeueIfReady(id: ActorId)
      modifies this
      ensures Value() == SchedulerSpec.RequeueIfReady(old(Value()), id)
      ensures old(Settled(Value(), Some(id))) ==> Settled(Value(), None)
    {
      if old(Settled(Value(), Some(id))) { RequeueSettled(Value(), id); }
      if HasPending(id) {
        readyQueue := readyQueue + [id];
      } else {
        CleanupEmpty(id);
      }
    }

    method RemoveActor(id: ActorId)
      modifies this
      ensures Value() == SchedulerSpec.RemoveActor(old(Value()), id)
      ensures old(Settled(Value(), None)) || old(Settled(Value(), Some(id))) ==> Settled(Value(), None)
    {
      if old(Settled(Value(), None)) { RemoveSettled(Value(), id, None); }
      if old(Settled(Value(), Some(id))) { RemoveSettled(Value(), id, Some(id)); }
      mailboxes := mailboxes - {id};
      var kept: seq<ActorId> := [];
      var i := |readyQueue|;
      while i > 0
        invariant 0 <= i <= |readyQueue|
        invariant kept == Without(readyQueue[i..], id)
      {
        i := i - 1;
        assert readyQueue[i..][1..] == readyQueue[i + 1..];
        if readyQueue[i] != id {
          kept := [readyQueue[i]] + kept;
        }
      }
      assert readyQueue[0..] == readyQueue;
      readyQueue := kept;
    }

    predicate HasPending(id: ActorId)
      reads this
    {
      id in mailboxes && mailboxes[id] != []
    }

    /** Afterwards an idle actor leaves no trace, and nobody's mail has changed. */
    method CleanupEmpty(id: ActorId)
      modifies this
      ensures readyQueue == old(readyQueue)
      ensures id in mailboxes ==> mailboxes[id] != []
      ensures forall x :: Box(Value(), x) == Box(old(Value()), x)
      ensures old(Settled(Value(), Some(id))) && Box(old(Value()), id) == [] ==> Settled(Value(), None)
      ensures mailboxes == if id in old(mailboxes) && old(mailboxes)[id] == [] then old(mailboxes) - {id}
                           else old(mailboxes)
    {
      if id in mailboxes && mailboxes[id] == [] {
        mailboxes := mailboxes - {id};
      }
    }
  }
}
