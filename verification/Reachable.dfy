/** What holds in every reachable state of the runtime, for any number of workers and clients
    and any interleaving of their steps. */
module Reachable {
  import opened Actors
  import opened SchedulerSpec
  import opened RuntimeModel
  import opened Mail
  import opened Places
  import opened History

  ghost predicate Inv(h: Behaviour, s: World) {
    PlacesOk(s) && MailOk(s) && HistoryOk(h, s)
  }

  lemma InitInv(h: Behaviour, n: nat, range: Range)
    ensures Inv(h, Init(n, range))
  {
    InitPlaces(n, range);
    InitMail(n, range);
  }

  lemma StepInv(h: Behaviour, s: World, step: Step)
    requires Inv(h, s) && Enabled(s, step)
    ensures Inv(h, Apply(h, s, step))
  {
    hide PlacesOk, MailOk, HistoryOk, Apply, Enabled;
    StepPlaces(h, s, step);
    StepMail(h, s, step);
    StepHistory(h, s, step);
  }

  /** The invariant holds along every run. */
  lemma {:induction false} RunInv(h: Behaviour, s: World, steps: seq<Step>, s': World)
    requires Inv(h, s) && Run(h, s, steps, s')
    ensures Inv(h, s')
    decreases |steps|
  {
    hide Inv, Apply, Enabled;
    if steps != [] {
      StepInv(h, s, steps[0]);
      RunInv(h, Apply(h, s, steps[0]), steps[1..], s');
    }
  }

  /** A state some interleaving of a runtime with `n` workers can be in. */
  ghost predicate IsReachable(h: Behaviour, n: nat, range: Range, s: World) {
    exists steps :: Run(h, Init(n, range), steps, s)
  }

  lemma ReachableInv(h: Behaviour, n: nat, range: Range, s: World)
    requires IsReachable(h, n, range, s)
    ensures Inv(h, s)
  {
    var steps :| Run(h, Init(n, range), steps, s);
    InitInv(h, n, range);
    RunInv(h, Init(n, range), steps, s);
  }

  // ---- envelopes ----

  /** A position inside a worker where an envelope can wait. */
  datatype Spot = InSlot | InBox(id: ActorId, i: nat) | InChannel(i: nat)

  predicate HasSpot(x: Worker, p: Spot) {
    match p
    case InSlot => x.phase.Handling?
    case InBox(id, i) => id in x.sched.mailboxes && i < |x.sched.mailboxes[id]|
    case InChannel(i) => i < |x.channel|
  }

  function EnvelopeAt(x: Worker, p: Spot): Envelope
    requires HasSpot(x, p)
  {
    match p
    case InSlot => x.phase.envelope
    case InBox(id, i) => x.sched.mailboxes[id][i]
    case InChannel(i) => x.channel[i]
  }

  /** Position `p` of worker `w` holds the envelope with ticket `t`. */
  predicate Holds(s: World, w: nat, p: Spot, t: nat) {
    w < |s.workers| && HasSpot(s.workers[w], p) && EnvelopeAt(s.workers[w], p).ticket == t
  }

  /** Where a filtered element comes from. */
  lemma {:induction false} FilterIndex(c: seq<Envelope>, i: nat)
    requires i < |c|
    ensures var a := c[i].target; var k := |ForActor(c[..i], a)|;
            k < |ForActor(c, a)| && ForActor(c, a)[k] == c[i]
  {
    var a := c[i].target;
    assert c == c[..i] + [c[i]] + c[i + 1..];
    ForActorConcat(c[..i] + [c[i]], c[i + 1..], a);
    ForActorSnoc(c[..i], c[i], a);
  }

  lemma FilterIndexOrder(c: seq<Envelope>, i: nat, j: nat)
    requires i < j < |c| && c[i].target == c[j].target
    ensures |ForActor(c[..i], c[i].target)| < |ForActor(c[..j], c[i].target)|
  {
    FilterIndex(c[..j], i);
    assert c[..j][..i] == c[..i];
  }

  /** The place in its actor's pipe of the envelope at spot `p`. */
  function PipeIndex(x: Worker, p: Spot): nat
    requires HasSpot(x, p)
  {
    var a := EnvelopeAt(x, p).target;
    match p
    case InSlot => 0
    case InBox(id, i) => |Slot(x.phase, a)| + i
    case InChannel(i) => |Slot(x.phase, a)| + |Box(x.sched, a)| + |ForActor(x.channel[..i], a)|
  }

  lemma SpotInPipe(x: Worker, p: Spot)
    requires SchedOk(x) && HasSpot(x, p)
    ensures var e := EnvelopeAt(x, p); PipeIndex(x, p) < |Pipe(x, e.target)| && Pipe(x, e.target)[PipeIndex(x, p)] == e
  {
    if p.InChannel? {
      FilterIndex(x.channel, p.i);
    }
  }

  lemma SpotsDistinct(x: Worker, p: Spot, q: Spot)
    requires SchedOk(x) && HasSpot(x, p) && HasSpot(x, q) && p != q
    requires EnvelopeAt(x, p).target == EnvelopeAt(x, q).target
    ensures PipeIndex(x, p) != PipeIndex(x, q)
  {
    var a := EnvelopeAt(x, p).target;
    if p.InChannel? && q.InChannel? {
      if p.i < q.i {
        FilterIndexOrder(x.channel, p.i, q.i);
      } else {
        FilterIndexOrder(x.channel, q.i, p.i);
      }
    }
    assert p.InBox? ==> p.id == a && p.i < |Box(x.sched, a)|;
    assert q.InBox? ==> q.id == a && q.i < |Box(x.sched, a)|;
    assert p.InSlot? || q.InSlot? ==> |Slot(x.phase, a)| == 1;
  }

  /** An envelope inside a worker is an accepted one without a fate, at the home of its actor. */
  lemma HeldIsPending(h: Behaviour, s: World, w: nat, p: Spot, t: nat)
    requires Inv(h, s) && Holds(s, w, p, t)
    ensures t < |s.accepted| && t !in s.fate && EnvelopeAt(s.workers[w], p) == s.accepted[t]
    ensures var a := s.accepted[t].target; a in s.home && s.home[a] == w
  {
    hide PlacesOk, HistoryOk;
    var x := s.workers[w];
    assert SchedOk(x);
    var a := EnvelopeAt(x, p).target;
    SpotInPipe(x, p);
    assert PipeOk(s.accepted, s.fate, s.home, w, x, a);
    InPipe(s.accepted, s.fate, s.home, w, x, a, PipeIndex(x, p));
  }

  /** No envelope is in two spots of the runtime. */
  lemma EnvelopeNotTwice(h: Behaviour, s: World, w: nat, p: Spot, v: nat, q: Spot, t: nat)
    requires Inv(h, s) && Holds(s, w, p, t) && Holds(s, v, q, t)
    ensures w == v && p == q
  {
    hide PlacesOk, HistoryOk;
    HeldIsPending(h, s, w, p, t);
    HeldIsPending(h, s, v, q, t);
    var x, a := s.workers[w], s.accepted[t].target;
    assert SchedOk(x);
    if p != q {
      SpotsDistinct(x, p, q);
      SpotInPipe(x, p);
      SpotInPipe(x, q);
      assert PipeOk(s.accepted, s.fate, s.home, w, x, a);
      PipeDistinct(s.accepted, s.fate, s.home, w, x, a, PipeIndex(x, p), PipeIndex(x, q));
    }
  }

  /** Every element of a pipe sits in some spot. */
  lemma PipeSpot(x: Worker, a: ActorId, i: nat) returns (p: Spot)
    requires SchedOk(x) && i < |Pipe(x, a)|
    ensures HasSpot(x, p) && EnvelopeAt(x, p) == Pipe(x, a)[i]
  {
    var slot, box := Slot(x.phase, a), Box(x.sched, a);
    if i < |slot| {
      p := InSlot;
    } else if i < |slot| + |box| {
      p := InBox(a, i - |slot|);
    } else {
      ForActorMembers(x.channel, a);
      var e := ForActor(x.channel, a)[i - |slot| - |box|];
      assert e in x.channel;
      var m :| 0 <= m < |x.channel| && x.channel[m] == e;
      p := InChannel(m);
    }
  }

  /** Where the accepted envelope of ticket `t` is among those of its actor. */
  lemma TicketIndex(accepted: seq<Envelope>, t: nat) returns (i: nat)
    requires t < |accepted| && Numbered(accepted)
    ensures i < |ForActor(accepted, accepted[t].target)| && ForActor(accepted, accepted[t].target)[i] == accepted[t]
  {
    FilterIndex(accepted, t);
    i := |ForActor(accepted[..t], accepted[t].target)|;
  }

  /** Conservation: an accepted envelope has met its fate exactly when it is no longer waiting
      anywhere; together with EnvelopeNotTwice it is always in exactly one of dispatch slot,
      mailbox, channel and fate. */
  lemma EnvelopeConserved(h: Behaviour, s: World, t: nat)
    requires Inv(h, s) && t < |s.accepted|
    ensures t in s.fate <==> forall w, p :: !Holds(s, w, p, t)
  {
    hide PlacesOk, HistoryOk;
    if t in s.fate {
      forall w, p ensures !Holds(s, w, p, t) {
        if Holds(s, w, p, t) {
          HeldIsPending(h, s, w, p, t);
        }
      }
    } else {
      var a := s.accepted[t].target;
      var w := s.home[a];
      AcceptedHome(h, s, t);
      assert PipeOk(s.accepted, s.fate, s.home, w, s.workers[w], a);
      var i := TicketIndex(s.accepted, t);
      var f, pipe := ForActor(s.accepted, a), Pipe(s.workers[w], a);
      PipeAt(s.accepted, s.fate, s.home, w, s.workers[w], a, i - (|f| - |pipe|));
      var p := PipeSpot(s.workers[w], a, i - (|f| - |pipe|));
      assert Holds(s, w, p, t);
    }
  }

  lemma AcceptedHome(h: Behaviour, s: World, t: nat)
    requires Inv(h, s) && t < |s.accepted|
    ensures var a := s.accepted[t].target;
            a in s.home && s.home[a] < |s.workers| && a in s.births
            && PipeOk(s.accepted, s.fate, s.home, s.home[a], s.workers[s.home[a]], a)
            && HistOk(h, ForActor(s.accepted, a), s.fate, s.births[a], s.workers[s.home[a]], a)
  {
    var a := s.accepted[t].target;
    assert a in s.births;
  }

  /** Once a worker has exited, nothing sent to its actors is pending. */
  lemma NonePendingAfterExit(h: Behaviour, s: World, t: nat)
    requires Inv(h, s) && t < |s.accepted|
    requires var a := s.accepted[t].target; a in s.home && s.home[a] < |s.workers| && s.workers[s.home[a]].phase.Exited?
    ensures t in s.fate
  {
    hide PlacesOk, HistoryOk;
    var a := s.accepted[t].target;
    AcceptedHome(h, s, t);
    assert SchedOk(s.workers[s.home[a]]);
    assert Pipe(s.workers[s.home[a]], a) == [];
    var i := TicketIndex(s.accepted, t);
  }

  /** What a blocking send returns. The handler is run on the state the actor reached through
      the envelopes accepted before this one: the send yields its reply when it returned one,
      and `ActorNotRunning` when it panicked or when there was no actor left. The only other
      possibility is that the shutdown of the worker dropped the envelope. */
  function Expected(h: Behaviour, init: State, earlier: seq<Envelope>, e: Envelope): SendResult {
    match RunActor(h, init, earlier).alive
    case None => Err(ActorNotRunning)
    case Some(state) =>
      match h(e.target, state, e.msg)
      case Continued(_, reply) => Ok(reply)
      case StopRequested(_, reply) => Ok(reply)
      case Panicked => Err(ActorNotRunning)
  }

  lemma SendOutcome(h: Behaviour, s: World, t: nat)
    requires Inv(h, s) && t in s.fate
    ensures t < |s.accepted|
    ensures var e := s.accepted[t];
            && e.target in s.home && s.home[e.target] < |s.workers| && e.target in s.births
            && var expected := Expected(h, s.births[e.target], ForActor(s.accepted[..t], e.target), e);
               var phase := s.workers[s.home[e.target]].phase;
               ResultOf(s.fate[t]) == expected
               || (s.fate[t] == Dropped && (phase.Stopping? || phase.Exited?))
  {
    hide PlacesOk;
    AcceptedHome(h, s, t);
    var e := s.accepted[t];
    var a, i := e.target, |ForActor(s.accepted[..t], e.target)|;
    var f, x, init := ForActor(s.accepted, a), s.workers[s.home[a]], s.births[a];
    FilterIndex(s.accepted, t);
    assert f[..i] == ForActor(s.accepted[..t], a) by {
      assert s.accepted == s.accepted[..t] + s.accepted[t..];
      ForActorConcat(s.accepted[..t], s.accepted[t..], a);
    }
    var j := ExplainedUpTo(h, f, s.fate, init, x, a);
    if i < j {
      ReferenceFate(h, init, f, j, i);
    }
  }

  /** How far the reference run explains the fates. */
  lemma ExplainedUpTo(h: Behaviour, f: seq<Envelope>, fate: FateMap, init: State, x: Worker, a: ActorId)
    returns (j: nat)
    requires HistOk(h, f, fate, init, x, a)
    ensures Explained(h, init, f, |f| - |Pipe(x, a)|, fate, j)
    ensures Live(x, a) ==> j == |f| - |Pipe(x, a)|
  {
    hide RunActor, ForActor;
    if Live(x, a) {
      j := |f| - |Pipe(x, a)|;
    } else {
      var n: nat :| Explained(h, init, f, |f| - |Pipe(x, a)|, fate, n);
      j := n;
    }
  }

  /** The fate the reference run gives to the envelope at position `i`. */
  lemma ReferenceFate(h: Behaviour, init: State, f: seq<Envelope>, j: nat, i: nat)
    requires i < j <= |f|
    ensures ResultOf(RunActor(h, init, f[..j]).fates[i]) == Expected(h, init, f[..i], f[i])
  {
    RunActorPrefix(h, init, f[..j], i + 1);
    assert f[..j][..i + 1] == f[..i + 1];
    assert RunActor(h, init, f[..j]).fates[i] == RunActor(h, init, f[..i + 1]).fates[i];
    OfferNext(h, init, f, i);
  }

  // ---- actors ----

  /** Identity `id` is found at place `p` in the queues, maps, phases and logs themselves. */
  ghost predicate Found(s: World, id: ActorId, p: Place) {
    match p
    case Allocated => id in s.unpicked
    case InStarted => id in s.starting
    case InControl(w) => w < |s.workers| && id in SpawnIds(s.workers[w].control)
    case InMap(w) => w < |s.workers| && id in s.workers[w].actors
    case InDispatch(w) => w < |s.workers| && s.workers[w].phase.Handling? && s.workers[w].phase.envelope.target == id
    case HasStopped => id in s.stops
    case NeverPlaced => At(s.place, id, NeverPlaced)
  }

  /** No identity is in two places: map keys of different workers are disjoint, at most one
      handler runs per actor, and a child spawned during a dispatch is never the actor that is
      re-inserted after it. */
  lemma ActorNotTwice(h: Behaviour, s: World, id: ActorId, p: Place, q: Place)
    requires Inv(h, s) && Found(s, id, p) && Found(s, id, q)
    ensures p == q
  {
    hide MailOk, HistoryOk;
    FoundAt(h, s, id, p);
    FoundAt(h, s, id, q);
  }

  lemma FoundAt(h: Behaviour, s: World, id: ActorId, p: Place)
    requires Inv(h, s) && Found(s, id, p)
    ensures At(s.place, id, p)
  {
    hide MailOk, HistoryOk;
    if OnWorker(p) {
      assert WorkerPlaces(s.place, p.worker, s.workers[p.worker]);
    }
  }

  /** An actor with an address is in its home worker's map, taken by that worker's dispatch, or
      has stopped; so is an actor an envelope is addressed to. */
  lemma AddressedIsPlaced(h: Behaviour, s: World, id: ActorId)
    requires Inv(h, s) && id in s.addrs
    ensures Found(s, id, InMap(s.addrs[id])) || Found(s, id, InDispatch(s.addrs[id])) || Found(s, id, HasStopped)
  {
    hide MailOk, HistoryOk;
    var w := s.addrs[id];
    assert AtHome(s.place, id, w);
    assert WorkerPlaces(s.place, w, s.workers[w]);
  }

  /** The "no such actor" branch of dispatch is only taken for actors that have stopped. */
  lemma AbsentHasStopped(h: Behaviour, s: World, w: nat)
    requires Inv(h, s) && w < |s.workers| && s.workers[w].phase.TakeTurn?
    requires var q := s.workers[w].sched; q.ready != [] && q.ready[0] !in s.workers[w].actors
    ensures s.workers[w].sched.ready[0] in s.stops
  {
    hide HistoryOk;
    var x, id := s.workers[w], s.workers[w].sched.ready[0];
    assert SchedOk(x);
    TurnCases(s, w);
    assert PipeOk(s.accepted, s.fate, s.home, w, x, id);
    assert |Pipe(x, id)| > 0;
    InPipe(s.accepted, s.fate, s.home, w, x, id, 0);
    assert AtHome(s.place, id, w);
    assert WorkerPlaces(s.place, w, x);
  }

  // ---- what never changes back ----

  /** Decided fates are final, the stop log only grows, actors never move. */
  ghost predicate Later(s: World, s': World) {
    FateExtends(s.fate, s'.fate) && s.stops <= s'.stops && RegistryGrows(s, s')
  }

  /** The actors whose spawn call has been, or can be, answered. */
  ghost function Known(s: World): set<ActorId> { s.confirmed.Keys + s.addrs.Keys }

  ghost predicate RegistryGrows(s: World, s': World) {
    && Known(s) <= Known(s')
    && s.accepted <= s'.accepted && |s'.workers| == |s.workers|
    && (forall id :: id in s.home ==> id in s'.home && s'.home[id] == s.home[id])
    && (forall id :: id in s.births && id in s.home ==> id in s'.births && s'.births[id] == s.births[id])
  }

  lemma PipeHeadPending(h: Behaviour, s: World, w: nat)
    requires Inv(h, s) && w < |s.workers|
    ensures s.workers[w].phase.Handling? ==> s.workers[w].phase.envelope.ticket !in s.fate
    ensures s.workers[w].sched.ready != [] && s.workers[w].phase.TakeTurn? ==>
              var q := s.workers[w].sched;
              q.ready[0] in q.mailboxes && q.mailboxes[q.ready[0]] != [] && q.mailboxes[q.ready[0]][0].ticket !in s.fate
  {
    hide PlacesOk, HistoryOk;
    var x := s.workers[w];
    assert SchedOk(x);
    if x.phase.Handling? {
      HeldIsPending(h, s, w, InSlot, x.phase.envelope.ticket);
    }
    if x.sched.ready != [] && x.phase.TakeTurn? {
      TurnCases(s, w);
      HeldIsPending(h, s, w, InBox(x.sched.ready[0], 0), x.sched.mailboxes[x.sched.ready[0]][0].ticket);
    }
  }

  lemma PutLater(s: World, w: nat, x: Worker)
    requires w < |s.workers|
    ensures Later(s, Put(s, w, x))
  {
  }

  lemma TurnLater(h: Behaviour, s: World, w: nat)
    requires Inv(h, s) && w < |s.workers| && s.workers[w].phase.TakeTurn?
    ensures Later(s, DoTurn(s, w))
  {
    hide PlacesOk, HistoryOk, Later, LedgerOk, PipesOk, DoTake, DoDropAbsent;
    var x := s.workers[w];
    assert SchedOk(x);
    PipeHeadPending(h, s, w);
    TurnCases(s, w);
    if x.sched.ready == [] {
      PutLater(s, w, x.(phase := AwaitMessage));
    } else {
      var id, e := x.sched.ready[0], x.sched.mailboxes[x.sched.ready[0]][0];
      if id in x.actors {
        TakeLater(s, w, Served(x.sched), e);
      } else {
        DropAbsentLater(s, w, RequeueIfReady(Served(x.sched), id), e);
      }
    }
  }

  lemma TakeLater(s: World, w: nat, q: Sched, e: Envelope)
    requires w < |s.workers| && e.target in s.workers[w].actors
    ensures Later(s, DoTake(s, w, q, e))
  {
  }

  lemma DropAbsentLater(s: World, w: nat, q: Sched, e: Envelope)
    requires w < |s.workers| && e.ticket !in s.fate
    ensures Later(s, DoDropAbsent(s, w, q, e))
  {
  }

  lemma PutBackLater(s: World, w: nat, actor: State, reply: Reply)
    requires w < |s.workers| && s.workers[w].phase.Handling? && s.workers[w].phase.envelope.ticket !in s.fate
    ensures Later(s, DoPutBack(s, w, actor, reply))
  {
  }

  lemma FinishStoppedLater(s: World, w: nat, f: Fate)
    requires w < |s.workers| && s.workers[w].phase.Handling? && s.workers[w].phase.envelope.ticket !in s.fate
    ensures Later(s, DoFinishStopped(s, w, f))
  {
  }

  lemma FinishLater(h: Behaviour, s: World, w: nat)
    requires Inv(h, s) && w < |s.workers| && s.workers[w].phase.Handling?
    ensures Later(s, DoFinish(h, s, w))
  {
    hide Inv, Later, DoPutBack, DoFinishStopped;
    PipeHeadPending(h, s, w);
    var x := s.workers[w];
    match h(x.phase.envelope.target, x.phase.actor, x.phase.envelope.msg)
    case Continued(actor, reply) => PutBackLater(s, w, actor, reply);
    case StopRequested(_, reply) => FinishStoppedLater(s, w, Handled(reply));
    case Panicked => FinishStoppedLater(s, w, Crashed);
  }

  lemma StopOneLater(s: World, w: nat, id: ActorId)
    requires w < |s.workers| && s.workers[w].phase.Stopping? && id in s.workers[w].actors
    ensures Later(s, DoStopOne(s, w, id))
  {
  }

  lemma FinishStoppingLater(s: World, w: nat)
    requires w < |s.workers|
    ensures Later(s, DoFinishStopping(s, w))
  {
  }

  lemma HousedLater(s: World, s': World, id: ActorId, w: nat, actor: State)
    requires id !in s.home && |s'.workers| == |s.workers| && s'.accepted == s.accepted && s'.fate == s.fate
    requires s'.stops == s.stops
    requires s'.home == s.home[id := w] && s'.births == s.births[id := actor] && Known(s) <= Known(s')
    ensures Later(s, s')
  {
  }

  lemma ControlLater(s: World, w: nat)
    requires PlacesOk(s) && w < |s.workers| && s.workers[w].phase.ReadControl?
    ensures Later(s, DoControl(s, w))
  {
    hide PlacesOk, Later;
    var x := s.workers[w];
    if x.control == [] {
      PutLater(s, w, x.(phase := DrainChannel));
    } else if x.control[0].Shutdown? {
      PutLater(s, w, x.(control := x.control[1..], phase := Stopping(x.actors.Keys)));
    } else {
      QueuedNotHome(s, w);
      HousedLater(s, DoControl(s, w), x.control[0].id, w, x.control[0].actor);
    }
  }

  lemma ChildInsertLater(s: World, id: ActorId, actor: State)
    requires PlacesOk(s) && id in s.starting
    ensures Later(s, DoChildInsert(s, id, actor))
  {
    hide PlacesOk, Later;
    StartingNotHome(s, id);
    HousedLater(s, DoChildInsert(s, id, actor), id, s.starting[id].worker, actor);
  }

  /** Steps that decide nothing and place nobody. */
  lemma IdleLater(s: World, s': World)
    requires |s'.workers| == |s.workers| && s.accepted <= s'.accepted && s'.fate == s.fate && s'.stops == s.stops
    requires s'.home == s.home && s'.births == s.births && Known(s) <= Known(s')
    ensures Later(s, s')
  {
  }

  lemma SpawnQueueLater(s: World, id: ActorId, actor: State)
    requires id in s.starting && s.starting[id].worker < |s.workers|
    ensures Later(s, DoSpawnQueue(s, id, actor))
  {
    hide Later;
    if s.workers[s.starting[id].worker].phase.Exited? {
      IdleLater(s, DoSpawnQueue(s, id, actor));
    } else {
      IdleLater(s, DoSpawnQueue(s, id, actor));
    }
  }

  lemma SendLater(s: World, target: ActorId, msg: Msg)
    requires CanAccept(s, target)
    ensures Later(s, DoSend(s, target, msg))
    ensures forall w :: 0 <= w < |s.workers| && Unblocked(s.workers[w].phase) ==>
                          Later(s, DoBlockingSend(s, w, target, msg))
  {
    hide Later;
    IdleLater(s, DoSend(s, target, msg));
    forall w | 0 <= w < |s.workers| && Unblocked(s.workers[w].phase)
      ensures Later(s, DoBlockingSend(s, w, target, msg))
    {
      IdleLater(s, DoBlockingSend(s, w, target, msg));
    }
  }

  lemma EnqueueLater(s: World, w: nat, p: Phase)
    requires w < |s.workers| && s.workers[w].channel != []
    ensures Later(s, DoEnqueue(s, w, p))
  {
    hide Later, Enqueue;
    IdleLater(s, DoEnqueue(s, w, p));
  }

  lemma DrainLater(s: World, w: nat)
    requires w < |s.workers|
    ensures Later(s, DoDrain(s, w))
  {
    hide Later, DoEnqueue, SetPhase;
    if s.workers[w].channel == [] {
      PhaseLater(s, w, TakeTurn);
    } else {
      EnqueueLater(s, w, DrainChannel);
    }
  }

  lemma PhaseLater(s: World, w: nat, p: Phase)
    requires w < |s.workers|
    ensures Later(s, SetPhase(s, w, p))
  {
    PutLater(s, w, s.workers[w].(phase := p));
  }

  lemma StepLater(h: Behaviour, s: World, step: Step)
    requires Inv(h, s) && Enabled(s, step)
    ensures Later(s, Apply(h, s, step))
  {
    hide Inv, PlacesOk, Later, DoTurn, DoFinish, DoControl, DoChildInsert, DoStopOne, DoFinishStopping, DoSpawnQueue;
    hide DoSend, DoBlockingSend, DoDrain, DoEnqueue, Queued, SendersGone;
    InvPlaces(h, s);
    match step
    case TurnStep(w) => TurnLater(h, s, w);
    case FinishTurn(w) => FinishLater(h, s, w);
    case ControlStep(w) => ControlLater(s, w);
    case ChildInsert(id, actor) => ChildInsertLater(s, id, actor);
    case StopOne(w, id) => StopOnePlaces(s, w, id); StopOneLater(s, w, id);
    case FinishStopping(w) => FinishStoppingLater(s, w);
    case SpawnQueue(id, actor) => SpawnQueueLater(s, id, actor);
    case Send(target, msg) => SendLater(s, target, msg);
    case BlockingSend(w, target, msg) => SendLater(s, target, msg);
    case DrainStep(w) => DrainLater(s, w);
    case WaitReceive(w) => EnqueueLater(s, w, ReadControl);
    case _ => QuietLater(h, s, step);
  }

  /** Steps on counters, registries, control queues and phases. */
  lemma QuietLater(h: Behaviour, s: World, step: Step)
    requires Enabled(s, step)
    requires || step.SpawnAllocate? || step.PickWorker? || step.SpawnReturn? || step.ChildBegin? || step.AwaitConfirm?
             || step.Resume? || step.RequestShutdown? || step.DropHandle? || step.WaitTimeout? || step.WaitDisconnected?
    ensures Later(s, Apply(h, s, step))
  {
    hide Later, Queued, SendersGone;
    IdleLater(s, Apply(h, s, step));
  }

  lemma DispatchedOut(h: Behaviour, s: World, w: nat)
    requires Inv(h, s) && w < |s.workers| && s.workers[w].phase.Handling?
    ensures s.workers[w].phase.envelope.target !in s.workers[w].actors
  {
    hide MailOk, HistoryOk;
    DispatchedIsOut(s, w);
  }

  lemma InvPlaces(h: Behaviour, s: World)
    requires Inv(h, s)
    ensures PlacesOk(s)
  {
  }

  /** A result is final, and an actor that stopped stays stopped, along every run. */
  lemma {:induction false} RunLater(h: Behaviour, s: World, steps: seq<Step>, s': World)
    requires Inv(h, s) && Run(h, s, steps, s')
    ensures Later(s, s')
    decreases |steps|
  {
    hide Inv, Apply, Enabled;
    if steps != [] {
      var s1 := Apply(h, s, steps[0]);
      StepInv(h, s, steps[0]);
      StepLater(h, s, steps[0]);
      RunLater(h, s1, steps[1..], s');
    }
  }

  /** No handler of a stopped actor runs afterwards, and it is in no map. */
  lemma StoppedForGood(h: Behaviour, s: World, steps: seq<Step>, s': World, id: ActorId, w: nat)
    requires Inv(h, s) && Run(h, s, steps, s') && id in s.stops
    ensures !Found(s', id, InDispatch(w)) && !Found(s', id, InMap(w))
  {
    RunInv(h, s, steps, s');
    RunLater(h, s, steps, s');
    assert Found(s', id, HasStopped);
    if Found(s', id, InDispatch(w)) {
      ActorNotTwice(h, s', id, InDispatch(w), HasStopped);
    } else if Found(s', id, InMap(w)) {
      ActorNotTwice(h, s', id, InMap(w), HasStopped);
    }
  }
}
