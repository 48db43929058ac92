/** What actors compute: at every reachable state of the runtime each actor has done exactly
    what the reference semantics makes of the envelopes accepted for it, in their order. */
module History {
  import opened Actors
  import opened SchedulerSpec
  import opened RuntimeModel
  import opened Mail
  import Places

  /** The actor, in the map or taken out for its dispatch. */
  function Present(x: Worker, a: ActorId): Option<State> {
    if a in x.actors then Some(x.actors[a])
    else if x.phase.Handling? && x.phase.envelope.target == a then Some(x.phase.actor)
    else None
  }

  /** Shutdown has not reached actor `a` of worker `x` yet. */
  predicate Live(x: Worker, a: ActorId) {
    match x.phase
    case Stopping(remaining) => a in remaining
    case Exited => false
    case _ => true
  }

  /** The first `j` fates are those of the reference run, the other decided envelopes were
      dropped by the shutdown. */
  ghost predicate Explained(h: Behaviour, init: State, f: seq<Envelope>, k: nat, fate: FateMap, j: nat) {
    && j <= k <= |f|
    && (forall i :: 0 <= i < k ==> f[i].ticket in fate)
    && (forall i :: 0 <= i < j ==> fate[f[i].ticket] == RunActor(h, init, f[..j]).fates[i])
    && (forall i :: j <= i < k ==> fate[f[i].ticket] == Dropped)
  }

  /** `k` envelopes of `f` are decided; `present` is what the runtime holds of the actor. */
  ghost predicate HistAt(h: Behaviour, f: seq<Envelope>, k: int, fate: FateMap, init: State, live: bool,
                         present: Option<State>) {
    && 0 <= k <= |f|
    && if live then Explained(h, init, f, k, fate, k) && RunActor(h, init, f[..k]).alive == present
       else exists j :: Explained(h, init, f, k, fate, j)
  }

  ghost predicate HistOk(h: Behaviour, f: seq<Envelope>, fate: FateMap, init: State, x: Worker, a: ActorId) {
    HistAt(h, f, |f| - |Pipe(x, a)|, fate, init, Live(x, a), Present(x, a))
  }

  ghost predicate HistoryOk(h: Behaviour, s: World) {
    forall w, a :: 0 <= w < |s.workers| && a in s.home && s.home[a] == w && a in s.births ==>
      HistOk(h, ForActor(s.accepted, a), s.fate, s.births[a], s.workers[w], a)
  }

  /** Fates, once decided, never change. */
  ghost predicate FateExtends(fate: FateMap, fate': FateMap) {
    forall t :: t in fate ==> t in fate' && fate'[t] == fate[t]
  }

  lemma ExplainedGrows(h: Behaviour, init: State, f: seq<Envelope>, f': seq<Envelope>, k: nat, fate: FateMap,
                       fate': FateMap, j: nat)
    requires Explained(h, init, f, k, fate, j) && FateExtends(fate, fate') && f <= f'
    ensures Explained(h, init, f', k, fate', j)
  {
    assert f'[..j] == f[..j];
    forall i | 0 <= i < k ensures f'[i] == f[i] && fate'[f[i].ticket] == fate[f[i].ticket] {
    }
  }

  /** Nothing happens to the actor, except that its channel may accept mail or that its worker
      may begin to shut down. */
  lemma HistSame(h: Behaviour, f: seq<Envelope>, f': seq<Envelope>, k: int, fate: FateMap, fate': FateMap, init: State,
                 live: bool, live': bool, present: Option<State>, present': Option<State>)
    requires HistAt(h, f, k, fate, init, live, present) && FateExtends(fate, fate') && f <= f'
    requires live' ==> live && present' == present
    ensures HistAt(h, f', k, fate', init, live', present')
  {
    assert f'[..k] == f[..k];
    if live {
      ExplainedGrows(h, init, f, f', k, fate, fate', k);
    } else {
      var j :| Explained(h, init, f, k, fate, j);
      ExplainedGrows(h, init, f, f', k, fate, fate', j);
    }
  }

  /** The envelopes from `k` up to `n` get the fates of the reference run. */
  lemma ExplainMore(h: Behaviour, init: State, f: seq<Envelope>, k: nat, n: nat, fate: FateMap, fate': FateMap)
    requires Explained(h, init, f, k, fate, k) && FateExtends(fate, fate') && k <= n <= |f|
    requires forall i :: k <= i < n ==> f[i].ticket in fate' && fate'[f[i].ticket] == RunActor(h, init, f[..n]).fates[i]
    ensures Explained(h, init, f, n, fate', n)
  {
    RunActorPrefix(h, init, f[..n], k);
    assert f[..n][..k] == f[..k];
    forall i | 0 <= i < k ensures fate'[f[i].ticket] == RunActor(h, init, f[..n]).fates[i] {
      assert RunActor(h, init, f[..k]).fates[i] == RunActor(h, init, f[..n]).fates[i];
    }
  }

  /** Offering one more envelope to an actor whose present state is `alive`. */
  lemma OfferNext(h: Behaviour, init: State, f: seq<Envelope>, k: nat)
    requires k < |f|
    ensures var r, r' := RunActor(h, init, f[..k]), RunActor(h, init, f[..k + 1]);
            var o := Offer(h, ActorRun(r.alive, []), f[k]);
            r'.alive == o.alive && |o.fates| == 1 && r'.fates[k] == o.fates[0]
  {
    assert f[..k + 1] == f[..k] + [f[k]];
    RunActorSnoc(h, init, f[..k], f[k]);
  }

  /** The oldest undecided envelope is offered to the actor, whatever state it is in. */
  lemma HistOffered(h: Behaviour, f: seq<Envelope>, k: nat, fate: FateMap, fate': FateMap, init: State,
                    present: Option<State>, present': Option<State>)
    requires HistAt(h, f, k, fate, init, true, present) && k < |f| && FateExtends(fate, fate')
    requires f[k].ticket in fate' && Offer(h, ActorRun(present, []), f[k]) == ActorRun(present', [fate'[f[k].ticket]])
    ensures HistAt(h, f, k + 1, fate', init, true, present')
  {
    OfferNext(h, init, f, k);
    ExplainMore(h, init, f, k, k + 1, fate, fate');
  }

  /** After the actor's end at position `k`, further envelopes are all dropped. */
  lemma EndedNext(h: Behaviour, init: State, f: seq<Envelope>, k: nat, n: nat)
    requires k < n <= |f| && RunActor(h, init, f[..k + 1]).alive == None
    ensures var r, r' := RunActor(h, init, f[..k + 1]), RunActor(h, init, f[..n]);
            && r'.alive == None && r'.fates[k] == r.fates[k]
            && (forall i :: k < i < n ==> r'.fates[i] == Dropped)
  {
    var more := f[k + 1..n];
    RunActorAfterEnd(h, init, f[..k + 1], more);
    assert f[..k + 1] + more == f[..n];
  }

  /** The actor ends with its oldest envelope, and its mailbox is dropped with it. */
  lemma HistEnded(h: Behaviour, f: seq<Envelope>, k: nat, n: nat, fate: FateMap, fate': FateMap, init: State,
                  present: Option<State>)
    requires HistAt(h, f, k, fate, init, true, present) && k < n <= |f| && FateExtends(fate, fate')
    requires f[k].ticket in fate' && Offer(h, ActorRun(present, []), f[k]) == ActorRun(None, [fate'[f[k].ticket]])
    requires forall i :: k < i < n ==> f[i].ticket in fate' && fate'[f[i].ticket] == Dropped
    ensures HistAt(h, f, n, fate', init, true, None)
  {
    OfferNext(h, init, f, k);
    EndedNext(h, init, f, k, n);
    forall i | k <= i < n ensures f[i].ticket in fate' && fate'[f[i].ticket] == RunActor(h, init, f[..n]).fates[i] {
    }
    ExplainMore(h, init, f, k, n, fate, fate');
  }

  /** Shutdown drops the next `m` envelopes of the actor and takes the actor with them. */
  lemma HistCut(h: Behaviour, f: seq<Envelope>, k: nat, m: nat, fate: FateMap, fate': FateMap, init: State,
                live: bool, present: Option<State>, present': Option<State>)
    requires HistAt(h, f, k, fate, init, live, present) && k + m <= |f| && FateExtends(fate, fate')
    requires forall i :: k <= i < k + m ==> f[i].ticket in fate' && fate'[f[i].ticket] == Dropped
    ensures HistAt(h, f, k + m, fate', init, false, present')
  {
    var j :| Explained(h, init, f, k, fate, j);
    ExplainedGrows(h, init, f, f, k, fate, fate', j);
    assert Explained(h, init, f, k + m, fate', j);
  }

  // ---- the steps ----

  /** Only actor `id` of worker `w` is affected, and its own lemma has dealt with it. */
  lemma HistoryAround(h: Behaviour, s: World, s': World, w: nat, id: ActorId)
    requires HistoryOk(h, s) && w < |s.workers| == |s'.workers| && s'.workers == s.workers[w := s'.workers[w]]
    requires s'.accepted == s.accepted && s'.home == s.home && s'.births == s.births && FateExtends(s.fate, s'.fate)
    requires var x, x' := s.workers[w], s'.workers[w];
             forall b :: b != id ==>
               Pipe(x', b) == Pipe(x, b) && (Live(x', b) ==> Live(x, b) && Present(x', b) == Present(x, b))
    requires id in s.home && s.home[id] == w && id in s.births ==>
               HistOk(h, ForActor(s.accepted, id), s'.fate, s.births[id], s'.workers[w], id)
    ensures HistoryOk(h, s')
  {
    forall v, b | 0 <= v < |s'.workers| && b in s'.home && s'.home[b] == v && b in s'.births
      ensures HistOk(h, ForActor(s'.accepted, b), s'.fate, s'.births[b], s'.workers[v], b)
    {
      var f := ForActor(s.accepted, b);
      assert HistOk(h, f, s.fate, s.births[b], s.workers[v], b);
      if v != w || b != id {
        HistSame(h, f, f, |f| - |Pipe(s.workers[v], b)|, s.fate, s'.fate, s.births[b],
                 Live(s.workers[v], b), Live(s'.workers[v], b), Present(s.workers[v], b), Present(s'.workers[v], b));
      }
    }
  }

  /** A step that decides nothing and touches no actor. */
  lemma HistoryQuiet(h: Behaviour, s: World, s': World, w: nat)
    requires HistoryOk(h, s) && w < |s.workers| == |s'.workers| && s'.workers == s.workers[w := s'.workers[w]]
    requires s'.accepted == s.accepted && s'.home == s.home && s'.births == s.births && s'.fate == s.fate
    requires var x, x' := s.workers[w], s'.workers[w];
             forall b :: Pipe(x', b) == Pipe(x, b) && (Live(x', b) ==> Live(x, b) && Present(x', b) == Present(x, b))
    ensures HistoryOk(h, s')
  {
    forall v, b | 0 <= v < |s'.workers| && b in s'.home && s'.home[b] == v && b in s'.births
      ensures HistOk(h, ForActor(s'.accepted, b), s'.fate, s'.births[b], s'.workers[v], b)
    {
      var f := ForActor(s.accepted, b);
      assert HistOk(h, f, s.fate, s.births[b], s.workers[v], b);
      HistSame(h, f, f, |f| - |Pipe(s.workers[v], b)|, s.fate, s'.fate, s.births[b],
                 Live(s.workers[v], b), Live(s'.workers[v], b), Present(s.workers[v], b), Present(s'.workers[v], b));
    }
  }

  lemma HistoryAccept(h: Behaviour, s: World, target: ActorId, msg: Msg)
    requires HistoryOk(h, s) && CanAccept(s, target) && target in s.home && s.home[target] == s.addrs[target]
    ensures HistoryOk(h, DoSend(s, target, msg))
  {
    hide ForActor, RunActor, Explained;
    var s', w, e := DoSend(s, target, msg), s.addrs[target], Envelope(|s.accepted|, target, msg);
    forall v, b | 0 <= v < |s'.workers| && b in s'.home && s'.home[b] == v && b in s'.births
      ensures HistOk(h, ForActor(s'.accepted, b), s'.fate, s'.births[b], s'.workers[v], b)
    {
      assert HistOk(h, ForActor(s.accepted, b), s.fate, s.births[b], s.workers[v], b);
      ForActorSnoc(s.accepted, e, b);
      AcceptPipe(s.workers[w], e, b);
      var f := ForActor(s.accepted, b);
      HistSame(h, f, ForActor(s'.accepted, b), |f| - |Pipe(s.workers[v], b)|, s.fate, s'.fate, s.births[b],
               Live(s.workers[v], b), Live(s'.workers[v], b), Present(s.workers[v], b), Present(s'.workers[v], b));
    }
  }

  lemma HistFresh(h: Behaviour, fate: FateMap, init: State, x: Worker, a: ActorId)
    requires Pipe(x, a) == [] && (Live(x, a) ==> Present(x, a) == Some(init))
    ensures HistOk(h, [], fate, init, x, a)
  {
    var f: seq<Envelope> := [];
    assert f[..0] == [];
    assert Explained(h, init, f, 0, fate, 0);
  }

  /** A newly placed actor starts in its initial state with an empty history. */
  lemma HousedHist(h: Behaviour, s: World, w: nat, x': Worker, id: ActorId, actor: State)
    requires MailOk(s) && w < |s.workers| && id !in s.home
    requires var x := s.workers[w];
             Gains(x, x', id, actor) && id !in x.actors && (x.phase.Stopping? ==> id !in x.phase.remaining)
    ensures HistOk(h, ForActor(s.accepted, id), s.fate, actor, x', id)
  {
    assert PipeOk(s.accepted, s.fate, s.home, w, s.workers[w], id);
    assert Pipe(x', id) == Pipe(s.workers[w], id) == [];
    NoMail(s.accepted, s.fate, s.home, id);
    HistFresh(h, s.fate, actor, x', id);
  }

  /** The map of worker `x` gains actor `id`; nothing else about it changes. */
  ghost predicate Gains(x: Worker, x': Worker, id: ActorId, actor: State) {
    && x'.channel == x.channel && x'.sched == x.sched && x'.phase == x.phase
    && x'.actors == x.actors[id := actor]
  }

  lemma OtherHist(h: Behaviour, f: seq<Envelope>, fate: FateMap, init: State, x: Worker, x': Worker, id: ActorId,
                  actor: State, b: ActorId)
    requires HistOk(h, f, fate, init, x, b) && b != id && Gains(x, x', id, actor)
    ensures HistOk(h, f, fate, init, x', b)
  {
    assert Pipe(x', b) == Pipe(x, b) && Present(x', b) == Present(x, b) && Live(x', b) == Live(x, b);
    hide HistAt, Pipe, Present, Live;
  }

  lemma HistoryHoused(h: Behaviour, s: World, s': World, w: nat, id: ActorId, actor: State)
    requires HistoryOk(h, s) && MailOk(s) && w < |s.workers| == |s'.workers|
    requires s'.workers == s.workers[w := s'.workers[w]]
    requires s'.accepted == s.accepted && s'.fate == s.fate && id !in s.home && s'.home == s.home[id := w]
    requires s'.births == s.births[id := actor]
    requires Gains(s.workers[w], s'.workers[w], id, actor)
    requires var x := s.workers[w]; id !in x.actors && (x.phase.Stopping? ==> id !in x.phase.remaining)
    ensures HistoryOk(h, s')
  {
    HousedHist(h, s, w, s'.workers[w], id, actor);
    hide MailOk, HistOk, ForActor, Gains;
    forall v, b | 0 <= v < |s'.workers| && b in s'.home && s'.home[b] == v && b in s'.births
      ensures HistOk(h, ForActor(s'.accepted, b), s'.fate, s'.births[b], s'.workers[v], b)
    {
      if b != id {
        assert HistOk(h, ForActor(s.accepted, b), s.fate, s.births[b], s.workers[v], b);
        if v == w {
          OtherHist(h, ForActor(s.accepted, b), s.fate, s.births[b], s.workers[w], s'.workers[w], id, actor, b);
        }
      }
    }
  }

  /** Worker `x` decides the oldest envelope `e` of `id` as the reference run does. */
  lemma OfferedHist(h: Behaviour, accepted: seq<Envelope>, fate: FateMap, home: map<ActorId, nat>, init: State,
                    w: nat, x: Worker, x': Worker, id: ActorId, o: Fate)
    requires Numbered(accepted) && PipeOk(accepted, fate, home, w, x, id) && Pipe(x, id) != []
    requires |Pipe(x', id)| + 1 == |Pipe(x, id)| && Live(x, id) && Live(x', id)
    requires Offer(h, ActorRun(Present(x, id), []), Pipe(x, id)[0]) == ActorRun(Present(x', id), [o])
    requires HistOk(h, ForActor(accepted, id), fate, init, x, id)
    ensures var fate' := fate[Pipe(x, id)[0].ticket := o];
            FateExtends(fate, fate') && HistOk(h, ForActor(accepted, id), fate', init, x', id)
  {
    hide ForActor, RunActor, Tickets, DropAll;
    var f, e := ForActor(accepted, id), Pipe(x, id)[0];
    InPipe(accepted, fate, home, w, x, id, 0);
    PipeAt(accepted, fate, home, w, x, id, 0);
    HistOffered(h, f, |f| - |Pipe(x, id)|, fate, fate[e.ticket := o], init, Present(x, id), Present(x', id));
  }

  lemma DropAbsentHistory(h: Behaviour, s: World, w: nat)
    requires HistoryOk(h, s) && MailOk(s) && w < |s.workers| && s.workers[w].phase.TakeTurn?
    requires s.births.Keys == s.home.Keys
    requires var q := s.workers[w].sched; q.ready != [] && q.ready[0] !in s.workers[w].actors
    ensures HistoryOk(h, DoTurn(s, w))
  {
    var x := s.workers[w];
    assert SchedOk(x);
    TurnCases(s, w);
    var s', id := DoTurn(s, w), x.sched.ready[0];
    DropDecides(x, s'.workers[w], s.fate);
    assert PipeOk(s.accepted, s.fate, s.home, w, x, id);
    assert HistOk(h, ForActor(s.accepted, id), s.fate, s.births[id], x, id);
    OfferedHist(h, s.accepted, s.fate, s.home, s.births[id], w, x, s'.workers[w], id, Dropped);
    HistoryAround(h, s, s', w, id);
  }

  /** The reference run of the dispatched actor up to its handler. */
  lemma DispatchedHist(h: Behaviour, s: World, w: nat)
    requires HistoryOk(h, s) && MailOk(s) && Places.PlacesOk(s) && w < |s.workers| && s.workers[w].phase.Handling?
    ensures var x := s.workers[w]; var id := x.phase.envelope.target;
            && PipeOk(s.accepted, s.fate, s.home, w, x, id) && Pipe(x, id) != [] && Pipe(x, id)[0] == x.phase.envelope
            && id in s.home && s.home[id] == w && id in s.births
            && HistOk(h, ForActor(s.accepted, id), s.fate, s.births[id], x, id)
            && id !in x.actors && Present(x, id) == Some(x.phase.actor) && Numbered(s.accepted)
  {
    var x := s.workers[w];
    var id := x.phase.envelope.target;
    Places.DispatchedIsOut(s, w);
    assert PipeOk(s.accepted, s.fate, s.home, w, x, id);
    assert Pipe(x, id)[0] == x.phase.envelope;
    InPipe(s.accepted, s.fate, s.home, w, x, id, 0);
    assert id in s.births;
  }

  lemma PutBackHistory(h: Behaviour, s: World, w: nat, actor: State, reply: Reply)
    requires HistoryOk(h, s) && MailOk(s) && Places.PlacesOk(s) && w < |s.workers| && s.workers[w].phase.Handling?
    requires var p := s.workers[w].phase; h(p.envelope.target, p.actor, p.envelope.msg) == Continued(actor, reply)
    ensures HistoryOk(h, DoPutBack(s, w, actor, reply))
  {
    hide ForActor, RunActor, Tickets, DropAll;
    DispatchedHist(h, s, w);
    var x, s' := s.workers[w], DoPutBack(s, w, actor, reply);
    var id := x.phase.envelope.target;
    PutBackDecides(x, s'.workers[w], s.fate, Handled(reply));
    OfferedHist(h, s.accepted, s.fate, s.home, s.births[id], w, x, s'.workers[w], id, Handled(reply));
    HistoryAround(h, s, s', w, id);
  }

  /** The fates after worker `x` ended the actor it dispatched and dropped its mailbox. */
  function EndFates(x: Worker, fate: FateMap, o: Fate): FateMap
    requires x.phase.Handling?
  {
    DropAll(fate[x.phase.envelope.ticket := o], Tickets(Box(x.sched, x.phase.envelope.target)))
  }

  /** Which envelopes of the actor that fates are decided, and how. */
  lemma EndFatesAt(accepted: seq<Envelope>, fate: FateMap, home: map<ActorId, nat>, w: nat, x: Worker, o: Fate,
                   f: seq<Envelope>, k: int, n: int)
    requires Numbered(accepted) && x.phase.Handling? && PipeOk(accepted, fate, home, w, x, x.phase.envelope.target)
    requires var id := x.phase.envelope.target;
             f == ForActor(accepted, id) && k == |f| - |Pipe(x, id)| && n == k + 1 + |Box(x.sched, id)|
    ensures var fate' := EndFates(x, fate, o);
            && 0 <= k < n <= |f| && FateExtends(fate, fate') && f[k] == x.phase.envelope
            && f[k].ticket in fate' && fate'[f[k].ticket] == o
            && (forall i :: k < i < n ==> f[i].ticket in fate' && fate'[f[i].ticket] == Dropped)
  {
    hide ForActor;
    var id := x.phase.envelope.target;
    var fate' := EndFates(x, fate, o);
    assert Pipe(x, id)[0] == x.phase.envelope;
    InPipe(accepted, fate, home, w, x, id, 0);
    PipeAt(accepted, fate, home, w, x, id, 0);
    forall i | k < i < n ensures f[i].ticket in fate' && fate'[f[i].ticket] == Dropped {
      BoxedAt(accepted, fate, home, w, x, i - k);
    }
    assert x.phase.envelope.ticket !in Tickets(Box(x.sched, id)) || fate'[f[k].ticket] == o;
  }

  /** Worker `x` ends the actor it dispatched and drops its mailbox. */
  lemma EndedHist(h: Behaviour, accepted: seq<Envelope>, fate: FateMap, home: map<ActorId, nat>, init: State,
                  w: nat, x: Worker, o: Fate, f: seq<Envelope>, k: int, n: int)
    requires Numbered(accepted) && x.phase.Handling? && PipeOk(accepted, fate, home, w, x, x.phase.envelope.target)
    requires var id := x.phase.envelope.target;
             f == ForActor(accepted, id) && k == |f| - |Pipe(x, id)| && n == k + 1 + |Box(x.sched, id)|
    requires Offer(h, ActorRun(Some(x.phase.actor), []), x.phase.envelope) == ActorRun(None, [o])
    requires HistAt(h, f, k, fate, init, true, Some(x.phase.actor))
    ensures FateExtends(fate, EndFates(x, fate, o)) && HistAt(h, f, n, EndFates(x, fate, o), init, true, None)
  {
    EndFatesAt(accepted, fate, home, w, x, o, f, k, n);
    HistEnded(h, f, k, n, fate, EndFates(x, fate, o), init, Some(x.phase.actor));
  }

  /** The mailbox follows the dispatched envelope in the pipe. */
  lemma BoxedAt(accepted: seq<Envelope>, fate: FateMap, home: map<ActorId, nat>, w: nat, x: Worker, i: nat)
    requires Numbered(accepted) && x.phase.Handling? && PipeOk(accepted, fate, home, w, x, x.phase.envelope.target)
    requires 1 <= i <= |Box(x.sched, x.phase.envelope.target)|
    ensures var e := x.phase.envelope; var id := e.target;
            var f := ForActor(accepted, id);
            && |Pipe(x, id)| <= |f| && i < |Pipe(x, id)|
            && var t := f[|f| - |Pipe(x, id)| + i].ticket;
               t in Tickets(Box(x.sched, id)) && t !in fate && t != e.ticket
  {
    var id, box := x.phase.envelope.target, Box(x.sched, x.phase.envelope.target);
    assert Pipe(x, id)[0] == x.phase.envelope && Pipe(x, id)[i] == box[i - 1];
    PipeAt(accepted, fate, home, w, x, id, i);
    InPipe(accepted, fate, home, w, x, id, i);
    PipeDistinct(accepted, fate, home, w, x, id, 0, i);
  }

  lemma FinishStoppedHist(h: Behaviour, s: World, w: nat, o: Fate)
    requires HistoryOk(h, s) && MailOk(s) && Places.PlacesOk(s) && w < |s.workers| && s.workers[w].phase.Handling?
    requires var p := s.workers[w].phase;
             Offer(h, ActorRun(Some(p.actor), []), p.envelope) == ActorRun(None, [o])
    ensures var s', id := DoFinishStopped(s, w, o), s.workers[w].phase.envelope.target;
            && FateExtends(s.fate, s'.fate) && id in s.births
            && HistOk(h, ForActor(s.accepted, id), s'.fate, s.births[id], s'.workers[w], id)
  {
    hide ForActor, RunActor, Tickets, DropAll, HistoryOk, MailOk, Places.PlacesOk, Explained, PipeOk, Settled, Decides;
    DispatchedHist(h, s, w);
    var x, x' := s.workers[w], DoFinishStopped(s, w, o).workers[w];
    var id := x.phase.envelope.target;
    StoppedDecides(x, x', s.fate, o);
    var f := ForActor(s.accepted, id);
    var k := |f| - |Pipe(x, id)|;
    EndedHist(h, s.accepted, s.fate, s.home, s.births[id], w, x, o, f, k, k + 1 + |Box(x.sched, id)|);
  }

  lemma FinishStoppedHistory(h: Behaviour, s: World, w: nat, o: Fate)
    requires HistoryOk(h, s) && MailOk(s) && Places.PlacesOk(s) && w < |s.workers| && s.workers[w].phase.Handling?
    requires var p := s.workers[w].phase;
             Offer(h, ActorRun(Some(p.actor), []), p.envelope) == ActorRun(None, [o])
    ensures HistoryOk(h, DoFinishStopped(s, w, o))
  {
    hide ForActor, RunActor, Tickets, DropAll;
    FinishStoppedHist(h, s, w, o);
    StoppedDecides(s.workers[w], DoFinishStopped(s, w, o).workers[w], s.fate, o);
    HistoryAround(h, s, DoFinishStopped(s, w, o), w, s.workers[w].phase.envelope.target);
  }

  /** Taking an actor out of the map for its dispatch leaves it present. */
  lemma TakeHistory(h: Behaviour, s: World, w: nat)
    requires HistoryOk(h, s) && w < |s.workers| && SchedOk(s.workers[w]) && s.workers[w].phase.TakeTurn?
    requires var q := s.workers[w].sched; q.ready != [] && q.ready[0] in s.workers[w].actors
    ensures HistoryOk(h, DoTurn(s, w))
  {
    var x, id := s.workers[w], s.workers[w].sched.ready[0];
    TurnCases(s, w);
    var s' := DoTake(s, w, Served(x.sched), x.sched.mailboxes[id][0]);
    forall b ensures Pipe(s'.workers[w], b) == Pipe(x, b) {
      TakePipe(x, s'.workers[w], b);
    }
    HistoryQuiet(h, s, s', w);
  }

  lemma TurnHistory(h: Behaviour, s: World, w: nat)
    requires HistoryOk(h, s) && MailOk(s) && s.births.Keys == s.home.Keys && w < |s.workers|
    requires s.workers[w].phase.TakeTurn?
    ensures HistoryOk(h, DoTurn(s, w))
  {
    var x := s.workers[w];
    assert SchedOk(x);
    if x.sched.ready == [] {
      TurnCases(s, w);
      QuietHistory(h, s, w, x.(phase := AwaitMessage));
    } else if x.sched.ready[0] in x.actors {
      TakeHistory(h, s, w);
    } else {
      DropAbsentHistory(h, s, w);
    }
  }

  lemma FinishHistory(h: Behaviour, s: World, w: nat)
    requires HistoryOk(h, s) && MailOk(s) && Places.PlacesOk(s) && w < |s.workers| && s.workers[w].phase.Handling?
    ensures HistoryOk(h, DoFinish(h, s, w))
  {
    var x := s.workers[w];
    match h(x.phase.envelope.target, x.phase.actor, x.phase.envelope.msg)
    case Continued(actor, reply) => PutBackHistory(h, s, w, actor, reply);
    case StopRequested(_, reply) => FinishStoppedHistory(h, s, w, Handled(reply));
    case Panicked => FinishStoppedHistory(h, s, w, Crashed);
  }

  /** Shutdown drops the oldest `m` envelopes of `a`. */
  lemma CutHist(h: Behaviour, accepted: seq<Envelope>, fate: FateMap, fate': FateMap, home: map<ActorId, nat>,
                init: State, w: nat, x: Worker, x': Worker, a: ActorId, m: nat)
    requires Numbered(accepted) && PipeOk(accepted, fate, home, w, x, a) && a in home && home[a] == w
    requires m <= |Pipe(x, a)|
    requires |Pipe(x', a)| + m == |Pipe(x, a)| && !Live(x', a) && FateExtends(fate, fate')
    requires forall i :: 0 <= i < m ==> var t := Pipe(x, a)[i].ticket; t in fate' && fate'[t] == Dropped
    requires HistOk(h, ForActor(accepted, a), fate, init, x, a)
    ensures HistOk(h, ForActor(accepted, a), fate', init, x', a)
  {
    hide ForActor, RunActor, Explained;
    var f := ForActor(accepted, a);
    var k := |f| - |Pipe(x, a)|;
    assert |f| - |Pipe(x', a)| == k + m;
    forall i | k <= i < k + m ensures f[i].ticket in fate' && fate'[f[i].ticket] == Dropped {
      PipeAt(accepted, fate, home, w, x, a, i - k);
    }
    HistCut(h, f, k, m, fate, fate', init, Live(x, a), Present(x, a), Present(x', a));
  }

  /** Dropping undecided envelopes decides exactly those. */
  lemma DroppedIn(accepted: seq<Envelope>, fate: FateMap, home: map<ActorId, nat>, w: nat, x: Worker, a: ActorId,
                  ts: set<nat>, i: nat)
    requires Numbered(accepted) && PipeOk(accepted, fate, home, w, x, a) && i < |Pipe(x, a)|
    requires Pipe(x, a)[i].ticket in ts
    ensures var t := Pipe(x, a)[i].ticket; t in DropAll(fate, ts) && DropAll(fate, ts)[t] == Dropped
  {
    InPipe(accepted, fate, home, w, x, a, i);
  }

  lemma StopOneHistory(h: Behaviour, s: World, w: nat, id: ActorId)
    requires HistoryOk(h, s) && MailOk(s) && w < |s.workers| && s.workers[w].phase.Stopping?
    requires id in s.workers[w].actors
    ensures HistoryOk(h, DoStopOne(s, w, id))
  {
    var x, s' := s.workers[w], DoStopOne(s, w, id);
    var x', box := s'.workers[w], Box(x.sched, id);
    StopOneDecides(x, x', id, s.fate);
    if id in s.births && id in s.home && s.home[id] == w {
      assert HistOk(h, ForActor(s.accepted, id), s.fate, s.births[id], x, id);
      assert PipeOk(s.accepted, s.fate, s.home, w, x, id);
      forall i | 0 <= i < |box| ensures var t := Pipe(x, id)[i].ticket; t in s'.fate && s'.fate[t] == Dropped {
        assert box[i] == Pipe(x, id)[i];
        DroppedIn(s.accepted, s.fate, s.home, w, x, id, Tickets(box), i);
      }
      CutHist(h, s.accepted, s.fate, s'.fate, s.home, s.births[id], w, x, x', id, |box|);
    }
    HistoryAround(h, s, s', w, id);
  }

  lemma ExitHist(h: Behaviour, s: World, w: nat, b: ActorId)
    requires HistoryOk(h, s) && MailOk(s) && w < |s.workers| && s.workers[w].phase.Stopping?
    requires b in s.home && s.home[b] == w && b in s.births
    ensures var s' := DoFinishStopping(s, w); HistOk(h, ForActor(s.accepted, b), s'.fate, s.births[b], s'.workers[w], b)
  {
    var x, s' := s.workers[w], DoFinishStopping(s, w);
    assert HistOk(h, ForActor(s.accepted, b), s.fate, s.births[b], x, b);
    assert PipeOk(s.accepted, s.fate, s.home, w, x, b);
    forall i | 0 <= i < |Pipe(x, b)| ensures var t := Pipe(x, b)[i].ticket; t in s'.fate && s'.fate[t] == Dropped {
      PipeHeld(x, b, i);
      DroppedIn(s.accepted, s.fate, s.home, w, x, b, Tickets(x.channel) + BoxedTickets(x.sched), i);
    }
    CutHist(h, s.accepted, s.fate, s'.fate, s.home, s.births[b], w, x, s'.workers[w], b, |Pipe(x, b)|);
  }

  lemma FinishStoppingHistory(h: Behaviour, s: World, w: nat)
    requires HistoryOk(h, s) && MailOk(s) && w < |s.workers| && s.workers[w].phase.Stopping?
    ensures HistoryOk(h, DoFinishStopping(s, w))
  {
    var s' := DoFinishStopping(s, w);
    forall v, b | 0 <= v < |s'.workers| && b in s'.home && s'.home[b] == v && b in s'.births
      ensures HistOk(h, ForActor(s'.accepted, b), s'.fate, s'.births[b], s'.workers[v], b)
    {
      if v != w {
        var f := ForActor(s.accepted, b);
        assert HistOk(h, f, s.fate, s.births[b], s.workers[v], b);
        HistSame(h, f, f, |f| - |Pipe(s.workers[v], b)|, s.fate, s'.fate, s.births[b],
                 Live(s.workers[v], b), Live(s'.workers[v], b), Present(s.workers[v], b), Present(s'.workers[v], b));
      } else {
        ExitHist(h, s, w, b);
      }
    }
  }

  lemma EnqueueHistory(h: Behaviour, s: World, w: nat, p: Phase)
    requires HistoryOk(h, s) && w < |s.workers| && s.workers[w].channel != []
    requires s.workers[w].phase.DrainChannel? || s.workers[w].phase.AwaitMessage?
    requires p.DrainChannel? || p.ReadControl?
    ensures var x := s.workers[w];
            HistoryOk(h, Put(s, w, x.(channel := x.channel[1..], sched := Enqueue(x.sched, x.channel[0]), phase := p)))
  {
    var x := s.workers[w];
    var x' := x.(channel := x.channel[1..], sched := Enqueue(x.sched, x.channel[0]), phase := p);
    forall b ensures Pipe(x', b) == Pipe(x, b) {
      EnqueuePipe(x, x', b);
    }
    HistoryQuiet(h, s, Put(s, w, x'), w);
  }

  /** A worker changes its control queue or its phase outside dispatch and shutdown. */
  lemma QuietHistory(h: Behaviour, s: World, w: nat, x': Worker)
    requires HistoryOk(h, s) && w < |s.workers|
    requires var x := s.workers[w];
             && x'.channel == x.channel && x'.sched == x.sched && x'.actors == x.actors
             && (x.phase.Handling? ==>
                   x'.phase.Handling? && x'.phase.envelope == x.phase.envelope && x'.phase.actor == x.phase.actor)
             && (x'.phase.Handling? ==> x.phase.Handling?)
             && (forall b :: Live(x', b) ==> Live(x, b))
    ensures HistoryOk(h, Put(s, w, x'))
  {
    HistoryQuiet(h, s, Put(s, w, x'), w);
  }

  lemma ControlHistory(h: Behaviour, s: World, w: nat)
    requires HistoryOk(h, s) && MailOk(s) && Places.PlacesOk(s) && w < |s.workers| && s.workers[w].phase.ReadControl?
    ensures HistoryOk(h, DoControl(s, w))
  {
    var x := s.workers[w];
    if x.control != [] && x.control[0].SpawnActor? {
      Places.QueuedNotHome(s, w);
      HistoryHoused(h, s, DoControl(s, w), w, x.control[0].id, x.control[0].actor);
    } else if x.control == [] {
      QuietHistory(h, s, w, x.(phase := DrainChannel));
    } else {
      QuietHistory(h, s, w, x.(control := x.control[1..], phase := Stopping(x.actors.Keys)));
    }
  }

  lemma ChildInsertHistory(h: Behaviour, s: World, id: ActorId, actor: State)
    requires HistoryOk(h, s) && MailOk(s) && Places.PlacesOk(s) && id in s.starting
    ensures HistoryOk(h, DoChildInsert(s, id, actor))
  {
    Places.StartingNotHome(s, id);
    HistoryHoused(h, s, DoChildInsert(s, id, actor), s.starting[id].worker, id, actor);
  }

  lemma BlockingSendHistory(h: Behaviour, s: World, w: nat, target: ActorId, msg: Msg)
    requires HistoryOk(h, s) && w < |s.workers| && Unblocked(s.workers[w].phase) && CanAccept(s, target)
    requires target in s.home && s.home[target] == s.addrs[target]
    ensures HistoryOk(h, DoBlockingSend(s, w, target, msg))
  {
    HistoryAccept(h, s, target, msg);
    var s1 := DoSend(s, target, msg);
    QuietHistory(h, s1, w, s1.workers[w].(phase := s.workers[w].phase.(waitingFor := ForReply(|s.accepted|))));
  }

  lemma SpawnQueueHistory(h: Behaviour, s: World, id: ActorId, actor: State)
    requires HistoryOk(h, s) && id in s.starting && s.starting[id].worker < |s.workers|
    ensures HistoryOk(h, DoSpawnQueue(s, id, actor))
  {
    hide HistoryOk;
    var w := s.starting[id].worker;
    var x := s.workers[w];
    if x.phase.Exited? {
      RegistryHistory(h, s, DoSpawnQueue(s, id, actor));
    } else {
      var s1 := Put(s, w, x.(control := x.control + [SpawnActor(id, actor)]));
      QuietHistory(h, s, w, s1.workers[w]);
      RegistryHistory(h, s1, DoSpawnQueue(s, id, actor));
    }
  }

  lemma DrainHistory(h: Behaviour, s: World, w: nat)
    requires HistoryOk(h, s) && w < |s.workers| && s.workers[w].phase.DrainChannel?
    ensures HistoryOk(h, DoDrain(s, w))
  {
    if s.workers[w].channel == [] {
      QuietHistory(h, s, w, s.workers[w].(phase := TakeTurn));
    } else {
      EnqueueHistory(h, s, w, DrainChannel);
    }
  }

  /** Changes of phase and control queue alone. */
  lemma PhaseHistory(h: Behaviour, s: World, step: Step)
    requires HistoryOk(h, s) && Enabled(s, step)
    requires step.AwaitConfirm? || step.Resume? || step.RequestShutdown? || step.WaitTimeout? || step.WaitDisconnected?
    ensures HistoryOk(h, Apply(h, s, step))
  {
    QuietHistory(h, s, step.w, Apply(h, s, step).workers[step.w]);
  }

  /** Steps on the counters, the pending spawns and the addresses. */
  lemma RegistryHistory(h: Behaviour, s: World, s': World)
    requires HistoryOk(h, s) && s'.workers == s.workers && s'.accepted == s.accepted && s'.fate == s.fate
    requires s'.home == s.home && s'.births == s.births
    ensures HistoryOk(h, s')
  {
  }

  /** Every step of every thread keeps every actor on its reference run. */
  lemma StepHistory(h: Behaviour, s: World, step: Step)
    requires HistoryOk(h, s) && MailOk(s) && Places.PlacesOk(s) && Enabled(s, step)
    ensures HistoryOk(h, Apply(h, s, step))
  {
    hide HistoryOk, MailOk, Queued, Places.PlacesOk, DoSpawnQueue, DoChildInsert, DoSend, DoBlockingSend, DoControl;
    hide DoDrain;
    hide DoTurn, DoFinish, DoStopOne, DoFinishStopping;
    match step
    case SpawnAllocate => RegistryHistory(h, s, Apply(h, s, step));
    case PickWorker(_) => RegistryHistory(h, s, Apply(h, s, step));
    case SpawnQueue(id, actor) => Places.StartingNotHome(s, id); SpawnQueueHistory(h, s, id, actor);
    case SpawnReturn(id) => RegistryHistory(h, s, Apply(h, s, step));
    case ChildBegin(w, parent) => RegistryHistory(h, s, Apply(h, s, step));
    case ChildInsert(id, actor) => ChildInsertHistory(h, s, id, actor);
    case Send(target, msg) => Places.AddrHome(s, target); HistoryAccept(h, s, target, msg);
    case BlockingSend(w, target, msg) => Places.AddrHome(s, target); BlockingSendHistory(h, s, w, target, msg);
    case DropHandle => RegistryHistory(h, s, Apply(h, s, step));
    case ControlStep(w) => ControlHistory(h, s, w);
    case DrainStep(w) => DrainHistory(h, s, w);
    case TurnStep(w) => Places.BirthsAtHome(s); TurnHistory(h, s, w);
    case FinishTurn(w) => FinishHistory(h, s, w);
    case WaitReceive(w) => EnqueueHistory(h, s, w, ReadControl);
    case StopOne(w, id) => Places.StopOnePlaces(s, w, id); StopOneHistory(h, s, w, id);
    case FinishStopping(w) => FinishStoppingHistory(h, s, w);
    case _ => PhaseHistory(h, s, step);
  }
}
