/** Where envelopes are: every accepted envelope for an actor is either settled or still in the
    actor's pipe (dispatch slot, mailbox, channel), in the order of acceptance, and in no other
    worker. */
module Mail {
  import opened Actors
  import opened SchedulerSpec
  import opened RuntimeModel
  import Places

  function Slot(p: Phase, a: ActorId): seq<Envelope> {
    if p.Handling? && p.envelope.target == a then [p.envelope] else []
  }

  /** The undecided envelopes of `a` inside worker `x`, oldest first. */
  function Pipe(x: Worker, a: ActorId): seq<Envelope> {
    Slot(x.phase, a) + Box(x.sched, a) + ForActor(x.channel, a)
  }

  function Busy(p: Phase): Option<ActorId> {
    if p.Handling? then Some(p.envelope.target) else None
  }

  ghost predicate SchedOk(x: Worker) {
    && Settled(x.sched, Busy(x.phase))
    && (x.phase.Exited? ==> x.sched == Empty() && x.channel == [])
  }

  ghost predicate SchedsOk(workers: seq<Worker>) {
    forall w :: 0 <= w < |workers| ==> SchedOk(workers[w])
  }

  type FateMap = map<nat, Fate>

  /** Of the accepted envelopes `f`, exactly the last ones, `p`, have no fate yet. */
  ghost predicate Undecided(f: seq<Envelope>, p: seq<Envelope>, fate: FateMap) {
    && |p| <= |f| && p == f[|f| - |p|..]
    && (forall i :: 0 <= i < |f| ==> (f[i].ticket in fate <==> i < |f| - |p|))
  }

  ghost predicate PipeOk(accepted: seq<Envelope>, fate: FateMap, home: map<ActorId, nat>, w: nat, x: Worker,
                         a: ActorId) {
    if a in home && home[a] == w then Undecided(ForActor(accepted, a), Pipe(x, a), fate)
    else Pipe(x, a) == []
  }

  ghost predicate PipesOk(accepted: seq<Envelope>, fate: FateMap, home: map<ActorId, nat>, workers: seq<Worker>) {
    forall w, a :: 0 <= w < |workers| ==> PipeOk(accepted, fate, home, w, workers[w], a)
  }

  ghost predicate LedgerOk(accepted: seq<Envelope>, fate: FateMap, home: map<ActorId, nat>) {
    && Numbered(accepted)
    && (forall t :: t in fate ==> t < |accepted|)
    && (forall i :: 0 <= i < |accepted| ==> accepted[i].target in home)
  }

  ghost predicate MailOk(s: World) {
    && SchedsOk(s.workers)
    && LedgerOk(s.accepted, s.fate, s.home)
    && PipesOk(s.accepted, s.fate, s.home, s.workers)
  }

  lemma InitMail(n: nat, range: Range)
    ensures MailOk(Init(n, range))
  {
    var s := Init(n, range);
    forall w, a | 0 <= w < n ensures PipeOk(s.accepted, s.fate, s.home, w, s.workers[w], a) {
      assert s.workers[w] == FreshWorker();
      assert Pipe(FreshWorker(), a) == [];
    }
  }

  /** A filtered envelope is the accepted one of its ticket; no two share a ticket. */
  lemma Filtered(accepted: seq<Envelope>, a: ActorId)
    requires Numbered(accepted)
    ensures Increasing(ForActor(accepted, a))
    ensures forall i :: 0 <= i < |ForActor(accepted, a)| ==>
              var e := ForActor(accepted, a)[i];
              e.target == a && e.ticket < |accepted| && accepted[e.ticket] == e
  {
    ForActorMembers(accepted, a);
    ForActorIncreasing(accepted, a);
    var f := ForActor(accepted, a);
    forall i | 0 <= i < |f| ensures f[i].target == a && f[i].ticket < |accepted| && accepted[f[i].ticket] == f[i] {
      assert f[i] in accepted;
    }
  }

  /** An envelope in a pipe is accepted, addressed to that pipe's actor, and undecided. */
  lemma InPipe(accepted: seq<Envelope>, fate: FateMap, home: map<ActorId, nat>, w: nat, x: Worker, a: ActorId, i: nat)
    requires Numbered(accepted) && PipeOk(accepted, fate, home, w, x, a) && i < |Pipe(x, a)|
    ensures var e := Pipe(x, a)[i];
            e.target == a && e.ticket < |accepted| && accepted[e.ticket] == e && e.ticket !in fate
    ensures a in home && home[a] == w
  {
    Filtered(accepted, a);
    var f := ForActor(accepted, a);
    assert Pipe(x, a)[i] == f[|f| - |Pipe(x, a)| + i];
  }

  /** The pipe is the tail of the accepted envelopes. */
  lemma PipeAt(accepted: seq<Envelope>, fate: FateMap, home: map<ActorId, nat>, w: nat, x: Worker, a: ActorId, i: nat)
    requires PipeOk(accepted, fate, home, w, x, a) && i < |Pipe(x, a)|
    ensures var f := ForActor(accepted, a); |Pipe(x, a)| <= |f| && f[|f| - |Pipe(x, a)| + i] == Pipe(x, a)[i]
  {
  }

  lemma PipeDistinct(accepted: seq<Envelope>, fate: FateMap, home: map<ActorId, nat>, w: nat, x: Worker, a: ActorId,
                     i: nat, j: nat)
    requires Numbered(accepted) && PipeOk(accepted, fate, home, w, x, a) && i < |Pipe(x, a)| && j < |Pipe(x, a)|
    requires i != j
    ensures Pipe(x, a)[i].ticket != Pipe(x, a)[j].ticket
  {
    Filtered(accepted, a);
    InPipe(accepted, fate, home, w, x, a, i);
    var f := ForActor(accepted, a);
    var k := |f| - |Pipe(x, a)|;
    assert Pipe(x, a)[i] == f[k + i] && Pipe(x, a)[j] == f[k + j];
  }

  /** The first `j` undecided envelopes, and no others of `f`, are decided. */
  lemma Decide(f: seq<Envelope>, p: seq<Envelope>, fate: FateMap, fate': FateMap, j: nat)
    requires Undecided(f, p, fate) && j <= |p| && Increasing(f)
    requires forall i :: 0 <= i < |f| ==>
               (f[i].ticket in fate' <==> f[i].ticket in fate || f[i].ticket in Tickets(p[..j]))
    ensures Undecided(f, p[j..], fate')
  {
    var k := |f| - |p|;
    forall i | 0 <= i < |f| ensures f[i].ticket in fate' <==> i < k + j {
      if f[i].ticket in Tickets(p[..j]) {
        var m :| 0 <= m < j && p[..j][m].ticket == f[i].ticket;
        assert p[m] == f[k + m];
      }
      if k <= i < k + j {
        assert p[..j][i - k] == f[i];
      }
    }
  }

  /** Deciding envelopes of `a` leaves every envelope of another actor as it was. */
  lemma DecideOthers(accepted: seq<Envelope>, gone: seq<Envelope>, a: ActorId, b: ActorId, i: nat)
    requires Numbered(accepted) && b != a && i < |ForActor(accepted, b)|
    requires forall m :: 0 <= m < |gone| ==>
               gone[m].target == a && gone[m].ticket < |accepted| && accepted[gone[m].ticket] == gone[m]
    ensures ForActor(accepted, b)[i].ticket !in Tickets(gone)
  {
    Filtered(accepted, b);
  }

  /** Worker `w` decides the first `j` envelopes of actor `a`, and changes no other pipe. */
  lemma DecidePipes(accepted: seq<Envelope>, fate: FateMap, fate': FateMap, home: map<ActorId, nat>,
                    workers: seq<Worker>, w: nat, x': Worker, a: ActorId, j: nat)
    requires Numbered(accepted) && PipesOk(accepted, fate, home, workers) && w < |workers|
    requires j <= |Pipe(workers[w], a)|
    requires fate'.Keys == fate.Keys + Tickets(Pipe(workers[w], a)[..j])
    requires forall b :: Pipe(x', b) == if b == a then Pipe(workers[w], a)[j..] else Pipe(workers[w], b)
    ensures PipesOk(accepted, fate', home, workers[w := x'])
  {
    var x := workers[w];
    assert PipeOk(accepted, fate, home, w, x, a);
    var gone := Pipe(x, a)[..j];
    forall m | 0 <= m < j
      ensures gone[m].target == a && gone[m].ticket < |accepted| && accepted[gone[m].ticket] == gone[m]
    {
      InPipe(accepted, fate, home, w, x, a, m);
    }
    var workers' := workers[w := x'];
    forall v, b | 0 <= v < |workers'| ensures PipeOk(accepted, fate', home, v, workers'[v], b) {
      assert PipeOk(accepted, fate, home, v, workers[v], b);
      if b in home && home[b] == v {
        var f := ForActor(accepted, b);
        if b == a && v == w {
          Filtered(accepted, a);
          Decide(f, Pipe(x, a), fate, fate', j);
        } else if b != a {
          forall i | 0 <= i < |f| ensures f[i].ticket in fate' <==> f[i].ticket in fate {
            DecideOthers(accepted, gone, a, b, i);
          }
        } else {
          assert Pipe(x, a)[..j] == [];
        }
      }
    }
  }

  /** Worker `w` changes without touching any pipe. */
  lemma SamePipes(accepted: seq<Envelope>, fate: FateMap, home: map<ActorId, nat>, workers: seq<Worker>, w: nat,
                  x': Worker)
    requires PipesOk(accepted, fate, home, workers) && w < |workers|
    requires forall b :: Pipe(x', b) == Pipe(workers[w], b)
    ensures PipesOk(accepted, fate, home, workers[w := x'])
  {
    var workers' := workers[w := x'];
    forall v, b | 0 <= v < |workers'| ensures PipeOk(accepted, fate, home, v, workers'[v], b) {
      assert PipeOk(accepted, fate, home, v, workers[v], b);
    }
  }

  lemma AddresseePlaced(accepted: seq<Envelope>, fate: FateMap, home: map<ActorId, nat>, id: ActorId, i: nat)
    requires LedgerOk(accepted, fate, home) && i < |ForActor(accepted, id)|
    ensures id in home
  {
    Filtered(accepted, id);
    assert accepted[ForActor(accepted, id)[i].ticket].target == id;
  }

  /** Only placed actors have ever been sent anything. */
  lemma NoMail(accepted: seq<Envelope>, fate: FateMap, home: map<ActorId, nat>, id: ActorId)
    requires LedgerOk(accepted, fate, home) && id !in home
    ensures ForActor(accepted, id) == []
  {
    if ForActor(accepted, id) != [] {
      AddresseePlaced(accepted, fate, home, id, 0);
    }
  }

  /** An actor without mail is placed. */
  lemma NewHomePipes(accepted: seq<Envelope>, fate: FateMap, home: map<ActorId, nat>, workers: seq<Worker>, id: ActorId,
                     w: nat)
    requires LedgerOk(accepted, fate, home) && PipesOk(accepted, fate, home, workers) && id !in home
    ensures LedgerOk(accepted, fate, home[id := w]) && PipesOk(accepted, fate, home[id := w], workers)
  {
    NoMail(accepted, fate, home, id);
    var home' := home[id := w];
    forall v, b | 0 <= v < |workers| ensures PipeOk(accepted, fate, home', v, workers[v], b) {
      assert PipeOk(accepted, fate, home, v, workers[v], b);
    }
  }

  lemma AcceptPipe(x: Worker, e: Envelope, b: ActorId)
    ensures Pipe(x.(channel := x.channel + [e]), b) == if b == e.target then Pipe(x, b) + [e] else Pipe(x, b)
  {
    ForActorSnoc(x.channel, e, b);
    Associate(Slot(x.phase, b) + Box(x.sched, b), ForActor(x.channel, b), [e]);
  }

  lemma AcceptUndecided(f: seq<Envelope>, p: seq<Envelope>, fate: FateMap, e: Envelope)
    requires Undecided(f, p, fate) && e.ticket !in fate
    ensures Undecided(f + [e], p + [e], fate)
  {
  }

  /** A channel accepts a new envelope. */
  lemma AcceptPipes(accepted: seq<Envelope>, fate: FateMap, home: map<ActorId, nat>, workers: seq<Worker>, e: Envelope)
    requires LedgerOk(accepted, fate, home) && PipesOk(accepted, fate, home, workers)
    requires e.ticket == |accepted| && e.target in home && home[e.target] < |workers|
    ensures var w := home[e.target];
            var x' := workers[w].(channel := workers[w].channel + [e]);
            LedgerOk(accepted + [e], fate, home) && PipesOk(accepted + [e], fate, home, workers[w := x'])
  {
    var w, a := home[e.target], e.target;
    var x := workers[w];
    var x' := x.(channel := x.channel + [e]);
    var accepted', workers' := accepted + [e], workers[w := x'];
    forall v, b | 0 <= v < |workers'| ensures PipeOk(accepted', fate, home, v, workers'[v], b) {
      assert PipeOk(accepted, fate, home, v, workers[v], b);
      ForActorSnoc(accepted, e, b);
      AcceptPipe(x, e, b);
      if b == a && v == w {
        AcceptUndecided(ForActor(accepted, a), Pipe(x, a), fate, e);
      }
    }
  }

  /** Moving the head of the channel into its mailbox changes no pipe. */
  lemma EnqueuePipe(x: Worker, x': Worker, b: ActorId)
    requires x.channel != [] && x'.channel == x.channel[1..] && x'.sched == Enqueue(x.sched, x.channel[0])
    requires Slot(x'.phase, b) == Slot(x.phase, b)
    ensures Pipe(x', b) == Pipe(x, b)
  {
    EnqueueBox(x.sched, x.channel[0], b);
    var s, m, f := Slot(x.phase, b), Box(x.sched, b), ForActor(x.channel[1..], b);
    if x.channel[0].target == b {
      assert s + (m + [x.channel[0]]) + f == s + m + ([x.channel[0]] + f);
    } else {
      assert ForActor(x.channel, b) == [] + f == f;
    }
  }

  /** Serving an actor moves its oldest envelope from the mailbox to the dispatch slot. */
  lemma TakePipe(x: Worker, x': Worker, b: ActorId)
    requires !x.phase.Handling? && Settled(x.sched, None) && x.sched.ready != [] && x'.channel == x.channel
    requires x.sched.ready[0] in x.sched.mailboxes && x.sched.mailboxes[x.sched.ready[0]] != []
    requires x'.sched == Served(x.sched) && x'.phase.Handling?
    requires x'.phase.envelope == x.sched.mailboxes[x.sched.ready[0]][0]
    requires x'.phase.envelope.target == x.sched.ready[0]
    ensures Pipe(x', b) == Pipe(x, b)
  {
    var id := x.sched.ready[0];
    if b == id {
      assert [x'.phase.envelope] + x.sched.mailboxes[id][1..] == x.sched.mailboxes[id];
    }
  }

  /** Everything worker `w` still holds is decided when it exits. */
  lemma ExitPipes(accepted: seq<Envelope>, fate: FateMap, fate': FateMap, home: map<ActorId, nat>,
                  workers: seq<Worker>, w: nat, x': Worker)
    requires Numbered(accepted) && PipesOk(accepted, fate, home, workers) && w < |workers|
    requires !workers[w].phase.Handling? && !x'.phase.Handling? && x'.channel == [] && x'.sched == Empty()
    requires Settled(workers[w].sched, None)
    requires fate'.Keys == fate.Keys + Tickets(workers[w].channel) + BoxedTickets(workers[w].sched)
    ensures PipesOk(accepted, fate', home, workers[w := x'])
  {
    var workers' := workers[w := x'];
    forall v, b | 0 <= v < |workers'| ensures PipeOk(accepted, fate', home, v, workers'[v], b) {
      assert PipeOk(accepted, fate, home, v, workers[v], b);
      ExitPipe(accepted, fate, fate', home, workers, w, v, b);
    }
  }

  /** What exiting decides of the mail of one actor: all of it at home, nothing elsewhere. */
  lemma ExitPipe(accepted: seq<Envelope>, fate: FateMap, fate': FateMap, home: map<ActorId, nat>,
                 workers: seq<Worker>, w: nat, v: nat, b: ActorId)
    requires Numbered(accepted) && PipesOk(accepted, fate, home, workers) && w < |workers| && v < |workers|
    requires !workers[w].phase.Handling? && Settled(workers[w].sched, None)
    requires fate'.Keys == fate.Keys + Tickets(workers[w].channel) + BoxedTickets(workers[w].sched)
    ensures b in home && home[b] == v && v != w ==> Undecided(ForActor(accepted, b), Pipe(workers[v], b), fate')
    ensures b in home && home[b] == v && v == w ==> Undecided(ForActor(accepted, b), [], fate')
  {
    if b in home && home[b] == v {
      var f := ForActor(accepted, b);
      assert PipeOk(accepted, fate, home, v, workers[v], b);
      forall i | 0 <= i < |f| ensures f[i].ticket in fate' <==> f[i].ticket in fate || v == w {
        ExitTicket(accepted, fate, home, workers, w, v, b, i);
      }
    }
  }

  /** Worker `w` holds an undecided envelope exactly when it is the home of the addressee. */
  lemma ExitTicket(accepted: seq<Envelope>, fate: FateMap, home: map<ActorId, nat>, workers: seq<Worker>, w: nat,
                   v: nat, b: ActorId, i: nat)
    requires Numbered(accepted) && PipesOk(accepted, fate, home, workers) && w < |workers| && v < |workers|
    requires !workers[w].phase.Handling? && Settled(workers[w].sched, None)
    requires b in home && home[b] == v && i < |ForActor(accepted, b)|
    ensures var t := ForActor(accepted, b)[i].ticket;
            var held := Tickets(workers[w].channel) + BoxedTickets(workers[w].sched);
            (v != w ==> t !in held) && (v == w ==> t in fate || t in held)
  {
    hide ForActor, Settled;
    assert PipeOk(accepted, fate, home, v, workers[v], b);
    Filtered(accepted, b);
    var f, p := ForActor(accepted, b), Pipe(workers[v], b);
    var t := f[i].ticket;
    if t in Tickets(workers[w].channel) + BoxedTickets(workers[w].sched) {
      HeldAtHome(accepted, fate, home, workers, w, t);
    } else if v == w && t !in fate {
      PipeAt(accepted, fate, home, v, workers[v], b, i - (|f| - |p|));
      PipeHeld(workers[w], b, i - (|f| - |p|));
    }
  }

  /** A ticket held by worker `w` belongs to an actor whose home is `w`. */
  lemma HeldAtHome(accepted: seq<Envelope>, fate: FateMap, home: map<ActorId, nat>, workers: seq<Worker>, w: nat,
                   t: nat)
    requires Numbered(accepted) && PipesOk(accepted, fate, home, workers) && w < |workers|
    requires Settled(workers[w].sched, None)
    requires t in Tickets(workers[w].channel) || t in BoxedTickets(workers[w].sched)
    ensures t < |accepted| && accepted[t].target in home && home[accepted[t].target] == w
  {
    var x := workers[w];
    if t in Tickets(x.channel) {
      var i :| 0 <= i < |x.channel| && x.channel[i].ticket == t;
      var a := x.channel[i].target;
      ForActorMembers(x.channel, a);
      assert x.channel[i] in ForActor(x.channel, a);
      var m :| 0 <= m < |ForActor(x.channel, a)| && ForActor(x.channel, a)[m] == x.channel[i];
      assert Pipe(x, a)[|Slot(x.phase, a)| + |Box(x.sched, a)| + m] == x.channel[i];
      assert PipeOk(accepted, fate, home, w, x, a);
      InPipe(accepted, fate, home, w, x, a, |Slot(x.phase, a)| + |Box(x.sched, a)| + m);
    } else {
      var a, i :| a in x.sched.mailboxes && 0 <= i < |x.sched.mailboxes[a]| && x.sched.mailboxes[a][i].ticket == t;
      assert Pipe(x, a)[|Slot(x.phase, a)| + i] == x.sched.mailboxes[a][i];
      assert PipeOk(accepted, fate, home, w, x, a);
      InPipe(accepted, fate, home, w, x, a, |Slot(x.phase, a)| + i);
    }
  }

  /** A pipe without a dispatch is made of mailbox and channel. */
  lemma PipeHeld(x: Worker, a: ActorId, i: nat)
    requires !x.phase.Handling? && i < |Pipe(x, a)|
    ensures var t := Pipe(x, a)[i].ticket; t in Tickets(x.channel) || t in BoxedTickets(x.sched)
  {
    var box, f := Box(x.sched, a), ForActor(x.channel, a);
    assert Pipe(x, a) == box + f;
    if i < |box| {
      assert a in x.sched.mailboxes && x.sched.mailboxes[a][i] == Pipe(x, a)[i];
    } else {
      ForActorMembers(x.channel, a);
      assert f[i - |box|] in x.channel;
    }
  }

  // ---- the steps ----

  lemma SchedChanged(workers: seq<Worker>, w: nat, x': Worker)
    requires SchedsOk(workers) && w < |workers| && SchedOk(x')
    ensures SchedsOk(workers[w := x'])
  {
  }

  /** A turn serves the head of the ready queue, or finds nothing to do. */
  lemma TurnCases(s: World, w: nat)
    requires w < |s.workers| && Settled(s.workers[w].sched, None)
    ensures var q := s.workers[w].sched;
            if q.ready == [] then DoTurn(s, w) == SetPhase(s, w, AwaitMessage)
            else
              var id := q.ready[0];
              && id in q.mailboxes && q.mailboxes[id] != [] && q.mailboxes[id][0].target == id
              && DoTurn(s, w) == if id in s.workers[w].actors then DoTake(s, w, Served(q), q.mailboxes[id][0])
                                 else DoDropAbsent(s, w, RequeueIfReady(Served(q), id), q.mailboxes[id][0])
  {
    var q := s.workers[w].sched;
    NextReadySettled(q);
    if q.ready != [] {
      TurnBegin(q);
    }
  }

  lemma TakeMail(s: World, w: nat)
    requires MailOk(s) && w < |s.workers| && s.workers[w].phase.TakeTurn?
    requires var q := s.workers[w].sched; q.ready != [] && q.ready[0] in s.workers[w].actors
    ensures MailOk(DoTurn(s, w))
  {
    var x := s.workers[w];
    assert SchedOk(x);
    TurnCases(s, w);
    var x' := DoTurn(s, w).workers[w];
    TurnBeginSettled(x.sched);
    SchedChanged(s.workers, w, x');
    forall b ensures Pipe(x', b) == Pipe(x, b) {
      TakePipe(x, x', b);
    }
    SamePipes(s.accepted, s.fate, s.home, s.workers, w, x');
  }

  /** Requeueing the served actor touches no mailbox. */
  lemma RequeueBox(q: Sched, id: ActorId, b: ActorId)
    ensures Box(RequeueIfReady(q, id), b) == Box(q, b)
  {
  }

  lemma RemoveBox(q: Sched, id: ActorId, b: ActorId)
    ensures Box(RequeueIfReady(RemoveActor(q, id), id), b) == if b == id then [] else Box(q, b)
    ensures Box(RemoveActor(q, id), b) == if b == id then [] else Box(q, b)
  {
  }

  /** Worker `w` decides the first `j` undecided envelopes of `id` and keeps the rest. */
  ghost predicate Decides(x: Worker, x': Worker, id: ActorId, j: nat, fate: FateMap, fate': FateMap) {
    && j <= |Pipe(x, id)|
    && fate'.Keys == fate.Keys + Tickets(Pipe(x, id)[..j])
    && (forall b :: Pipe(x', b) == if b == id then Pipe(x, id)[j..] else Pipe(x, b))
  }

  lemma DecideMail(s: World, s': World, w: nat, id: ActorId, j: nat)
    requires MailOk(s) && w < |s.workers| == |s'.workers| && s'.workers == s.workers[w := s'.workers[w]]
    requires s'.accepted == s.accepted && s'.home == s.home && SchedOk(s'.workers[w])
    requires Decides(s.workers[w], s'.workers[w], id, j, s.fate, s'.fate)
    ensures MailOk(s')
  {
    SchedChanged(s.workers, w, s'.workers[w]);
    DecidePipes(s.accepted, s.fate, s'.fate, s.home, s.workers, w, s'.workers[w], id, j);
    DecidedBound(s, w, id, j);
  }

  /** Tickets taken from a pipe are below the ticket counter. */
  lemma DecidedBound(s: World, w: nat, a: ActorId, j: nat)
    requires MailOk(s) && w < |s.workers| && j <= |Pipe(s.workers[w], a)|
    ensures forall t :: t in Tickets(Pipe(s.workers[w], a)[..j]) ==> t < |s.accepted|
  {
    assert PipeOk(s.accepted, s.fate, s.home, w, s.workers[w], a);
    forall t | t in Tickets(Pipe(s.workers[w], a)[..j]) ensures t < |s.accepted| {
      var m :| 0 <= m < j && Pipe(s.workers[w], a)[..j][m].ticket == t;
      InPipe(s.accepted, s.fate, s.home, w, s.workers[w], a, m);
    }
  }

  lemma OneTicket(p: seq<Envelope>)
    requires p != []
    ensures Tickets(p[..1]) == {p[0].ticket}
  {
    assert p[..1][0] == p[0];
  }

  lemma DropDecides(x: Worker, x': Worker, fate: FateMap)
    requires !x.phase.Handling? && !x'.phase.Handling? && x'.channel == x.channel && x.sched.ready != []
    requires x.sched.ready[0] in x.sched.mailboxes && x.sched.mailboxes[x.sched.ready[0]] != []
    requires x'.sched == RequeueIfReady(Served(x.sched), x.sched.ready[0])
    ensures var id := x.sched.ready[0]; var e := x.sched.mailboxes[id][0];
            Pipe(x, id) != [] && Pipe(x, id)[0] == e && Decides(x, x', id, 1, fate, fate[e.ticket := Dropped])
  {
    var id := x.sched.ready[0];
    OneTicket(Pipe(x, id));
    forall b ensures Pipe(x', b) == if b == id then Pipe(x, id)[1..] else Pipe(x, b) {
      RequeueBox(Served(x.sched), id, b);
    }
  }

  lemma DropAbsentMail(s: World, w: nat)
    requires MailOk(s) && w < |s.workers| && s.workers[w].phase.TakeTurn?
    requires var q := s.workers[w].sched; q.ready != [] && q.ready[0] !in s.workers[w].actors
    ensures MailOk(DoTurn(s, w))
  {
    var x := s.workers[w];
    assert SchedOk(x);
    TurnCases(s, w);
    var s', id := DoTurn(s, w), x.sched.ready[0];
    TurnBeginSettled(x.sched);
    RequeueSettled(Served(x.sched), id);
    DropDecides(x, s'.workers[w], s.fate);
    DecideMail(s, s', w, id, 1);
  }

  lemma PutBackDecides(x: Worker, x': Worker, fate: FateMap, f: Fate)
    requires x.phase.Handling? && !x'.phase.Handling? && x'.channel == x.channel
    requires x'.sched == RequeueIfReady(x.sched, x.phase.envelope.target)
    ensures var e := x.phase.envelope; Decides(x, x', e.target, 1, fate, fate[e.ticket := f])
  {
    var id := x.phase.envelope.target;
    assert Pipe(x, id)[0] == x.phase.envelope;
    OneTicket(Pipe(x, id));
    forall b ensures Pipe(x', b) == if b == id then Pipe(x, id)[1..] else Pipe(x, b) {
      RequeueBox(x.sched, id, b);
    }
  }

  /** The handler's envelope is decided; the actor goes back to its place in the queue. */
  lemma PutBackMail(s: World, w: nat, actor: State, reply: Reply)
    requires MailOk(s) && w < |s.workers| && s.workers[w].phase.Handling?
    ensures MailOk(DoPutBack(s, w, actor, reply))
  {
    var x, s' := s.workers[w], DoPutBack(s, w, actor, reply);
    assert SchedOk(x);
    RequeueSettled(x.sched, x.phase.envelope.target);
    PutBackDecides(x, s'.workers[w], s.fate, Handled(reply));
    DecideMail(s, s', w, x.phase.envelope.target, 1);
  }

  /** Tickets of a concatenation. */
  lemma TicketsConcat(a: seq<Envelope>, b: seq<Envelope>)
    ensures Tickets(a + b) == Tickets(a) + Tickets(b)
  {
    forall t ensures t in Tickets(a + b) <==> t in Tickets(a) || t in Tickets(b) {
      if t in Tickets(a) {
        var i :| 0 <= i < |a| && a[i].ticket == t;
        assert (a + b)[i].ticket == t;
      }
      if t in Tickets(b) {
        var i :| 0 <= i < |b| && b[i].ticket == t;
        assert (a + b)[|a| + i].ticket == t;
      }
    }
  }

  lemma StoppedDecides(x: Worker, x': Worker, fate: FateMap, f: Fate)
    requires x.phase.Handling? && !x'.phase.Handling? && x'.channel == x.channel
    requires var id := x.phase.envelope.target; x'.sched == RequeueIfReady(RemoveActor(x.sched, id), id)
    ensures var e := x.phase.envelope; var box := Box(x.sched, e.target);
            && Decides(x, x', e.target, 1 + |box|, fate, DropAll(fate[e.ticket := f], Tickets(box)))
            && Pipe(x, e.target)[..1 + |box|] == [e] + box
  {
    var e := x.phase.envelope;
    var id, box := e.target, Box(x.sched, e.target);
    assert Pipe(x, id)[..1 + |box|] == [e] + box;
    TicketsConcat([e], box);
    OneTicket([e]);
    assert [e][..1] == [e];
    forall b ensures Pipe(x', b) == if b == id then Pipe(x, id)[1 + |box|..] else Pipe(x, b) {
      RemoveBox(x.sched, id, b);
    }
  }

  lemma FinishStoppedMail(s: World, w: nat, f: Fate)
    requires MailOk(s) && w < |s.workers| && s.workers[w].phase.Handling?
    ensures MailOk(DoFinishStopped(s, w, f))
  {
    var x, s' := s.workers[w], DoFinishStopped(s, w, f);
    var id := x.phase.envelope.target;
    assert SchedOk(x);
    RemoveSettled(x.sched, id, Some(id));
    StoppedDecides(x, s'.workers[w], s.fate, f);
    DecideMail(s, s', w, id, 1 + |Box(x.sched, id)|);
  }

  lemma StopOneDecides(x: Worker, x': Worker, id: ActorId, fate: FateMap)
    requires !x.phase.Handling? && !x'.phase.Handling? && x'.channel == x.channel
    requires x'.sched == RemoveActor(x.sched, id)
    ensures var box := Box(x.sched, id);
            Decides(x, x', id, |box|, fate, DropAll(fate, Tickets(box))) && Pipe(x, id)[..|box|] == box
  {
    var box := Box(x.sched, id);
    assert Pipe(x, id)[..|box|] == box;
    forall b ensures Pipe(x', b) == if b == id then Pipe(x, id)[|box|..] else Pipe(x, b) {
      RemoveBox(x.sched, id, b);
    }
  }

  lemma StopOneMail(s: World, w: nat, id: ActorId)
    requires MailOk(s) && w < |s.workers| && s.workers[w].phase.Stopping? && id in s.workers[w].actors
    ensures MailOk(DoStopOne(s, w, id))
  {
    var x := s.workers[w];
    var x' := x.(actors := x.actors - {id}, sched := RemoveActor(x.sched, id),
                 phase := Stopping(x.phase.remaining - {id}));
    assert SchedOk(x);
    RemoveSettled(x.sched, id, None);
    StopOneDecides(x, x', id, s.fate);
    DecideMail(s, Put(s, w, x').(fate := DropAll(s.fate, Tickets(Box(x.sched, id)))), w, id, |Box(x.sched, id)|);
  }

  lemma FinishStoppingMail(s: World, w: nat)
    requires MailOk(s) && w < |s.workers| && s.workers[w].phase.Stopping?
    ensures MailOk(DoFinishStopping(s, w))
  {
    var x, s' := s.workers[w], DoFinishStopping(s, w);
    assert SchedOk(x);
    assert SchedOk(s'.workers[w]);
    SchedChanged(s.workers, w, s'.workers[w]);
    ExitPipes(s.accepted, s.fate, s'.fate, s.home, s.workers, w, s'.workers[w]);
    forall t | t in Tickets(x.channel) || t in BoxedTickets(x.sched) ensures t < |s.accepted| {
      HeldAtHome(s.accepted, s.fate, s.home, s.workers, w, t);
    }
  }

  lemma EnqueueMail(s: World, w: nat, p: Phase)
    requires MailOk(s) && w < |s.workers| && s.workers[w].channel != []
    requires !s.workers[w].phase.Handling? && !p.Handling? && !p.Exited?
    ensures var x := s.workers[w];
            MailOk(Put(s, w, x.(channel := x.channel[1..], sched := Enqueue(x.sched, x.channel[0]), phase := p)))
  {
    var x := s.workers[w];
    var x' := x.(channel := x.channel[1..], sched := Enqueue(x.sched, x.channel[0]), phase := p);
    assert SchedOk(x);
    EnqueueSettled(x.sched, x.channel[0]);
    SchedChanged(s.workers, w, x');
    forall b ensures Pipe(x', b) == Pipe(x, b) {
      EnqueuePipe(x, x', b);
    }
    SamePipes(s.accepted, s.fate, s.home, s.workers, w, x');
  }

  /** A worker changes its control queue, its map or its phase, not its mail. */
  lemma QuietMail(s: World, w: nat, x': Worker)
    requires MailOk(s) && w < |s.workers|
    requires var x := s.workers[w];
             && x'.channel == x.channel && x'.sched == x.sched && (x'.phase.Exited? ==> x.phase.Exited?)
             && Busy(x'.phase) == Busy(x.phase) && (x.phase.Handling? ==> x'.phase.envelope == x.phase.envelope)
    ensures MailOk(Put(s, w, x'))
  {
    assert SchedOk(s.workers[w]);
    SchedChanged(s.workers, w, x');
    forall b ensures Pipe(x', b) == Pipe(s.workers[w], b) {
    }
    SamePipes(s.accepted, s.fate, s.home, s.workers, w, x');
  }

  lemma SendMail(s: World, target: ActorId, msg: Msg)
    requires MailOk(s) && CanAccept(s, target) && target in s.home && s.home[target] == s.addrs[target]
    ensures MailOk(DoSend(s, target, msg))
  {
    var w, e := s.addrs[target], Envelope(|s.accepted|, target, msg);
    assert SchedOk(s.workers[w]);
    SchedChanged(s.workers, w, s.workers[w].(channel := s.workers[w].channel + [e]));
    AcceptPipes(s.accepted, s.fate, s.home, s.workers, e);
  }

  /** A worker enters an actor that has had no address, hence no mail, into its map. */
  lemma HousedMail(s: World, s': World, w: nat, id: ActorId)
    requires MailOk(s) && w < |s.workers| == |s'.workers| && s'.workers == s.workers[w := s'.workers[w]]
    requires s'.accepted == s.accepted && s'.fate == s.fate && id !in s.home && s'.home == s.home[id := w]
    requires var x, x' := s.workers[w], s'.workers[w];
             x'.channel == x.channel && x'.sched == x.sched && x'.phase == x.phase
    ensures MailOk(s')
  {
    QuietMail(s, w, s'.workers[w]);
    NewHomePipes(s.accepted, s.fate, s.home, s'.workers, id, w);
  }

  lemma TurnMail(s: World, w: nat)
    requires MailOk(s) && w < |s.workers| && s.workers[w].phase.TakeTurn?
    ensures MailOk(DoTurn(s, w))
  {
    var x := s.workers[w];
    assert SchedOk(x);
    if x.sched.ready == [] {
      TurnCases(s, w);
      QuietMail(s, w, x.(phase := AwaitMessage));
    } else if x.sched.ready[0] in x.actors {
      TakeMail(s, w);
    } else {
      DropAbsentMail(s, w);
    }
  }

  lemma FinishMail(h: Behaviour, s: World, w: nat)
    requires MailOk(s) && w < |s.workers| && s.workers[w].phase.Handling?
    ensures MailOk(DoFinish(h, s, w))
  {
    var x := s.workers[w];
    match h(x.phase.envelope.target, x.phase.actor, x.phase.envelope.msg)
    case Continued(actor, reply) => PutBackMail(s, w, actor, reply);
    case StopRequested(_, reply) => FinishStoppedMail(s, w, Handled(reply));
    case Panicked => FinishStoppedMail(s, w, Crashed);
  }

  lemma ControlMail(s: World, w: nat)
    requires MailOk(s) && Places.PlacesOk(s) && w < |s.workers| && s.workers[w].phase.ReadControl?
    ensures MailOk(DoControl(s, w))
  {
    var x := s.workers[w];
    if x.control != [] && x.control[0].SpawnActor? {
      Places.QueuedNotHome(s, w);
      HousedMail(s, DoControl(s, w), w, x.control[0].id);
    } else if x.control == [] {
      QuietMail(s, w, x.(phase := DrainChannel));
    } else {
      QuietMail(s, w, x.(control := x.control[1..], phase := Stopping(x.actors.Keys)));
    }
  }

  lemma SpawnQueueMail(s: World, id: ActorId, actor: State)
    requires MailOk(s) && id in s.starting && s.starting[id].worker < |s.workers|
    ensures MailOk(DoSpawnQueue(s, id, actor))
  {
    var x := s.workers[s.starting[id].worker];
    QuietMail(s, s.starting[id].worker, x.(control := x.control + [SpawnActor(id, actor)]));
  }

  lemma ChildInsertMail(s: World, id: ActorId, actor: State)
    requires MailOk(s) && Places.PlacesOk(s) && id in s.starting
    ensures MailOk(DoChildInsert(s, id, actor))
  {
    Places.StartingNotHome(s, id);
    HousedMail(s, DoChildInsert(s, id, actor), s.starting[id].worker, id);
  }

  lemma BlockingSendMail(s: World, w: nat, target: ActorId, msg: Msg)
    requires MailOk(s) && w < |s.workers| && Unblocked(s.workers[w].phase) && CanAccept(s, target)
    requires target in s.home && s.home[target] == s.addrs[target]
    ensures MailOk(DoBlockingSend(s, w, target, msg))
  {
    SendMail(s, target, msg);
    var s1 := DoSend(s, target, msg);
    QuietMail(s1, w, s1.workers[w].(phase := s.workers[w].phase.(waitingFor := ForReply(|s.accepted|))));
  }

  lemma DrainMail(s: World, w: nat)
    requires MailOk(s) && w < |s.workers| && s.workers[w].phase.DrainChannel?
    ensures MailOk(DoDrain(s, w))
  {
    if s.workers[w].channel == [] {
      QuietMail(s, w, s.workers[w].(phase := TakeTurn));
    } else {
      EnqueueMail(s, w, DrainChannel);
    }
  }

  /** Changes of phase and control queue alone. */
  lemma PhaseMail(h: Behaviour, s: World, step: Step)
    requires MailOk(s) && Enabled(s, step)
    requires step.AwaitConfirm? || step.Resume? || step.RequestShutdown? || step.WaitTimeout? || step.WaitDisconnected?
    ensures MailOk(Apply(h, s, step))
  {
    QuietMail(s, step.w, Apply(h, s, step).workers[step.w]);
  }

  /** Steps on the counters, the pending spawns and the addresses. */
  lemma RegistryMail(s: World, s': World)
    requires MailOk(s) && s'.workers == s.workers && s'.accepted == s.accepted && s'.fate == s.fate && s'.home == s.home
    ensures MailOk(s')
  {
  }

  /** Every step of every thread keeps the mail in order. */
  lemma StepMail(h: Behaviour, s: World, step: Step)
    requires MailOk(s) && Places.PlacesOk(s) && Enabled(s, step)
    ensures MailOk(Apply(h, s, step))
  {
    hide MailOk, Queued, Places.PlacesOk, DoSpawnQueue, DoChildInsert, DoSend, DoBlockingSend, DoControl, DoDrain;
    hide DoTurn;
    hide DoFinish, DoStopOne, DoFinishStopping;
    match step
    case SpawnAllocate => RegistryMail(s, Apply(h, s, step));
    case PickWorker(_) => RegistryMail(s, Apply(h, s, step));
    case SpawnQueue(id, actor) => SpawnQueueMail(s, id, actor);
    case SpawnReturn(id) => RegistryMail(s, Apply(h, s, step));
    case ChildBegin(w, parent) => RegistryMail(s, Apply(h, s, step));
    case ChildInsert(id, actor) => ChildInsertMail(s, id, actor);
    case Send(target, msg) => Places.AddrHome(s, target); SendMail(s, target, msg);
    case BlockingSend(w, target, msg) => Places.AddrHome(s, target); BlockingSendMail(s, w, target, msg);
    case DropHandle => RegistryMail(s, Apply(h, s, step));
    case ControlStep(w) => ControlMail(s, w);
    case DrainStep(w) => DrainMail(s, w);
    case TurnStep(w) => TurnMail(s, w);
    case FinishTurn(w) => FinishMail(h, s, w);
    case WaitReceive(w) => EnqueueMail(s, w, ReadControl);
    case StopOne(w, id) => Places.StopOnePlaces(s, w, id); StopOneMail(s, w, id);
    case FinishStopping(w) => FinishStoppingMail(s, w);
    case _ => PhaseMail(h, s, step);
  }
}
