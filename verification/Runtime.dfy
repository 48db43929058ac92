/** The multi-threaded runtime as an interleaving of atomic steps: `n` worker threads running
    the loop of src/runtime.rs, any number of client threads, and the shared maps, counters and
    channels of src/spawner.rs. Channels are sequences; a lock section, an atomic operation or a
    channel operation is one step. */
module RuntimeModel {
  import opened Actors
  import opened SchedulerSpec

  datatype Control = SpawnActor(id: ActorId, actor: State) | Shutdown

  /** What a handler is suspended in: nothing, a blocking send, or a call of `Runtime::spawn` that
      waits for its confirmation. */
  datatype Wait = Free | ForReply(ticket: nat) | ForConfirm(id: ActorId)

  /** Where a worker thread is in its loop. `Handling` is the inside of a dispatch: the actor
      has been taken out of the shared map. */
  datatype Phase =
    | ReadControl
    | DrainChannel
    | TakeTurn
    | Handling(envelope: Envelope, actor: State, waitingFor: Wait)
    | AwaitMessage
    | Stopping(remaining: set<ActorId>)
    | Exited

  /** A worker thread with the two channels it receives from and its shared actor map;
      `holdsShared` says that it keeps the shared state, and with it the senders, alive.
      `dispatches` counts the handlers begun; `late` collects the actors put into the map after
      the worker took its shutdown snapshot. Neither is read by the runtime. */
  datatype Worker = Worker(
    control: seq<Control>,
    channel: seq<Envelope>,
    actors: map<ActorId, State>,
    sched: Sched,
    phase: Phase,
    holdsShared: bool,
    dispatches: nat,
    late: set<ActorId>)

  /** Who is inside a spawn call whose `started` hook is running: a client in `Runtime::spawn`,
      or a `Context::spawn` on the worker thread or on a client thread. */
  datatype Starter = ByRuntime | ByWorker | ByClientHook

  datatype Starting = Starting(worker: nat, starter: Starter)

  /** Where an identity is. The runtime does not store this; it is history, and the invariant
      ties it to the queues, maps and phases. */
  datatype Place =
    | Allocated
    | InStarted
    | InControl(worker: nat)
    | InMap(worker: nat)
    | InDispatch(worker: nat)
    | HasStopped
    | NeverPlaced

  /** How many values a wrapping counter has. */
  type Range = n: nat | n > 0 witness 1

  /** `pickRange` is the range of the `usize` placement counter, which depends on the platform;
      `unpicked` are the identities of client spawns that have not picked a worker yet. */
  datatype World = World(
    workers: seq<Worker>,
    pickRange: Range,
    nextId: nat,
    nextWorker: nat,
    handleHeld: bool,
    unpicked: set<ActorId>,
    starting: map<ActorId, Starting>,
    confirmed: map<ActorId, nat>,
    addrs: map<ActorId, nat>,
    accepted: seq<Envelope>,
    fate: map<nat, Fate>,
    stops: seq<ActorId>,
    place: map<ActorId, Place>,
    home: map<ActorId, nat>,
    births: map<ActorId, State>)

  const ID_RANGE: nat := 0x1_0000_0000_0000_0000

  function FreshWorker(): Worker {
    Worker([], [], map[], Empty(), ReadControl, true, 0, {})
  }

  function Init(n: nat, range: Range): World {
    World(seq(n, _ => FreshWorker()), range, 1, 0, true, {}, map[], map[], map[], [], map[], [], map[], map[], map[])
  }

  datatype Step =
    | SpawnAllocate
    | PickWorker(id: ActorId)
    | SpawnQueue(id: ActorId, actor: State)
    | SpawnReturn(id: ActorId)
    | ChildBegin(w: nat, parent: Option<ActorId>)
    | ChildInsert(id: ActorId, actor: State)
    | Send(target: ActorId, msg: Msg)
    | BlockingSend(w: nat, target: ActorId, msg: Msg)
    | AwaitConfirm(w: nat, id: ActorId)
    | Resume(w: nat)
    | RequestShutdown(w: nat)
    | DropHandle
    | ControlStep(w: nat)
    | DrainStep(w: nat)
    | TurnStep(w: nat)
    | FinishTurn(w: nat)
    | WaitReceive(w: nat)
    | WaitTimeout(w: nat)
    | WaitDisconnected(w: nat)
    | StopOne(w: nat, id: ActorId)
    | FinishStopping(w: nat)

  /** Every sender of a message channel is gone: neither the runtime handle nor any worker thread
      keeps the shared state with its senders, and no address is left. */
  predicate SendersGone(s: World, w: nat) {
    && !s.handleHeld
    && (forall v :: 0 <= v < |s.workers| ==> !s.workers[v].holdsShared)
    && (forall id :: id in s.addrs ==> s.addrs[id] != w)
  }

  predicate CanAccept(s: World, target: ActorId) {
    target in s.addrs && s.addrs[target] < |s.workers| && !s.workers[s.addrs[target]].phase.Exited?
  }

  predicate Unblocked(p: Phase) { p.Handling? && p.waitingFor.Free? }

  /** The identities of the spawn requests in a control queue. */
  function SpawnIds(control: seq<Control>): seq<ActorId> {
    if control == [] then []
    else (if control[0].SpawnActor? then [control[0].id] else []) + SpawnIds(control[1..])
  }

  predicate QueuedAt(s: World, id: ActorId, w: nat) {
    w < |s.workers| && id in SpawnIds(s.workers[w].control)
  }

  predicate Queued(s: World, id: ActorId) {
    exists w :: 0 <= w < |s.workers| && QueuedAt(s, id, w)
  }

  /** A reply arrives with the fate of its envelope; a spawn is answered when its request leaves
      the queue. */
  predicate WaitOver(s: World, p: Wait) {
    match p
    case Free => true
    case ForReply(t) => t in s.fate
    case ForConfirm(id) => !Queued(s, id)
  }

  predicate Enabled(s: World, step: Step) {
    match step
    case SpawnAllocate => s.nextId < ID_RANGE
    case PickWorker(id) => id in s.unpicked && |s.workers| > 0
    case SpawnQueue(id, _) =>
      && id in s.starting && s.starting[id].starter == ByRuntime
      && s.starting[id].worker < |s.workers|
    case SpawnReturn(id) => id in s.confirmed
    case ChildBegin(w, parent) =>
      && s.nextId < ID_RANGE && w < |s.workers|
      && (match parent
          case None => Unblocked(s.workers[w].phase)
          case Some(p) => p in s.starting && s.starting[p].worker == w && s.starting[p].starter != ByWorker)
    case ChildInsert(id, _) =>
      && id in s.starting && s.starting[id].starter != ByRuntime && s.starting[id].worker < |s.workers|
      && (s.starting[id].starter == ByWorker ==> Unblocked(s.workers[s.starting[id].worker].phase))
    case Send(target, _) => CanAccept(s, target)
    case BlockingSend(w, target, _) => w < |s.workers| && Unblocked(s.workers[w].phase) && CanAccept(s, target)
    case AwaitConfirm(w, id) => w < |s.workers| && Unblocked(s.workers[w].phase) && Queued(s, id)
    case Resume(w) =>
      && w < |s.workers| && s.workers[w].phase.Handling?
      && !s.workers[w].phase.waitingFor.Free? && WaitOver(s, s.workers[w].phase.waitingFor)
    case RequestShutdown(w) => w < |s.workers| && !s.workers[w].phase.Exited?
    case DropHandle => s.handleHeld
    case ControlStep(w) => w < |s.workers| && s.workers[w].phase.ReadControl?
    case DrainStep(w) => w < |s.workers| && s.workers[w].phase.DrainChannel?
    case TurnStep(w) => w < |s.workers| && s.workers[w].phase.TakeTurn?
    case FinishTurn(w) => w < |s.workers| && Unblocked(s.workers[w].phase)
    case WaitReceive(w) => w < |s.workers| && s.workers[w].phase.AwaitMessage? && s.workers[w].channel != []
    case WaitTimeout(w) => w < |s.workers| && s.workers[w].phase.AwaitMessage?
    case WaitDisconnected(w) =>
      && w < |s.workers| && s.workers[w].phase.AwaitMessage?
      && s.workers[w].channel == [] && SendersGone(s, w)
    case StopOne(w, id) => w < |s.workers| && s.workers[w].phase.Stopping? && id in s.workers[w].phase.remaining
    case FinishStopping(w) => w < |s.workers| && s.workers[w].phase.Stopping? && s.workers[w].phase.remaining == {}
  }

  function Put(s: World, w: nat, x: Worker): World
    requires w < |s.workers|
  {
    s.(workers := s.workers[w := x])
  }

  /** Envelopes `ts` disappear without having been handled. */
  function DropAll(fate: map<nat, Fate>, ts: set<nat>): map<nat, Fate> {
    map t | t in fate.Keys + ts :: if t in fate then fate[t] else Dropped
  }

  function Tickets(es: seq<Envelope>): set<nat> {
    set i | 0 <= i < |es| :: es[i].ticket
  }

  function BoxedTickets(q: Sched): set<nat> {
    set id, i | id in q.mailboxes && 0 <= i < |q.mailboxes[id]| :: q.mailboxes[id][i].ticket
  }

  /** `fetch_add` on the identity counter by `Runtime::spawn`. */
  function DoSpawnAllocate(s: World): World {
    s.(nextId := s.nextId + 1, unpicked := s.unpicked + {s.nextId}, place := s.place[s.nextId := Allocated])
  }

  /** `fetch_add` on the placement counter; the identity enters its `started` hook. */
  function DoPick(s: World, id: ActorId): World
    requires |s.workers| > 0
  {
    s.(nextWorker := (s.nextWorker + 1) % s.pickRange, unpicked := s.unpicked - {id},
       starting := s.starting[id := Starting(s.nextWorker % |s.workers|, ByRuntime)], place := s.place[id := InStarted])
  }

  /** `fetch_add` on the identity counter by `Context::spawn`, which knows the worker. */
  function DoAllocate(s: World, st: Starting): World {
    s.(nextId := s.nextId + 1, starting := s.starting[s.nextId := st], place := s.place[s.nextId := InStarted])
  }

  /** The control message is queued. */
  function DoQueueSpawn(s: World, id: ActorId, actor: State, w: nat): World
    requires w < |s.workers|
  {
    Put(s.(starting := s.starting - {id}), w, s.workers[w].(control := s.workers[w].control + [SpawnActor(id, actor)]))
    .(place := s.place[id := InControl(w)])
  }

  /** The worker thread is gone; the caller panics. */
  function DoAbandonSpawn(s: World, id: ActorId): World {
    s.(starting := s.starting - {id}, place := s.place[id := NeverPlaced])
  }

  function DoSpawnQueue(s: World, id: ActorId, actor: State): World
    requires id in s.starting && s.starting[id].worker < |s.workers|
  {
    var w := s.starting[id].worker;
    if s.workers[w].phase.Exited? then DoAbandonSpawn(s, id) else DoQueueSpawn(s, id, actor, w)
  }

  function DoSpawnReturn(s: World, id: ActorId): World
    requires id in s.confirmed
  {
    s.(confirmed := s.confirmed - {id}, addrs := s.addrs[id := s.confirmed[id]])
  }

  /** An actor enters the map of worker `w`. */
  function Housed(s: World, w: nat, id: ActorId, actor: State): World {
    s.(place := s.place[id := InMap(w)], home := s.home[id := w], births := s.births[id := actor])
  }

  function DoChildInsert(s: World, id: ActorId, actor: State): World
    requires id in s.starting && s.starting[id].worker < |s.workers|
  {
    var w := s.starting[id].worker;
    var x := s.workers[w];
    var x' := x.(actors := x.actors[id := actor],
                 late := if x.phase.Stopping? || x.phase.Exited? then x.late + {id} else x.late);
    Housed(Put(s.(starting := s.starting - {id}, addrs := s.addrs[id := w]), w, x'), w, id, actor)
  }

  function DoSend(s: World, target: ActorId, msg: Msg): World
    requires CanAccept(s, target)
  {
    var w := s.addrs[target];
    var e := Envelope(|s.accepted|, target, msg);
    Put(s.(accepted := s.accepted + [e]), w, s.workers[w].(channel := s.workers[w].channel + [e]))
  }

  function DoBlockingSend(s: World, w: nat, target: ActorId, msg: Msg): World
    requires w < |s.workers| && Unblocked(s.workers[w].phase) && CanAccept(s, target)
  {
    var s1 := DoSend(s, target, msg);
    Put(s1, w, s1.workers[w].(phase := s.workers[w].phase.(waitingFor := ForReply(|s.accepted|))))
  }

  function SetPhase(s: World, w: nat, p: Phase): World
    requires w < |s.workers|
  {
    Put(s, w, s.workers[w].(phase := p))
  }

  /** The head of the control queue is a spawn request: insert the actor and confirm. */
  function DoConfirm(s: World, w: nat, id: ActorId, actor: State): World
    requires w < |s.workers| && s.workers[w].control != []
  {
    var x := s.workers[w];
    var x' := x.(control := x.control[1..], actors := x.actors[id := actor]);
    Housed(Put(s.(confirmed := s.confirmed[id := w]), w, x'), w, id, actor)
  }

  /** The head of the control queue is a shutdown request: take the snapshot of the map. */
  function DoBeginShutdown(s: World, w: nat): World
    requires w < |s.workers| && s.workers[w].control != []
  {
    var x := s.workers[w];
    Put(s, w, x.(control := x.control[1..], phase := Stopping(x.actors.Keys)))
  }

  function DoControl(s: World, w: nat): World
    requires w < |s.workers|
  {
    var x := s.workers[w];
    if x.control == [] then SetPhase(s, w, DrainChannel)
    else
      match x.control[0]
      case SpawnActor(id, actor) => DoConfirm(s, w, id, actor)
      case Shutdown => DoBeginShutdown(s, w)
  }

  /** The head of the channel moves to its mailbox. */
  function DoEnqueue(s: World, w: nat, p: Phase): World
    requires w < |s.workers| && s.workers[w].channel != []
  {
    var x := s.workers[w];
    Put(s, w, x.(channel := x.channel[1..], sched := Enqueue(x.sched, x.channel[0]), phase := p))
  }

  function DoDrain(s: World, w: nat): World
    requires w < |s.workers|
  {
    if s.workers[w].channel == [] then SetPhase(s, w, TakeTurn) else DoEnqueue(s, w, DrainChannel)
  }

  /** The actor leaves the shared map and its handler begins. */
  function DoTake(s: World, w: nat, q: Sched, e: Envelope): World
    requires w < |s.workers| && e.target in s.workers[w].actors
  {
    var x := s.workers[w];
    Put(s, w, x.(sched := q, actors := x.actors - {e.target}, dispatches := x.dispatches + 1,
                 phase := Handling(e, x.actors[e.target], Free)))
    .(place := s.place[e.target := InDispatch(w)])
  }

  /** No such actor: the envelope is dropped. */
  function DoDropAbsent(s: World, w: nat, q: Sched, e: Envelope): World
    requires w < |s.workers|
  {
    Put(s, w, s.workers[w].(sched := q, phase := ReadControl)).(fate := s.fate[e.ticket := Dropped])
  }

  /** Nobody is served. */
  function DoIdle(s: World, w: nat, q: Sched, p: Phase): World
    requires w < |s.workers|
  {
    Put(s, w, s.workers[w].(sched := q, phase := p))
  }

  /** `next_ready`, `dequeue`, and the first part of `dispatch`. */
  function DoTurn(s: World, w: nat): World
    requires w < |s.workers|
  {
    var x := s.workers[w];
    match NextReady(x.sched)
    case (q, None) => DoIdle(s, w, q, AwaitMessage)
    case (q, Some(id)) =>
      match Dequeue(q, id)
      case (q', None) => DoIdle(s, w, q', ReadControl)
      case (q', Some(e)) =>
        if e.target in x.actors then DoTake(s, w, q', e) else DoDropAbsent(s, w, RequeueIfReady(q', id), e)
  }

  /** The handler returned or panicked: put the actor back, or run its stopped hook and forget
      its mailbox; then `requeue_if_ready`. */
  function DoFinish(h: Behaviour, s: World, w: nat): World
    requires w < |s.workers| && s.workers[w].phase.Handling?
  {
    var x := s.workers[w];
    match h(x.phase.envelope.target, x.phase.actor, x.phase.envelope.msg)
    case Continued(actor, reply) => DoPutBack(s, w, actor, reply)
    case StopRequested(_, reply) => DoFinishStopped(s, w, Handled(reply))
    case Panicked => DoFinishStopped(s, w, Crashed)
  }

  function DoPutBack(s: World, w: nat, actor: State, reply: Reply): World
    requires w < |s.workers| && s.workers[w].phase.Handling?
  {
    var x := s.workers[w];
    var e := x.phase.envelope;
    var x' := x.(actors := x.actors[e.target := actor], sched := RequeueIfReady(x.sched, e.target),
                 phase := ReadControl);
    Put(s, w, x')
    .(fate := s.fate[e.ticket := Handled(reply)], place := s.place[e.target := InMap(w)])
  }

  function DoFinishStopped(s: World, w: nat, f: Fate): World
    requires w < |s.workers| && s.workers[w].phase.Handling?
  {
    var x := s.workers[w];
    var e := x.phase.envelope;
    var id := e.target;
    Put(s, w, x.(sched := RequeueIfReady(RemoveActor(x.sched, id), id), phase := ReadControl))
    .(fate := DropAll(s.fate[e.ticket := f], Tickets(Box(x.sched, id))),
      stops := s.stops + [id], place := s.place[id := HasStopped])
  }

  /** `remove_actor` for one identity of the shutdown snapshot. */
  function DoStopOne(s: World, w: nat, id: ActorId): World
    requires w < |s.workers| && s.workers[w].phase.Stopping?
  {
    var x := s.workers[w];
    var s1 := Put(s, w, x.(actors := x.actors - {id}, sched := RemoveActor(x.sched, id),
                           phase := Stopping(x.phase.remaining - {id})))
              .(fate := DropAll(s.fate, Tickets(Box(x.sched, id))));
    if id in x.actors then s1.(stops := s.stops + [id], place := s.place[id := HasStopped]) else s1
  }

  /** The worker thread returns; its receivers and its scheduler are dropped with everything
      still in them. */
  function DoFinishStopping(s: World, w: nat): World
    requires w < |s.workers|
  {
    var x := s.workers[w];
    Put(s, w, x.(control := [], channel := [], sched := Empty(), phase := Exited, holdsShared := false))
    .(fate := DropAll(s.fate, Tickets(x.channel) + BoxedTickets(x.sched)),
      place := map id | id in s.place :: if s.place[id] == InControl(w) then NeverPlaced else s.place[id])
  }

  function Apply(h: Behaviour, s: World, step: Step): World
    requires Enabled(s, step)
  {
    match step
    case SpawnAllocate => DoSpawnAllocate(s)
    case PickWorker(id) => DoPick(s, id)
    case SpawnQueue(id, actor) => DoSpawnQueue(s, id, actor)
    case SpawnReturn(id) => DoSpawnReturn(s, id)
    case ChildBegin(w, parent) => DoAllocate(s, Starting(w, if parent.None? then ByWorker else ByClientHook))
    case ChildInsert(id, actor) => DoChildInsert(s, id, actor)
    case Send(target, msg) => DoSend(s, target, msg)
    case BlockingSend(w, target, msg) => DoBlockingSend(s, w, target, msg)
    case AwaitConfirm(w, id) => SetPhase(s, w, s.workers[w].phase.(waitingFor := ForConfirm(id)))
    case Resume(w) => SetPhase(s, w, s.workers[w].phase.(waitingFor := Free))
    case RequestShutdown(w) => Put(s, w, s.workers[w].(control := s.workers[w].control + [Shutdown]))
    case DropHandle => s.(handleHeld := false)
    case ControlStep(w) => DoControl(s, w)
    case DrainStep(w) => DoDrain(s, w)
    case TurnStep(w) => DoTurn(s, w)
    case FinishTurn(w) => DoFinish(h, s, w)
    case WaitReceive(w) => DoEnqueue(s, w, ReadControl)
    case WaitTimeout(w) => SetPhase(s, w, ReadControl)
    case WaitDisconnected(w) => SetPhase(s, w, Stopping(s.workers[w].actors.Keys))
    case StopOne(w, id) => DoStopOne(s, w, id)
    case FinishStopping(w) => DoFinishStopping(s, w)
  }

  /** `s` leads to `s'` through the given steps. */
  ghost predicate Run(h: Behaviour, s: World, steps: seq<Step>, s': World)
    decreases |steps|
  {
    if steps == [] then s' == s
    else Enabled(s, steps[0]) && Run(h, Apply(h, s, steps[0]), steps[1..], s')
  }
}
