/**
 * Almost-local reads (src/kvraft1): replicas apply one committed log at their own pace; a replica
 * queues its Gets, pushes a sync entry through the log and answers the queued Gets from its own
 * store when it applies that entry.  One event is one step of a goroutine that others can observe:
 * counting a Get and sending it to the queue are two, and so are the parts of the sync branch.
 */
module AlrMachine {
  import opened Options
  import opened RaftTypes
  import opened KvStore
  import opened KvModel
  import opened Submits

  /** A Get at a replica; `ticket` is its place in the order in which the replica counted its Gets. */
  datatype GetOp = GetOp(id: nat, key: string, ticket: nat)

  /**
   * Where the sync goroutine is: it read the queue length, sent the sync, got OK for it.  `limit` is the
   * number of Gets the replica had counted when the length was read.
   */
  datatype SyncPc =
    | Idle
    | Loaded(count: nat, limit: nat)
    | Sent(count: nat, limit: nat, nonce: nat)
    | Confirmed(count: nat, limit: nat, nonce: nat)

  /**
   * Where the reader goroutine is: waiting for the next entry, in the sync branch before and after it
   * lowers the queue length, or stuck on a channel nobody reads any more.
   */
  datatype Work = Free | Nonced(count: nat, limit: nat) | Draining(left: nat, limit: nat) | Stuck

  /**
   * A KVServer with its RSM.  `arriving` are the Gets counted and not yet in the queue, `chans` the Gets
   * whose channel waits for an answer, `waits` opChs of the RSM.  `came`, `entered` and `went` list the
   * Gets counted, queued and answered since the last restart.
   */
  datatype Replica = Replica(
    applied: nat, store: Store, nonce: nat,
    arriving: seq<GetOp>, queue: seq<GetOp>, queueLen: int, chans: set<nat>,
    waits: Waits, pc: SyncPc, work: Work,
    came: seq<nat>, entered: seq<nat>, went: seq<nat>)

  /** A sync request that was sent: by which server, for how many Gets, and how long the log was then. */
  datatype SyncInfo = SyncInfo(server: nat, count: nat, limit: nat, floor: nat)

  /** What clients see: an operation is called, or answered; `at` is the length of the log at that moment. */
  datatype Action =
    | Call(id: nat, input: KvInput, at: nat)
    | Return(id: nat, input: KvInput, output: KvOutput, at: nat)

  /** What was called, and how long the log was then. */
  datatype Called = Called(input: KvInput, at: nat)

  /** The answer a queued Get received. */
  datatype Answered = Answered(id: nat, key: string, reply: Reply)

  /** What a Submit at a replica returned, and how much of the log that replica had applied by then. */
  datatype Told = Told(r: nat, id: nat, req: Request, result: (Err, Option<Reply>), applied: nat)

  /**
   * log      the committed log
   * calls    every operation ever called
   * subs     every request ever handed to Submit, by the id it drew
   * ids      every id ever used; nonces: every nonce ever used
   * syncs    the sync requests by nonce
   * batches  the Gets answered by the sync entry at an index
   * trace    what clients saw; told: what Submits returned
   */
  datatype State = State(
    log: seq<Command>, replicas: seq<Replica>,
    calls: map<nat, Called>, subs: map<nat, Request>, ids: set<nat>, nonces: set<nat>, syncs: map<nat, SyncInfo>,
    batches: map<nat, seq<Answered>>, trace: seq<Action>, told: seq<Told>)

  datatype Event =
    | CallGet(r: nat, id: nat, key: string)
    | Enqueue(r: nat, i: nat)
    | CallPut(r: nat, id: nat, key: string, value: string, version: nat)
    | SubmitSync(r: nat, id: nat, nonce: nat)
    | StartReturns(r: nat, id: nat, term: nat, isLeader: bool)
    | Commit(id: nat)
    | Apply(r: nat, nu: nat)
    | Subtract(r: nat)
    | Dequeue(r: nat)
    | EndRelease(r: nat)
    | Abort(r: nat, id: nat)
    | Finish(r: nat, id: nat, term: nat, isLeader: bool)
    | LoadLength(r: nat)
    | SendSync(r: nat)
    | SyncOk(r: nat)
    | SyncFailed(r: nat, nu: nat)
    | SyncSeen(r: nat)
    | StraySync(server: nat, count: nat, nonce: nat)
    | Crash(r: nat, nu: nat)

  function Booted(nonce: nat): Replica {
    Replica(0, Empty, nonce, [], [], 0, {}, map[], Idle, Free, [], [], [])
  }

  /** n replicas with the given distinct nonces. */
  function Init(nonces: seq<nat>): State {
    State([], seq(|nonces|, i requires 0 <= i < |nonces| => Booted(nonces[i])), map[], map[], {},
          set i | 0 <= i < |nonces| :: nonces[i], map[], map[], [], [])
  }

  predicate Distinct(xs: seq<nat>) { forall i, j | 0 <= i < j < |xs| :: xs[i] != xs[j] }

  function Requests(log: seq<Command>): seq<Request> {
    seq(|log|, i requires 0 <= i < |log| => if log[i].Command? then log[i].req else Get(""))
  }

  /** The store after the first i entries. */
  function StoreAt(log: seq<Command>, i: nat): Store
    requires i <= |log|
  {
    Replay(Requests(log[..i]))
  }

  function PutRequest(input: KvInput): Request
    requires input.KvPut?
  {
    Put(input.key, input.value, input.version)
  }

  predicate InLog(log: seq<Command>, id: nat) { exists i | 0 <= i < |log| :: log[i].Command? && log[i].id == id }

  /** The entry lets replica r answer queued Gets: it is addressed to r and carries r's present nonce. */
  predicate Releases(rep: Replica, r: nat, req: Request) {
    req.Sync? && req.server == r && req.nonce == rep.nonce
  }

  /** The reader is in the sync branch, with the server's lock. */
  predicate Working(rep: Replica) { rep.work.Nonced? || rep.work.Draining? }

  predicate Enabled(s: State, e: Event) {
    match e
    case CallGet(r, id, _) => r < |s.replicas| && id !in s.ids
    case Enqueue(r, i) => r < |s.replicas| && i < |s.replicas[r].arriving|
    case CallPut(r, id, key, _, _) => r < |s.replicas| && id !in s.ids && key != SyncKey
    case SubmitSync(r, id, nonce) => r < |s.replicas| && id !in s.ids && nonce in s.syncs
    case StartReturns(r, id, _, _) =>
      r < |s.replicas| && id in s.replicas[r].waits && s.replicas[r].waits[id].term.None?
    case Commit(id) => id in s.subs && !InLog(s.log, id)
    case Apply(r, nu) =>
      r < |s.replicas| && s.replicas[r].work.Free? && s.replicas[r].applied < |s.log| && nu !in s.nonces
    case Subtract(r) => r < |s.replicas| && s.replicas[r].work.Nonced?
    case Dequeue(r) =>
      && r < |s.replicas| && s.replicas[r].work.Draining? && s.replicas[r].work.left > 0
      && s.replicas[r].queue != [] && s.replicas[r].queue[0].id in s.replicas[r].chans
    case EndRelease(r) =>
      r < |s.replicas| && s.replicas[r].work.Draining? && s.replicas[r].work.left == 0
          && s.replicas[r].applied < |s.log|
    case Abort(r, _) => r < |s.replicas| && s.replicas[r].work.Free?
    case Finish(r, id, _, _) =>
      && r < |s.replicas| && id in s.replicas[r].waits
      && s.replicas[r].waits[id].term.Some? && s.replicas[r].waits[id].got.Some?
    case LoadLength(r) => r < |s.replicas| && s.replicas[r].pc == Idle && s.replicas[r].queueLen > 0
    case SendSync(r) => r < |s.replicas| && s.replicas[r].pc.Loaded?
    case SyncOk(r) =>
      && r < |s.replicas| && s.replicas[r].pc.Sent?
      && exists i | 0 <= i < |s.log| ::
           s.log[i].Command? && s.log[i].req.Sync? && s.log[i].req.nonce == s.replicas[r].pc.nonce
    case SyncFailed(r, nu) =>
      r < |s.replicas| && s.replicas[r].pc.Sent? && !Working(s.replicas[r]) && nu !in s.nonces
    case SyncSeen(r) =>
      r < |s.replicas| && s.replicas[r].pc.Confirmed? && s.replicas[r].nonce != s.replicas[r].pc.nonce
    case StraySync(_, _, nonce) => nonce !in s.nonces
    case Crash(r, nu) => r < |s.replicas| && nu !in s.nonces
  }

  function Set(s: State, r: nat, rep: Replica): State
    requires r < |s.replicas|
  {
    s.(replicas := s.replicas[r := rep])
  }

  function IdsOf(gets: seq<GetOp>): seq<nat> { seq(|gets|, i requires 0 <= i < |gets| => gets[i].id) }

  // ---------------------------------------------------------------- the events at one replica

  /** Get up to the counter: the channel is registered and the Get counted. */
  function Counted(rep: Replica, id: nat, key: string): Replica {
    rep.(arriving := rep.arriving + [GetOp(id, key, |rep.came|)], queueLen := rep.queueLen + 1,
         chans := rep.chans + {id}, came := rep.came + [id])
  }

  /** One of the counted Gets reaches the queue. */
  function Enqueued(rep: Replica, i: nat): Replica
    requires i < |rep.arriving|
  {
    rep.(arriving := rep.arriving[..i] + rep.arriving[i + 1..], queue := rep.queue + [rep.arriving[i]],
         entered := rep.entered + [rep.arriving[i].id])
  }

  /** The reader hands a reply to the Submit that waits for id, if any; stuck if nobody reads that channel any more. */
  function Posted(rep: Replica, id: nat, r: Result): Replica {
    rep.(waits := Post(rep.waits, id, r), work := if CanPost(rep.waits, id) then Free else Stuck)
  }

  /** DoOp on an entry that answers no Gets: the store moves on, and the reply is posted. */
  function Executed(rep: Replica, id: nat, req: Request): Replica {
    Posted(rep.(applied := rep.applied + 1, store := Execute(rep.store, req)), id, Value(Answer(rep.store, req)))
  }

  /** DoOp on a sync entry for us with our nonce, first part: a new nonce. */
  function Opened(rep: Replica, count: nat, limit: nat, nu: nat): Replica {
    rep.(nonce := nu, work := Nonced(count, limit))
  }

  /** Second part: the length is lowered by what will be dequeued. */
  function Subtracted(rep: Replica): Replica
    requires rep.work.Nonced?
  {
    rep.(queueLen := rep.queueLen - rep.work.count, work := Draining(rep.work.count, rep.work.limit))
  }

  /** One round of the loop: the first Get of the queue is answered from the store. */
  function Dequeued(rep: Replica): Replica
    requires rep.queue != [] && rep.work.Draining? && rep.work.left > 0
  {
    rep.(queue := rep.queue[1..], chans := rep.chans - {rep.queue[0].id}, went := rep.went + [rep.queue[0].id],
         work := Draining(rep.work.left - 1, rep.work.limit))
  }

  /** The end of the sync branch: the reply OK is posted. */
  function Closed(rep: Replica, id: nat): Replica {
    Posted(rep.(applied := rep.applied + 1), id, Value(PutReply(OK)))
  }

  // ---------------------------------------------------------------- all events

  function LimitOf(s: State, nonce: nat): nat { if nonce in s.syncs then s.syncs[nonce].limit else 0 }

  /** The replica after the reader received cmd: it executed it, or entered the sync branch. */
  function Received(s: State, r: nat, rep: Replica, cmd: Command, nu: nat): Replica {
    if !cmd.Command? then rep.(applied := rep.applied + 1)
    else if Releases(rep, r, cmd.req) then Opened(rep, cmd.req.count, LimitOf(s, cmd.req.nonce), nu)
    else Executed(rep, cmd.id, cmd.req)
  }

  function ApplyEntry(s: State, r: nat, cmd: Command, nu: nat): State
    requires r < |s.replicas|
  {
    var rep := s.replicas[r];
    var s' := Set(s, r, Received(s, r, rep, cmd, nu));
    if cmd.Command? && Releases(rep, r, cmd.req)
    then s'.(nonces := s.nonces + {nu}, batches := s.batches[rep.applied := []]) else s'
  }

  function BatchAt(s: State, p: nat): seq<Answered> { if p in s.batches then s.batches[p] else [] }

  function DequeueOne(s: State, r: nat): State
    requires Enabled(s, Dequeue(r))
  {
    var rep := s.replicas[r];
    var g, reply := rep.queue[0], Lookup(rep.store, rep.queue[0].key);
    Set(s, r, Dequeued(rep))
    .(batches := s.batches[rep.applied := BatchAt(s, rep.applied) + [Answered(g.id, g.key, reply)]],
      trace := s.trace + [Return(g.id, KvGet(g.key), OutputOf(reply), |s.log|)])
  }

  /** What a client sees of a Submit's end: a Put answered OK or ErrVersion, or nothing yet. */
  function PutReturn(id: nat, req: Request, result: (Err, Option<Reply>), at: nat): seq<Action> {
    if req.Put? && result.0 == OK && result.1.Some? then [Return(id, InputOf(req), OutputOf(result.1.value), at)]
        else []
  }

  function Tell(s: State, r: nat, id: nat, rep: Replica, result: (Err, Option<Reply>)): State
    requires r < |s.replicas| && id in s.replicas[r].waits
  {
    var w := s.replicas[r].waits[id];
    Set(s, r, rep).(told := s.told + [Told(r, id, w.req, result, rep.applied)],
                    trace := s.trace + PutReturn(id, w.req, result, |s.log|))
  }

  function NoteCall(s: State, id: nat, input: KvInput): State {
    s.(calls := s.calls[id := Called(input, |s.log|)], ids := s.ids + {id},
        trace := s.trace + [Call(id, input, |s.log|)])
  }

  function NoteSubmit(s: State, r: nat, id: nat, req: Request): State
    requires r < |s.replicas|
  {
    Set(s, r, s.replicas[r].(waits := s.replicas[r].waits[id := Wait(req, None, None)]))
    .(subs := s.subs[id := req], ids := s.ids + {id})
  }

  function SyncRequest(s: State, nonce: nat): Request
    requires nonce in s.syncs
  {
    Sync(s.syncs[nonce].server, s.syncs[nonce].count, nonce)
  }

  function Next(s: State, e: Event): State
    requires Enabled(s, e)
  {
    match e
    case CallGet(r, id, key) => NoteCall(Set(s, r, Counted(s.replicas[r], id, key)), id, KvGet(key))
    case Enqueue(r, i) => Set(s, r, Enqueued(s.replicas[r], i))
    case CallPut(r, id, key, value, version) =>
      NoteCall(NoteSubmit(s, r, id, Put(key, value, version)), id, KvPut(key, value, version))
    case SubmitSync(r, id, nonce) => NoteSubmit(s, r, id, SyncRequest(s, nonce))
    case StartReturns(r, id, term, isLeader) =>
      var rep' := s.replicas[r].(waits := Begun(s.replicas[r].waits, id, term, isLeader));
      if isLeader then Set(s, r, rep') else Tell(s, r, id, rep', (ErrWrongLeader, None))
    case Commit(id) => s.(log := s.log + [Command(id, s.subs[id])])
    case Apply(r, nu) => ApplyEntry(s, r, s.log[s.replicas[r].applied], nu)
    case Subtract(r) => Set(s, r, Subtracted(s.replicas[r]))
    case Dequeue(r) => DequeueOne(s, r)
    case EndRelease(r) =>
      var rep := s.replicas[r];
      var cmd := s.log[rep.applied];
      Set(s, r, if cmd.Command? then Closed(rep, cmd.id) else rep)
    case Abort(r, id) => Set(s, r, Posted(s.replicas[r], id, Aborted))
    case Finish(r, id, term, isLeader) =>
      var rep := s.replicas[r];
      Tell(s, r, id, rep.(waits := rep.waits - {id}),
           Conclude(rep.waits[id].got.value, rep.waits[id].term.value, term, isLeader))
    case LoadLength(r) => Set(s, r, s.replicas[r].(pc := Loaded(s.replicas[r].queueLen, |s.replicas[r].came|)))
    case SendSync(r) =>
      var rep := s.replicas[r];
      Set(s, r, rep.(pc := Sent(rep.pc.count, rep.pc.limit, rep.nonce)))
      .(syncs := s.syncs[rep.nonce := SyncInfo(r, rep.pc.count, rep.pc.limit, |s.log|)])
    case SyncOk(r) =>
      var pc := s.replicas[r].pc;
      Set(s, r, s.replicas[r].(pc := Confirmed(pc.count, pc.limit, pc.nonce)))
    case SyncFailed(r, nu) => Set(s, r, s.replicas[r].(pc := Idle, nonce := nu)).(nonces := s.nonces + {nu})
    case SyncSeen(r) => Set(s, r, s.replicas[r].(pc := Idle))
    case StraySync(server, count, nonce) =>
      s.(syncs := s.syncs[nonce := SyncInfo(server, count, 0, |s.log|)], nonces := s.nonces + {nonce})
    case Crash(r, nu) => Set(s, r, Booted(nu)).(nonces := s.nonces + {nu})
  }

  predicate IsRun(nonces: seq<nat>, events: seq<Event>, states: seq<State>) {
    && Distinct(nonces) && |states| == |events| + 1 && states[0] == Init(nonces)
    && forall i | 0 <= i < |events| :: Enabled(states[i], events[i]) && states[i + 1] == Next(states[i], events[i])
  }

  // ---------------------------------------------------------------- the timeliness hypothesis

  /** The length the sync goroutine read last is still out: not yet sent, or sent with the present nonce. */
  predicate Outstanding(rep: Replica) {
    rep.pc.Loaded? || ((rep.pc.Sent? || rep.pc.Confirmed?) && rep.pc.nonce == rep.nonce)
  }

  /** Some Get counted before `limit` has not reached the queue. */
  predicate Missing(rep: Replica, limit: nat) { exists j | 0 <= j < |rep.arriving| :: rep.arriving[j].ticket < limit }

  /** Sending arriving[i] to the queue overtakes a Get that a length read before arriving[i] was counted relies on. */
  predicate Overtakes(rep: Replica, i: nat)
    requires i < |rep.arriving|
  {
    || (Working(rep) && rep.arriving[i].ticket >= rep.work.limit && Missing(rep, rep.work.limit))
    || (Outstanding(rep) && rep.arriving[i].ticket >= rep.pc.limit && Missing(rep, rep.pc.limit))
  }

  /**
   * The timeliness hypothesis: no Get overtakes, on its way to the queue, one that was counted before the
   * queue length was read for a sync still out, if it was counted after that; and the length is not read
   * between the new nonce and the subtraction.
   */
  predicate Timely(s: State, e: Event) {
    && (e.Enqueue? && e.r < |s.replicas| && e.i < |s.replicas[e.r].arriving| ==> !Overtakes(s.replicas[e.r], e.i))
    && !ReadsEarly(s, e)
  }

  /** The length is read between the new nonce and the subtraction. */
  predicate ReadsEarly(s: State, e: Event) {
    e.LoadLength? && e.r < |s.replicas| && s.replicas[e.r].work.Nonced?
  }

  /** The simple sufficient discipline: Gets reach the queue in the order they were counted. */
  predicate FirstCome(s: State, e: Event) { (e.Enqueue? ==> e.i == 0) && !ReadsEarly(s, e) }

  predicate AllTimely(events: seq<Event>, states: seq<State>)
    requires |states| == |events| + 1
  {
    forall i | 0 <= i < |events| :: Timely(states[i], events[i])
  }
}
