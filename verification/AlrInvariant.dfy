/** What every reachable state of the almost-local-reads machine keeps, whatever the interleaving. */
module AlrInvariant {
  import opened Options
  import opened RaftTypes
  import opened KvStore
  import opened KvModel
  import opened Submits
  import opened AlrMachine

  // ---------------------------------------------------------------- requests and the log

  /** What may be submitted under an id: the Put a client called, or a sync that was sent. */
  ghost predicate SubOK(id: nat, req: Request, calls: map<nat, Called>, syncs: map<nat, SyncInfo>) {
    && !req.Get?
    && (req.Put? ==> req.key != SyncKey && id in calls && calls[id].input == InputOf(req))
    && (req.Sync? ==>
          && id !in calls && req.nonce in syncs
          && syncs[req.nonce].server == req.server && syncs[req.nonce].count == req.count)
  }

  ghost predicate SubsOK(s: State) {
    forall id | id in s.subs :: id in s.ids && SubOK(id, s.subs[id], s.calls, s.syncs)
  }

  ghost predicate EntryOK(i: nat, cmd: Command, s: State) {
    && cmd.Command? && cmd.id in s.subs && cmd.req == s.subs[cmd.id]
    && (cmd.req.Put? ==> cmd.id in s.calls && s.calls[cmd.id].at <= i)
    && (cmd.req.Sync? ==> cmd.req.nonce in s.syncs && s.syncs[cmd.req.nonce].floor <= i)
  }

  ghost predicate LogOK(s: State) {
    && (forall i | 0 <= i < |s.log| :: EntryOK(i, s.log[i], s))
    && (forall i, j | 0 <= i < j < |s.log| :: s.log[i].Command? && s.log[j].Command? ==> s.log[i].id != s.log[j].id)
  }

  ghost predicate CallsOK(s: State) {
    forall id | id in s.calls ::
        id in s.ids && s.calls[id].at <= |s.log| && (s.calls[id].input.KvGet? ==> id !in s.subs)
  }

  // ---------------------------------------------------------------- one replica: Gets

  /** A waiting Get was called as such, has its channel, and its ticket is its place among those counted. */
  ghost predicate GetOK(g: GetOp, rep: Replica, calls: map<nat, Called>) {
    && g.id in calls && calls[g.id].input == KvGet(g.key) && g.id in rep.chans
    && g.ticket < |rep.came| && rep.came[g.ticket] == g.id
  }

  /** No Get waits twice, and those on their way are in the order they were counted. */
  ghost predicate PlacesOK(queue: seq<GetOp>, arriving: seq<GetOp>) {
    && (forall i, j | 0 <= i < j < |queue| :: queue[i].id != queue[j].id)
    && (forall i, j | 0 <= i < j < |arriving| ::
          arriving[i].id != arriving[j].id && arriving[i].ticket < arriving[j].ticket)
    && (forall i, j | 0 <= i < |queue| && 0 <= j < |arriving| :: queue[i].id != arriving[j].id)
  }

  function LeftOf(work: Work): nat { if work.Draining? then work.left else 0 }

  ghost predicate GetsOK(rep: Replica, calls: map<nat, Called>) {
    && (forall i | 0 <= i < |rep.queue| :: GetOK(rep.queue[i], rep, calls))
    && (forall i | 0 <= i < |rep.arriving| :: GetOK(rep.arriving[i], rep, calls))
    && PlacesOK(rep.queue, rep.arriving)
    && rep.queueLen == |rep.queue| + |rep.arriving| - LeftOf(rep.work)
    && rep.entered == rep.went + IdsOf(rep.queue)
    && multiset(rep.came) == multiset(rep.entered) + multiset(IdsOf(rep.arriving))
  }

  /** The Gets counted before `limit` that still wait were called when the log had at most n entries. */
  ghost predicate CalledBy(rep: Replica, limit: nat, n: nat, calls: map<nat, Called>) {
    && (forall i | 0 <= i < |rep.queue| && rep.queue[i].ticket < limit ::
          rep.queue[i].id in calls && calls[rep.queue[i].id].at <= n)
    && (forall i | 0 <= i < |rep.arriving| && rep.arriving[i].ticket < limit ::
          rep.arriving[i].id in calls && calls[rep.arriving[i].id].at <= n)
  }

  // ---------------------------------------------------------------- one replica: syncs

  /** The nonce was sent: the sync is ours, the sync goroutine waits for it, and it came after the Gets it counts. */
  ghost predicate LiveSync(rep: Replica, r: nat, info: SyncInfo, calls: map<nat, Called>) {
    && info.server == r && info.count > 0
    && (rep.pc == Sent(info.count, info.limit, rep.nonce) || rep.pc == Confirmed(info.count, info.limit, rep.nonce))
    && CalledBy(rep, info.limit, info.floor, calls)
  }

  ghost predicate SyncsOK(rep: Replica, r: nat, calls: map<nat, Called>, syncs: map<nat, SyncInfo>) {
    && (rep.pc.Idle? || rep.pc.Loaded? ==> rep.nonce !in syncs)
    && (rep.pc.Loaded? ==> rep.pc.count > 0)
    && ((rep.pc.Sent? || rep.pc.Confirmed?) && rep.pc.nonce == rep.nonce ==> rep.nonce in syncs)
    && (rep.nonce in syncs ==> LiveSync(rep, r, syncs[rep.nonce], calls))
    && (Outstanding(rep) ==> rep.pc.limit <= |rep.came|)
  }

  /** The reader in the sync branch: at a sync entry, for Gets called no later than that entry. */
  ghost predicate WorkOK(rep: Replica, log: seq<Command>, calls: map<nat, Called>) {
    && (Working(rep) ==>
          && rep.applied < |log| && log[rep.applied].Command? && log[rep.applied].req.Sync?
          && CalledBy(rep, rep.work.limit, rep.applied, calls) && rep.work.limit <= |rep.came|)
    && (rep.work.Nonced? ==> rep.work.count > 0)
    && (Working(rep) && Outstanding(rep) ==> rep.work.limit <= rep.pc.limit)
  }

  // ---------------------------------------------------------------- one replica: Submits

  predicate EntryAt(log: seq<Command>, p: nat, id: nat, req: Request) { p < |log| && log[p] == Command(id, req) }

  /** reply is what the store says for the entry of id among the first n of the log. */
  ghost predicate AppliedWith(log: seq<Command>, n: nat, id: nat, req: Request, reply: Reply) {
    exists p: nat :: EntryAt(log, p, id, req) && p < n && reply == Answer(StoreAt(log, p), req)
  }

  ghost predicate WaitOK(id: nat, w: Wait, applied: nat, log: seq<Command>, subs: map<nat, Request>) {
    && id in subs && subs[id] == w.req
    && (w.got.Some? && w.got.value.Value? ==> AppliedWith(log, applied, id, w.req, w.got.value.reply))
  }

  ghost predicate WaitsOK(rep: Replica, log: seq<Command>, subs: map<nat, Request>) {
    forall id | id in rep.waits :: WaitOK(id, rep.waits[id], rep.applied, log, subs)
  }

  ghost predicate StoreOK(rep: Replica, log: seq<Command>) {
    rep.applied <= |log| && rep.store == StoreAt(log, rep.applied)
  }

  ghost predicate ReplicaOK(rep: Replica, r: nat, s: State) {
    && StoreOK(rep, s.log) && GetsOK(rep, s.calls) && SyncsOK(rep, r, s.calls, s.syncs)
    && WorkOK(rep, s.log, s.calls) && WaitsOK(rep, s.log, s.subs)
  }

  ghost predicate ReplicasOK(s: State) {
    forall r | 0 <= r < |s.replicas| :: ReplicaOK(s.replicas[r], r, s)
  }

  ghost predicate NoncesOK(s: State) {
    && (forall r | 0 <= r < |s.replicas| :: s.replicas[r].nonce in s.nonces)
    && (forall r, q | 0 <= r < q < |s.replicas| :: s.replicas[r].nonce != s.replicas[q].nonce)
    && (forall v | v in s.syncs :: v in s.nonces && s.syncs[v].floor <= |s.log|)
  }

  // ---------------------------------------------------------------- batches

  ghost predicate AnsweredOK(a: Answered, p: nat, log: seq<Command>, calls: map<nat, Called>)
    requires p <= |log|
  {
    a.id in calls && calls[a.id].input == KvGet(a.key) && a.reply == Lookup(StoreAt(log, p), a.key)
  }

  ghost predicate BatchOK(p: nat, batch: seq<Answered>, log: seq<Command>, calls: map<nat, Called>) {
    && p < |log| && log[p].Command? && log[p].req.Sync?
    && forall j | 0 <= j < |batch| :: AnsweredOK(batch[j], p, log, calls)
  }

  ghost predicate InBatch(s: State, p: nat, j: nat, id: nat) {
    p in s.batches && j < |s.batches[p]| && s.batches[p][j].id == id
  }

  /** The nonce of a sync entry that answered Gets is spent: no replica has it any more. */
  ghost predicate BatchesOK(s: State) {
    && (forall p | p in s.batches ::
          && BatchOK(p, s.batches[p], s.log, s.calls)
          && forall r | 0 <= r < |s.replicas| :: s.replicas[r].nonce != s.log[p].req.nonce)
    && (forall r | 0 <= r < |s.replicas| && Working(s.replicas[r]) :: s.replicas[r].applied in s.batches)
    && (forall p, j, p', j', id | InBatch(s, p, j, id) && InBatch(s, p', j', id) :: p == p' && j == j')
  }

  // ---------------------------------------------------------------- who waits, and what clients saw

  /** A Get waits at one replica only, and not if it is in a batch. */
  ghost predicate ChansOK(s: State) {
    && (forall r, id | 0 <= r < |s.replicas| && id in s.replicas[r].chans ::
          id in s.calls && s.calls[id].input.KvGet? && !Returned(s.trace, id))
    && (forall r, q, id | 0 <= r < q < |s.replicas| && id in s.replicas[r].chans :: id !in s.replicas[q].chans)
    && (forall r, p: nat, j: nat, id | 0 <= r < |s.replicas| && id in s.replicas[r].chans :: !InBatch(s, p, j, id))
  }

  /** A Submit waits at one replica only, and has not returned. */
  ghost predicate SubmitsOK(s: State) {
    && (forall r, id | 0 <= r < |s.replicas| && id in s.replicas[r].waits :: !Returned(s.trace, id))
    && (forall r, q, id | 0 <= r < q < |s.replicas| && id in s.replicas[r].waits :: id !in s.replicas[q].waits)
  }

  /** The operation is placed at p with this output. */
  ghost predicate PlacedAt(s: State, p: nat, id: nat, input: KvInput, output: KvOutput) {
    && p < |s.log| && s.log[p].Command?
    && match input
       case KvGet(key) => exists j: nat :: BatchHas(s, p, j, id, key, output)
       case KvPut(_, _, _) =>
         && s.log[p].id == id && s.log[p].req == PutRequest(input)
         && output == OutputOf(Answer(StoreAt(s.log, p), s.log[p].req))
  }

  ghost predicate BatchHas(s: State, p: nat, j: nat, id: nat, key: string, output: KvOutput) {
    InBatch(s, p, j, id) && s.batches[p][j].key == key && output == OutputOf(s.batches[p][j].reply)
  }

  /** A Return tells the truth about some place in the log as it was. */
  ghost predicate ReturnOK(a: Action, s: State)
    requires a.Return?
  {
    exists p: nat :: p < a.at && PlacedAt(s, p, a.id, a.input, a.output)
  }

  ghost predicate ActionOK(a: Action, s: State) {
    && a.at <= |s.log| && a.id in s.calls && s.calls[a.id].input == a.input
    && (a.Call? ==> s.calls[a.id].at == a.at)
    && (a.Return? ==> ReturnOK(a, s))
  }

  ghost predicate Returned(trace: seq<Action>, id: nat) {
    exists k | 0 <= k < |trace| :: trace[k].Return? && trace[k].id == id
  }

  ghost predicate TraceOK(s: State) {
    && (forall k | 0 <= k < |s.trace| :: ActionOK(s.trace[k], s))
    && (forall k, l | 0 <= k < l < |s.trace| :: s.trace[k].at <= s.trace[l].at)
    && (forall k, l | 0 <= k < l < |s.trace| ::
          s.trace[k].Return? && s.trace[l].Return? ==> s.trace[k].id != s.trace[l].id)
  }

  /** Clients saw every call there is. */
  ghost predicate Heard(s: State) {
    forall id | id in s.calls :: Call(id, s.calls[id].input, s.calls[id].at) in s.trace
  }

  /** The Gets a replica answered were answered in this order. */
  ghost predicate AnsweredInOrder(went: seq<nat>, trace: seq<Action>) {
    && (forall i | 0 <= i < |went| :: Returned(trace, went[i]))
    && (forall i, j, k, l | 0 <= i < j < |went| && 0 <= k < |trace| && 0 <= l < |trace| && trace[k].Return?
          && trace[l].Return?
          && trace[k].id == went[i] && trace[l].id == went[j] :: k < l)
  }

  ghost predicate WentOK(s: State) {
    forall r | 0 <= r < |s.replicas| :: AnsweredInOrder(s.replicas[r].went, s.trace)
  }

  ghost predicate ToldOK(t: Told, s: State) {
    && t.id in s.subs && s.subs[t.id] == t.req
    && (t.result.0 == OK ==> t.result.1.Some? && AppliedWith(s.log, t.applied, t.id, t.req, t.result.1.value))
    && (t.result.0 != OK ==> t.result == (ErrWrongLeader, None))
  }

  ghost predicate TellsOK(s: State) { forall k | 0 <= k < |s.told| :: ToldOK(s.told[k], s) }

  // ---------------------------------------------------------------- the invariant

  ghost predicate RequestsOK(s: State) { LogOK(s) && CallsOK(s) && SubsOK(s) }

  ghost predicate ClientsOK(s: State) {
    ChansOK(s) && SubmitsOK(s) && TraceOK(s) && Heard(s) && WentOK(s) && TellsOK(s)
  }

  ghost predicate Inv(s: State) { RequestsOK(s) && ReplicasOK(s) && NoncesOK(s) && BatchesOK(s) && ClientsOK(s) }

  lemma BootedOK(s: State, r: nat, nu: nat, rep': Replica)
    requires nu !in s.syncs && rep' == Booted(nu)
    ensures ReplicaOK(rep', r, s)
  {
    BootedStore(s.log);
    assert IdsOf([]) == [];
  }

  lemma BootedStore(log: seq<Command>)
    ensures StoreAt(log, 0) == Empty
  {
    assert log[..0] == [] && Requests([]) == [];
  }

  lemma InitEmpty(nonces: seq<nat>, s: State)
    requires Distinct(nonces) && s == Init(nonces)
    ensures RequestsOK(s) && NoncesOK(s) && BatchesOK(s) && ClientsOK(s)
  {
  }

  lemma InitOK(nonces: seq<nat>)
    requires Distinct(nonces)
    ensures Inv(Init(nonces))
  {
    var s := Init(nonces);
    InitEmpty(nonces, s);
    forall r | 0 <= r < |s.replicas| ensures ReplicaOK(s.replicas[r], r, s) {
      BootedOK(s, r, nonces[r], Booted(nonces[r]));
    }
  }
}
