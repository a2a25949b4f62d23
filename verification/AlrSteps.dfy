/** Every event of the almost-local-reads machine keeps its invariant. */
module AlrSteps {
  import opened Options
  import opened RaftTypes
  import opened KvStore
  import opened KvModel
  import opened Submits
  import opened AlrMachine
  import opened AlrInvariant

  // ---------------------------------------------------------------- growth

  lemma StoreAtGrows(log: seq<Command>, log': seq<Command>, i: nat)
    requires log <= log' && i <= |log|
    ensures StoreAt(log', i) == StoreAt(log, i)
  {
    assert log'[..i] == log[..i];
  }

  lemma StoreAtStep(log: seq<Command>, i: nat)
    requires i < |log| && log[i].Command?
    ensures StoreAt(log, i + 1) == Execute(StoreAt(log, i), log[i].req)
  {
    var reqs := Requests(log[..i + 1]);
    assert reqs[..i] == Requests(log[..i]);
    ReplayStep(reqs, i);
    assert reqs[..i + 1] == reqs;
  }

  ghost predicate CallsGrow(calls: map<nat, Called>, calls': map<nat, Called>, ids: set<nat>) {
    && (forall id | id in calls :: id in calls' && calls'[id] == calls[id])
    && (forall id | id in calls' && id !in calls :: id !in ids)
  }

  ghost predicate SubsGrow(subs: map<nat, Request>, subs': map<nat, Request>, ids: set<nat>) {
    && (forall id | id in subs :: id in subs' && subs'[id] == subs[id])
    && (forall id | id in subs' && id !in subs :: id !in ids)
  }

  ghost predicate SyncsGrow(syncs: map<nat, SyncInfo>, syncs': map<nat, SyncInfo>) {
    forall v | v in syncs :: v in syncs' && syncs'[v] == syncs[v]
  }

  /** History is only ever added to; new calls and requests have new ids. */
  ghost predicate Grows(s: State, s': State) {
    && s.log <= s'.log && CallsGrow(s.calls, s'.calls, s.ids) && SubsGrow(s.subs, s'.subs, s.ids)
    && SyncsGrow(s.syncs, s'.syncs)
    && (forall p | p in s.batches :: p in s'.batches && s.batches[p] <= s'.batches[p])
    && s.ids <= s'.ids && s.nonces <= s'.nonces && s.trace <= s'.trace && s.told <= s'.told
  }

  lemma AppliedLater(log: seq<Command>, log': seq<Command>, n: nat, n': nat, id: nat, req: Request, reply: Reply)
    requires AppliedWith(log, n, id, req, reply) && log <= log' && n <= n'
    ensures AppliedWith(log', n', id, req, reply)
  {
    var p: nat :| EntryAt(log, p, id, req) && p < n && reply == Answer(StoreAt(log, p), req);
    StoreAtGrows(log, log', p);
    assert EntryAt(log', p, id, req);
  }

  lemma WaitGrows(id: nat, w: Wait, n: nat, n': nat, s: State, s': State)
    requires WaitOK(id, w, n, s.log, s.subs) && Grows(s, s') && n <= n'
    ensures WaitOK(id, w, n', s'.log, s'.subs)
  {
    if w.got.Some? && w.got.value.Value? { AppliedLater(s.log, s'.log, n, n', id, w.req, w.got.value.reply); }
  }

  lemma ToldGrows(t: Told, s: State, s': State)
    requires ToldOK(t, s) && Grows(s, s')
    ensures ToldOK(t, s')
  {
    if t.result.0 == OK { AppliedLater(s.log, s'.log, t.applied, t.applied, t.id, t.req, t.result.1.value); }
  }

  /** A replica no event touches: the sync requests that appear meanwhile carry other nonces. */
  lemma ReplicaGrows(rep: Replica, r: nat, s: State, s': State)
    requires ReplicaOK(rep, r, s) && Grows(s, s') && (rep.nonce in s'.syncs ==> rep.nonce in s.syncs)
    ensures ReplicaOK(rep, r, s')
  {
    StoreAtGrows(s.log, s'.log, rep.applied);
    forall id | id in rep.waits ensures WaitOK(id, rep.waits[id], rep.applied, s'.log, s'.subs) {
      WaitGrows(id, rep.waits[id], rep.applied, rep.applied, s, s');
    }
  }

  lemma BatchGrows(p: nat, batch: seq<Answered>, s: State, s': State)
    requires BatchOK(p, batch, s.log, s.calls) && Grows(s, s')
    ensures BatchOK(p, batch, s'.log, s'.calls)
  {
    StoreAtGrows(s.log, s'.log, p);
    forall j | 0 <= j < |batch| ensures AnsweredOK(batch[j], p, s'.log, s'.calls) {
      assert AnsweredOK(batch[j], p, s.log, s.calls);
    }
  }

  lemma PlacedGrows(p: nat, id: nat, input: KvInput, output: KvOutput, s: State, s': State)
    requires PlacedAt(s, p, id, input, output) && Grows(s, s')
    ensures PlacedAt(s', p, id, input, output)
  {
    StoreAtGrows(s.log, s'.log, p);
    if input.KvGet? {
      var j: nat :| BatchHas(s, p, j, id, input.key, output);
      assert BatchHas(s', p, j, id, input.key, output);
    }
  }

  lemma ActionGrows(a: Action, s: State, s': State)
    requires ActionOK(a, s) && Grows(s, s')
    ensures ActionOK(a, s')
  {
    if a.Return? {
      var p: nat :| p < a.at && PlacedAt(s, p, a.id, a.input, a.output);
      PlacedGrows(p, a.id, a.input, a.output, s, s');
    }
  }

  // ---------------------------------------------------------------- requests

  lemma LogKept(s: State, s': State)
    requires LogOK(s) && Grows(s, s') && s'.log == s.log
    ensures LogOK(s')
  {
    forall i | 0 <= i < |s.log| ensures EntryOK(i, s.log[i], s') { assert EntryOK(i, s.log[i], s); }
  }

  lemma RequestsKept(s: State, s': State)
    requires RequestsOK(s) && Grows(s, s') && s'.log == s.log && s'.calls == s.calls && s'.subs == s.subs
    ensures RequestsOK(s')
  {
    LogKept(s, s');
    forall id | id in s'.subs ensures id in s'.ids && SubOK(id, s'.subs[id], s'.calls, s'.syncs) {
      assert SubOK(id, s.subs[id], s.calls, s.syncs);
    }
  }

  // ---------------------------------------------------------------- batches

  /** Batches stay as they are and no replica gets back a spent nonce. */
  lemma BatchesKept(s: State, s': State)
    requires BatchesOK(s) && LogOK(s) && NoncesOK(s) && Grows(s, s') && s'.batches == s.batches
    requires |s'.replicas| == |s.replicas|
    requires forall r | 0 <= r < |s.replicas| ::
             s'.replicas[r].nonce == s.replicas[r].nonce || s'.replicas[r].nonce !in s.nonces
    requires forall r | 0 <= r < |s.replicas| && Working(s'.replicas[r]) ::
               Working(s.replicas[r]) && s'.replicas[r].applied == s.replicas[r].applied
    ensures BatchesOK(s')
  {
    forall p | p in s'.batches
      ensures BatchOK(p, s'.batches[p], s'.log, s'.calls)
              && forall r | 0 <= r < |s'.replicas| :: s'.replicas[r].nonce != s'.log[p].req.nonce
    {
      BatchGrows(p, s.batches[p], s, s');
      assert EntryOK(p, s.log[p], s);
    }
    forall p: nat, j: nat, id | InBatch(s', p, j, id) ensures InBatch(s, p, j, id) {}
  }

  // ---------------------------------------------------------------- clients

  lemma TraceKept(s: State, s': State)
    requires TraceOK(s) && Grows(s, s') && s'.trace == s.trace
    ensures TraceOK(s')
  {
    forall k | 0 <= k < |s.trace| ensures ActionOK(s'.trace[k], s') { ActionGrows(s.trace[k], s, s'); }
  }

  lemma TellsKept(s: State, s': State)
    requires TellsOK(s) && Grows(s, s') && s'.told == s.told
    ensures TellsOK(s')
  {
    forall k | 0 <= k < |s.told| ensures ToldOK(s'.told[k], s') { ToldGrows(s.told[k], s, s'); }
  }

  lemma ClientsKept(s: State, s': State)
    requires ClientsOK(s) && Grows(s, s') && s'.calls == s.calls && s'.batches == s.batches && s'.trace == s.trace
             && s'.told == s.told
    requires |s'.replicas| == |s.replicas|
    requires forall q | 0 <= q < |s.replicas| ::
               && s'.replicas[q].chans <= s.replicas[q].chans && s'.replicas[q].waits.Keys <= s.replicas[q].waits.Keys
               && (s'.replicas[q].went == s.replicas[q].went || s'.replicas[q].went == [])
    ensures ClientsOK(s')
  {
    TraceKept(s, s');
    TellsKept(s, s');
    forall p: nat, j: nat, id | InBatch(s', p, j, id) ensures InBatch(s, p, j, id) {}
    forall q, id | 0 <= q < |s.replicas| && id in s'.replicas[q].waits ensures id in s.replicas[q].waits {
      assert id in s'.replicas[q].waits.Keys;
    }
  }

  // ---------------------------------------------------------------- events that change one replica only

  /** What changes at replica r and nowhere else, apart from new nonces and sync requests. */
  ghost predicate Local(s: State, r: nat, rep: Replica, rep': Replica, s': State) {
    && r < |s.replicas| && rep == s.replicas[r] && s'.replicas == s.replicas[r := rep']
    && s'.log == s.log && s'.calls == s.calls && s'.subs == s.subs && s'.ids == s.ids && s'.batches == s.batches
    && s'.trace == s.trace && s'.told == s.told && s.nonces <= s'.nonces && SyncsGrow(s.syncs, s'.syncs)
    && rep'.chans <= rep.chans && rep'.waits.Keys <= rep.waits.Keys && (rep'.went == rep.went || rep'.went == [])
    && (Working(rep') ==> Working(rep) && rep'.applied == rep.applied)
    && (rep'.nonce == rep.nonce || rep'.nonce !in s.nonces) && rep'.nonce in s'.nonces
    && (forall v | v in s'.syncs && v !in s.syncs :: v == rep.nonce && s'.syncs[v].floor <= |s.log|)
  }

  lemma LocalGrows(s: State, r: nat, rep: Replica, rep': Replica, s': State)
    requires Local(s, r, rep, rep', s')
    ensures Grows(s, s') && |s'.replicas| == |s.replicas|
    ensures forall q | 0 <= q < |s.replicas| ::
              && (s'.replicas[q].nonce == s.replicas[q].nonce || s'.replicas[q].nonce !in s.nonces)
              && (Working(s'.replicas[q]) ==> Working(s.replicas[q]) && s'.replicas[q].applied == s.replicas[q].applied)
    ensures forall q | 0 <= q < |s.replicas| ::
              && s'.replicas[q].chans <= s.replicas[q].chans && s'.replicas[q].waits.Keys <= s.replicas[q].waits.Keys
              && (s'.replicas[q].went == s.replicas[q].went || s'.replicas[q].went == [])
  {
  }

  lemma LocalNonces(s: State, r: nat, rep: Replica, rep': Replica, s': State)
    requires NoncesOK(s) && Grows(s, s') && Local(s, r, rep, rep', s')
    ensures NoncesOK(s')
  {
  }

  lemma LocalReplicas(s: State, r: nat, rep: Replica, rep': Replica, s': State)
    requires ReplicasOK(s) && NoncesOK(s) && Grows(s, s') && Local(s, r, rep, rep', s') && ReplicaOK(rep', r, s')
    ensures ReplicasOK(s') && NoncesOK(s')
  {
    LocalNonces(s, r, rep, rep', s');
    forall q | 0 <= q < |s'.replicas| ensures ReplicaOK(s'.replicas[q], q, s') {
      if q != r {
        assert s.replicas[q].nonce != rep.nonce;
        ReplicaGrows(s.replicas[q], q, s, s');
      }
    }
  }

  lemma LocalRest(s: State, r: nat, rep: Replica, rep': Replica, s': State)
    requires RequestsOK(s) && NoncesOK(s) && BatchesOK(s) && ClientsOK(s) && Local(s, r, rep, rep', s')
    ensures Grows(s, s') && RequestsOK(s') && BatchesOK(s') && ClientsOK(s')
  {
    LocalGrows(s, r, rep, rep', s');
    assert RequestsOK(s') by { RequestsKept(s, s'); }
    assert BatchesOK(s') by { BatchesKept(s, s'); }
    assert ClientsOK(s') by { ClientsKept(s, s'); }
  }

  lemma LocalKeeps(s: State, r: nat, rep: Replica, rep': Replica, s': State)
    requires Inv(s) && Local(s, r, rep, rep', s') && ReplicaOK(rep', r, s')
    ensures Grows(s, s') && Inv(s')
  {
    LocalRest(s, r, rep, rep', s');
    LocalReplicas(s, r, rep, rep', s');
  }

  /** The common case: only the replica itself changes, and it keeps its nonce. */
  ghost predicate Quiet(rep: Replica, rep': Replica) {
    && rep'.nonce == rep.nonce && rep'.chans <= rep.chans && rep'.waits.Keys <= rep.waits.Keys && rep'.went == rep.went
    && (Working(rep') ==> Working(rep) && rep'.applied == rep.applied)
  }

  lemma SetKeeps(s: State, r: nat, rep: Replica, rep': Replica, s': State)
    requires Inv(s) && r < |s.replicas| && rep == s.replicas[r] && s' == Set(s, r, rep') && Quiet(rep, rep')
             && ReplicaOK(rep', r, s)
    ensures Grows(s, s') && Inv(s')
  {
    StillOK(rep', r, s, s');
    assert rep.nonce in s.nonces;
    LocalKeeps(s, r, rep, rep', s');
  }

  lemma StillOK(rep: Replica, r: nat, s: State, s': State)
    requires ReplicaOK(rep, r, s) && s'.log == s.log && s'.calls == s.calls && s'.syncs == s.syncs && s'.subs == s.subs
    ensures ReplicaOK(rep, r, s')
  {
  }

  // ---------------------------------------------------------------- reaching the queue

  lemma IdsSplit(a: seq<GetOp>, i: nat)
    requires i < |a|
    ensures IdsOf(a) == IdsOf(a[..i]) + [a[i].id] + IdsOf(a[i + 1..])
    ensures IdsOf(a[..i] + a[i + 1..]) == IdsOf(a[..i]) + IdsOf(a[i + 1..])
  {
  }

  lemma EnqueuedPlaces(queue: seq<GetOp>, arriving: seq<GetOp>, i: nat, queue': seq<GetOp>, arriving': seq<GetOp>)
    requires PlacesOK(queue, arriving) && i < |arriving|
    requires queue' == queue + [arriving[i]] && arriving' == arriving[..i] + arriving[i + 1..]
    ensures PlacesOK(queue', arriving')
  {
    forall j | 0 <= j < |arriving'| ensures arriving'[j] == arriving[if j < i then j else j + 1] {}
  }

  lemma EnqueuedGets(rep: Replica, i: nat, rep': Replica, calls: map<nat, Called>)
    requires GetsOK(rep, calls) && i < |rep.arriving| && rep' == Enqueued(rep, i)
    ensures GetsOK(rep', calls)
  {
    EnqueuedPlaces(rep.queue, rep.arriving, i, rep'.queue, rep'.arriving);
    IdsSplit(rep.arriving, i);
    assert IdsOf(rep'.queue) == IdsOf(rep.queue) + [rep.arriving[i].id];
    forall j | 0 <= j < |rep'.arriving| ensures GetOK(rep'.arriving[j], rep', calls) {
      assert GetOK(rep.arriving[if j < i then j else j + 1], rep, calls);
    }
  }

  lemma EnqueuedCalledBy(rep: Replica, i: nat, rep': Replica, limit: nat, n: nat, calls: map<nat, Called>)
    requires CalledBy(rep, limit, n, calls) && i < |rep.arriving| && rep' == Enqueued(rep, i)
    ensures CalledBy(rep', limit, n, calls)
  {
    forall j | 0 <= j < |rep'.arriving| ensures rep'.arriving[j] == rep.arriving[if j < i then j else j + 1] {}
  }

  lemma EnqueuedOK(s: State, r: nat, rep: Replica, i: nat, rep': Replica)
    requires ReplicaOK(rep, r, s) && i < |rep.arriving| && rep' == Enqueued(rep, i)
    ensures ReplicaOK(rep', r, s) && Quiet(rep, rep')
  {
    EnqueuedGets(rep, i, rep', s.calls);
    if rep.nonce in s.syncs {
      EnqueuedCalledBy(rep, i, rep', s.syncs[rep.nonce].limit, s.syncs[rep.nonce].floor, s.calls);
      assert LiveSync(rep', r, s.syncs[rep.nonce], s.calls);
    }
    if Working(rep) { EnqueuedCalledBy(rep, i, rep', rep.work.limit, rep.applied, s.calls); }
  }

  // ---------------------------------------------------------------- the sync goroutine, crashing

  lemma LoadedOK(s: State, r: nat, rep: Replica, rep': Replica)
    requires ReplicaOK(rep, r, s) && rep.pc.Idle? && rep.queueLen > 0
             && rep' == rep.(pc := Loaded(rep.queueLen, |rep.came|))
    ensures ReplicaOK(rep', r, s) && Quiet(rep, rep')
  {
  }

  lemma ConfirmedOK(s: State, r: nat, rep: Replica, rep': Replica)
    requires ReplicaOK(rep, r, s) && rep.pc.Sent?
             && rep' == rep.(pc := Confirmed(rep.pc.count, rep.pc.limit, rep.pc.nonce))
    ensures ReplicaOK(rep', r, s) && Quiet(rep, rep')
  {
    if rep.nonce in s.syncs { assert LiveSync(rep', r, s.syncs[rep.nonce], s.calls); }
  }

  lemma SeenOK(s: State, r: nat, rep: Replica, rep': Replica)
    requires ReplicaOK(rep, r, s) && rep.pc.Confirmed? && rep.nonce != rep.pc.nonce && rep' == rep.(pc := Idle)
    ensures ReplicaOK(rep', r, s) && Quiet(rep, rep')
  {
  }

  lemma AllCalledBy(rep: Replica, limit: nat, s: State)
    requires GetsOK(rep, s.calls) && CallsOK(s)
    ensures CalledBy(rep, limit, |s.log|, s.calls)
  {
    forall i | 0 <= i < |rep.queue| ensures rep.queue[i].id in s.calls { assert GetOK(rep.queue[i], rep, s.calls); }
    forall i | 0 <= i < |rep.arriving|
      ensures rep.arriving[i].id in s.calls
    {
      assert GetOK(rep.arriving[i], rep, s.calls);
    }
  }

  lemma SentOK(s: State, r: nat, rep: Replica, rep': Replica, s': State)
    requires ReplicaOK(rep, r, s) && CallsOK(s) && rep.pc.Loaded?
             && rep' == rep.(pc := Sent(rep.pc.count, rep.pc.limit, rep.nonce))
    requires s'.log == s.log && s'.calls == s.calls && s'.subs == s.subs
    requires s'.syncs == s.syncs[rep.nonce := SyncInfo(r, rep.pc.count, rep.pc.limit, |s.log|)]
    ensures ReplicaOK(rep', r, s')
  {
    AllCalledBy(rep, rep.pc.limit, s);
    assert LiveSync(rep', r, s'.syncs[rep.nonce], s'.calls);
  }

  lemma SendSyncKeeps(s: State, r: nat, rep: Replica, rep': Replica, s': State)
    requires Inv(s) && r < |s.replicas| && rep == s.replicas[r] && rep.pc.Loaded?
    requires rep' == rep.(pc := Sent(rep.pc.count, rep.pc.limit, rep.nonce))
    requires s' == Set(s, r, rep').(syncs := s.syncs[rep.nonce := SyncInfo(r, rep.pc.count, rep.pc.limit, |s.log|)])
    ensures Grows(s, s') && Inv(s')
  {
    assert ReplicaOK(rep, r, s) && rep.nonce !in s.syncs && rep.nonce in s.nonces;
    SentOK(s, r, rep, rep', s');
    LocalKeeps(s, r, rep, rep', s');
  }

  lemma FailedOK(s: State, r: nat, nu: nat, rep: Replica, rep': Replica)
    requires ReplicaOK(rep, r, s) && nu !in s.syncs && rep' == rep.(pc := Idle, nonce := nu)
    ensures ReplicaOK(rep', r, s)
  {
  }

  /** A replica that drew a new nonce. */
  lemma RenewKeeps(s: State, r: nat, nu: nat, rep: Replica, rep': Replica, s': State)
    requires Inv(s) && r < |s.replicas| && rep == s.replicas[r] && nu !in s.nonces && rep'.nonce == nu
             && ReplicaOK(rep', r, s)
    requires rep'.chans <= rep.chans && rep'.waits.Keys <= rep.waits.Keys && (rep'.went == rep.went || rep'.went == [])
    requires Working(rep') ==> Working(rep) && rep'.applied == rep.applied
    requires s' == Set(s, r, rep').(nonces := s.nonces + {nu})
    ensures Grows(s, s') && Inv(s')
  {
    StillOK(rep', r, s, s');
    LocalKeeps(s, r, rep, rep', s');
  }

  // ---------------------------------------------------------------- the reader and Submit

  lemma PostedWaits(rep: Replica, id: nat, res: Result, rep': Replica, log: seq<Command>, subs: map<nat, Request>)
    requires WaitsOK(rep, log, subs) && rep' == Posted(rep, id, res)
    requires res.Value? && id in rep.waits ==> id in subs && AppliedWith(log, rep.applied, id, subs[id], res.reply)
    ensures WaitsOK(rep', log, subs) && rep'.waits.Keys == rep.waits.Keys
  {
    forall x | x in rep'.waits ensures WaitOK(x, rep'.waits[x], rep'.applied, log, subs) {
      assert WaitOK(x, rep.waits[x], rep.applied, log, subs);
    }
  }

  lemma AbortedOK(s: State, r: nat, id: nat, rep: Replica, rep': Replica)
    requires ReplicaOK(rep, r, s) && rep.work.Free? && rep' == Posted(rep, id, Aborted)
    ensures ReplicaOK(rep', r, s) && Quiet(rep, rep')
  {
    PostedWaits(rep, id, Aborted, rep', s.log, s.subs);
    if rep.nonce in s.syncs { assert LiveSync(rep', r, s.syncs[rep.nonce], s.calls); }
  }

  /** Waits whose replica moved on by one entry. */
  lemma WaitsMoveOn(rep: Replica, rep': Replica, log: seq<Command>, subs: map<nat, Request>)
    requires WaitsOK(rep, log, subs) && rep'.waits == rep.waits && rep'.applied == rep.applied + 1
    ensures WaitsOK(rep', log, subs)
  {
    forall x | x in rep.waits ensures WaitOK(x, rep.waits[x], rep'.applied, log, subs) {
      assert WaitOK(x, rep.waits[x], rep.applied, log, subs);
      if rep.waits[x].got.Some? && rep.waits[x].got.value.Value? {
        AppliedLater(log, log, rep.applied, rep'.applied, x, rep.waits[x].req, rep.waits[x].got.value.reply);
      }
    }
  }

  /** The replica after the entry at its index: the reply given is the one of that place. */
  lemma MovedOn(s: State, r: nat, rep: Replica, cmd: Command, reply: Reply, mid: Replica, rep': Replica)
    requires ReplicaOK(rep, r, s) && rep.applied < |s.log| && cmd == s.log[rep.applied] && EntryOK(rep.applied, cmd, s)
    requires reply == Answer(rep.store, cmd.req) && LeftOf(rep.work) == 0
    requires mid == rep.(applied := rep.applied + 1, store := Execute(rep.store, cmd.req))
             && rep' == Posted(mid, cmd.id, Value(reply))
    ensures ReplicaOK(rep', r, s) && Quiet(rep, rep')
  {
    StoreAtStep(s.log, rep.applied);
    WaitsMoveOn(rep, mid, s.log, s.subs);
    assert EntryAt(s.log, rep.applied, cmd.id, cmd.req);
    PostedWaits(mid, cmd.id, Value(reply), rep', s.log, s.subs);
    if rep.nonce in s.syncs { assert LiveSync(rep', r, s.syncs[rep.nonce], s.calls); }
  }

  lemma ExecuteKeeps(s: State, r: nat, rep: Replica, cmd: Command, rep': Replica, s': State)
    requires Inv(s) && r < |s.replicas| && rep == s.replicas[r] && rep.work.Free? && rep.applied < |s.log|
             && cmd == s.log[rep.applied]
    requires cmd.Command? && rep' == Executed(rep, cmd.id, cmd.req) && s' == Set(s, r, rep')
    ensures Grows(s, s') && Inv(s')
  {
    assert ReplicaOK(rep, r, s) && EntryOK(rep.applied, cmd, s);
    MovedOn(s, r, rep, cmd, Answer(rep.store, cmd.req),
        rep.(applied := rep.applied + 1, store := Execute(rep.store, cmd.req)), rep');
    SetKeeps(s, r, rep, rep', s');
  }

  lemma CloseKeeps(s: State, r: nat, rep: Replica, cmd: Command, rep': Replica, s': State)
    requires Inv(s) && r < |s.replicas| && rep == s.replicas[r] && rep.work.Draining? && rep.work.left == 0
             && rep.applied < |s.log|
    requires cmd == s.log[rep.applied] && cmd.Command? && rep' == Closed(rep, cmd.id) && s' == Set(s, r, rep')
    ensures Grows(s, s') && Inv(s')
  {
    assert ReplicaOK(rep, r, s) && EntryOK(rep.applied, cmd, s);
    assert cmd.req.Sync?;
    MovedOn(s, r, rep, cmd, PutReply(OK), rep.(applied := rep.applied + 1), rep');
    SetKeeps(s, r, rep, rep', s');
  }

  lemma SubtractedOK(s: State, r: nat, rep: Replica, rep': Replica)
    requires ReplicaOK(rep, r, s) && rep.work.Nonced? && rep' == Subtracted(rep)
    ensures ReplicaOK(rep', r, s) && Quiet(rep, rep')
  {
    if rep.nonce in s.syncs { assert LiveSync(rep', r, s.syncs[rep.nonce], s.calls); }
  }

  lemma BegunOK(s: State, r: nat, id: nat, term: nat, isLeader: bool, rep: Replica, rep': Replica)
    requires ReplicaOK(rep, r, s) && id in rep.waits && rep' == rep.(waits := Begun(rep.waits, id, term, isLeader))
    ensures ReplicaOK(rep', r, s) && Quiet(rep, rep')
  {
    forall x | x in rep'.waits ensures WaitOK(x, rep'.waits[x], rep'.applied, s.log, s.subs) {
      assert WaitOK(x, rep.waits[x], rep.applied, s.log, s.subs);
    }
    if rep.nonce in s.syncs { assert LiveSync(rep', r, s.syncs[rep.nonce], s.calls); }
  }

  // ---------------------------------------------------------------- new requests

  ghost predicate NewCalls(s: State, s': State) {
    forall id | id in s'.calls && id !in s.calls ::
      id in s'.ids && s'.calls[id].at <= |s'.log| && (s'.calls[id].input.KvGet? ==> id !in s'.subs)
  }

  ghost predicate NewSubs(s: State, s': State) {
    forall id | id in s'.subs && id !in s.subs :: id in s'.ids && SubOK(id, s'.subs[id], s'.calls, s'.syncs)
  }

  lemma RequestsGrow(s: State, s': State)
    requires RequestsOK(s) && Grows(s, s') && s'.log == s.log && NewCalls(s, s') && NewSubs(s, s')
    ensures RequestsOK(s')
  {
    LogKept(s, s');
    forall id | id in s'.subs ensures id in s'.ids && SubOK(id, s'.subs[id], s'.calls, s'.syncs) {
      if id in s.subs { assert id in s.ids && SubOK(id, s.subs[id], s.calls, s.syncs); }
    }
    forall id | id in s'.calls
      ensures id in s'.ids && s'.calls[id].at <= |s'.log| && (s'.calls[id].input.KvGet? ==> id !in s'.subs)
    {
    }
  }

  /** All replicas stay fine when history grows and only replica r changes. */
  lemma ReplicasGrow(s: State, r: nat, rep': Replica, s': State)
    requires ReplicasOK(s) && NoncesOK(s) && Grows(s, s') && r < |s.replicas|
             && s'.replicas == s.replicas[r := rep'] && ReplicaOK(rep', r, s')
    requires s'.syncs == s.syncs && (rep'.nonce == s.replicas[r].nonce
             || (rep'.nonce !in s.nonces && rep'.nonce in s'.nonces))
    ensures ReplicasOK(s') && NoncesOK(s')
  {
    forall q | 0 <= q < |s'.replicas| ensures ReplicaOK(s'.replicas[q], q, s') {
      if q != r { ReplicaGrows(s.replicas[q], q, s, s'); }
    }
  }

  // ---------------------------------------------------------------- one more action

  lemma ReturnedOne(trace: seq<Action>, a: Action, id: nat)
    ensures Returned(trace + [a], id) <==> Returned(trace, id) || (a.Return? && a.id == id)
  {
    var t' := trace + [a];
    if Returned(trace, id) {
      var k :| 0 <= k < |trace| && trace[k].Return? && trace[k].id == id;
      assert t'[k] == trace[k];
    }
    if a.Return? && a.id == id { assert t'[|trace|] == a; }
    if Returned(t', id) {
      var k :| 0 <= k < |t'| && t'[k].Return? && t'[k].id == id;
      if k < |trace| { assert trace[k] == t'[k]; }
    }
  }

  /** An id that was never called has not been returned. */
  lemma UncalledUnreturned(s: State, id: nat)
    requires TraceOK(s) && id !in s.calls
    ensures !Returned(s.trace, id)
  {
    assert forall k | 0 <= k < |s.trace| :: ActionOK(s.trace[k], s);
  }

  lemma OrderedOne(s: State, a: Action, t': seq<Action>, k: nat, l: nat)
    requires TraceOK(s) && t' == s.trace + [a] && a.at >= |s.log| && (a.Return? ==> !Returned(s.trace, a.id))
             && k < l < |t'|
    ensures t'[k].at <= t'[l].at && (t'[k].Return? && t'[l].Return? ==> t'[k].id != t'[l].id)
  {
    assert t'[k] == s.trace[k];
    if l < |s.trace| { assert t'[l] == s.trace[l]; } else { assert ActionOK(s.trace[k], s); }
  }

  lemma TraceOne(s: State, s': State, a: Action)
    requires TraceOK(s) && Grows(s, s') && s'.trace == s.trace + [a] && ActionOK(a, s') && a.at >= |s.log|
    requires a.Return? ==> !Returned(s.trace, a.id)
    ensures TraceOK(s')
  {
    forall k | 0 <= k < |s'.trace| ensures ActionOK(s'.trace[k], s') {
      if k < |s.trace| { assert s'.trace[k] == s.trace[k]; ActionGrows(s.trace[k], s, s'); }
    }
    forall k, l | 0 <= k < l < |s'.trace|
      ensures s'.trace[k].at <= s'.trace[l].at
              && (s'.trace[k].Return? && s'.trace[l].Return? ==> s'.trace[k].id != s'.trace[l].id)
    {
      OrderedOne(s, a, s'.trace, k, l);
    }
  }

  lemma OrderKept(went: seq<nat>, trace: seq<Action>, a: Action)
    requires AnsweredInOrder(went, trace) && (a.Return? ==> !Returned(trace, a.id))
    ensures AnsweredInOrder(went, trace + [a])
  {
    var t' := trace + [a];
    forall i | 0 <= i < |went| ensures Returned(t', went[i]) { ReturnedOne(trace, a, went[i]); }
    forall i, j, k, l | 0 <= i < j < |went| && 0 <= k < |t'| && 0 <= l < |t'| && t'[k].Return? && t'[l].Return?
                        && t'[k].id == went[i] && t'[l].id == went[j]
      ensures k < l
    {
      assert k < |trace| && t'[k] == trace[k] by { assert Returned(trace, went[i]); }
      assert l < |trace| && t'[l] == trace[l] by { assert Returned(trace, went[j]); }
    }
  }

  lemma OrderExtended(went: seq<nat>, trace: seq<Action>, a: Action)
    requires AnsweredInOrder(went, trace) && a.Return? && !Returned(trace, a.id)
    ensures AnsweredInOrder(went + [a.id], trace + [a])
  {
    OrderKept(went, trace, a);
    var t', w' := trace + [a], went + [a.id];
    assert Returned(t', a.id) by { ReturnedOne(trace, a, a.id); }
    forall i | 0 <= i < |w'| ensures Returned(t', w'[i]) { if i < |went| { assert w'[i] == went[i]; } }
    forall i, j, k, l | 0 <= i < j < |w'| && 0 <= k < |t'| && 0 <= l < |t'| && t'[k].Return? && t'[l].Return?
                        && t'[k].id == w'[i] && t'[l].id == w'[j]
      ensures k < l
    {
      assert w'[i] == went[i] && Returned(trace, went[i]);
      if j < |went| {
        assert w'[j] == went[j];
      } else {
        assert k < |trace|;
      }
    }
  }

  lemma WentKept(s: State, s': State, a: Action)
    requires WentOK(s) && s'.trace == s.trace + [a] && (a.Return? ==> !Returned(s.trace, a.id))
             && |s'.replicas| == |s.replicas|
    requires forall q | 0 <= q < |s.replicas| :: s'.replicas[q].went == s.replicas[q].went
    ensures WentOK(s')
  {
    forall q | 0 <= q < |s.replicas| ensures AnsweredInOrder(s'.replicas[q].went, s'.trace) {
      OrderKept(s.replicas[q].went, s.trace, a);
    }
  }

  lemma HeardGrows(s: State, s': State)
    requires Heard(s) && Grows(s, s')
    requires forall id | id in s'.calls && id !in s.calls :: Call(id, s'.calls[id].input, s'.calls[id].at) in s'.trace
    ensures Heard(s')
  {
    forall id | id in s'.calls ensures Call(id, s'.calls[id].input, s'.calls[id].at) in s'.trace {
      if id in s.calls { assert Call(id, s.calls[id].input, s.calls[id].at) in s.trace; }
    }
  }

  // ---------------------------------------------------------------- calling a Get

  /** What a call adds besides its effect on the replica called. */
  ghost predicate Calls(s: State, s': State, r: nat, rep': Replica, id: nat, input: KvInput) {
    && id !in s.ids && r < |s.replicas| && s'.replicas == s.replicas[r := rep']
    && s'.log == s.log && s'.syncs == s.syncs && s'.nonces == s.nonces && s'.batches == s.batches && s'.told == s.told
    && s'.calls == s.calls[id := Called(input, |s.log|)] && s'.ids == s.ids + {id}
    && s'.trace == s.trace + [Call(id, input, |s.log|)] && rep'.nonce == s.replicas[r].nonce
    && rep'.went == s.replicas[r].went
    && (Working(rep') ==> Working(s.replicas[r]) && rep'.applied == s.replicas[r].applied)
  }

  lemma CallsGrows(s: State, s': State, r: nat, rep': Replica, id: nat, input: KvInput)
    requires RequestsOK(s) && Calls(s, s', r, rep', id, input) && SubsGrow(s.subs, s'.subs, s.ids)
    ensures Grows(s, s') && id !in s.calls && id !in s.subs
  {
  }

  /** Who hears of a call: the trace, and nothing else clients know changes. */
  lemma CallHeard(s: State, s': State, r: nat, rep': Replica, id: nat, input: KvInput)
    requires LogOK(s) && NoncesOK(s) && BatchesOK(s) && TraceOK(s) && Heard(s) && WentOK(s) && TellsOK(s)
    requires Grows(s, s') && Calls(s, s', r, rep', id, input) && id !in s.calls
    ensures TraceOK(s') && Heard(s') && WentOK(s') && TellsOK(s') && BatchesOK(s')
    ensures !Returned(s.trace, id) && forall x :: Returned(s'.trace, x) == Returned(s.trace, x)
  {
    var a := Call(id, input, |s.log|);
    TraceOne(s, s', a);
    assert s'.trace[|s.trace|] == a;
    HeardGrows(s, s');
    WentKept(s, s', a);
    TellsKept(s, s');
    BatchesKept(s, s');
    UncalledUnreturned(s, id);
    forall x ensures Returned(s'.trace, x) == Returned(s.trace, x) { ReturnedOne(s.trace, a, x); }
  }

  lemma CountedPlaces(queue: seq<GetOp>, arriving: seq<GetOp>, g: GetOp)
    requires PlacesOK(queue, arriving)
    requires forall i | 0 <= i < |queue| :: queue[i].id != g.id
    requires forall i | 0 <= i < |arriving| :: arriving[i].id != g.id && arriving[i].ticket < g.ticket
    ensures PlacesOK(queue, arriving + [g])
  {
  }

  lemma CountedLists(rep: Replica, id: nat, key: string, rep': Replica)
    requires rep' == Counted(rep, id, key)
    requires multiset(rep.came) == multiset(rep.entered) + multiset(IdsOf(rep.arriving))
    ensures multiset(rep'.came) == multiset(rep'.entered) + multiset(IdsOf(rep'.arriving))
  {
    assert IdsOf(rep'.arriving) == IdsOf(rep.arriving) + [id];
  }

  lemma CountedWait(
      rep: Replica, id: nat, key: string, rep': Replica, calls: map<nat, Called>, calls': map<nat, Called>,
      ids: set<nat>, g: GetOp)
    requires GetOK(g, rep, calls) && rep' == Counted(rep, id, key) && id !in calls && CallsGrow(calls, calls', ids)
    ensures GetOK(g, rep', calls') && g.id != id && g.ticket < |rep.came|
  {
  }

  lemma CountedGets(
      rep: Replica, id: nat, key: string, rep': Replica, calls: map<nat, Called>, calls': map<nat, Called>,
      ids: set<nat>)
    requires GetsOK(rep, calls) && rep' == Counted(rep, id, key) && id !in calls && CallsGrow(calls, calls', ids)
    requires id in calls' && calls'[id].input == KvGet(key)
    ensures GetsOK(rep', calls')
  {
    var g := GetOp(id, key, |rep.came|);
    forall i | 0 <= i < |rep.queue|
      ensures GetOK(rep.queue[i], rep', calls') && rep.queue[i].id != id
    {
      CountedWait(rep, id, key, rep', calls, calls', ids, rep.queue[i]);
    }
    forall i | 0 <= i < |rep.arriving|
      ensures GetOK(rep.arriving[i], rep', calls') && rep.arriving[i].id != id && rep.arriving[i].ticket < g.ticket
    {
      CountedWait(rep, id, key, rep', calls, calls', ids, rep.arriving[i]);
    }
    assert PlacesOK(rep'.queue, rep'.arriving) by { CountedPlaces(rep.queue, rep.arriving, g); }
    CountedLists(rep, id, key, rep');
  }

  lemma CountedCalledBy(rep: Replica, id: nat, key: string, rep': Replica, limit: nat, n: nat,
      calls: map<nat, Called>, calls': map<nat, Called>, ids: set<nat>)
    requires CalledBy(rep, limit, n, calls) && rep' == Counted(rep, id, key) && limit <= |rep.came|
             && CallsGrow(calls, calls', ids)
    ensures CalledBy(rep', limit, n, calls')
  {
  }

  lemma CountedOK(s: State, r: nat, rep: Replica, id: nat, key: string, rep': Replica, s': State)
    requires ReplicaOK(rep, r, s) && Grows(s, s') && s'.syncs == s.syncs && rep' == Counted(rep, id, key)
    requires id !in s.calls && id in s'.calls && s'.calls[id].input == KvGet(key)
    ensures ReplicaOK(rep', r, s')
  {
    ReplicaGrows(rep, r, s, s');
    CountedGets(rep, id, key, rep', s.calls, s'.calls, s.ids);
    if rep.nonce in s.syncs {
      CountedCalledBy(rep, id, key, rep', s.syncs[rep.nonce].limit, s.syncs[rep.nonce].floor, s.calls, s'.calls, s.ids);
      assert LiveSync(rep', r, s'.syncs[rep.nonce], s'.calls);
    }
    if Working(rep) { CountedCalledBy(rep, id, key, rep', rep.work.limit, rep.applied, s.calls, s'.calls, s.ids); }
  }

  lemma BatchedWasCalled(s: State, p: nat, j: nat, id: nat)
    requires BatchesOK(s) && InBatch(s, p, j, id)
    ensures id in s.calls
  {
    assert BatchOK(p, s.batches[p], s.log, s.calls) && AnsweredOK(s.batches[p][j], p, s.log, s.calls);
  }

  lemma BatchesStayed(s: State, s': State, id: nat)
    requires BatchesOK(s) && s'.batches == s.batches && id !in s.calls
    ensures forall p: nat, j: nat, x | InBatch(s', p, j, x) :: InBatch(s, p, j, x) && x != id
  {
    forall p: nat, j: nat, x | InBatch(s', p, j, x)
      ensures InBatch(s, p, j, x) && x != id
    {
      BatchedWasCalled(s, p, j, x);
    }
  }

  lemma ChansAdd(s: State, r: nat, id: nat, rep': Replica, s': State)
    requires ChansOK(s) && CallsGrow(s.calls, s'.calls, s.ids) && r < |s.replicas|
             && s'.replicas == s.replicas[r := rep']
    requires rep'.chans == s.replicas[r].chans + {id} && id !in s.calls && id in s'.calls && s'.calls[id].input.KvGet?
    requires !Returned(s.trace, id) && forall x :: Returned(s'.trace, x) == Returned(s.trace, x)
    requires forall p: nat, j: nat, x | InBatch(s', p, j, x) :: InBatch(s, p, j, x) && x != id
    ensures ChansOK(s')
  {
    forall q, x | 0 <= q < |s'.replicas| && x in s'.replicas[q].chans
      ensures (x == id && q == r) || (x in s.replicas[q].chans && x != id)
    {
    }
  }

  lemma CallGetRequests(s: State, r: nat, id: nat, key: string, rep': Replica, s': State)
    requires RequestsOK(s) && Calls(s, s', r, rep', id, KvGet(key)) && s'.subs == s.subs
    ensures Grows(s, s') && RequestsOK(s') && id !in s.calls && id in s'.calls && s'.calls[id].input == KvGet(key)
  {
    CallsGrows(s, s', r, rep', id, KvGet(key));
    RequestsGrow(s, s');
  }

  lemma SubmitsStay(s: State, s': State)
    requires SubmitsOK(s) && |s'.replicas| == |s.replicas| && forall x :: Returned(s'.trace, x) == Returned(s.trace, x)
    requires forall q | 0 <= q < |s.replicas| :: s'.replicas[q].waits == s.replicas[q].waits
    ensures SubmitsOK(s')
  {
  }

  lemma CallGetClients(s: State, r: nat, id: nat, key: string, rep': Replica, s': State)
    requires LogOK(s) && NoncesOK(s) && BatchesOK(s) && ClientsOK(s)
    requires Grows(s, s') && Calls(s, s', r, rep', id, KvGet(key)) && id !in s.calls
    requires rep'.chans == s.replicas[r].chans + {id} && rep'.waits == s.replicas[r].waits
    ensures BatchesOK(s') && ClientsOK(s')
  {
    CallHeard(s, s', r, rep', id, KvGet(key));
    assert ChansOK(s') by {
      BatchesStayed(s, s', id);
      ChansAdd(s, r, id, rep', s');
    }
    SubmitsStay(s, s');
  }

  lemma CallGetKeeps(s: State, r: nat, id: nat, key: string, rep: Replica, rep': Replica, s': State)
    requires Inv(s) && r < |s.replicas| && rep == s.replicas[r] && rep' == Counted(rep, id, key)
    requires Calls(s, s', r, rep', id, KvGet(key)) && s'.subs == s.subs
    ensures Grows(s, s') && Inv(s')
  {
    CallGetRequests(s, r, id, key, rep', s');
    assert ReplicaOK(rep, r, s);
    CountedOK(s, r, rep, id, key, rep', s');
    ReplicasGrow(s, r, rep', s');
    CallGetClients(s, r, id, key, rep', s');
  }

  // ---------------------------------------------------------------- submitting

  lemma SubmittedOK(s: State, r: nat, rep: Replica, id: nat, req: Request, rep': Replica, s': State)
    requires ReplicaOK(rep, r, s) && Grows(s, s') && s'.syncs == s.syncs
             && rep' == rep.(waits := rep.waits[id := Wait(req, None, None)])
    requires id in s'.subs && s'.subs[id] == req
    ensures ReplicaOK(rep', r, s')
  {
    ReplicaGrows(rep, r, s, s');
    forall x | x in rep'.waits ensures WaitOK(x, rep'.waits[x], rep'.applied, s'.log, s'.subs) {
      if x != id { assert WaitOK(x, rep.waits[x], rep.applied, s'.log, s'.subs); }
    }
    if rep.nonce in s.syncs { assert LiveSync(rep', r, s'.syncs[rep.nonce], s'.calls); }
  }

  lemma WaitingWasSubmitted(s: State, q: nat, x: nat)
    requires RequestsOK(s) && ReplicasOK(s) && q < |s.replicas| && x in s.replicas[q].waits
    ensures x in s.subs && x in s.ids && s.replicas[q].waits[x].req == s.subs[x]
  {
    assert ReplicaOK(s.replicas[q], q, s) && WaitOK(x, s.replicas[q].waits[x], s.replicas[q].applied, s.log, s.subs);
  }

  lemma SubmitsAdd(s: State, r: nat, id: nat, rep': Replica, s': State)
    requires RequestsOK(s) && ReplicasOK(s) && SubmitsOK(s) && r < |s.replicas| && id !in s.ids
             && s'.replicas == s.replicas[r := rep']
             && !Returned(s.trace, id)
    requires rep'.waits.Keys == s.replicas[r].waits.Keys + {id}
             && forall x :: Returned(s'.trace, x) == Returned(s.trace, x)
    ensures SubmitsOK(s')
  {
    forall q, x | 0 <= q < |s.replicas| && x in s.replicas[q].waits ensures x != id { WaitingWasSubmitted(s, q, x); }
    forall q, x | 0 <= q < |s'.replicas| && x in s'.replicas[q].waits
      ensures (x == id && q == r) || x in s.replicas[q].waits
    {
      if q == r { assert x in rep'.waits.Keys; }
    }
  }

  lemma ChansStay(s: State, s': State)
    requires ChansOK(s) && CallsGrow(s.calls, s'.calls, s.ids) && s'.batches == s.batches
             && |s'.replicas| == |s.replicas|
    requires forall q | 0 <= q < |s.replicas| :: s'.replicas[q].chans == s.replicas[q].chans
    requires forall q, x | 0 <= q < |s.replicas| && x in s.replicas[q].chans :: !Returned(s'.trace, x)
    ensures ChansOK(s')
  {
    forall p: nat, j: nat, x | InBatch(s', p, j, x) ensures InBatch(s, p, j, x) {}
  }

  lemma ChansSame(s: State, r: nat, rep': Replica, s': State)
    requires ChansOK(s) && CallsGrow(s.calls, s'.calls, s.ids) && s'.batches == s.batches && r < |s.replicas|
    requires s'.replicas == s.replicas[r := rep'] && rep'.chans == s.replicas[r].chans
    requires forall x :: Returned(s'.trace, x) == Returned(s.trace, x)
    ensures ChansOK(s')
  {
    ChansStay(s, s');
  }

  lemma CallPutRequests(s: State, r: nat, id: nat, req: Request, rep': Replica, s': State)
    requires RequestsOK(s) && req.Put? && req.key != SyncKey && Calls(s, s', r, rep', id, InputOf(req))
             && s'.subs == s.subs[id := req]
    ensures Grows(s, s') && RequestsOK(s') && id !in s.calls
  {
    CallsGrows(s, s', r, rep', id, InputOf(req));
    RequestsGrow(s, s');
  }

  lemma CallPutClients(s: State, r: nat, id: nat, req: Request, rep': Replica, s': State)
    requires Inv(s) && Grows(s, s') && req.Put? && Calls(s, s', r, rep', id, InputOf(req)) && id !in s.calls
    requires rep'.chans == s.replicas[r].chans && rep'.waits.Keys == s.replicas[r].waits.Keys + {id}
    ensures BatchesOK(s') && ClientsOK(s')
  {
    CallHeard(s, s', r, rep', id, InputOf(req));
    assert ChansOK(s') by { ChansSame(s, r, rep', s'); }
    assert SubmitsOK(s') by { SubmitsAdd(s, r, id, rep', s'); }
  }

  lemma CallPutKeeps(s: State, r: nat, id: nat, req: Request, rep: Replica, rep': Replica, s': State)
    requires Inv(s) && r < |s.replicas| && rep == s.replicas[r] && req.Put? && req.key != SyncKey
             && rep' == rep.(waits := rep.waits[id := Wait(req, None, None)])
    requires Calls(s, s', r, rep', id, InputOf(req)) && s'.subs == s.subs[id := req]
    ensures Grows(s, s') && Inv(s')
  {
    CallPutRequests(s, r, id, req, rep', s');
    assert ReplicaOK(rep, r, s);
    SubmittedOK(s, r, rep, id, req, rep', s');
    ReplicasGrow(s, r, rep', s');
    CallPutClients(s, r, id, req, rep', s');
  }

  lemma OnlyWaits(s: State, r: nat, rep': Replica, s': State)
    requires r < |s.replicas| && s'.replicas == s.replicas[r := rep'] && rep' == s.replicas[r].(waits := rep'.waits)
    ensures |s'.replicas| == |s.replicas| && forall q | 0 <= q < |s.replicas| ::
              && s'.replicas[q].nonce == s.replicas[q].nonce && s'.replicas[q].work == s.replicas[q].work
              && s'.replicas[q].applied == s.replicas[q].applied && s'.replicas[q].went == s.replicas[q].went
  {
  }

  lemma HeardSame(s: State, r: nat, rep': Replica, s': State)
    requires Heard(s) && WentOK(s) && r < |s.replicas| && s'.replicas == s.replicas[r := rep']
    requires rep' == s.replicas[r].(waits := rep'.waits)
    requires s'.calls == s.calls && s'.batches == s.batches && s'.trace == s.trace
    ensures Heard(s') && WentOK(s')
  {
    OnlyWaits(s, r, rep', s');
  }

  lemma SubmitSyncWaits(s: State, r: nat, id: nat, rep': Replica, s': State)
    requires RequestsOK(s) && ReplicasOK(s) && TraceOK(s) && SubmitsOK(s) && r < |s.replicas| && id !in s.ids
    requires s'.replicas == s.replicas[r := rep'] && rep'.waits.Keys == s.replicas[r].waits.Keys + {id}
             && s'.trace == s.trace
    ensures SubmitsOK(s')
  {
    UncalledUnreturned(s, id);
    SubmitsAdd(s, r, id, rep', s');
  }

  lemma SubmitSyncBatches(s: State, r: nat, rep': Replica, s': State)
    requires RequestsOK(s) && NoncesOK(s) && BatchesOK(s) && Grows(s, s') && r < |s.replicas|
    requires s'.replicas == s.replicas[r := rep'] && rep' == s.replicas[r].(waits := rep'.waits)
             && s'.batches == s.batches
    ensures BatchesOK(s')
  {
    OnlyWaits(s, r, rep', s');
    BatchesKept(s, s');
  }

  lemma SubmitSyncClients(s: State, r: nat, id: nat, rep': Replica, s': State)
    requires RequestsOK(s) && ReplicasOK(s) && NoncesOK(s) && BatchesOK(s) && ClientsOK(s)
    requires Grows(s, s') && r < |s.replicas| && id !in s.ids && s'.replicas == s.replicas[r := rep']
    requires rep' == s.replicas[r].(waits := rep'.waits) && rep'.waits.Keys == s.replicas[r].waits.Keys + {id}
    requires s'.log == s.log && s'.calls == s.calls && s'.batches == s.batches && s'.trace == s.trace
             && s'.told == s.told
    ensures BatchesOK(s') && ClientsOK(s')
  {
    assert BatchesOK(s') by { SubmitSyncBatches(s, r, rep', s'); }
    assert TraceOK(s') by { TraceKept(s, s'); }
    assert TellsOK(s') by { TellsKept(s, s'); }
    assert ChansOK(s') by { ChansSame(s, r, rep', s'); }
    assert SubmitsOK(s') by { SubmitSyncWaits(s, r, id, rep', s'); }
    assert Heard(s') && WentOK(s') by { HeardSame(s, r, rep', s'); }
  }

  lemma SubmitSyncKeeps(s: State, r: nat, id: nat, req: Request, rep: Replica, rep': Replica, s': State)
    requires Inv(s) && r < |s.replicas| && id !in s.ids && rep == s.replicas[r] && req.Sync? && req.nonce in s.syncs
             && req == SyncRequest(s, req.nonce)
    requires rep' == rep.(waits := rep.waits[id := Wait(req, None, None)])
    requires s' == Set(s, r, rep').(subs := s.subs[id := req], ids := s.ids + {id})
    ensures Grows(s, s') && Inv(s')
  {
    SubmitSyncRequests(s, r, id, req, rep', s');
    SubmitSyncReplicas(s, r, id, req, rep, rep', s');
    assert BatchesOK(s') && ClientsOK(s') by { SubmitSyncClients(s, r, id, rep', s'); }
  }

  lemma SubmitSyncReplicas(s: State, r: nat, id: nat, req: Request, rep: Replica, rep': Replica, s': State)
    requires Inv(s) && r < |s.replicas| && id !in s.ids && rep == s.replicas[r] && req.Sync? && Grows(s, s')
    requires rep' == rep.(waits := rep.waits[id := Wait(req, None, None)])
    requires s' == Set(s, r, rep').(subs := s.subs[id := req], ids := s.ids + {id})
    ensures ReplicasOK(s') && NoncesOK(s')
  {
    assert ReplicaOK(rep, r, s);
    SubmittedOK(s, r, rep, id, req, rep', s');
    ReplicasGrow(s, r, rep', s');
  }

  lemma SubmitSyncRequests(s: State, r: nat, id: nat, req: Request, rep': Replica, s': State)
    requires RequestsOK(s) && r < |s.replicas| && id !in s.ids && req.Sync? && req.nonce in s.syncs
    requires req == SyncRequest(s, req.nonce)
    requires s' == Set(s, r, rep').(subs := s.subs[id := req], ids := s.ids + {id})
    ensures Grows(s, s') && RequestsOK(s')
  {
    assert Grows(s, s');
    RequestsGrow(s, s');
  }

  // ---------------------------------------------------------------- commits

  lemma LogAppends(s: State, id: nat, cmd: Command, s': State)
    requires RequestsOK(s) && NoncesOK(s) && id in s.subs && !InLog(s.log, id) && cmd == Command(id, s.subs[id])
             && s' == s.(log := s.log + [cmd])
    ensures LogOK(s')
  {
    assert SubOK(id, s.subs[id], s.calls, s.syncs);
    forall i | 0 <= i < |s'.log| ensures EntryOK(i, s'.log[i], s') {
      if i < |s.log| { assert s'.log[i] == s.log[i] && EntryOK(i, s.log[i], s); }
    }
    forall i, j | 0 <= i < j < |s'.log| && s'.log[i].Command? && s'.log[j].Command?
      ensures s'.log[i].id != s'.log[j].id
    {
      assert s'.log[i] == s.log[i];
      if j < |s.log| { assert s'.log[j] == s.log[j]; }
    }
  }

  lemma CommitKeeps(s: State, id: nat, cmd: Command, s': State)
    requires Inv(s) && id in s.subs && !InLog(s.log, id) && cmd == Command(id, s.subs[id])
             && s' == s.(log := s.log + [cmd])
    ensures Grows(s, s') && Inv(s')
  {
    assert Grows(s, s');
    LogAppends(s, id, cmd, s');
    forall q | 0 <= q < |s.replicas| ensures ReplicaOK(s'.replicas[q], q, s') { ReplicaGrows(s.replicas[q], q, s, s'); }
    BatchesKept(s, s');
    ClientsKept(s, s');
  }

  lemma StrayReplicas(s: State, nonce: nat, s': State)
    requires ReplicasOK(s) && NoncesOK(s) && nonce !in s.nonces && Grows(s, s') && s'.replicas == s.replicas
    requires s'.syncs.Keys == s.syncs.Keys + {nonce}
    ensures ReplicasOK(s')
  {
    forall q | 0 <= q < |s.replicas| ensures ReplicaOK(s'.replicas[q], q, s') {
      assert s.replicas[q].nonce in s.nonces;
      assert s.replicas[q].nonce in s'.syncs ==> s.replicas[q].nonce in s'.syncs.Keys;
      ReplicaGrows(s.replicas[q], q, s, s');
    }
  }

  lemma StrayKeeps(s: State, server: nat, count: nat, nonce: nat, s': State)
    requires Inv(s) && Enabled(s, StraySync(server, count, nonce)) && s' == Next(s, StraySync(server, count, nonce))
    ensures Grows(s, s') && Inv(s')
  {
    assert Grows(s, s');
    assert RequestsOK(s') by { RequestsKept(s, s'); }
    assert ReplicasOK(s') by { StrayReplicas(s, nonce, s'); }
    assert BatchesOK(s') by { BatchesKept(s, s'); }
    assert ClientsOK(s') by { ClientsKept(s, s'); }
  }

  // ---------------------------------------------------------------- releasing

  /** A sync entry with our live nonce: what the sync goroutine waits for, and after the Gets it counts. */
  lemma ReleaseIsLive(s: State, r: nat, rep: Replica, req: Request)
    requires RequestsOK(s) && BatchesOK(s) && ReplicaOK(rep, r, s) && r < |s.replicas| && rep == s.replicas[r]
             && rep.applied < |s.log|
    requires s.log[rep.applied].Command? && s.log[rep.applied].req == req && Releases(rep, r, req)
    ensures rep.nonce in s.syncs && req.count == s.syncs[rep.nonce].count > 0 && rep.applied !in s.batches
    ensures LiveSync(rep, r, s.syncs[rep.nonce], s.calls) && s.syncs[rep.nonce].floor <= rep.applied && Outstanding(rep)
  {
    assert EntryOK(rep.applied, s.log[rep.applied], s);
    assert SubOK(s.log[rep.applied].id, req, s.calls, s.syncs);
  }

  lemma OpenedOK(s: State, r: nat, rep: Replica, count: nat, limit: nat, nu: nat, rep': Replica)
    requires ReplicaOK(rep, r, s) && rep.work.Free? && nu !in s.syncs && rep' == Opened(rep, count, limit, nu)
             && count > 0
    requires rep.applied < |s.log| && s.log[rep.applied].Command? && s.log[rep.applied].req.Sync?
    requires rep.nonce in s.syncs && nu != rep.nonce && (rep.pc.Sent? || rep.pc.Confirmed?) && rep.pc.nonce == rep.nonce
    requires CalledBy(rep, limit, s.syncs[rep.nonce].floor, s.calls) && s.syncs[rep.nonce].floor <= rep.applied
             && limit <= |rep.came|
    ensures ReplicaOK(rep', r, s)
  {
    assert CalledBy(rep', limit, rep.applied, s.calls);
  }

  lemma OpenBatches(s: State, r: nat, rep: Replica, nu: nat, rep': Replica, s': State)
    requires BatchesOK(s) && LogOK(s) && NoncesOK(s) && Grows(s, s') && r < |s.replicas| && rep == s.replicas[r]
             && s'.replicas == s.replicas[r := rep']
    requires rep.applied < |s.log| && s.log[rep.applied].Command? && s.log[rep.applied].req.Sync?
             && s.log[rep.applied].req.nonce == rep.nonce
    requires rep.applied !in s.batches && s'.batches == s.batches[rep.applied := []] && s'.log == s.log
             && s'.calls == s.calls
    requires rep'.nonce == nu && nu !in s.nonces && rep'.applied == rep.applied
    ensures BatchesOK(s')
  {
    forall p | p in s'.batches
      ensures BatchOK(p, s'.batches[p], s'.log, s'.calls)
              && forall q | 0 <= q < |s'.replicas| :: s'.replicas[q].nonce != s'.log[p].req.nonce
    {
      if p != rep.applied {
        BatchGrows(p, s.batches[p], s, s');
        assert EntryOK(p, s.log[p], s);
      }
    }
    forall p: nat, j: nat, id | InBatch(s', p, j, id) ensures InBatch(s, p, j, id) {}
  }

  lemma OpenClients(s: State, r: nat, rep: Replica, rep': Replica, s': State)
    requires ClientsOK(s) && Grows(s, s') && r < |s.replicas| && rep == s.replicas[r]
             && s'.replicas == s.replicas[r := rep']
    requires rep'.chans == rep.chans && rep'.waits == rep.waits && rep'.went == rep.went
    requires s'.calls == s.calls && s'.trace == s.trace && s'.told == s.told && rep.applied !in s.batches
             && s'.batches == s.batches[rep.applied := []]
    ensures ClientsOK(s')
  {
    TraceKept(s, s');
    TellsKept(s, s');
    forall p: nat, j: nat, id | InBatch(s', p, j, id) ensures InBatch(s, p, j, id) {}
  }

  lemma OpenKeeps(s: State, r: nat, rep: Replica, req: Request, limit: nat, nu: nat, rep': Replica, s': State)
    requires Inv(s) && r < |s.replicas| && rep == s.replicas[r] && rep.work.Free? && rep.applied < |s.log|
             && nu !in s.nonces
    requires s.log[rep.applied].Command? && s.log[rep.applied].req == req && Releases(rep, r, req)
             && limit == LimitOf(s, req.nonce)
    requires rep' == Opened(rep, req.count, limit, nu)
    requires s' == Set(s, r, rep').(nonces := s.nonces + {nu}, batches := s.batches[rep.applied := []])
    ensures Grows(s, s') && Inv(s')
  {
    assert ReplicaOK(rep, r, s);
    ReleaseIsLive(s, r, rep, req);
    OpenedOK(s, r, rep, req.count, limit, nu, rep');
    assert Grows(s, s');
    assert RequestsOK(s') by { RequestsKept(s, s'); }
    StillOK(rep', r, s, s');
    ReplicasGrow(s, r, rep', s');
    OpenBatches(s, r, rep, nu, rep', s');
    OpenClients(s, r, rep, rep', s');
  }

  // ---------------------------------------------------------------- answering one Get

  lemma DequeuedPlaces(queue: seq<GetOp>, arriving: seq<GetOp>)
    requires PlacesOK(queue, arriving) && queue != []
    ensures PlacesOK(queue[1..], arriving)
  {
  }

  lemma DequeuedGets(rep: Replica, rep': Replica, calls: map<nat, Called>)
    requires GetsOK(rep, calls) && rep.queue != [] && rep.work.Draining? && rep.work.left > 0 && rep' == Dequeued(rep)
    ensures GetsOK(rep', calls)
  {
    DequeuedPlaces(rep.queue, rep.arriving);
    assert IdsOf(rep.queue) == [rep.queue[0].id] + IdsOf(rep'.queue);
    forall i | 0 <= i < |rep'.queue| ensures GetOK(rep'.queue[i], rep', calls) {
      assert rep'.queue[i] == rep.queue[i + 1] && GetOK(rep.queue[i + 1], rep, calls);
    }
    forall i | 0 <= i < |rep'.arriving| ensures GetOK(rep'.arriving[i], rep', calls) {
      assert GetOK(rep.arriving[i], rep, calls) && rep.queue[0].id != rep.arriving[i].id;
    }
  }

  lemma DequeuedOK(s: State, r: nat, rep: Replica, rep': Replica)
    requires ReplicaOK(rep, r, s) && rep.queue != [] && rep.work.Draining? && rep.work.left > 0 && rep' == Dequeued(rep)
    ensures ReplicaOK(rep', r, s)
  {
    DequeuedGets(rep, rep', s.calls);
    forall i | 0 <= i < |rep'.queue| ensures rep'.queue[i] == rep.queue[i + 1] {}
    if rep.nonce in s.syncs { assert LiveSync(rep', r, s.syncs[rep.nonce], s.calls); }
  }

  /** One more answer in the batch at p. */
  ghost predicate OneMore(s: State, p: nat, a: Answered, s': State) {
    p in s.batches && s'.batches == s.batches[p := s.batches[p] + [a]]
  }

  lemma InBatchOne(s: State, p: nat, a: Answered, s': State, x: nat)
    requires OneMore(s, p, a, s')
    ensures forall q: nat, j: nat ::
            InBatch(s', q, j, x) <==> InBatch(s, q, j, x) || (q == p && j == |s.batches[p]| && x == a.id)
  {
  }

  lemma DequeueBatches(s: State, r: nat, p: nat, a: Answered, rep': Replica, s': State)
    requires BatchesOK(s) && Grows(s, s') && OneMore(s, p, a, s') && r < |s.replicas|
             && s'.replicas == s.replicas[r := rep']
    requires s'.log == s.log && s'.calls == s.calls && rep'.nonce == s.replicas[r].nonce
    requires Working(s.replicas[r]) && rep'.applied == s.replicas[r].applied
    requires p <= |s.log| && AnsweredOK(a, p, s.log, s.calls) && forall q: nat, j: nat :: !InBatch(s, q, j, a.id)
    ensures BatchesOK(s')
  {
    forall q | q in s'.batches ensures BatchOK(q, s'.batches[q], s'.log, s'.calls) {
      assert BatchOK(q, s.batches[q], s.log, s.calls);
    }
    forall q: nat, j: nat, q': nat, j': nat, x | InBatch(s', q, j, x) && InBatch(s', q', j', x)
      ensures q == q' && j == j'
    {
      InBatchOne(s, p, a, s', x);
    }
  }

  lemma DequeueChans(s: State, r: nat, p: nat, a: Answered, rep: Replica, rep': Replica, s': State)
    requires ChansOK(s) && OneMore(s, p, a, s') && r < |s.replicas| && rep == s.replicas[r]
             && s'.replicas == s.replicas[r := rep']
    requires s'.calls == s.calls && a.id in rep.chans && rep'.chans == rep.chans - {a.id}
    requires forall x :: Returned(s'.trace, x) <==> Returned(s.trace, x) || x == a.id
    ensures ChansOK(s')
  {
    forall q, x | 0 <= q < |s'.replicas| && x in s'.replicas[q].chans ensures x in s.replicas[q].chans && x != a.id {
      if q != r { assert q < r ==> x !in rep.chans; }
    }
    forall q, p': nat, j: nat, x | 0 <= q < |s'.replicas| && x in s'.replicas[q].chans ensures !InBatch(s', p', j, x) {
      InBatchOne(s, p, a, s', x);
    }
  }

  lemma DequeueSubmits(s: State, r: nat, id: nat, rep': Replica, s': State)
    requires RequestsOK(s) && ReplicasOK(s) && SubmitsOK(s) && r < |s.replicas| && s'.replicas == s.replicas[r := rep']
    requires rep'.waits == s.replicas[r].waits && id in s.calls && s.calls[id].input.KvGet?
    requires forall x :: Returned(s'.trace, x) <==> Returned(s.trace, x) || x == id
    ensures SubmitsOK(s')
  {
    forall q, x | 0 <= q < |s'.replicas| && x in s'.replicas[q].waits ensures x in s.replicas[q].waits && x != id {
      WaitingWasSubmitted(s, q, x);
    }
  }

  lemma DequeueWent(s: State, r: nat, a: Action, rep': Replica, s': State)
    requires WentOK(s) && r < |s.replicas| && s'.replicas == s.replicas[r := rep'] && s'.trace == s.trace + [a]
    requires a.Return? && !Returned(s.trace, a.id) && rep'.went == s.replicas[r].went + [a.id]
    ensures WentOK(s')
  {
    forall q | 0 <= q < |s'.replicas| ensures AnsweredInOrder(s'.replicas[q].went, s'.trace) {
      if q == r { OrderExtended(s.replicas[r].went, s.trace, a); } else { OrderKept(s.replicas[q].went, s.trace, a); }
    }
  }

  /** The parts of one round of the loop, named. */
  ghost predicate Answers(s: State, r: nat, rep: Replica, g: GetOp, a: Answered, act: Action, rep': Replica,
      s': State) {
    && r < |s.replicas| && rep == s.replicas[r] && rep.queue != [] && g == rep.queue[0] && g.id in rep.chans
    && rep.work.Draining? && rep.work.left > 0 && rep' == Dequeued(rep) && rep.applied in s.batches
    && a == Answered(g.id, g.key, Lookup(rep.store, g.key))
    && act == Return(g.id, KvGet(g.key), OutputOf(a.reply), |s.log|)
    && s' == Set(s, r, rep').(batches := s.batches[rep.applied := s.batches[rep.applied] + [a]],
          trace := s.trace + [act])
  }

  lemma DequeueFacts(s: State, r: nat, rep: Replica, g: GetOp, a: Answered, act: Action, rep': Replica, s': State)
    requires Inv(s) && Answers(s, r, rep, g, a, act, rep', s')
    ensures Grows(s, s') && OneMore(s, rep.applied, a, s') && ReplicaOK(rep, r, s)
    ensures rep.applied < |s.log| && s.log[rep.applied].Command? && AnsweredOK(a, rep.applied, s.log, s.calls)
    ensures !Returned(s.trace, g.id) && forall q: nat, j: nat :: !InBatch(s, q, j, g.id)
    ensures s.calls[g.id].input == KvGet(g.key)
  {
    assert ReplicaOK(rep, r, s) && GetOK(g, rep, s.calls);
  }

  lemma DequeueAction(s: State, r: nat, rep: Replica, g: GetOp, a: Answered, act: Action, rep': Replica, s': State)
    requires Answers(s, r, rep, g, a, act, rep', s') && OneMore(s, rep.applied, a, s') && g.id in s.calls
             && s.calls[g.id].input == KvGet(g.key)
    requires rep.applied < |s.log| && s.log[rep.applied].Command?
    ensures ActionOK(act, s')
  {
    var j := |s.batches[rep.applied]|;
    assert BatchHas(s', rep.applied, j, g.id, g.key, act.output);
    assert PlacedAt(s', rep.applied, act.id, act.input, act.output);
  }

  lemma DequeueClients(s: State, r: nat, rep: Replica, g: GetOp, a: Answered, act: Action, rep': Replica, s': State)
    requires Inv(s) && Grows(s, s') && Answers(s, r, rep, g, a, act, rep', s') && OneMore(s, rep.applied, a, s')
             && ActionOK(act, s')
    requires !Returned(s.trace, g.id) && g.id in s.calls && s.calls[g.id].input.KvGet?
    ensures ClientsOK(s')
  {
    forall x ensures Returned(s'.trace, x) <==> Returned(s.trace, x) || x == g.id { ReturnedOne(s.trace, act, x); }
    assert TraceOK(s') by { TraceOne(s, s', act); }
    assert Heard(s') by { HeardGrows(s, s'); }
    assert WentOK(s') by { DequeueWent(s, r, act, rep', s'); }
    assert TellsOK(s') by { TellsKept(s, s'); }
    assert ChansOK(s') by { DequeueChans(s, r, rep.applied, a, rep, rep', s'); }
    assert SubmitsOK(s') by { DequeueSubmits(s, r, g.id, rep', s'); }
  }

  lemma DequeueKeeps(s: State, r: nat, rep: Replica, g: GetOp, a: Answered, act: Action, rep': Replica, s': State)
    requires Inv(s) && Answers(s, r, rep, g, a, act, rep', s')
    ensures Grows(s, s') && Inv(s')
  {
    DequeueFacts(s, r, rep, g, a, act, rep', s');
    assert RequestsOK(s') by { RequestsKept(s, s'); }
    DequeuedOK(s, r, rep, rep');
    StillOK(rep', r, s, s');
    ReplicasGrow(s, r, rep', s');
    DequeueBatches(s, r, rep.applied, a, rep', s');
    DequeueAction(s, r, rep, g, a, act, rep', s');
    DequeueClients(s, r, rep, g, a, act, rep', s');
  }

  // ---------------------------------------------------------------- Submit returns

  /** A Submit at r ends: its channel is gone, and the client hears of a Put that went through the log. */
  ghost predicate Tells(s: State, r: nat, rep: Replica, id: nat, w: Wait, t: Told, more: seq<Action>, rep': Replica,
      s': State) {
    && r < |s.replicas| && rep == s.replicas[r] && id in rep.waits && w == rep.waits[id]
    && rep' == rep.(waits := rep.waits - {id})
    && t.id == id && t.req == w.req && more == PutReturn(id, w.req, t.result, |s.log|)
    && s' == Set(s, r, rep').(told := s.told + [t], trace := s.trace + more)
  }

  lemma DroppedOK(s: State, r: nat, rep: Replica, id: nat, rep': Replica)
    requires ReplicaOK(rep, r, s) && rep' == rep.(waits := rep.waits - {id})
    ensures ReplicaOK(rep', r, s)
  {
    forall x | x in rep'.waits ensures WaitOK(x, rep'.waits[x], rep'.applied, s.log, s.subs) {
      assert WaitOK(x, rep.waits[x], rep.applied, s.log, s.subs);
    }
    if rep.nonce in s.syncs { assert LiveSync(rep', r, s.syncs[rep.nonce], s.calls); }
  }

  lemma ToldAdds(s: State, t: Told, s': State)
    requires TellsOK(s) && Grows(s, s') && s'.told == s.told + [t] && ToldOK(t, s)
    ensures TellsOK(s')
  {
    forall k | 0 <= k < |s'.told| ensures ToldOK(s'.told[k], s') {
      if k < |s.told| { assert s'.told[k] == s.told[k]; }
      ToldGrows(s'.told[k], s, s');
    }
  }

  /** A told Put is placed where its entry is. */
  lemma PutAction(s: State, t: Told, a: Action, s': State)
    requires RequestsOK(s) && ToldOK(t, s) && t.req.Put? && t.result.0 == OK && t.applied <= |s.log|
    requires a == Return(t.id, InputOf(t.req), OutputOf(t.result.1.value), |s.log|) && Grows(s, s') && s'.log == s.log
    ensures ActionOK(a, s')
  {
    var p: nat :| EntryAt(s.log, p, t.id, t.req) && p < t.applied
        && t.result.1.value == Answer(StoreAt(s.log, p), t.req);
    assert SubOK(t.id, t.req, s.calls, s.syncs);
    assert PlacedAt(s', p, a.id, a.input, a.output);
  }

  lemma TellSubmits(s: State, r: nat, rep: Replica, id: nat, rep': Replica, s': State)
    requires SubmitsOK(s) && r < |s.replicas| && rep == s.replicas[r] && s'.replicas == s.replicas[r := rep']
             && id in rep.waits
    requires rep'.waits == rep.waits - {id} && forall x :: Returned(s'.trace, x) ==> Returned(s.trace, x) || x == id
    ensures SubmitsOK(s')
  {
    forall q, x | 0 <= q < |s'.replicas| && x in s'.replicas[q].waits ensures x in s.replicas[q].waits && x != id {
      if q != r { assert q < r ==> x !in rep.waits; }
    }
  }

  lemma TellChans(s: State, r: nat, rep': Replica, id: nat, s': State)
    requires ChansOK(s) && r < |s.replicas| && s'.replicas == s.replicas[r := rep'] && rep'.chans == s.replicas[r].chans
    requires s'.calls == s.calls && s'.batches == s.batches && (id in s.calls ==> s.calls[id].input.KvPut?)
    requires forall x :: Returned(s'.trace, x) ==> Returned(s.trace, x) || x == id
    ensures ChansOK(s')
  {
    forall p: nat, j: nat, x | InBatch(s', p, j, x) ensures InBatch(s, p, j, x) {}
  }

  lemma TellTrace(s: State, t: Told, more: seq<Action>, s': State)
    requires RequestsOK(s) && TraceOK(s) && Heard(s) && WentOK(s) && Grows(s, s') && ToldOK(t, s)
             && t.applied <= |s.log| && s'.log == s.log
    requires more == PutReturn(t.id, t.req, t.result, |s.log|) && s'.trace == s.trace + more && !Returned(s.trace, t.id)
    requires s'.calls == s.calls && |s'.replicas| == |s.replicas|
             && forall q | 0 <= q < |s.replicas| :: s'.replicas[q].went == s.replicas[q].went
    ensures TraceOK(s') && Heard(s') && WentOK(s')
            && forall x :: Returned(s'.trace, x) ==> Returned(s.trace, x) || x == t.id
  {
    HeardGrows(s, s');
    if more == [] {
      assert s'.trace == s.trace;
      TraceKept(s, s');
    } else {
      PutAction(s, t, more[0], s');
      TraceOne(s, s', more[0]);
      WentKept(s, s', more[0]);
      forall x ensures Returned(s'.trace, x) ==> Returned(s.trace, x) || x == t.id { ReturnedOne(s.trace, more[0], x); }
    }
  }

  lemma TellClients(s: State, r: nat, rep: Replica, id: nat, w: Wait, t: Told, more: seq<Action>, rep': Replica,
      s': State)
    requires RequestsOK(s) && ClientsOK(s) && Tells(s, r, rep, id, w, t, more, rep', s') && ToldOK(t, s)
             && t.applied <= |s.log| && Grows(s, s')
    ensures ClientsOK(s')
  {
    TellTrace(s, t, more, s');
    assert TellsOK(s') by { ToldAdds(s, t, s'); }
    assert id in s.calls ==> s.calls[id].input.KvPut? by { assert SubOK(id, t.req, s.calls, s.syncs); }
    assert ChansOK(s') by { TellChans(s, r, rep', id, s'); }
    assert SubmitsOK(s') by { TellSubmits(s, r, rep, id, rep', s'); }
  }

  lemma TellGrows(s: State, r: nat, rep: Replica, id: nat, w: Wait, t: Told, more: seq<Action>, rep': Replica,
      s': State)
    requires Tells(s, r, rep, id, w, t, more, rep', s')
    ensures Grows(s, s') && s'.log == s.log && s'.calls == s.calls && s'.subs == s.subs && s'.batches == s.batches
    ensures |s'.replicas| == |s.replicas| && forall q | 0 <= q < |s.replicas| ::
              s'.replicas[q].nonce == s.replicas[q].nonce && s'.replicas[q].work == s.replicas[q].work
                  && s'.replicas[q].applied == s.replicas[q].applied
  {
  }

  lemma TellKeeps(s: State, r: nat, rep: Replica, id: nat, w: Wait, t: Told, more: seq<Action>, rep': Replica,
      s': State)
    requires Inv(s) && Tells(s, r, rep, id, w, t, more, rep', s') && ToldOK(t, s) && t.applied <= |s.log|
    ensures Grows(s, s') && Inv(s')
  {
    TellGrows(s, r, rep, id, w, t, more, rep', s');
    assert RequestsOK(s') by { RequestsKept(s, s'); }
    assert ReplicaOK(rep, r, s);
    DroppedOK(s, r, rep, id, rep');
    StillOK(rep', r, s, s');
    ReplicasGrow(s, r, rep', s');
    assert BatchesOK(s') by { BatchesKept(s, s'); }
    TellClients(s, r, rep, id, w, t, more, rep', s');
  }

  lemma RefusedKeeps(s: State, r: nat, id: nat, rep: Replica, s': State)
    requires Inv(s) && r < |s.replicas| && rep == s.replicas[r] && id in rep.waits
    requires s' == Tell(s, r, id, rep.(waits := rep.waits - {id}), (ErrWrongLeader, None))
    ensures Grows(s, s') && Inv(s')
  {
    WaitingWasSubmitted(s, r, id);
    assert ReplicaOK(rep, r, s);
    var w := rep.waits[id];
    TellKeeps(s, r, rep, id, w, Told(r, id, w.req, (ErrWrongLeader, None), rep.applied), [],
        rep.(waits := rep.waits - {id}), s');
  }

  lemma FinishKeeps(s: State, r: nat, id: nat, term: nat, isLeader: bool, rep: Replica, w: Wait, s': State)
    requires Inv(s) && r < |s.replicas| && rep == s.replicas[r] && id in rep.waits && w == rep.waits[id]
             && w.term.Some? && w.got.Some?
    requires s' == Tell(s, r, id, rep.(waits := rep.waits - {id}), Conclude(w.got.value, w.term.value, term, isLeader))
    ensures Grows(s, s') && Inv(s')
  {
    assert ReplicaOK(rep, r, s) && WaitOK(id, w, rep.applied, s.log, s.subs);
    var t := Told(r, id, w.req, Conclude(w.got.value, w.term.value, term, isLeader), rep.applied);
    TellKeeps(s, r, rep, id, w, t, PutReturn(id, w.req, t.result, |s.log|), rep.(waits := rep.waits - {id}), s');
  }

  // ---------------------------------------------------------------- all events

  lemma ApplyKeeps(s: State, r: nat, nu: nat, rep: Replica, cmd: Command, s': State)
    requires Inv(s) && r < |s.replicas| && rep == s.replicas[r] && rep.work.Free? && rep.applied < |s.log|
             && nu !in s.nonces
    requires cmd == s.log[rep.applied] && s' == ApplyEntry(s, r, cmd, nu)
    ensures Grows(s, s') && Inv(s')
  {
    assert EntryOK(rep.applied, cmd, s);
    if Releases(rep, r, cmd.req) {
      OpenKeeps(s, r, rep, cmd.req, LimitOf(s, cmd.req.nonce), nu,
          Opened(rep, cmd.req.count, LimitOf(s, cmd.req.nonce), nu), s');
    } else {
      ExecuteKeeps(s, r, rep, cmd, Executed(rep, cmd.id, cmd.req), s');
    }
  }

  predicate AtReader(e: Event) { e.Apply? || e.Subtract? || e.Dequeue? || e.EndRelease? || e.Abort? }

  predicate AtSubmit(e: Event) { e.CallPut? || e.SubmitSync? || e.StartReturns? || e.Finish? }

  predicate AtGets(e: Event) { e.CallGet? || e.Enqueue? }

  predicate AtSync(e: Event) { e.LoadLength? || e.SendSync? || e.SyncOk? || e.SyncFailed? || e.SyncSeen? || e.Crash? }

  lemma OnApply(s: State, r: nat, nu: nat, rep: Replica, s': State)
    requires Inv(s) && Enabled(s, Apply(r, nu)) && s' == Next(s, Apply(r, nu)) && rep == s.replicas[r]
    ensures Grows(s, s') && Inv(s')
  {
    ApplyKeeps(s, r, nu, rep, s.log[rep.applied], s');
  }

  lemma OnSubtract(s: State, r: nat, rep: Replica, s': State)
    requires Inv(s) && Enabled(s, Subtract(r)) && s' == Next(s, Subtract(r)) && rep == s.replicas[r]
    ensures Grows(s, s') && Inv(s')
  {
    assert ReplicaOK(rep, r, s);
    SubtractedOK(s, r, rep, Subtracted(rep));
    SetKeeps(s, r, rep, Subtracted(rep), s');
  }

  lemma OnDequeue(s: State, r: nat, rep: Replica, s': State)
    requires Inv(s) && Enabled(s, Dequeue(r)) && s' == Next(s, Dequeue(r)) && rep == s.replicas[r]
    ensures Grows(s, s') && Inv(s')
  {
    var g := rep.queue[0];
    var a := Answered(g.id, g.key, Lookup(rep.store, g.key));
    assert rep.applied in s.batches by { assert Working(rep); }
    DequeueKeeps(s, r, rep, g, a, Return(g.id, KvGet(g.key), OutputOf(a.reply), |s.log|), Dequeued(rep), s');
  }

  lemma OnEndRelease(s: State, r: nat, rep: Replica, s': State)
    requires Inv(s) && Enabled(s, EndRelease(r)) && s' == Next(s, EndRelease(r)) && rep == s.replicas[r]
    ensures Grows(s, s') && Inv(s')
  {
    assert EntryOK(rep.applied, s.log[rep.applied], s);
    CloseKeeps(s, r, rep, s.log[rep.applied], Closed(rep, s.log[rep.applied].id), s');
  }

  lemma OnAbort(s: State, r: nat, id: nat, rep: Replica, s': State)
    requires Inv(s) && Enabled(s, Abort(r, id)) && s' == Next(s, Abort(r, id)) && rep == s.replicas[r]
    ensures Grows(s, s') && Inv(s')
  {
    assert ReplicaOK(rep, r, s);
    AbortedOK(s, r, id, rep, Posted(rep, id, Aborted));
    SetKeeps(s, r, rep, Posted(rep, id, Aborted), s');
  }

  lemma OnCallGet(s: State, r: nat, id: nat, key: string, rep: Replica, s': State)
    requires Inv(s) && Enabled(s, CallGet(r, id, key)) && s' == Next(s, CallGet(r, id, key)) && rep == s.replicas[r]
    ensures Grows(s, s') && Inv(s')
  {
    CallGetKeeps(s, r, id, key, rep, Counted(rep, id, key), s');
  }

  lemma OnEnqueue(s: State, r: nat, i: nat, rep: Replica, s': State)
    requires Inv(s) && Enabled(s, Enqueue(r, i)) && s' == Next(s, Enqueue(r, i)) && rep == s.replicas[r]
    ensures Grows(s, s') && Inv(s')
  {
    assert ReplicaOK(rep, r, s);
    EnqueuedOK(s, r, rep, i, Enqueued(rep, i));
    SetKeeps(s, r, rep, Enqueued(rep, i), s');
  }

  lemma OnCallPut(s: State, r: nat, id: nat, key: string, value: string, version: nat, rep: Replica, s': State)
    requires Inv(s) && Enabled(s, CallPut(r, id, key, value, version)) && rep == s.replicas[r]
    requires s' == Next(s, CallPut(r, id, key, value, version))
    ensures Grows(s, s') && Inv(s')
  {
    var req := Put(key, value, version);
    CallPutKeeps(s, r, id, req, rep, rep.(waits := rep.waits[id := Wait(req, None, None)]), s');
  }

  lemma OnSubmitSync(s: State, r: nat, id: nat, nonce: nat, rep: Replica, s': State)
    requires Inv(s) && Enabled(s, SubmitSync(r, id, nonce)) && s' == Next(s, SubmitSync(r, id, nonce))
             && rep == s.replicas[r]
    ensures Grows(s, s') && Inv(s')
  {
    var req := SyncRequest(s, nonce);
    SubmitSyncKeeps(s, r, id, req, rep, rep.(waits := rep.waits[id := Wait(req, None, None)]), s');
  }

  lemma OnStartReturns(s: State, r: nat, id: nat, term: nat, isLeader: bool, rep: Replica, s': State)
    requires Inv(s) && Enabled(s, StartReturns(r, id, term, isLeader)) && rep == s.replicas[r]
    requires s' == Next(s, StartReturns(r, id, term, isLeader))
    ensures Grows(s, s') && Inv(s')
  {
    if isLeader {
      var rep' := rep.(waits := Begun(rep.waits, id, term, true));
      assert ReplicaOK(rep, r, s);
      BegunOK(s, r, id, term, true, rep, rep');
      SetKeeps(s, r, rep, rep', s');
    } else {
      RefusedKeeps(s, r, id, rep, s');
    }
  }

  lemma OnFinish(s: State, r: nat, id: nat, term: nat, isLeader: bool, rep: Replica, s': State)
    requires Inv(s) && Enabled(s, Finish(r, id, term, isLeader)) && rep == s.replicas[r]
    requires s' == Next(s, Finish(r, id, term, isLeader))
    ensures Grows(s, s') && Inv(s')
  {
    FinishKeeps(s, r, id, term, isLeader, rep, rep.waits[id], s');
  }

  lemma OnLoadLength(s: State, r: nat, rep: Replica, s': State)
    requires Inv(s) && Enabled(s, LoadLength(r)) && s' == Next(s, LoadLength(r)) && rep == s.replicas[r]
    ensures Grows(s, s') && Inv(s')
  {
    var rep' := rep.(pc := Loaded(rep.queueLen, |rep.came|));
    assert ReplicaOK(rep, r, s);
    LoadedOK(s, r, rep, rep');
    SetKeeps(s, r, rep, rep', s');
  }

  lemma OnSendSync(s: State, r: nat, rep: Replica, s': State)
    requires Inv(s) && Enabled(s, SendSync(r)) && s' == Next(s, SendSync(r)) && rep == s.replicas[r]
    ensures Grows(s, s') && Inv(s')
  {
    SendSyncKeeps(s, r, rep, rep.(pc := Sent(rep.pc.count, rep.pc.limit, rep.nonce)), s');
  }

  lemma OnSyncOk(s: State, r: nat, rep: Replica, s': State)
    requires Inv(s) && Enabled(s, SyncOk(r)) && s' == Next(s, SyncOk(r)) && rep == s.replicas[r]
    ensures Grows(s, s') && Inv(s')
  {
    var rep' := rep.(pc := Confirmed(rep.pc.count, rep.pc.limit, rep.pc.nonce));
    assert ReplicaOK(rep, r, s);
    ConfirmedOK(s, r, rep, rep');
    SetKeeps(s, r, rep, rep', s');
  }

  lemma OnSyncSeen(s: State, r: nat, rep: Replica, s': State)
    requires Inv(s) && Enabled(s, SyncSeen(r)) && s' == Next(s, SyncSeen(r)) && rep == s.replicas[r]
    ensures Grows(s, s') && Inv(s')
  {
    assert ReplicaOK(rep, r, s);
    SeenOK(s, r, rep, rep.(pc := Idle));
    SetKeeps(s, r, rep, rep.(pc := Idle), s');
  }

  lemma OnSyncFailed(s: State, r: nat, nu: nat, rep: Replica, s': State)
    requires Inv(s) && Enabled(s, SyncFailed(r, nu)) && s' == Next(s, SyncFailed(r, nu)) && rep == s.replicas[r]
    ensures Grows(s, s') && Inv(s')
  {
    assert ReplicaOK(rep, r, s);
    FailedOK(s, r, nu, rep, rep.(pc := Idle, nonce := nu));
    RenewKeeps(s, r, nu, rep, rep.(pc := Idle, nonce := nu), s');
  }

  lemma OnCrash(s: State, r: nat, nu: nat, rep: Replica, s': State)
    requires Inv(s) && Enabled(s, Crash(r, nu)) && s' == Next(s, Crash(r, nu)) && rep == s.replicas[r]
    ensures Grows(s, s') && Inv(s')
  {
    BootedOK(s, r, nu, Booted(nu));
    RenewKeeps(s, r, nu, rep, Booted(nu), s');
  }

  lemma ReaderKeeps(s: State, e: Event, s': State)
    requires Inv(s) && AtReader(e) && Enabled(s, e) && s' == Next(s, e)
    ensures Grows(s, s') && Inv(s')
  {
    var rep := s.replicas[e.r];
    match e
    case Apply(r, nu) => OnApply(s, r, nu, rep, s');
    case Subtract(r) => OnSubtract(s, r, rep, s');
    case Dequeue(r) => OnDequeue(s, r, rep, s');
    case EndRelease(r) => OnEndRelease(s, r, rep, s');
    case Abort(r, id) => OnAbort(s, r, id, rep, s');
  }

  lemma SubmitKeeps(s: State, e: Event, s': State)
    requires Inv(s) && AtSubmit(e) && Enabled(s, e) && s' == Next(s, e)
    ensures Grows(s, s') && Inv(s')
  {
    var rep := s.replicas[e.r];
    match e
    case CallPut(r, id, key, value, version) => OnCallPut(s, r, id, key, value, version, rep, s');
    case SubmitSync(r, id, nonce) => OnSubmitSync(s, r, id, nonce, rep, s');
    case StartReturns(r, id, term, isLeader) => OnStartReturns(s, r, id, term, isLeader, rep, s');
    case Finish(r, id, term, isLeader) => OnFinish(s, r, id, term, isLeader, rep, s');
  }

  lemma GetsKeep(s: State, e: Event, s': State)
    requires Inv(s) && AtGets(e) && Enabled(s, e) && s' == Next(s, e)
    ensures Grows(s, s') && Inv(s')
  {
    var rep := s.replicas[e.r];
    match e
    case CallGet(r, id, key) => OnCallGet(s, r, id, key, rep, s');
    case Enqueue(r, i) => OnEnqueue(s, r, i, rep, s');
  }

  lemma FreshNonceKeeps(s: State, e: Event, s': State)
    requires Inv(s) && (e.SyncFailed? || e.Crash?) && Enabled(s, e) && s' == Next(s, e)
    ensures Grows(s, s') && Inv(s')
  {
    var rep := s.replicas[e.r];
    if e.Crash? { OnCrash(s, e.r, e.nu, rep, s'); } else { OnSyncFailed(s, e.r, e.nu, rep, s'); }
  }

  lemma GoroutineKeeps(s: State, e: Event, s': State)
    requires Inv(s) && (e.LoadLength? || e.SendSync? || e.SyncOk? || e.SyncSeen?) && Enabled(s, e) && s' == Next(s, e)
    ensures Grows(s, s') && Inv(s')
  {
    var rep := s.replicas[e.r];
    match e
    case LoadLength(r) => OnLoadLength(s, r, rep, s');
    case SendSync(r) => OnSendSync(s, r, rep, s');
    case SyncOk(r) => OnSyncOk(s, r, rep, s');
    case SyncSeen(r) => OnSyncSeen(s, r, rep, s');
  }

  lemma SyncKeeps(s: State, e: Event, s': State)
    requires Inv(s) && AtSync(e) && Enabled(s, e) && s' == Next(s, e)
    ensures Grows(s, s') && Inv(s')
  {
    if e.SyncFailed? || e.Crash? { FreshNonceKeeps(s, e, s'); } else { GoroutineKeeps(s, e, s'); }
  }

  ghost predicate OnlyAt(s: State, r: nat, s': State) {
    r < |s.replicas| == |s'.replicas| && s'.replicas == s.replicas[r := s'.replicas[r]]
  }

  lemma ReaderOnlyAt(s: State, e: Event, s': State)
    requires Enabled(s, e) && s' == Next(s, e) && AtReader(e)
    ensures OnlyAt(s, e.r, s')
  {
  }

  lemma SubmitOnlyAt(s: State, e: Event, s': State)
    requires Enabled(s, e) && s' == Next(s, e) && AtSubmit(e)
    ensures OnlyAt(s, e.r, s') && s'.log == s.log && s'.nonces == s.nonces
    ensures s'.replicas[e.r] == s.replicas[e.r].(waits := s'.replicas[e.r].waits)
  {
  }

  lemma RestOnlyAt(s: State, e: Event, s': State)
    requires Enabled(s, e) && s' == Next(s, e) && (AtGets(e) || AtSync(e))
    ensures OnlyAt(s, e.r, s')
  {
  }

  lemma SameReplicas(s: State, e: Event, s': State)
    requires Enabled(s, e) && s' == Next(s, e)
    ensures |s'.replicas| == |s.replicas|
    ensures if e.Commit? || e.StraySync? then s'.replicas == s.replicas
            else e.r < |s.replicas| && s'.replicas == s.replicas[e.r := s'.replicas[e.r]]
  {
    if !e.Commit? && !e.StraySync? {
      if AtReader(e) { ReaderOnlyAt(s, e, s'); }
      else if AtSubmit(e) { SubmitOnlyAt(s, e, s'); }
      else { RestOnlyAt(s, e, s'); }
    }
  }

  lemma StepKeeps(s: State, e: Event, s': State)
    requires Inv(s) && Enabled(s, e) && s' == Next(s, e)
    ensures Grows(s, s') && Inv(s')
  {
    if e.Commit? { CommitKeeps(s, e.id, Command(e.id, s.subs[e.id]), s'); }
    else if e.StraySync? { StrayKeeps(s, e.server, e.count, e.nonce, s'); }
    else if AtReader(e) { ReaderKeeps(s, e, s'); }
    else if AtSubmit(e) { SubmitKeeps(s, e, s'); }
    else if AtGets(e) { GetsKeep(s, e, s'); }
    else { SyncKeeps(s, e, s'); }
  }
}
