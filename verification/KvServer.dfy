/**
 * The KVServer struct of src/kvraft1/server.go as its methods update it in place, and its relation
 * to a replica of the almost-local-reads machine: method by method, event by event, run by run.
 */
module KvServer {
  import opened Options
  import opened RaftTypes
  import opened KvStore
  import opened KvModel
  import opened Submits
  import opened AlrMachine
  import opened AlrInvariant
  import opened AlrSteps
  import A = AlrTheorems

  /** A queued Get (type Op with OpType "Get"). */
  datatype Op = Op(id: nat, key: string)

  /** How DoOp ended: with a reply, waiting for a Get that is not in the queue, or with the panic. */
  datatype Done = Replied(reply: Reply) | Blocked | Panicked

  /** The fields; `chans` is opChs with what was sent on each channel and not yet received. */
  datatype Fields = Fields(store: Store, nonce: nat, queue: seq<Op>, queueLen: int, chans: map<nat, seq<Reply>>)

  // ---------------------------------------------------------------- what the methods compute

  function Fresh(nonce: nat): Fields { Fields(Empty, nonce, [], 0, map[]) }

  function Count(v: Fields, id: nat): Fields { v.(queueLen := v.queueLen + 1, chans := v.chans[id := []]) }

  function Send(v: Fields, op: Op): Fields { v.(queue := v.queue + [op]) }

  function Renew(v: Fields, nu: nat): Fields { v.(nonce := nu) }

  function Lower(v: Fields, count: nat): Fields { v.(queueLen := v.queueLen - count) }

  /** The first queued Get is taken out and answered from the store on its channel. */
  function ServeFirst(v: Fields): (Done, Fields) {
    if v.queue == [] then (Blocked, v)
    else
      var g := v.queue[0];
      var w := v.(queue := v.queue[1..]);
      if g.id !in v.chans then (Panicked, w)
      else
        var reply := Lookup(v.store, g.key);
        (Replied(reply), w.(chans := v.chans[g.id := v.chans[g.id] + [reply]]))
  }

  function Drain(v: Fields, count: nat): (Done, Fields)
    decreases count
  {
    if count == 0 then (Replied(PutReply(OK)), v)
    else if !ServeFirst(v).0.Replied? then ServeFirst(v)
    else Drain(ServeFirst(v).1, count - 1)
  }

  function Perform(v: Fields, me: nat, req: Request, nu: nat): (Done, Fields) {
    match req
    case Sync(server, count, nonce) =>
      if server == me && nonce == v.nonce then Drain(Lower(Renew(v, nu), count), count)
      else (Replied(PutReply(OK)), v)
    case _ => (Replied(Answer(v.store, req)), v.(store := Execute(v.store, req)))
  }

  class KVServer {
    const me: nat
    var kv: map<string, string>
    var versions: map<string, nat>
    var syncVersion: nat
    var getQueue: seq<Op>
    var getQueueLen: int
    var opChs: map<nat, seq<Reply>>

    ghost function View(): Fields
      reads this
    {
      Fields(Store(kv, versions), syncVersion, getQueue, getQueueLen, opChs)
    }

    constructor (me: nat, syncVersion: nat)
      ensures this.me == me && View() == Fresh(syncVersion)
    {
      this.me, this.syncVersion := me, syncVersion;
      kv, versions, getQueue, getQueueLen, opChs := map[], map[], [], 0, map[];
    }

    method DoGet(key: string) returns (reply: Reply)
      ensures reply == Lookup(View().store, key)
    {
      if key in kv {
        var version := 0;
        if key in versions { version := versions[key]; }
        return GetReply(kv[key], version, OK);
      }
      return GetReply("", 0, ErrNoKey);
    }

    method DoPut(key: string, value: string, version: nat) returns (reply: Reply)
      requires key != SyncKey
      modifies this`kv, this`versions
      ensures reply == Answer(old(View()).store, Put(key, value, version))
      ensures View() == old(View()).(store := Execute(old(View()).store, Put(key, value, version)))
    {
      if key !in versions && version == 0 {
        kv := kv[key := value];
        versions := versions[key := 1];
        return PutReply(OK);
      } else if key in versions && version == versions[key] {
        kv := kv[key := value];
        versions := versions[key := version + 1];
        return PutReply(OK);
      }
      return PutReply(ErrVersion);
    }

    // ---------------------------------------------------------------- the sync branch, step by step

    /** A new nonce: first step of a release, and what the sync goroutine does when its sync was not confirmed. */
    method DrawVersion(nu: nat)
      modifies this`syncVersion
      ensures View() == Renew(old(View()), nu)
    {
      syncVersion := nu;
    }

    method LowerLength(count: nat)
      modifies this`getQueueLen
      ensures View() == Lower(old(View()), count)
    {
      getQueueLen := getQueueLen - count;
    }

    /** One round of the dequeue loop. */
    method ServeNext() returns (done: Done)
      modifies this`getQueue, this`opChs
      ensures (done, View()) == ServeFirst(old(View()))
    {
      if getQueue == [] { return Blocked; }
      var getOp := getQueue[0];
      getQueue := getQueue[1..];
      if getOp.id !in opChs { return Panicked; }
      var result := DoGet(getOp.key);
      opChs := opChs[getOp.id := opChs[getOp.id] + [result]];
      return Replied(result);
    }

    /** The sync branch without interruption: with our nonce, draw the next one and answer `count` queued Gets. */
    method DoSync(server: nat, count: nat, nonce: nat, nu: nat) returns (done: Done)
      modifies this
      ensures (done, View()) == Perform(old(View()), me, Sync(server, count, nonce), nu)
    {
      if server == me && nonce == syncVersion {
        DrawVersion(nu);
        LowerLength(count);
        ghost var start := View();
        var i := 0;
        while i < count
          invariant 0 <= i <= count && Drain(start, count) == Drain(View(), count - i)
        {
          var served := ServeNext();
          if !served.Replied? { return served; }
          i := i + 1;
        }
      }
      return Replied(PutReply(OK));
    }

    method DoOp(req: Request, nu: nat) returns (done: Done)
      modifies this
      ensures (done, View()) == Perform(old(View()), me, req, nu)
    {
      match req {
        case Get(key) =>
          var reply := DoGet(key);
          done := Replied(reply);
        case Put(key, value, version) =>
          if key == SyncKey { return Replied(PutReply(OK)); }
          var reply := DoPut(key, value, version);
          done := Replied(reply);
        case Sync(server, count, nonce) =>
          done := DoSync(server, count, nonce, nu);
      }
    }

    // ---------------------------------------------------------------- Get, step by step

    /** Get up to the counter. */
    method GetCounts(id: nat)
      modifies this`opChs, this`getQueueLen
      ensures View() == Count(old(View()), id)
    {
      opChs := opChs[id := []];
      getQueueLen := getQueueLen + 1;
    }

    /** Get sends its operation to the queue and then waits on its channel. */
    method GetEnqueues(id: nat, key: string)
      modifies this`getQueue
      ensures View() == Send(old(View()), Op(id, key))
    {
      getQueue := getQueue + [Op(id, key)];
    }

    /** Get once its channel has an answer: it returns it and removes the channel. */
    method GetReturns(id: nat) returns (reply: Reply)
      requires id in opChs && opChs[id] != []
      modifies this`opChs
      ensures reply == old(opChs)[id][0] && View() == old(View()).(chans := old(View()).chans - {id})
    {
      reply := opChs[id][0];
      opChs := opChs - {id};
    }

    // ---------------------------------------------------------------- the sync goroutine, step by step

    /** It reads the length; zero or less means there is nothing to do. */
    method ReadLength() returns (queuelen: int)
      ensures queuelen == View().queueLen
    {
      queuelen := getQueueLen;
    }

    /** Later it reads the nonce and makes up the sync. */
    method MakeSync(queuelen: nat) returns (req: Request)
      ensures req == Sync(me, queuelen, View().nonce)
    {
      var version := syncVersion;
      req := Sync(me, queuelen, version);
    }
  }

  // ---------------------------------------------------------------- what draining does

  predicate Served(v: Fields, count: nat) {
    count <= |v.queue| && forall j | 0 <= j < count :: v.queue[j].id in v.chans
  }

  predicate DistinctIds(ops: seq<Op>) { forall i, j | 0 <= i < j < |ops| :: ops[i].id != ops[j].id }

  lemma ServeFirstServes(v: Fields, v': Fields, count: nat)
    requires count > 0 && ServeFirst(v).0.Replied? && v' == ServeFirst(v).1
    ensures Served(v, count) <==> Served(v', count - 1)
  {
    if Served(v', count - 1) {
      forall j | 0 <= j < count ensures v.queue[j].id in v.chans {
        if j > 0 { assert v'.queue[j - 1] == v.queue[j]; }
      }
    }
  }

  /**
   * Draining ends with a reply exactly when enough Gets are queued and each has its channel; then it takes the first
   * `count`.
   */
  lemma {:induction false} DrainReplies(v: Fields, count: nat)
    ensures Drain(v, count).0.Replied? <==> Served(v, count)
    ensures Served(v, count) ==>
              && Drain(v, count).0 == Replied(PutReply(OK))
              && Drain(v, count).1 == v.(queue := v.queue[count..], chans := Drain(v, count).1.chans)
    decreases count
  {
    if count > 0 && ServeFirst(v).0.Replied? {
      var v' := ServeFirst(v).1;
      ServeFirstServes(v, v', count);
      DrainReplies(v', count - 1);
    }
  }

  /** Each of the first `count` Gets gets one answer, from the store; no other channel is touched. */
  lemma {:induction false} DrainAnswers(v: Fields, count: nat, id: nat)
    requires Served(v, count) && DistinctIds(v.queue[..count])
    ensures var chans := Drain(v, count).1.chans;
            && chans.Keys == v.chans.Keys
            && (forall j | 0 <= j < count && v.queue[j].id == id ::
                  chans[id] == v.chans[id] + [Lookup(v.store, v.queue[j].key)])
            && (id in v.chans && (forall j | 0 <= j < count :: v.queue[j].id != id) ==> chans[id] == v.chans[id])
    decreases count
  {
    if count > 0 {
      var v' := ServeFirst(v).1;
      ServeFirstServes(v, v', count);
      assert forall j | 0 <= j < count - 1 :: v'.queue[j] == v.queue[j + 1];
      assert forall j | 0 <= j < count :: v.queue[..count][j] == v.queue[j];
      DrainAnswers(v', count - 1, id);
    }
  }

  // ---------------------------------------------------------------- the machine's replica

  function OpOf(g: GetOp): Op { Op(g.id, g.key) }

  function OpsOf(gets: seq<GetOp>): seq<Op> { seq(|gets|, i requires 0 <= i < |gets| => OpOf(gets[i])) }

  ghost function Open(chans: map<nat, seq<Reply>>): set<nat> { set id | id in chans && chans[id] == [] }

  /** A server looks like replica rep: a channel counts as waiting until something was sent on it. */
  ghost predicate Fits(v: Fields, rep: Replica) {
    && v.store == rep.store && v.nonce == rep.nonce && v.queue == OpsOf(rep.queue) && v.queueLen == rep.queueLen
    && rep.chans == Open(v.chans)
  }

  /** DoOp on the entry the reader received, up to the end or to the first step of a release. */
  function Receive(v: Fields, rep: Replica, r: nat, cmd: Command, nu: nat): Fields {
    if !cmd.Command? then v
    else if Releases(rep, r, cmd.req) then Renew(v, nu)
    else Perform(v, r, cmd.req, nu).1
  }

  /** What the server's methods do when event e happens at it. */
  ghost function React(v: Fields, s: State, e: Event): Fields
    requires Enabled(s, e) && !e.Commit? && !e.StraySync?
  {
    var rep := s.replicas[e.r];
    match e
    case CallGet(_, id, _) => Count(v, id)
    case Enqueue(_, i) => Send(v, OpOf(rep.arriving[i]))
    case Apply(r, nu) => Receive(v, rep, r, s.log[rep.applied], nu)
    case Subtract(_) => Lower(v, rep.work.count)
    case Dequeue(_) => ServeFirst(v).1
    case SyncFailed(_, nu) => Renew(v, nu)
    case Crash(_, nu) => Fresh(nu)
    case _ => v
  }

  lemma CountFits(v: Fields, rep: Replica, id: nat, key: string)
    requires Fits(v, rep)
    ensures Fits(Count(v, id), Counted(rep, id, key))
  {
    assert Open(v.chans[id := []]) == Open(v.chans) + {id};
  }

  lemma SendFits(v: Fields, rep: Replica, i: nat)
    requires Fits(v, rep) && i < |rep.arriving|
    ensures Fits(Send(v, OpOf(rep.arriving[i])), Enqueued(rep, i))
  {
    assert OpsOf(rep.queue + [rep.arriving[i]]) == OpsOf(rep.queue) + [OpOf(rep.arriving[i])];
  }

  /** One round of the loop answers the Get the machine answers, with the same reply. */
  lemma ServeFits(v: Fields, rep: Replica)
    requires Fits(v, rep) && rep.queue != [] && rep.queue[0].id in rep.chans && rep.work.Draining? && rep.work.left > 0
    ensures ServeFirst(v).0 == Replied(Lookup(rep.store, rep.queue[0].key)) && Fits(ServeFirst(v).1, Dequeued(rep))
    ensures ServeFirst(v).1.chans == v.chans[rep.queue[0].id := [Lookup(rep.store, rep.queue[0].key)]]
  {
    var g := rep.queue[0];
    assert v.queue[0] == OpOf(g) && OpsOf(rep.queue)[1..] == OpsOf(rep.queue[1..]);
    assert g.id in Open(v.chans) && v.chans[g.id] + [Lookup(v.store, g.key)] == [Lookup(v.store, g.key)];
    assert Open(v.chans[g.id := [Lookup(v.store, g.key)]]) == Open(v.chans) - {g.id};
  }

  /** DoOp on an entry that releases nothing: the store's answer, and that is what the reader posts. */
  lemma ExecuteFits(v: Fields, rep: Replica, r: nat, cmd: Command, nu: nat)
    requires Fits(v, rep) && cmd.Command? && !Releases(rep, r, cmd.req) && !cmd.req.Get?
    ensures Perform(v, r, cmd.req, nu).0 == Replied(Answer(rep.store, cmd.req))
    ensures Fits(Perform(v, r, cmd.req, nu).1, Executed(rep, cmd.id, cmd.req))
    ensures Executed(rep, cmd.id, cmd.req).waits == Post(rep.waits, cmd.id, Value(Perform(v, r, cmd.req, nu).0.reply))
  {
  }

  lemma ApplyFits(v: Fields, s: State, r: nat, nu: nat, rep: Replica, cmd: Command)
    requires Fits(v, rep) && cmd.Command? && !cmd.req.Get?
    ensures Fits(Receive(v, rep, r, cmd, nu), Received(s, r, rep, cmd, nu))
  {
    if !Releases(rep, r, cmd.req) { ExecuteFits(v, rep, r, cmd, nu); }
  }

  lemma NextIsNoGet(s: State, p: nat)
    requires RequestsOK(s) && p < |s.log|
    ensures s.log[p].Command? && !s.log[p].req.Get?
  {
    assert EntryOK(p, s.log[p], s) && SubOK(s.log[p].id, s.log[p].req, s.calls, s.syncs);
  }

  /** Event by event, the server's methods do to its fields what the machine does to the replica. */
  lemma Simulates(v: Fields, s: State, e: Event, s': State)
    requires Inv(s) && Enabled(s, e) && s' == Next(s, e) && !e.Commit? && !e.StraySync? && Fits(v, s.replicas[e.r])
    ensures e.r < |s'.replicas| && Fits(React(v, s, e), s'.replicas[e.r])
  {
    if e.Apply? { ApplySimulates(v, s, e.r, e.nu, s'); } else { OthersSimulate(v, s, e, s.replicas[e.r], s'); }
  }

  lemma ApplySimulates(v: Fields, s: State, r: nat, nu: nat, s': State)
    requires Inv(s) && Enabled(s, Apply(r, nu)) && s' == Next(s, Apply(r, nu)) && Fits(v, s.replicas[r])
    ensures |s'.replicas| == |s.replicas| && Fits(React(v, s, Apply(r, nu)), s'.replicas[r])
  {
    var rep := s.replicas[r];
    NextIsNoGet(s, rep.applied);
    ApplyFits(v, s, r, nu, rep, s.log[rep.applied]);
    assert s'.replicas[r] == Received(s, r, rep, s.log[rep.applied], nu);
  }

  lemma OthersSimulate(v: Fields, s: State, e: Event, rep: Replica, s': State)
    requires Enabled(s, e) && s' == Next(s, e) && !e.Commit? && !e.StraySync? && !e.Apply?
    requires rep == s.replicas[e.r] && Fits(v, rep)
    ensures |s'.replicas| == |s.replicas| && Fits(React(v, s, e), s'.replicas[e.r])
  {
    if AtReader(e) { ReaderFits(v, s, e, rep, s'); }
    else if AtSubmit(e) { SubmitFits(v, s, e, rep, s'); }
    else if AtGets(e) { GetsFit(v, s, e, rep, s'); }
    else { SyncFits(v, s, e, rep, s'); }
  }

  lemma ReaderFits(v: Fields, s: State, e: Event, rep: Replica, s': State)
    requires Enabled(s, e) && s' == Next(s, e) && AtReader(e) && !e.Apply? && rep == s.replicas[e.r] && Fits(v, rep)
    ensures |s'.replicas| == |s.replicas| && Fits(React(v, s, e), s'.replicas[e.r])
  {
    if e.Dequeue? { ServeFits(v, rep); }
  }

  lemma SubmitFits(v: Fields, s: State, e: Event, rep: Replica, s': State)
    requires Enabled(s, e) && s' == Next(s, e) && AtSubmit(e) && rep == s.replicas[e.r] && Fits(v, rep)
    ensures |s'.replicas| == |s.replicas| && Fits(React(v, s, e), s'.replicas[e.r])
  {
    SubmitOnlyAt(s, e, s');
  }

  lemma GetsFit(v: Fields, s: State, e: Event, rep: Replica, s': State)
    requires Enabled(s, e) && s' == Next(s, e) && AtGets(e) && rep == s.replicas[e.r] && Fits(v, rep)
    ensures |s'.replicas| == |s.replicas| && Fits(React(v, s, e), s'.replicas[e.r])
  {
    match e
    case CallGet(_, id, key) => CountFits(v, rep, id, key);
    case Enqueue(_, i) => SendFits(v, rep, i);
  }

  lemma SyncFits(v: Fields, s: State, e: Event, rep: Replica, s': State)
    requires Enabled(s, e) && s' == Next(s, e) && AtSync(e) && rep == s.replicas[e.r] && Fits(v, rep)
    ensures |s'.replicas| == |s.replicas| && Fits(React(v, s, e), s'.replicas[e.r])
  {
    if e.Crash? { assert Open(map[]) == {}; }
  }

  /** A Get that takes its answer and leaves changes nothing the machine sees. */
  lemma LeavingFits(v: Fields, rep: Replica, id: nat)
    requires Fits(v, rep) && id in v.chans && v.chans[id] != []
    ensures Fits(v.(chans := v.chans - {id}), rep)
  {
    assert Open(v.chans - {id}) == Open(v.chans);
  }

  /** The sync goroutine's two reads make the sync the machine sends, when there is something to send. */
  lemma SyncSimulates(v: Fields, s: State, r: nat)
    requires r < |s.replicas| && Fits(v, s.replicas[r])
    ensures s.replicas[r].pc.Idle? ==> (v.queueLen > 0 <==> Enabled(s, LoadLength(r)))
    ensures Enabled(s, LoadLength(r)) ==> Next(s, LoadLength(r)).replicas[r].pc.count == v.queueLen
    ensures Enabled(s, SendSync(r)) ==>
              var s' := Next(s, SendSync(r));
              v.nonce in s'.syncs && SyncRequest(s', v.nonce) == Sync(r, s.replicas[r].pc.count, v.nonce)
  {
  }

  // ---------------------------------------------------------------- runs

  /** Gets that take their answers and leave, one after the other; one without an answer yet stays. */
  function Depart(v: Fields, ids: seq<nat>): Fields {
    if ids == [] then v
    else
      var w, id := Depart(v, ids[..|ids| - 1]), ids[|ids| - 1];
      if id in w.chans && w.chans[id] != [] then w.(chans := w.chans - {id}) else w
  }

  lemma {:induction false} DepartFits(v: Fields, rep: Replica, ids: seq<nat>)
    requires Fits(v, rep)
    ensures Fits(Depart(v, ids), rep)
    decreases |ids|
  {
    if ids != [] {
      var w, id := Depart(v, ids[..|ids| - 1]), ids[|ids| - 1];
      DepartFits(v, rep, ids[..|ids| - 1]);
      if id in w.chans && w.chans[id] != [] { LeavingFits(w, rep, id); }
    }
  }

  lemma FreshFits(nonce: nat, ids: seq<nat>)
    ensures Fits(Depart(Fresh(nonce), ids), Booted(nonce))
  {
    assert Open(map[]) == {};
    DepartFits(Fresh(nonce), Booted(nonce), ids);
  }

  /** What event e does to server r. */
  ghost function Reaction(v: Fields, s: State, e: Event, r: nat): Fields
    requires Enabled(s, e)
  {
    if e.Commit? || e.StraySync? || e.r != r then v else React(v, s, e)
  }

  /** The fields of server r after the first i events of a run, when the Gets in leaves[k] leave after k events. */
  ghost function FieldsAt(
      nonces: seq<nat>, events: seq<Event>, states: seq<State>, leaves: seq<seq<nat>>, r: nat, i: nat): Fields
    requires AlrMachine.IsRun(nonces, events, states) && |leaves| == |states| && r < |nonces| && i < |states|
  {
    if i == 0 then Depart(Fresh(nonces[r]), leaves[0])
    else
      var v := FieldsAt(nonces, events, states, leaves, r, i - 1);
      Depart(Reaction(v, states[i - 1], events[i - 1], r), leaves[i])
  }

  lemma StepFits(v: Fields, s: State, e: Event, s': State, r: nat, ids: seq<nat>)
    requires Inv(s) && Enabled(s, e) && s' == Next(s, e) && r < |s.replicas| && Fits(v, s.replicas[r])
    ensures r < |s'.replicas| && Fits(Depart(Reaction(v, s, e, r), ids), s'.replicas[r])
  {
    SameReplicas(s, e, s');
    if !e.Commit? && !e.StraySync? && e.r == r { Simulates(v, s, e, s'); }
    DepartFits(Reaction(v, s, e, r), s'.replicas[r], ids);
  }

  lemma NextFits(
      nonces: seq<nat>, events: seq<Event>, states: seq<State>, v: Fields, r: nat, i: nat, ids: seq<nat>)
    requires AlrMachine.IsRun(nonces, events, states) && i < |events|
    requires r < |states[i].replicas| && Fits(v, states[i].replicas[r])
    ensures r < |states[i + 1].replicas|
    ensures Fits(Depart(Reaction(v, states[i], events[i], r), ids), states[i + 1].replicas[r])
  {
    A.RunKeeps(nonces, events, states, i);
    StepFits(v, states[i], events[i], states[i + 1], r, ids);
  }

  /** Over every run, and whenever Gets leave, the fields the methods compute look like the machine's replica. */
  lemma {:induction false} ServerFollows(
      nonces: seq<nat>, events: seq<Event>, states: seq<State>, leaves: seq<seq<nat>>, r: nat, i: nat)
    requires AlrMachine.IsRun(nonces, events, states) && |leaves| == |states| && r < |nonces| && i < |states|
    ensures r < |states[i].replicas| && Fits(FieldsAt(nonces, events, states, leaves, r, i), states[i].replicas[r])
  {
    if i == 0 {
      FreshFits(nonces[r], leaves[0]);
    } else {
      ServerFollows(nonces, events, states, leaves, r, i - 1);
      NextFits(nonces, events, states, FieldsAt(nonces, events, states, leaves, r, i - 1), r, i - 1, leaves[i]);
    }
  }
}
