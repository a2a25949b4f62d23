/**
 * A cluster of n peers as a step machine: one event is one critical section of src/raft,
 * or a crash followed by a restart.  The network is the set of all messages ever sent, so a
 * message may be handled never, late, in any order and any number of times.
 */
module RaftCluster {
  import opened RaftTypes
  import opened RaftHandlers

  /** (server, term): an election a server stood in, or a term a server acknowledged entries in. */
  datatype Stamp = Stamp(id: nat, term: nat)
  datatype Slot = Slot(index: nat, term: nat)
  datatype Grant = Grant(voter: nat, cand: nat, term: nat)
  datatype Delivery = Delivery(server: nat, index: nat, entry: Entry)

  /** A term that got a leader: who, by whose votes, the log it started with and its log so far. */
  datatype Reign = Reign(leader: nat, voters: set<nat>, first: Log, log: Log)

  /**
   * What happened so far; no handler reads it.
   *   cands     log of each candidate when it started its election
   *   grants    every vote ever given, a candidate's own included
   *   reigns    the leader of each term
   *   acked     highest index a server accepted (or, as leader, appended) in a term
   *   points    highest index the leader of a term committed by counting acknowledgements
   *   started   where Start put each command id
   *   delivered every ApplyMsg with a valid command
   */
  datatype History = History(
    cands: map<Stamp, Log>, grants: set<Grant>, reigns: map<nat, Reign>, acked: map<Stamp, nat>,
    points: map<nat, nat>, started: map<nat, Slot>, delivered: set<Delivery>)

  datatype Cluster = Cluster(servers: seq<Server>, net: set<Msg>, hist: History)

  datatype Event =
    | Timeout(s: nat)
    | RecvVoteReq(s: nat, vargs: VoteArgs)
    | RecvVoteRep(s: nat, voter: nat, vargs: VoteArgs, vreply: VoteReply)
    | Heartbeat(s: nat)
    | ClientStart(s: nat, cmd: Command)
    | RecvAppend(s: nat, args: AppendArgs)
    | RecvAppendRep(s: nat, peer: nat, args: AppendArgs, reply: AppendReply)
    | Take(s: nat)
    | Deliver(s: nat)
    | Restart(s: nat)

  function Init(n: nat): Cluster {
    Cluster(seq(n, _ => Boot(Blank)), {}, History(map[], {}, map[], map[], map[], map[], {}))
  }

  /** Messages reach their addressee; a command handed to Start carries an id never used before. */
  predicate Enabled(c: Cluster, e: Event) {
    && e.s < |c.servers|
    && match e
       case RecvVoteReq(s, a) => VoteReq(a) in c.net && s != a.cand
       case RecvVoteRep(s, voter, a, r) => VoteRep(voter, a, r) in c.net && s == a.cand
       case RecvAppend(s, a) => AppendReq(s, a) in c.net
       case RecvAppendRep(s, peer, a, r) => AppendRep(peer, a, r) in c.net && s == a.leader
       case ClientStart(_, cmd) => cmd.Command? && cmd.id !in c.hist.started
       case Deliver(s) => c.servers[s].batch != []
       case _ => true
  }

  /** The peer after the event. */
  function After(c: Cluster, e: Event): Server
    requires e.s < |c.servers|
  {
    var sv := c.servers[e.s];
    match e
    case Timeout(s) => OnTimeout(sv, s)
    case RecvVoteReq(_, a) => OnVoteReq(sv, a)
    case RecvVoteRep(s, voter, a, r) => OnVoteRep(sv, s, |c.servers|, voter, a, r)
    case Heartbeat(_) => sv
    case ClientStart(s, cmd) => OnStart(sv, s, cmd)
    case RecvAppend(_, a) => OnAppend(sv, a)
    case RecvAppendRep(s, peer, a, r) => OnAppendRep(sv, s, peer, a, r)
    case Take(_) => OnTake(sv)
    case Deliver(_) => OnDeliver(sv)
    case Restart(_) => Boot(sv.disk)
  }

  /** The messages the event sends. */
  function Sends(c: Cluster, e: Event): set<Msg>
    requires e.s < |c.servers|
  {
    var sv, sv' := c.servers[e.s], After(c, e);
    match e
    case Timeout(s) => {VoteReq(Ballots(sv', s))}
    case RecvVoteReq(s, a) => {VoteRep(s, a, VoteAnswer(sv, a))}
    case RecvVoteRep(s, voter, a, r) =>
      if Wins(sv, |c.servers|, voter, a, r) then Broadcast(sv', s) else {}
    case Heartbeat(s) => Broadcast(sv, s)
    case ClientStart(s, _) => Broadcast(sv', s)
    case RecvAppend(s, a) => {AppendRep(s, a, AppendAnswer(sv, a))}
    case RecvAppendRep(s, peer, a, r) => Retry(sv, s, peer, a, r)
    case _ => {}
  }

  function Raise(m: map<Stamp, nat>, k: Stamp, v: nat): map<Stamp, nat> {
    if k in m && m[k] >= v then m else m[k := v]
  }

  function Record(c: Cluster, e: Event): History
    requires e.s < |c.servers|
  {
    var h, sv, sv' := c.hist, c.servers[e.s], After(c, e);
    match e
    case Timeout(s) =>
      h.(cands := h.cands[Stamp(s, sv'.term) := sv'.log], grants := h.grants + {Grant(s, s, sv'.term)})
    case RecvVoteReq(s, a) =>
      if Grants(sv, a) then h.(grants := h.grants + {Grant(s, a.cand, a.term)}) else h
    case RecvVoteRep(s, voter, a, r) =>
      if Wins(sv, |c.servers|, voter, a, r) then
        h.(reigns := h.reigns[sv'.term := Reign(s, sv'.voters, sv'.log, sv'.log)],
           acked := Raise(h.acked, Stamp(s, sv'.term), Max(0, LastIndex(sv'.log))))
      else h
    case ClientStart(s, cmd) =>
      if sv.role == Leader && sv.term in h.reigns && cmd.Command? then
        h.(reigns := h.reigns[sv.term := h.reigns[sv.term].(log := sv'.log)],
           acked := Raise(h.acked, Stamp(s, sv.term), LastIndex(sv'.log)),
           started := h.started[cmd.id := Slot(LastIndex(sv'.log), sv.term)])
      else h
    case RecvAppend(s, a) =>
      if Accepts(sv, a) then h.(acked := Raise(h.acked, Stamp(s, a.term), Max(0, a.End()))) else h
    case RecvAppendRep(s, _, _, _) =>
      if sv'.commit > sv.commit && sv'.commit >= 0 then h.(points := h.points[sv.term := sv'.commit]) else h
    case Deliver(s) =>
      if sv.batch != [] then h.(delivered := h.delivered + {Delivery(s, sv'.applied, sv.batch[0])}) else h
    case _ => h
  }

  function Step(c: Cluster, e: Event): Cluster
    requires Enabled(c, e)
  {
    Cluster(c.servers[e.s := After(c, e)], c.net + Sends(c, e), Record(c, e))
  }

  /**
   * The in-order hypothesis: a peer never accepts an AppendEntries of a term that ends below
   * one it already accepted in that term.
   */
  predicate InOrder(c: Cluster, e: Event) {
    e.RecvAppend? && e.s < |c.servers| && Accepts(c.servers[e.s], e.args) && Stamp(e.s, e.args.term) in c.hist.acked
    ==> e.args.End() >= c.hist.acked[Stamp(e.s, e.args.term)]
  }

  /** The states a list of events leads through, starting from the initial one. */
  predicate IsRun(n: nat, events: seq<Event>, states: seq<Cluster>) {
    && |states| == |events| + 1
    && states[0] == Init(n)
    && forall i | 0 <= i < |events| :: Enabled(states[i], events[i]) && states[i + 1] == Step(states[i], events[i])
  }

  predicate Ordered(events: seq<Event>, states: seq<Cluster>)
    requires |states| == |events| + 1
  {
    forall i | 0 <= i < |events| :: InOrder(states[i], events[i])
  }
}
