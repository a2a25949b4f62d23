/**
 * Progress is always possible.  From every reachable state of an in-order run, any majority of at least two peers can
 * by itself elect a leader, replicate a new command and apply it: nothing the peers remember stands in the way.
 */
module RaftProgress {
  import opened RaftTypes
  import opened RaftHandlers
  import opened RaftCluster
  import opened RaftInvariant
  import opened RaftSteps
  import opened RaftSafety
  import opened RaftSafetySteps
  import opened RaftElections
  import R = RaftTheorems
  import T = RaftTerms
  import P = Paths

  // ---------------------------------------------------------------- what a group of peers can reach

  /** An event at a member of q, in order; a leader does not time out. */
  ghost predicate Natural(c: Cluster, q: set<nat>, e: Event) {
    Enabled(c, e) && InOrder(c, e) && e.s in q && (e.Timeout? ==> c.servers[e.s].role != Leader)
  }

  ghost predicate Goes(c: Cluster, q: set<nat>, c': Cluster) { exists e :: Natural(c, q, e) && c' == Step(c, e) }

  ghost function By(q: set<nat>): (Cluster, Cluster) -> bool { (c: Cluster, c': Cluster) => Goes(c, q, c') }

  /** The peers in q can by themselves bring the cluster from c to c'. */
  ghost predicate Can(c: Cluster, q: set<nat>, c': Cluster) { P.Reaches(By(q), c, c') }

  lemma CanStay(c: Cluster, q: set<nat>)
    ensures Can(c, q, c)
  {
    P.Stay(By(q), c);
  }

  lemma CanStep(c: Cluster, q: set<nat>, e: Event, c': Cluster)
    requires Natural(c, q, e) && c' == Step(c, e)
    ensures Can(c, q, c')
  {
    P.One(By(q), c, c');
  }

  lemma CanThrough(c: Cluster, q: set<nat>, d: Cluster, e: Cluster)
    requires Can(c, q, d) && Can(d, q, e)
    ensures Can(c, q, e)
  {
    P.Through(By(q), c, d, e);
  }

  lemma GoesSafely(c: Cluster, q: set<nat>, c': Cluster)
    requires Safe(c) && Goes(c, q, c')
    ensures Safe(c') && |c'.servers| == |c.servers|
  {
    var e :| Natural(c, q, e) && c' == Step(c, e);
    StepSafe(c, e);
  }

  lemma {:induction false} PathIsSafe(q: set<nat>, path: seq<Cluster>, i: nat)
    requires P.IsPath(By(q), path) && Safe(path[0]) && i < |path|
    ensures Safe(path[i]) && |path[i].servers| == |path[0].servers|
  {
    if i > 0 {
      PathIsSafe(q, path, i - 1);
      assert By(q)(path[i - 1], path[i - 1 + 1]);
      GoesSafely(path[i - 1], q, path[i]);
    }
  }

  lemma CanSafely(c: Cluster, q: set<nat>, c': Cluster)
    requires Safe(c) && Can(c, q, c')
    ensures Safe(c') && |c'.servers| == |c.servers|
  {
    var path :| P.IsPath(By(q), path) && path[0] == c && path[|path| - 1] == c';
    PathIsSafe(q, path, |path| - 1);
  }

  /** Only peer p changed. */
  ghost predicate Only(c: Cluster, p: nat, c': Cluster) {
    && p < |c.servers| == |c'.servers| && c.net <= c'.net
    && forall s | 0 <= s < |c.servers| && s != p :: c'.servers[s] == c.servers[s]
  }

  lemma OnlyThrough(c: Cluster, p: nat, d: Cluster, e: Cluster)
    requires Only(c, p, d) && Only(d, p, e)
    ensures Only(c, p, e)
  {
  }

  lemma StepOnly(c: Cluster, e: Event, c': Cluster)
    requires Enabled(c, e) && c' == Step(c, e)
    ensures Only(c, e.s, c') && c'.servers[e.s] == After(c, e) && Sends(c, e) <= c'.net
  {
  }

  ghost predicate Members(q: set<nat>, n: nat) { forall s | s in q :: s < n }

  // ---------------------------------------------------------------- nobody leads

  lemma {:induction false} Settle(c: Cluster, q: set<nat>, todo: set<nat>) returns (c': Cluster)
    requires Members(q, |c.servers|) && todo <= q
    ensures Can(c, q, c') && |c'.servers| == |c.servers| && forall s | s in todo :: c'.servers[s].role != Leader
    ensures c'.hist.started == c.hist.started
    ensures forall s | 0 <= s < |c.servers| && s !in todo :: c'.servers[s] == c.servers[s]
    decreases |todo|
  {
    if todo == {} {
      c' := c;
      CanStay(c, q);
    } else {
      var s :| s in todo;
      var d := Step(c, Restart(s));
      CanStep(c, q, Restart(s), d);
      c' := Settle(d, q, todo - {s});
      CanThrough(c, q, d, c');
    }
  }

  // ---------------------------------------------------------------- an election

  /** p asks for votes with ballot a, in a term later than m. */
  ghost predicate Stands(c: Cluster, p: nat, a: VoteArgs, m: nat) {
    && p < |c.servers| && c.servers[p].role == Candidate && a == Ballots(c.servers[p], p) && a.term > m
    && c.servers[p].voters == {p} && VoteReq(a) in c.net
  }

  lemma TimesOut(c: Cluster, p: nat, sv: Server, c': Cluster)
    requires Enabled(c, Timeout(p)) && sv == c.servers[p] && c' == Step(c, Timeout(p))
    ensures Only(c, p, c') && c'.servers[p].term == sv.term + 1 && c'.servers[p].log == sv.log
    ensures c'.hist.started == c.hist.started
    ensures Stands(c', p, Ballots(c'.servers[p], p), sv.term)
  {
    StepOnly(c, Timeout(p), c');
  }

  /** A peer times out until its term is later than m. */
  lemma {:induction false} Campaigns(c: Cluster, q: set<nat>, p: nat, m: nat) returns (c': Cluster)
    requires p in q && p < |c.servers| && c.servers[p].role != Leader && c.servers[p].term <= m
    ensures Can(c, q, c') && Only(c, p, c') && c'.servers[p].log == c.servers[p].log
    ensures c'.hist.started == c.hist.started
    ensures Stands(c', p, Ballots(c'.servers[p], p), m)
    decreases m - c.servers[p].term
  {
    c' := Step(c, Timeout(p));
    CanStep(c, q, Timeout(p), c');
    TimesOut(c, p, c.servers[p], c');
    if c'.servers[p].term <= m {
      var d := c';
      c' := Campaigns(d, q, p, m);
      CanThrough(c, q, d, c');
      OnlyThrough(c, p, d, c');
    }
  }

  /** p stands with ballot a, has no majority yet, and whoever in q has not voted for it can. */
  ghost predicate Polling(c: Cluster, q: set<nat>, p: nat, a: VoteArgs) {
    && Members(q, |c.servers|) && p in q && 2 * |c.servers[p].voters| <= |c.servers| < 2 * |q|
    && c.servers[p].role == Candidate && a == Ballots(c.servers[p], p) && VoteReq(a) in c.net
    && p in c.servers[p].voters && c.servers[p].voters <= q
    && (forall s | s in q :: c.servers[s].term <= a.term)
    && forall s | s in q && s !in c.servers[p].voters ::
         c.servers[s].term < a.term && Fresh(c.servers[p].log, c.servers[s].log)
  }

  /** p leads term t with log l, and nobody in q is beyond that term. */
  ghost predicate Heads(c: Cluster, q: set<nat>, p: nat, t: nat, l: Log) {
    && Members(q, |c.servers|) && p in q && c.servers[p].role == Leader && c.servers[p].term == t
    && c.servers[p].log == l
    && forall s | s in q :: c.servers[s].term <= t
  }

  lemma Votes(c: Cluster, q: set<nat>, p: nat, a: VoteArgs, s: nat, c': Cluster)
    requires Polling(c, q, p, a) && s in q && s !in c.servers[p].voters && Natural(c, q, RecvVoteReq(s, a))
    requires c' == Step(c, RecvVoteReq(s, a))
    ensures Only(c, s, c') && c'.servers[s].term == a.term && c'.servers[s].log == c.servers[s].log
    ensures VoteRep(s, a, VoteReply(c.servers[s].term, true)) in c'.net && c'.hist.started == c.hist.started
  {
    StepOnly(c, RecvVoteReq(s, a), c');
    assert Grants(c.servers[s], a);
  }

  /** p counts the vote of s: it leads now, or goes on polling. */
  lemma Counted(c: Cluster, q: set<nat>, p: nat, a: VoteArgs, s: nat, r: VoteReply, sv: Server, c': Cluster)
    requires p < |c.servers| && sv == c.servers[p] && sv.role == Candidate && sv.term == a.term && a.cand == p
    requires VoteRep(s, a, r) in c.net && r.granted && r.term <= a.term && c' == Step(c, RecvVoteRep(p, s, a, r))
    ensures Only(c, p, c') && c'.servers[p].log == sv.log && c'.servers[p].term == a.term
    ensures c'.servers[p].voters == sv.voters + {s} && c'.hist.started == c.hist.started
    ensures c'.servers[p].role == if 2 * |sv.voters + {s}| > |c.servers| then Leader else Candidate
  {
    StepOnly(c, RecvVoteRep(p, s, a, r), c');
  }

  lemma PolledOn(c: Cluster, q: set<nat>, p: nat, a: VoteArgs, s: nat, d: Cluster, c': Cluster)
    requires Polling(c, q, p, a) && s in q && s !in c.servers[p].voters && Only(c, s, d) && Only(d, p, c')
    requires d.servers[s].term == a.term && c'.servers[p].log == c.servers[p].log && c'.servers[p].term == a.term
    requires c'.servers[p].voters == c.servers[p].voters + {s}
    requires c'.servers[p].role == if 2 * |c.servers[p].voters + {s}| > |c.servers| then Leader else Candidate
    ensures if c'.servers[p].role == Leader then Heads(c', q, p, a.term, c.servers[p].log) else Polling(c', q, p, a)
  {
    forall x | x in q ensures c'.servers[x].term <= a.term {
      if x != p && x != s { assert c'.servers[x] == c.servers[x]; }
    }
  }

  /** One more vote. */
  lemma Polls(c: Cluster, q: set<nat>, p: nat, a: VoteArgs, s: nat) returns (c': Cluster)
    requires Polling(c, q, p, a) && s in q && s !in c.servers[p].voters
    ensures Can(c, q, c') && |c'.servers| == |c.servers| && c'.servers[p].log == c.servers[p].log
    ensures if c'.servers[p].role == Leader then Heads(c', q, p, a.term, c.servers[p].log) else Polling(c', q, p, a)
    ensures c'.servers[p].voters == c.servers[p].voters + {s} && c'.hist.started == c.hist.started
  {
    var d := Step(c, RecvVoteReq(s, a));
    CanStep(c, q, RecvVoteReq(s, a), d);
    Votes(c, q, p, a, s, d);
    c' := CountsVote(c, q, p, a, s, VoteReply(c.servers[s].term, true), d);
    PolledOn(c, q, p, a, s, d, c');
    CanThrough(c, q, d, c');
  }

  lemma CountsVote(c: Cluster, q: set<nat>, p: nat, a: VoteArgs, s: nat, r: VoteReply, d: Cluster)
      returns (c': Cluster)
    requires Polling(c, q, p, a) && s in q && s != p && Only(c, s, d) && VoteRep(s, a, r) in d.net
    requires r.granted && r.term <= a.term
    ensures Can(d, q, c') && Only(d, p, c') && c'.servers[p].log == c.servers[p].log && c'.servers[p].term == a.term
    ensures c'.servers[p].voters == c.servers[p].voters + {s} && c'.hist.started == d.hist.started
    ensures c'.servers[p].role == if 2 * |c.servers[p].voters + {s}| > |c.servers| then Leader else Candidate
  {
    c' := Step(d, RecvVoteRep(p, s, a, r));
    CanStep(d, q, RecvVoteRep(p, s, a, r), c');
    Counted(d, q, p, a, s, r, d.servers[p], c');
  }

  lemma SomeoneElse(q: set<nat>, v: set<nat>) returns (s: nat)
    requires |v| < |q|
    ensures s in q && s !in v
  {
    if q - v == {} {
      assert forall x | x in q :: x in v || x in q - v;
      Subset(q, v);
    }
    s :| s in q - v;
  }

  /** A candidate all of q can vote for collects votes until it leads. */
  lemma {:induction false} Collects(c: Cluster, q: set<nat>, p: nat, a: VoteArgs) returns (c': Cluster)
    requires Polling(c, q, p, a)
    ensures Can(c, q, c') && |c'.servers| == |c.servers| && Heads(c', q, p, a.term, c.servers[p].log)
    ensures c'.hist.started == c.hist.started
    decreases |q - c.servers[p].voters|
  {
    var v := c.servers[p].voters;
    var s := SomeoneElse(q, v);
    c' := Polls(c, q, p, a, s);
    if c'.servers[p].role != Leader {
      assert q - c'.servers[p].voters == (q - v) - {s};
      var d := c';
      c' := Collects(d, q, p, a);
      CanThrough(c, q, d, c');
    }
  }

  // ---------------------------------------------------------------- a leader reaches everybody

  /**
   * An AppendEntries of term t for s is on its way that reaches index `last` and tells a commit index of at least m.
   */
  ghost predicate Offers(c: Cluster, s: nat, t: nat, last: int, m: int, a: AppendArgs) {
    AppendReq(s, a) in c.net && a.term == t && a.End() == last && a.commit >= m
  }

  lemma BroadcastReaches(sv: Server, me: nat, h: History, n: nat, s: nat) returns (a: AppendArgs)
    requires LeaderOK(sv, me, h, n) && HistOK(h, n) && sv.role == Leader && s < n && s != me
    ensures AppendReq(s, a) in Broadcast(sv, me) && a.term == sv.term && a.leader == me
    ensures a.End() == LastIndex(sv.log) && a.commit == sv.commit && a.prev == sv.next[s] - 1
  {
    a := Suffix(sv, me, sv.next[s]);
    assert h.reigns[sv.term].first <= sv.log by { assert ReignLogOK(sv.term, h.reigns[sv.term], h); }
    SuffixOK(sv, me, sv.next[s], a, h, n);
  }

  /** The event makes its peer broadcast. */
  predicate Broadcasts(c: Cluster, e: Event)
    requires e.s < |c.servers|
  {
    && After(c, e).role == Leader
    && (e.Heartbeat? || e.ClientStart? || (e.RecvVoteRep? && c.servers[e.s].role != Leader))
  }

  lemma SendsToAll(c: Cluster, e: Event, sv': Server)
    requires Enabled(c, e) && Broadcasts(c, e) && sv' == After(c, e)
    ensures Sends(c, e) == Broadcast(sv', e.s)
    ensures e.RecvVoteRep? ==> forall s | 0 <= s < |sv'.next| :: sv'.next[s] == |sv'.log|
  {
  }

  /**
   * What a new leader, a heartbeat and Start send goes to every other peer, and tells all the leader knows; a new
   * leader sends no entries yet.
   */
  lemma EveryPeerIsSent(n: nat, events: seq<Event>, states: seq<Cluster>, i: nat, s: nat) returns (a: AppendArgs)
    requires IsRun(n, events, states) && i < |events| && s < n && s != events[i].s
    requires events[i].s < |states[i].servers| && Broadcasts(states[i], events[i])
    ensures events[i].s < |states[i + 1].servers|
    ensures AppendReq(s, a) in Sends(states[i], events[i]) && a.leader == events[i].s
    ensures var sv := states[i + 1].servers[events[i].s];
            && a.term == sv.term && a.End() == LastIndex(sv.log) && a.commit == sv.commit
            && (events[i].RecvVoteRep? ==> a.entries == [])
  {
    var c', p := states[i + 1], events[i].s;
    SendsToAll(states[i], events[i], c'.servers[p]);
    assert HistOK(c'.hist, n) && LeaderOK(c'.servers[p], p, c'.hist, n) by {
      R.RunKeeps(n, events, states, i + 1);
      assert ServerOK(c'.servers[p], p, c'.hist, n);
    }
    a := BroadcastReaches(c'.servers[p], p, c'.hist, n, s);
  }

  lemma StartSends(c: Cluster, p: nat, cmd: Command, sv: Server, c': Cluster)
    requires Enabled(c, ClientStart(p, cmd)) && sv == c.servers[p] && sv.role == Leader
    requires c' == Step(c, ClientStart(p, cmd))
    ensures Only(c, p, c') && c'.servers[p].log == sv.log + [Entry(sv.term, cmd)] && c'.servers[p].term == sv.term
    ensures c'.servers[p].role == Leader && Broadcast(c'.servers[p], p) <= c'.net
  {
    StepOnly(c, ClientStart(p, cmd), c');
  }

  lemma Offered(c: Cluster, q: set<nat>, p: nat, t: nat, l: Log, m: int)
    requires Inv(c) && Heads(c, q, p, t, l) && Broadcast(c.servers[p], p) <= c.net && c.servers[p].commit >= m
    ensures forall s | s in q && s != p :: exists a :: Offers(c, s, t, LastIndex(l), m, a)
  {
    forall s | s in q && s != p ensures exists a :: Offers(c, s, t, LastIndex(l), m, a) {
      assert ServerOK(c.servers[p], p, c.hist, |c.servers|);
      var a := BroadcastReaches(c.servers[p], p, c.hist, |c.servers|, s);
      assert Offers(c, s, t, LastIndex(l), m, a);
    }
  }

  lemma CommitInLog(c: Cluster, s: nat)
    requires Safe(c) && s < |c.servers|
    ensures 0 <= c.servers[s].commit < |c.servers[s].log| && ApplierOK(c.servers[s])
  {
    assert SafeServer(c.servers[s], s, c.hist);
  }

  lemma StillHeads(c: Cluster, q: set<nat>, p: nat, t: nat, l: Log, c': Cluster, l': Log)
    requires Heads(c, q, p, t, l) && Only(c, p, c') && c'.servers[p].role == Leader && c'.servers[p].term == t
    requires c'.servers[p].log == l'
    ensures Heads(c', q, p, t, l')
  {
  }

  lemma StartsAt(c: Cluster, q: set<nat>, p: nat, t: nat, l: Log, cmd: Command) returns (c': Cluster)
    requires Heads(c, q, p, t, l) && cmd.Command? && cmd.id !in c.hist.started
    ensures Can(c, q, c') && |c'.servers| == |c.servers| && Heads(c', q, p, t, l + [Entry(t, cmd)])
    ensures Broadcast(c'.servers[p], p) <= c'.net
  {
    c' := Step(c, ClientStart(p, cmd));
    CanStep(c, q, ClientStart(p, cmd), c');
    StartSends(c, p, cmd, c.servers[p], c');
    StillHeads(c, q, p, t, l, c', l + [Entry(t, cmd)]);
  }

  /** The leader takes a new command and offers it to all. */
  lemma Starts(c: Cluster, q: set<nat>, p: nat, t: nat, l: Log, cmd: Command, l': Log) returns (c': Cluster)
    requires Safe(c) && Heads(c, q, p, t, l) && cmd.Command? && cmd.id !in c.hist.started
    requires l' == l + [Entry(t, cmd)]
    ensures Can(c, q, c') && Safe(c') && |c'.servers| == |c.servers| && Heads(c', q, p, t, l')
    ensures forall s | s in q && s != p :: exists a :: Offers(c', s, t, LastIndex(l'), 0, a)
  {
    c' := StartsAt(c, q, p, t, l, cmd);
    assert Safe(c') by { CanSafely(c, q, c'); }
    assert c'.servers[p].commit >= 0 by { CommitInLog(c', p); }
    Offered(c', q, p, t, l', 0);
  }

  lemma BeatsAt(c: Cluster, q: set<nat>, p: nat) returns (c': Cluster)
    requires p in q && p < |c.servers|
    ensures Can(c, q, c') && c'.servers == c.servers && Broadcast(c'.servers[p], p) <= c'.net
  {
    c' := Step(c, Heartbeat(p));
    CanStep(c, q, Heartbeat(p), c');
  }

  /** The leader sends a heartbeat. */
  lemma Beats(c: Cluster, q: set<nat>, p: nat, t: nat, l: Log, m: int) returns (c': Cluster)
    requires Safe(c) && Heads(c, q, p, t, l) && c.servers[p].commit >= m
    ensures Can(c, q, c') && Safe(c') && |c'.servers| == |c.servers| && c'.servers == c.servers
    ensures forall s | s in q && s != p :: exists a :: Offers(c', s, t, LastIndex(l), m, a)
  {
    c' := BeatsAt(c, q, p);
    CanSafely(c, q, c');
    Offered(c', q, p, t, l, m);
  }

  // ---------------------------------------------------------------- a follower catches up

  lemma Copies(c: Cluster, p: nat, s: nat, t: nat, l: Log, a: AppendArgs, sv: Server, sv': Server)
    requires Inv(c) && R.Leads(c, p, t) && c.servers[p].log == l && s < |c.servers| && sv == c.servers[s]
    requires sv.term <= t && AppendReq(s, a) in c.net && a.term == t && a.End() == LastIndex(l)
    requires Fits(sv.log, a) && sv' == OnAppend(sv, a)
    ensures sv'.log == l && sv'.commit >= Min(a.commit, LastIndex(l))
  {
    assert HistOK(c.hist, |c.servers|) && ServerOK(sv, s, c.hist, |c.servers|);
    assert AppendOK(a, c.hist) by { assert MsgOK(AppendReq(s, a), c.hist, |c.servers|); }
    R.LeaderFacts(c, p, t);
    Accepted(sv, a, c.hist, |c.servers|);
    assert c.hist.reigns[t].log[..a.End() + 1] == l;
  }

  /** A message that reaches the end of the leader's log is in order, and comes from that leader. */
  lemma WholeIsInOrder(c: Cluster, p: nat, s: nat, t: nat, a: AppendArgs)
    requires Inv(c) && R.Leads(c, p, t) && s < |c.servers|
    requires AppendReq(s, a) in c.net && a.term == t && a.End() == LastIndex(c.servers[p].log)
    ensures InOrder(c, RecvAppend(s, a)) && a.leader == p && s != p
  {
    R.LeaderFacts(c, p, t);
    assert MsgOK(AppendReq(s, a), c.hist, |c.servers|);
  }

  lemma Receives(c: Cluster, s: nat, a: AppendArgs, sv: Server, c': Cluster)
    requires Enabled(c, RecvAppend(s, a)) && sv == c.servers[s] && sv.term <= a.term
    requires c' == Step(c, RecvAppend(s, a))
    ensures Only(c, s, c') && c'.servers[s] == OnAppend(sv, a) && c'.servers[s].term == a.term
    ensures AppendRep(s, a, AppendAnswer(sv, a)) in c'.net
  {
    StepOnly(c, RecvAppend(s, a), c');
  }

  /** Whatever index of its term the leader knows a majority to hold is committed. */
  ghost predicate Caught(sv: Server, me: nat) { forall N: int | R.MajorityHolds(sv, me, N) :: N <= sv.commit }

  lemma Acknowledges(sv: Server, me: nat, s: nat, a: AppendArgs, r: AppendReply, sv': Server)
    requires sv.role == Leader && a.term == sv.term && r.term <= sv.term && r.success && me < |sv.acks| == |sv.next|
    requires s < |sv.acks| && sv.commit >= 0 && sv' == OnAppendRep(sv, me, s, a, r)
    ensures sv'.role == Leader && sv'.term == sv.term && sv'.log == sv.log && |sv'.acks| == |sv.acks|
    ensures sv'.acks[s] >= a.End() && sv'.next[s] == sv'.acks[s] + 1 && Caught(sv', me) && sv'.commit >= sv.commit
    ensures forall x | 0 <= x < |sv.acks| && x != s :: sv'.acks[x] == sv.acks[x] && sv'.next[x] == sv.next[x]
    ensures |sv'.next| == |sv.next|
  {
    var mid := sv'.(commit := sv.commit);
    R.CommitIsLargestMajority(mid, me);
    forall N: int | R.MajorityHolds(sv', me, N) ensures N <= sv'.commit {
      assert R.Holders(sv', me, N) == R.Holders(mid, me, N);
      assert R.MajorityHolds(mid, me, N);
    }
  }

  /**
   * In an in-order run a leader that hears of a success in its term counts it: it knows the peer to hold what it sent,
   * goes on from there, and commits what a majority now holds; what it knows of the others stays.
   */
  lemma SuccessIsCounted(n: nat, events: seq<Event>, states: seq<Cluster>, i: nat)
    requires IsRun(n, events, states) && Ordered(events, states) && i < |events| && events[i].RecvAppendRep?
    requires R.Leads(states[i], events[i].s, events[i].args.term) && events[i].reply.success
    ensures R.Leads(states[i + 1], events[i].s, events[i].args.term)
    ensures var e, sv, sv' := events[i], states[i].servers[events[i].s], states[i + 1].servers[events[i].s];
            && e.peer < n == |sv.acks| == |sv'.acks| == |sv'.next| == |sv.next| && e.args.End() <= sv'.acks[e.peer]
            && sv'.next[e.peer] == sv'.acks[e.peer] + 1 && Caught(sv', e.s)
            && forall x | 0 <= x < n && x != e.peer :: sv'.acks[x] == sv.acks[x] && sv'.next[x] == sv.next[x]
  {
    var c, e := states[i], events[i];
    R.RunSafe(n, events, states, i);
    assert c.servers[e.s].commit >= 0 by { CommitInLog(c, e.s); }
    LeaderArrays(c, e.s, e.args.term);
    assert MsgOK(AppendRep(e.peer, e.args, e.reply), c.hist, n);
    T.RunAnswers(n, events, states, i);
    Acknowledges(c.servers[e.s], e.s, e.peer, e.args, e.reply, states[i + 1].servers[e.s]);
  }

  /** A refused leader offers the same log again, from an earlier index on. */
  lemma Retreats(sv: Server, me: nat, s: nat, a: AppendArgs, r: AppendReply, h: History, n: nat, sv': Server)
      returns (b: AppendArgs)
    requires ServerOK(sv, me, h, n) && HistOK(h, n) && ReplyOK(s, a, r, h, n) && Retries(sv, a, r)
    requires sv' == OnAppendRep(sv, me, s, a, r)
    ensures sv'.role == Leader && sv'.term == sv.term && sv'.log == sv.log && sv'.acks == sv.acks
    ensures sv'.commit == sv.commit && |sv'.next| == |sv.next| && sv'.next[s] == b.prev + 1
    ensures AppendReq(s, b) in Retry(sv, me, s, a, r) && b.term == sv.term && b.End() == LastIndex(sv.log)
    ensures b.prev < a.prev && b.commit == sv.commit
  {
    RetryOK(sv, me, s, a, r, h, n);
    b := Suffix(sv, me, BackUp(sv.log, r));
    R.RetryEnds(sv, me, s, a, r, sv', h, n, AppendReq(s, b));
  }

  /** What a conversation with s leaves of the leader and the others. */
  ghost predicate Served(c: Cluster, p: nat, s: nat, c': Cluster) {
    && p < |c.servers| == |c'.servers| && s < |c.servers| && c.net <= c'.net
    && (forall x | 0 <= x < |c.servers| && x != p && x != s :: c'.servers[x] == c.servers[x])
    && var sv, sv' := c.servers[p], c'.servers[p];
       && sv'.role == sv.role && sv'.term == sv.term && sv'.log == sv.log && sv'.commit >= sv.commit
       && |sv'.acks| == |sv.acks| && forall x | 0 <= x < |sv.acks| && x != s :: sv'.acks[x] == sv.acks[x]
  }

  lemma ServedThrough(c: Cluster, p: nat, s: nat, d: Cluster, e: Cluster)
    requires Served(c, p, s, d) && Served(d, p, s, e)
    ensures Served(c, p, s, e)
  {
  }

  /** s has the leader's log and a commit index of at least m, as far as the log goes, and the leader knows. */
  ghost predicate Matched(c: Cluster, p: nat, s: nat, l: Log, m: int) {
    && p < |c.servers| && s < |c.servers| && s < |c.servers[p].acks|
    && c.servers[s].log == l && c.servers[p].acks[s] >= LastIndex(l) && c.servers[s].commit >= Min(m, LastIndex(l))
  }

  lemma LeaderArrays(c: Cluster, p: nat, t: nat)
    requires Inv(c) && R.Leads(c, p, t)
    ensures |c.servers[p].acks| == |c.servers[p].next| == |c.servers|
  {
    assert ServerOK(c.servers[p], p, c.hist, |c.servers|);
  }

  /** The leader handles the success. */
  lemma Succeeds(c: Cluster, q: set<nat>, p: nat, s: nat, t: nat, a: AppendArgs) returns (c': Cluster)
    requires R.Leads(c, p, t) && p in q && s < |c.servers| && s != p && a.term == t && a.leader == p
    requires AppendRep(s, a, AppendReply(t, true, -1, 0)) in c.net && c.servers[p].commit >= 0
    requires |c.servers[p].acks| == |c.servers[p].next| == |c.servers|
    ensures Can(c, q, c') && Served(c, p, s, c') && c'.servers[s] == c.servers[s]
    ensures c'.servers[p].acks[s] >= a.End() && Caught(c'.servers[p], p)
  {
    var r := AppendReply(t, true, -1, 0);
    c' := Step(c, RecvAppendRep(p, s, a, r));
    CanStep(c, q, RecvAppendRep(p, s, a, r), c');
    StepOnly(c, RecvAppendRep(p, s, a, r), c');
    Acknowledges(c.servers[p], p, s, a, r, c'.servers[p]);
  }

  /** The leader handles the refusal. */
  lemma Fails(c: Cluster, q: set<nat>, p: nat, s: nat, t: nat, a: AppendArgs, r: AppendReply)
      returns (c': Cluster, b: AppendArgs)
    requires Inv(c) && R.Leads(c, p, t) && p in q && s < |c.servers| && s != p && a.term == t && a.leader == p
    requires AppendRep(s, a, r) in c.net && !r.success && r.term <= t
    ensures Can(c, q, c') && Served(c, p, s, c') && c'.servers[s] == c.servers[s]
    ensures Offers(c', s, t, LastIndex(c.servers[p].log), c.servers[p].commit, b) && b.prev < a.prev
  {
    c' := Step(c, RecvAppendRep(p, s, a, r));
    CanStep(c, q, RecvAppendRep(p, s, a, r), c');
    StepOnly(c, RecvAppendRep(p, s, a, r), c');
    assert ServerOK(c.servers[p], p, c.hist, |c.servers|) && MsgOK(AppendRep(s, a, r), c.hist, |c.servers|);
    b := Retreats(c.servers[p], p, s, a, r, c.hist, |c.servers|, c'.servers[p]);
  }

  lemma TakesOver(c: Cluster, q: set<nat>, p: nat, s: nat, t: nat, l: Log, m: int, a: AppendArgs)
      returns (c': Cluster)
    requires Inv(c) && R.Leads(c, p, t) && c.servers[p].log == l && s in q && s < |c.servers| && c.servers[s].term <= t
    requires s != p && Offers(c, s, t, LastIndex(l), m, a) && Fits(c.servers[s].log, a)
    ensures Can(c, q, c') && Only(c, s, c') && c'.servers[s].term == t && c'.servers[s].log == l
    ensures c'.servers[s].commit >= Min(m, LastIndex(l))
    ensures a.leader == p && AppendRep(s, a, AppendReply(t, true, -1, 0)) in c'.net
  {
    c' := Handles(c, q, p, s, t, a);
    Copies(c, p, s, t, l, a, c.servers[s], c'.servers[s]);
  }

  /** s takes the leader's log over, and the leader learns of it. */
  lemma Agrees(c: Cluster, q: set<nat>, p: nat, s: nat, t: nat, l: Log, m: int, a: AppendArgs) returns (c': Cluster)
    requires Safe(c) && Heads(c, q, p, t, l) && s in q && s != p && Offers(c, s, t, LastIndex(l), m, a)
    requires Fits(c.servers[s].log, a)
    ensures Can(c, q, c') && Served(c, p, s, c') && c'.servers[s].term == t
    ensures Matched(c', p, s, l, m) && Caught(c'.servers[p], p)
  {
    var d := TakesOver(c, q, p, s, t, l, m, a);
    assert c.servers[p].commit >= 0 by { CommitInLog(c, p); }
    assert |c.servers[p].acks| == |c.servers[p].next| == |c.servers| by { LeaderArrays(c, p, t); }
    c' := Succeeds(d, q, p, s, t, a);
    CanThrough(c, q, d, c');
  }

  /** s refuses, and is offered more. */
  lemma Differs(c: Cluster, q: set<nat>, p: nat, s: nat, t: nat, l: Log, a: AppendArgs)
      returns (c': Cluster, b: AppendArgs)
    requires Safe(c) && Heads(c, q, p, t, l) && s in q && s != p && AppendReq(s, a) in c.net && a.term == t
    requires a.End() == LastIndex(l) && !Fits(c.servers[s].log, a)
    ensures Can(c, q, c') && Served(c, p, s, c') && c'.servers[s].term == t
    ensures Offers(c', s, t, LastIndex(l), c.servers[p].commit, b) && b.prev < a.prev
  {
    var d := Handles(c, q, p, s, t, a);
    assert Inv(d) by { CanSafely(c, q, d); }
    c', b := Fails(d, q, p, s, t, a, AppendAnswer(c.servers[s], a));
    CanThrough(c, q, d, c');
  }

  /** s handles the message. */
  lemma Handles(c: Cluster, q: set<nat>, p: nat, s: nat, t: nat, a: AppendArgs) returns (c': Cluster)
    requires Inv(c) && R.Leads(c, p, t) && s in q && s < |c.servers| && c.servers[s].term <= t
    requires AppendReq(s, a) in c.net && a.term == t && a.End() == LastIndex(c.servers[p].log)
    ensures Can(c, q, c') && Only(c, s, c') && c'.servers[s] == OnAppend(c.servers[s], a) && c'.servers[s].term == t
    ensures a.leader == p && AppendRep(s, a, AppendAnswer(c.servers[s], a)) in c'.net
  {
    c' := Step(c, RecvAppend(s, a));
    WholeIsInOrder(c, p, s, t, a);
    CanStep(c, q, RecvAppend(s, a), c');
    Receives(c, s, a, c.servers[s], c');
  }

  lemma ServedHeads(c: Cluster, q: set<nat>, p: nat, s: nat, t: nat, l: Log, c': Cluster)
    requires Heads(c, q, p, t, l) && Served(c, p, s, c') && c'.servers[s].term == t
    ensures Heads(c', q, p, t, l)
  {
    forall x | x in q ensures c'.servers[x].term <= t {
      if x != p && x != s { assert c'.servers[x] == c.servers[x]; }
    }
  }

  /** Offered the leader's log from some index on, a follower has all of it after finitely many tries. */
  lemma {:induction false} CatchesUp(c: Cluster, q: set<nat>, p: nat, s: nat, t: nat, l: Log, m: int, a: AppendArgs)
      returns (c': Cluster)
    requires Safe(c) && Heads(c, q, p, t, l) && s in q && s != p && c.servers[p].commit >= m
    requires Offers(c, s, t, LastIndex(l), m, a)
    ensures Can(c, q, c') && Served(c, p, s, c') && c'.servers[s].term == t
    ensures Matched(c', p, s, l, m) && Caught(c'.servers[p], p)
    decreases a.prev + 1
  {
    if Fits(c.servers[s].log, a) {
      c' := Agrees(c, q, p, s, t, l, m, a);
    } else {
      var d, b := Differs(c, q, p, s, t, l, a);
      assert Safe(d) by { CanSafely(c, q, d); }
      ServedHeads(c, q, p, s, t, l, d);
      c' := CatchesUp(d, q, p, s, t, l, m, b);
      CanThrough(c, q, d, c');
      ServedThrough(c, p, s, d, c');
    }
  }

  // ---------------------------------------------------------------- everybody catches up

  /** All of q but p and those in todo have the leader's log; those in todo are offered it. */
  ghost predicate Spreading(c: Cluster, q: set<nat>, p: nat, t: nat, l: Log, m: int, todo: set<nat>) {
    && Heads(c, q, p, t, l) && todo <= q && p !in todo && c.servers[p].commit >= m
    && (forall s | s in q && s != p && s !in todo :: Matched(c, p, s, l, m))
    && (forall s | s in todo :: exists a :: Offers(c, s, t, LastIndex(l), m, a))
  }

  lemma SpreadsOn(c: Cluster, q: set<nat>, p: nat, t: nat, l: Log, m: int, todo: set<nat>, s: nat, c': Cluster)
    requires Spreading(c, q, p, t, l, m, todo) && s in todo && Served(c, p, s, c') && c'.servers[s].term == t
    requires Matched(c', p, s, l, m)
    ensures Spreading(c', q, p, t, l, m, todo - {s})
  {
    ServedHeads(c, q, p, s, t, l, c');
    forall x | x in q && x != p && x !in todo - {s} ensures Matched(c', p, x, l, m) {
      if x != s { assert Matched(c, p, x, l, m) && c'.servers[x] == c.servers[x]; }
    }
    forall x | x in todo - {s} ensures exists a :: Offers(c', x, t, LastIndex(l), m, a) {
      var a :| Offers(c, x, t, LastIndex(l), m, a);
      assert Offers(c', x, t, LastIndex(l), m, a);
    }
  }

  lemma SpreadsTo(c0: Cluster, c: Cluster, q: set<nat>, p: nat, t: nat, l: Log, m: int, todo: set<nat>, s: nat)
      returns (c': Cluster)
    requires Safe(c0) && Can(c0, q, c) && Spreading(c, q, p, t, l, m, todo) && s in todo
    ensures Can(c0, q, c') && |c'.servers| == |c.servers| && Spreading(c', q, p, t, l, m, todo - {s})
    ensures Caught(c'.servers[p], p)
  {
    var a :| Offers(c, s, t, LastIndex(l), m, a);
    assert Safe(c) by { CanSafely(c0, q, c); }
    c' := CatchesUp(c, q, p, s, t, l, m, a);
    SpreadsOn(c, q, p, t, l, m, todo, s, c');
    CanThrough(c0, q, c, c');
  }

  lemma {:induction false} Spreads(
      c0: Cluster, c: Cluster, q: set<nat>, p: nat, t: nat, l: Log, m: int, todo: set<nat>) returns (c': Cluster)
    requires Safe(c0) && Can(c0, q, c) && Spreading(c, q, p, t, l, m, todo) && todo != {}
    ensures Can(c0, q, c') && |c'.servers| == |c.servers| && Spreading(c', q, p, t, l, m, {})
    ensures Caught(c'.servers[p], p)
    decreases |todo|
  {
    var s :| s in todo;
    var rest := todo - {s};
    c' := SpreadsTo(c0, c, q, p, t, l, m, todo, s);
    if rest != {} { c' := Spreads(c0, c', q, p, t, l, m, rest); }
  }

  lemma ToSpread(c: Cluster, q: set<nat>, p: nat, t: nat, l: Log, m: int)
    requires Heads(c, q, p, t, l) && |q| >= 2 && c.servers[p].commit >= m
    requires forall s | s in q && s != p :: exists a :: Offers(c, s, t, LastIndex(l), m, a)
    ensures Spreading(c, q, p, t, l, m, q - {p}) && q - {p} != {}
  {
    var s := SomeoneElse(q, {p});
    assert s in q - {p};
  }

  /** The leader's log spreads from the leader to all of q. */
  lemma SpreadsAll(c: Cluster, q: set<nat>, p: nat, t: nat, l: Log, m: int) returns (c': Cluster)
    requires Safe(c) && Heads(c, q, p, t, l) && |q| >= 2 && c.servers[p].commit >= m
    requires forall s | s in q && s != p :: exists a :: Offers(c, s, t, LastIndex(l), m, a)
    ensures Can(c, q, c') && Safe(c') && |c'.servers| == |c.servers| && Spreading(c', q, p, t, l, m, {})
    ensures Caught(c'.servers[p], p)
  {
    ToSpread(c, q, p, t, l, m);
    CanStay(c, q);
    c' := Spreads(c, c, q, p, t, l, m, q - {p});
    CanSafely(c, q, c');
  }

  /** When all of q have the log, the leader has committed it to its end. */
  lemma AllCommitted(c: Cluster, q: set<nat>, p: nat, t: nat, l: Log, m: int)
    requires Spreading(c, q, p, t, l, m, {}) && Caught(c.servers[p], p) && 2 * |q| > |c.servers|
    requires |c.servers[p].acks| == |c.servers| && l != [] && l[LastIndex(l)].term == t
    ensures c.servers[p].commit >= LastIndex(l)
  {
    var sv := c.servers[p];
    forall s | s in q ensures s in R.Holders(sv, p, LastIndex(l)) {
      if s != p { assert Matched(c, p, s, l, m); }
    }
    Subset(q, R.Holders(sv, p, LastIndex(l)));
    assert R.MajorityHolds(sv, p, LastIndex(l));
  }

  // ---------------------------------------------------------------- everybody applies

  /** How many applier steps s has left. */
  ghost function Left(sv: Server): int { 2 * (sv.commit - sv.applied) + if sv.batch == [] then 1 else 0 }

  lemma AppliesOne(c: Cluster, q: set<nat>, s: nat, sv: Server) returns (c': Cluster)
    requires s in q && s < |c.servers| && sv == c.servers[s] && ApplierOK(sv) && sv.applied < sv.commit
    ensures Can(c, q, c') && Only(c, s, c') && ApplierOK(c'.servers[s]) && Left(c'.servers[s]) < Left(sv)
    ensures c'.servers[s].log == sv.log && c'.servers[s].commit == sv.commit
  {
    var e := if sv.batch == [] then Take(s) else Deliver(s);
    c' := Step(c, e);
    CanStep(c, q, e, c');
    StepOnly(c, e, c');
  }

  /** Taking batches and delivering them, s applies all it has committed. */
  lemma {:induction false} Applies(c: Cluster, q: set<nat>, s: nat, sv: Server) returns (c': Cluster)
    requires s in q && s < |c.servers| && sv == c.servers[s] && ApplierOK(sv)
    ensures Can(c, q, c') && Only(c, s, c') && c'.servers[s].log == sv.log
    ensures c'.servers[s].applied == c'.servers[s].commit == sv.commit
    decreases Left(sv)
  {
    if sv.applied == sv.commit {
      c' := c;
      CanStay(c, q);
    } else {
      var d := AppliesOne(c, q, s, sv);
      c' := Applies(d, q, s, d.servers[s]);
      CanThrough(c, q, d, c');
      OnlyThrough(c, s, d, c');
    }
  }

  lemma {:induction false} AllApply(c: Cluster, q: set<nat>, todo: set<nat>) returns (c': Cluster)
    requires Members(q, |c.servers|) && todo <= q && forall s | s in todo :: ApplierOK(c.servers[s])
    ensures Can(c, q, c') && |c'.servers| == |c.servers|
    ensures forall s | 0 <= s < |c.servers| && s !in todo :: c'.servers[s] == c.servers[s]
    ensures forall s | s in todo ::
              c'.servers[s].log == c.servers[s].log && c'.servers[s].applied == c.servers[s].commit
    decreases |todo|
  {
    if todo == {} {
      c' := c;
      CanStay(c, q);
    } else {
      var s :| s in todo;
      var d := Applies(c, q, s, c.servers[s]);
      c' := AllApply(d, q, todo - {s});
      CanThrough(c, q, d, c');
    }
  }

  // ---------------------------------------------------------------- altogether

  lemma {:induction false} LatestTerm(servers: seq<Server>, q: set<nat>) returns (m: nat)
    requires Members(q, |servers|)
    ensures forall s | s in q :: servers[s].term <= m
    decreases |q|
  {
    m := 0;
    if q != {} {
      var s :| s in q;
      m := LatestTerm(servers, q - {s});
      if m < servers[s].term { m := servers[s].term; }
    }
  }

  /** A majority elects one of its own. */
  lemma CanElect(c: Cluster, q: set<nat>) returns (c': Cluster, p: nat, t: nat, l: Log)
    requires Members(q, |c.servers|) && 2 * |q| > |c.servers| >= 2
    ensures Can(c, q, c') && |c'.servers| == |c.servers| && Heads(c', q, p, t, l)
    ensures c'.hist.started == c.hist.started
  {
    var c1 := Settle(c, q, q);
    p := SomeoneIsFreshest(c1.servers, q);
    var m := LatestTerm(c1.servers, q);
    var c2 := Campaigns(c1, q, p, m);
    var a := Ballots(c2.servers[p], p);
    assert Polling(c2, q, p, a);
    c' := Collects(c2, q, p, a);
    t, l := a.term, c2.servers[p].log;
    CanThrough(c, q, c1, c2);
    CanThrough(c, q, c2, c');
  }

  /** A leader's majority takes over its log, and the leader commits it. */
  lemma CanReplicate(c: Cluster, q: set<nat>, p: nat, t: nat, l: Log) returns (c': Cluster)
    requires Safe(c) && Heads(c, q, p, t, l) && 2 * |q| > |c.servers| >= 2 && l != [] && l[LastIndex(l)].term == t
    requires forall s | s in q && s != p :: exists a :: Offers(c, s, t, LastIndex(l), 0, a)
    ensures Can(c, q, c') && Safe(c') && |c'.servers| == |c.servers|
    ensures Heads(c', q, p, t, l) && c'.servers[p].commit >= LastIndex(l)
  {
    assert c.servers[p].commit >= 0 by { CommitInLog(c, p); }
    c' := SpreadsAll(c, q, p, t, l, 0);
    assert |c'.servers[p].acks| == |c'.servers| by { LeaderArrays(c', p, t); }
    AllCommitted(c', q, p, t, l, 0);
  }

  lemma AllTold(c: Cluster, q: set<nat>, p: nat, t: nat, l: Log, m: int)
    requires Spreading(c, q, p, t, l, m, {}) && m <= LastIndex(l)
    ensures forall s | s in q :: c.servers[s].log == l && c.servers[s].commit >= m
  {
    forall s | s in q ensures c.servers[s].log == l && c.servers[s].commit >= m {
      if s != p { assert Matched(c, p, s, l, m); }
    }
  }

  /** A heartbeat tells them what is committed. */
  lemma CanTell(c: Cluster, q: set<nat>, p: nat, t: nat, l: Log) returns (c': Cluster)
    requires Safe(c) && Heads(c, q, p, t, l) && 2 * |q| > |c.servers| >= 2 && c.servers[p].commit >= LastIndex(l)
    ensures Can(c, q, c') && Safe(c') && |c'.servers| == |c.servers| && Members(q, |c'.servers|)
    ensures forall s | s in q :: c'.servers[s].log == l && c'.servers[s].commit >= LastIndex(l)
  {
    var m := LastIndex(l);
    var d := Beats(c, q, p, t, l, m);
    c' := SpreadsAll(d, q, p, t, l, m);
    CanThrough(c, q, d, c');
    AllTold(c', q, p, t, l, m);
  }

  /** And they apply it. */
  lemma CanApply(c: Cluster, q: set<nat>, l: Log) returns (c': Cluster)
    requires Safe(c) && Members(q, |c.servers|)
    requires forall s | s in q :: c.servers[s].log == l && c.servers[s].commit >= LastIndex(l)
    ensures Can(c, q, c') && |c'.servers| == |c.servers|
    ensures forall s | s in q :: c'.servers[s].log == l && c'.servers[s].applied == LastIndex(l)
  {
    forall s | s in q ensures ApplierOK(c.servers[s]) && c.servers[s].commit == LastIndex(l) { CommitInLog(c, s); }
    c' := AllApply(c, q, q);
  }

  lemma CanProgress(c: Cluster, q: set<nat>, cmd: Command) returns (c': Cluster, x: nat)
    requires Safe(c) && Members(q, |c.servers|) && 2 * |q| > |c.servers| >= 2
    requires cmd.Command? && cmd.id !in c.hist.started
    ensures Can(c, q, c') && |c'.servers| == |c.servers|
    ensures forall s | s in q ::
              |c'.servers[s].log| == x + 1 && c'.servers[s].log[x].cmd == cmd && c'.servers[s].applied == x
  {
    var c1, p, t, l := CanElect(c, q);
    assert Safe(c1) by { CanSafely(c, q, c1); }
    var l' := l + [Entry(t, cmd)];
    var c2 := Starts(c1, q, p, t, l, cmd, l');
    var c3 := CanReplicate(c2, q, p, t, l');
    var c4 := CanTell(c3, q, p, t, l');
    c' := CanApply(c4, q, l');
    x := |l|;
    CanThrough(c, q, c1, c2);
    CanThrough(c, q, c2, c3);
    CanThrough(c, q, c3, c4);
    CanThrough(c, q, c4, c');
  }

  /**
   * Whatever happened in an in-order run, any majority of at least two peers can by itself get a new command into the
   * log and have all its members apply it, up to the end of one and the same log.
   */
  lemma AlwaysRecoverable(n: nat, events: seq<Event>, states: seq<Cluster>, i: nat, q: set<nat>, cmd: Command)
      returns (c': Cluster, x: nat)
    requires IsRun(n, events, states) && Ordered(events, states) && i < |states|
    requires Members(q, n) && 2 * |q| > n >= 2 && cmd.Command? && cmd.id !in states[i].hist.started
    ensures Can(states[i], q, c') && |c'.servers| == n
    ensures forall s | s in q ::
              |c'.servers[s].log| == x + 1 && c'.servers[s].log[x].cmd == cmd && c'.servers[s].applied == x
  {
    R.RunSafe(n, events, states, i);
    c', x := CanProgress(states[i], q, cmd);
  }

  // ---------------------------------------------------------------- a cluster of one

  /** Nobody has answered a ballot, and nobody but peer 0 has cast one. */
  ghost predicate Lonely(c: Cluster) {
    && |c.servers| == 1 && c.servers[0].role != Leader
    && forall m | m in c.net :: m.VoteReq? && m.vargs.cand == 0
  }

  lemma StaysLonely(c: Cluster, e: Event, c': Cluster)
    requires Lonely(c) && Enabled(c, e) && c' == Step(c, e)
    ensures Lonely(c')
  {
  }

  /** Two peers are needed: alone in its cluster a peer never leads, for it counts votes only when one arrives. */
  lemma {:induction false} AloneNobodyLeads(events: seq<Event>, states: seq<Cluster>, i: nat)
    requires IsRun(1, events, states) && i < |states|
    ensures Lonely(states[i])
  {
    if i > 0 {
      AloneNobodyLeads(events, states, i - 1);
      StaysLonely(states[i - 1], events[i - 1], states[i]);
    }
  }
}
