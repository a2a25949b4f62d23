/**
 * Two short runs of three peers.  One swaps two messages of a leader and breaks State Machine
 * Safety, so the in-order hypothesis cannot be dropped; the other shows a peer voting twice in
 * one term, so Election Safety does not rest on one vote per term.
 */
module RaftWitness {
  import opened RaftTypes
  import opened RaftHandlers
  import opened RaftCluster

  // ---------------------------------------------------------------- growing a run

  datatype Run = Run(events: seq<Event>, states: seq<Cluster>)

  /** What the witnesses need to know about the last state of a run. */
  datatype Facts = Facts(peers: seq<Server>, msgs: set<Msg>, ids: set<nat>, votes: set<Grant>, told: set<Delivery>)

  ghost predicate Reaches(r: Run, f: Facts) {
    IsRun(3, r.events, r.states) && Shows(r.states[|r.events|], f)
  }

  /** The event is possible given the facts alone. */
  predicate Possible(f: Facts, e: Event) {
    && e.s < |f.peers|
    && match e
       case RecvVoteReq(s, a) => VoteReq(a) in f.msgs && s != a.cand
       case RecvVoteRep(s, voter, a, r) => VoteRep(voter, a, r) in f.msgs && s == a.cand
       case RecvAppend(s, a) => AppendReq(s, a) in f.msgs
       case RecvAppendRep(s, peer, a, r) => AppendRep(peer, a, r) in f.msgs && s == a.leader
       case ClientStart(_, cmd) => cmd.Command? && cmd.id !in f.ids
       case Deliver(s) => f.peers[s].batch != []
       case _ => true
  }

  /** A cluster with these peers and nothing else: handlers look at nothing else. */
  function Mock(peers: seq<Server>): Cluster {
    Cluster(peers, {}, History(map[], {}, map[], map[], map[], map[], {}))
  }

  function VotesOf(f: Facts, e: Event): set<Grant>
    requires e.s < |f.peers|
  {
    match e
    case Timeout(s) => {Grant(s, s, f.peers[s].term + 1)}
    case RecvVoteReq(s, a) => if Grants(f.peers[s], a) then {Grant(s, a.cand, a.term)} else {}
    case _ => {}
  }

  function TellsOf(f: Facts, e: Event): set<Delivery>
    requires Possible(f, e)
  {
    if e.Deliver? then {Delivery(e.s, f.peers[e.s].applied + 1, f.peers[e.s].batch[0])} else {}
  }

  ghost predicate Follows(f: Facts, e: Event, sv: Server, sends: set<Msg>, f': Facts) {
    && Possible(f, e)
    && sv == After(Mock(f.peers), e) && sends <= Sends(Mock(f.peers), e)
    && f' == Facts(f.peers[e.s := sv], f.msgs + sends, if e.ClientStart? then f.ids + {e.cmd.id} else f.ids,
                   f.votes + VotesOf(f, e), f.told + TellsOf(f, e))
  }

  lemma SameHandlers(c: Cluster, e: Event)
    requires e.s < |c.servers|
    ensures After(c, e) == After(Mock(c.servers), e) && Sends(c, e) == Sends(Mock(c.servers), e)
  {
  }

  lemma StepFacts(c: Cluster, e: Event)
    requires Enabled(c, e)
    ensures var h' := Record(c, e);
            && c.hist.grants <= h'.grants && c.hist.delivered <= h'.delivered
            && h'.started.Keys <= c.hist.started.Keys + (if e.ClientStart? then {e.cmd.id} else {})
            && (e.Timeout? ==> Grant(e.s, e.s, c.servers[e.s].term + 1) in h'.grants)
            && (e.RecvVoteReq? && Grants(c.servers[e.s], e.vargs) ==>
                  Grant(e.s, e.vargs.cand, e.vargs.term) in h'.grants)
            && (e.Deliver? ==> Delivery(e.s, c.servers[e.s].applied + 1, c.servers[e.s].batch[0]) in h'.delivered)
  {
  }

  lemma RunOn(r: Run, e: Event, c: Cluster, r': Run)
    requires IsRun(3, r.events, r.states) && c == r.states[|r.events|] && Enabled(c, e)
    requires r' == Run(r.events + [e], r.states + [Step(c, e)])
    ensures IsRun(3, r'.events, r'.states)
  {
    forall i | 0 <= i < |r'.events|
      ensures Enabled(r'.states[i], r'.events[i]) && r'.states[i + 1] == Step(r'.states[i], r'.events[i])
    {
      if i < |r.events| {
        assert r'.events[i] == r.events[i] && r'.states[i] == r.states[i] && r'.states[i + 1] == r.states[i + 1];
      }
    }
  }

  ghost predicate Shows(c: Cluster, f: Facts) {
    && c.servers == f.peers && f.msgs <= c.net && c.hist.started.Keys <= f.ids
    && f.votes <= c.hist.grants && f.told <= c.hist.delivered
  }

  lemma ShowsOn(c: Cluster, f: Facts, e: Event, sv: Server, sends: set<Msg>, f': Facts)
    requires Shows(c, f) && Follows(f, e, sv, sends, f')
    ensures Enabled(c, e) && Shows(Step(c, e), f')
  {
    assert Enabled(c, e);
    SameHandlers(c, e);
    StepFacts(c, e);
  }

  lemma Extend(r: Run, f: Facts, e: Event, sv: Server, sends: set<Msg>, f': Facts) returns (r': Run)
    requires Reaches(r, f) && Follows(f, e, sv, sends, f')
    ensures Reaches(r', f')
  {
    var c := r.states[|r.events|];
    ShowsOn(c, f, e, sv, sends, f');
    r' := Run(r.events + [e], r.states + [Step(c, e)]);
    RunOn(r, e, c, r');
  }

  // ---------------------------------------------------------------- the cast

  const X := Command(0, Put("k", "x", 0))
  const Y := Command(1, Put("k", "y", 0))

  const Ask1 := VoteArgs(1, 0, 0, 0)
  const Ask2 := VoteArgs(2, 2, 0, 0)
  const Yes0 := VoteReply(0, true)
  const Yes1 := VoteReply(1, true)
  const Early := AppendArgs(1, 0, 0, 0, [], 0)
  const Ok1 := AppendReply(1, true, -1, 0)

  const Log0 := [Sentinel]
  const LogX := [Sentinel, Entry(1, X)]

  const Fresh := Boot(Blank)

  function Standing(t: nat, me: nat): Server {
    Server(t, VotedFor(me), Log0, Candidate, 0, 0, 0, [], [], [], {me}, Durable(t, VotedFor(me), Log0))
  }

  function Leading(t: nat, me: nat, ally: nat, log: Log, commit: int, applied: nat, batch: seq<Entry>,
      next: seq<nat>, acks: seq<Index>): Server {
    Server(t, VotedFor(me), log, Leader, me, commit, applied, batch, next, acks, {me, ally},
        Durable(t, VotedFor(me), log))
  }

  function Following(t: nat, vote: Vote, seen: nat, log: Log, disk: Log): Server {
    Server(t, vote, log, Follower, seen, 0, 0, [], [], [], {}, Durable(t, vote, disk))
  }

  function Start(): Facts { Facts([Fresh, Fresh, Fresh], {}, {}, {}, {}) }

  lemma Begin() returns (r: Run)
    ensures Reaches(r, Start())
  {
    r := Run([], [Init(3)]);
  }

  lemma Winner(t: nat, me: nat, v: nat, a: VoteArgs, rep: VoteReply, sv: Server, hb: AppendArgs)
    requires me < 3 && v < 3 && me != v && me != 1 && a.cand == me && a.term == t && rep.granted && rep.term <= t
    requires sv == Leading(t, me, v, Log0, 0, 0, [], [1, 1, 1], [-1, -1, -1][me := 0])
             && hb == AppendArgs(t, me, 0, 0, [], 0)
    ensures OnVoteRep(Standing(t, me), me, 3, v, a, rep) == sv && Wins(Standing(t, me), 3, v, a, rep)
    ensures AppendReq(1, hb) in Broadcast(sv, me)
  {
    var s1 := Standing(t, me).(voters := {me, v});
    assert {me} + {v} == {me, v} && |{me, v}| == 2;
    assert BecomeLeader(s1, me, 3).acks == sv.acks && BecomeLeader(s1, me, 3).next == sv.next;
    assert Suffix(sv, me, sv.next[1]) == hb;
  }

  /** Peer me, standing in term t, is elected by the vote of peer v. */
  lemma Elect(r: Run, f: Facts, t: nat, me: nat, v: nat, a: VoteArgs, rep: VoteReply, sv: Server, hb: AppendArgs,
      f': Facts) returns (r': Run)
    requires Reaches(r, f) && |f.peers| == 3 && me < 3 && v < 3 && me != v && me != 1
    requires f.peers[me] == Standing(t, me) && VoteRep(v, a, rep) in f.msgs && a.cand == me && a.term == t
             && rep.granted && rep.term <= t
    requires sv == Leading(t, me, v, Log0, 0, 0, [], [1, 1, 1], [-1, -1, -1][me := 0])
             && hb == AppendArgs(t, me, 0, 0, [], 0)
    requires f' == Facts(f.peers[me := sv], f.msgs + {AppendReq(1, hb)}, f.ids, f.votes, f.told)
    ensures Reaches(r', f')
  {
    Winner(t, me, v, a, rep, sv, hb);
    var e := RecvVoteRep(me, v, a, rep);
    assert VotesOf(f, e) == {} && TellsOf(f, e) == {};
    r' := Extend(r, f, e, sv, {AppendReq(1, hb)}, f');
  }

  /** The elected peer starts a command, which goes out to peer 1. */
  lemma Propose(r: Run, f: Facts, t: nat, me: nat, v: nat, cmd: Command, l: Log, a: AppendArgs, f': Facts)
      returns (r': Run)
    requires Reaches(r, f) && |f.peers| == 3 && me < 3 && me != 1 && cmd.Command? && cmd.id !in f.ids
    requires f.peers[me] == Leading(t, me, v, Log0, 0, 0, [], [1, 1, 1], [-1, -1, -1][me := 0])
    requires l == [Sentinel, Entry(t, cmd)] && a == AppendArgs(t, me, 0, 0, [Entry(t, cmd)], 0)
    requires var sv := Leading(t, me, v, l, 0, 0, [], [1, 1, 1][me := 2], [-1, -1, -1][me := 1]);
             f' == Facts(f.peers[me := sv], f.msgs + {AppendReq(1, a)}, f.ids + {cmd.id}, f.votes, f.told)
    ensures Reaches(r', f')
  {
    var sv := Leading(t, me, v, l, 0, 0, [], [1, 1, 1][me := 2], [-1, -1, -1][me := 1]);
    assert Log0 + [Entry(t, cmd)] == l;
    assert OnStart(f.peers[me], me, cmd) == sv;
    assert l[1..] == [Entry(t, cmd)];
    assert Suffix(sv, me, sv.next[1]) == a;
    assert AppendReq(1, a) in Broadcast(sv, me);
    r' := Extend(r, f, ClientStart(me, cmd), sv, {AppendReq(1, a)}, f');
  }

  /** Peer 1's success reply lets the leader commit its command. */
  lemma Settle(r: Run, f: Facts, t: nat, me: nat, v: nat, cmd: Command, l: Log, a: AppendArgs, rep: AppendReply,
      s1: Server, f': Facts) returns (r': Run)
    requires Reaches(r, f) && |f.peers| == 3 && me < 3 && me != 1
    requires l == [Sentinel, Entry(t, cmd)] && a == AppendArgs(t, me, 0, 0, [Entry(t, cmd)], 0)
             && rep == AppendReply(t, true, -1, 0)
    requires f.peers[me] == Leading(t, me, v, l, 0, 0, [], [1, 1, 1][me := 2], [-1, -1, -1][me := 1])
    requires AppendRep(1, a, rep) in f.msgs
    requires s1 == Leading(t, me, v, l, 1, 0, [], [1, 1, 1][me := 2][1 := 2], [-1, -1, -1][me := 1][1 := 1])
    requires f' == f.(peers := f.peers[me := s1])
    ensures Reaches(r', f')
  {
    Counted(t, me, v, l, s1.next, s1.acks);
    assert OnAppendRep(f.peers[me], me, 1, a, rep) == s1;
    var e := RecvAppendRep(me, 1, a, rep);
    assert VotesOf(f, e) == {} && TellsOf(f, e) == {};
    r' := Extend(r, f, e, s1, {}, f');
  }

  /** A peer that has committed index 1 delivers it. */
  lemma Tell(r: Run, f: Facts, me: nat, s1: Server, s3: Server, l: Log, f': Facts) returns (r': Run)
    requires Reaches(r, f) && me < |f.peers| && f.peers[me] == s1 && |l| == 2
    requires s1.log == l && s1.commit == 1 && s1.applied == 0 && s1.batch == [] && s3 == s1.(applied := 1)
    requires f' == f.(peers := f.peers[me := s3], told := f.told + {Delivery(me, 1, l[1])})
    ensures Reaches(r', f')
  {
    var s2 := s1.(batch := [l[1]]);
    assert l[1..2] == [l[1]];
    assert OnTake(s1) == s2 && OnDeliver(s2) == s3;
    var f2 := f.(peers := f.peers[me := s2]);
    assert VotesOf(f, Take(me)) == {} && TellsOf(f, Take(me)) == {};
    var r2 := Extend(r, f, Take(me), s2, {}, f2);
    assert VotesOf(f2, Deliver(me)) == {} && f2.peers[me := s3] == f'.peers;
    r' := Extend(r2, f2, Deliver(me), s3, {}, f');
  }

  lemma Counted(t: nat, me: nat, v: nat, l: Log, next: seq<nat>, acks: seq<Index>)
    requires me < 3 && me != 1 && |l| == 2 && l[1].term == t
    requires next == [1, 1, 1][me := 2][1 := 2] && acks == [-1, -1, -1][me := 1][1 := 1]
    ensures CommitFrom(Leading(t, me, v, l, 0, 0, [], next, acks), me, 1) == 1
  {
    var other := 2 - me;
    assert acks[1] == 1 && acks[other] == -1;
    assert CountAcks(acks, me, 1, 1) == 0;
    assert CountAcks(acks, me, 1, 2) == 1;
    assert CountAcks(acks, me, 1, 3) == 1;
  }

  // ---------------------------------------------------------------- two messages swapped

  /** Peer 1 gives its vote for term t to peer me, whose log is as short as its own. */
  lemma Vote(r: Run, f: Facts, t: nat, me: nat, a: VoteArgs, was: Server, sv: Server, rep: VoteReply, f': Facts)
      returns (r': Run)
    requires Reaches(r, f) && |f.peers| == 3 && me < 3 && me != 1 && VoteReq(a) in f.msgs && a == VoteArgs(t, me, 0, 0)
    requires f.peers[1] == was && was.term < t && was.log == Log0 && rep == VoteReply(was.term, true)
    requires sv == was.(term := t, vote := VotedFor(me), role := Follower, disk := Durable(t, VotedFor(me), Log0))
    requires f' == f.(peers := f.peers[1 := sv], msgs := f.msgs + {VoteRep(1, a, rep)},
             votes := f.votes + {Grant(1, me, t)})
    ensures Reaches(r', f')
  {
    var e := RecvVoteReq(1, a);
    assert Grants(was, a) && OnVoteReq(was, a) == sv && VoteAnswer(was, a) == rep;
    assert TellsOf(f, e) == {};
    r' := Extend(r, f, e, sv, {VoteRep(1, a, rep)}, f');
  }

  /** Peer 1 stores the one-entry suffix of its leader and says so. */
  lemma Store(r: Run, f: Facts, t: nat, me: nat, cmd: Command, l: Log, a: AppendArgs, was: Server, sv: Server,
      rep: AppendReply, f': Facts) returns (r': Run)
    requires Reaches(r, f) && |f.peers| == 3 && AppendReq(1, a) in f.msgs
    requires l == [Sentinel, Entry(t, cmd)] && a == AppendArgs(t, me, 0, 0, [Entry(t, cmd)], 0)
             && rep == AppendReply(t, true, -1, 0)
    requires f.peers[1] == was && was.term == t && was.role == Follower && was.log == Log0 && was.commit == 0
    requires sv == was.(leaderId := me, log := l, disk := Durable(t, was.vote, l))
    requires f' == f.(peers := f.peers[1 := sv], msgs := f.msgs + {AppendRep(1, a, rep)})
    ensures Reaches(r', f')
  {
    var e := RecvAppend(1, a);
    assert Log0[..1] + [Entry(t, cmd)] == l;
    assert OnAppend(was, a) == sv && AppendAnswer(was, a) == rep;
    assert VotesOf(f, e) == {} && TellsOf(f, e) == {};
    r' := Extend(r, f, e, sv, {AppendRep(1, a, rep)}, f');
  }

  /** A whole reign: peer me, standing in term t, is elected by peer 1, replicates cmd there and delivers it. */
  lemma Reigns(r: Run, f: Facts, t: nat, me: nat, cmd: Command, was: Server) returns (r': Run, f': Facts)
    requires Reaches(r, f) && |f.peers| == 3 && me < 3 && me != 1 && cmd.Command? && cmd.id !in f.ids
    requires f.peers[me] == Standing(t, me) && f.peers[1] == was && VoteReq(VoteArgs(t, me, 0, 0)) in f.msgs
    requires was.term < t && was.log == Log0 && was.commit == 0
    ensures Reaches(r', f') && |f'.peers| == 3 && f'.ids == f.ids + {cmd.id}
    ensures var l := [Sentinel, Entry(t, cmd)];
            f'.peers[1] == was.(term := t, vote := VotedFor(me), role := Follower, leaderId := me, log := l,
                disk := Durable(t, VotedFor(me), l))
    ensures forall p | 0 <= p < 3 && p != 1 && p != me :: f'.peers[p] == f.peers[p]
    ensures f.msgs <= f'.msgs && AppendReq(1, AppendArgs(t, me, 0, 0, [], 0)) in f'.msgs
    ensures f'.told == f.told + {Delivery(me, 1, Entry(t, cmd))}
  {
    var l, a, ask := [Sentinel, Entry(t, cmd)], AppendArgs(t, me, 0, 0, [Entry(t, cmd)], 0), VoteArgs(t, me, 0, 0);
    var v1 := was.(term := t, vote := VotedFor(me), role := Follower, disk := Durable(t, VotedFor(me), Log0));
    var f1 := f.(peers := f.peers[1 := v1], msgs := f.msgs + {VoteRep(1, ask, VoteReply(was.term, true))},
        votes := f.votes + {Grant(1, me, t)});
    r' := Vote(r, f, t, me, ask, was, v1, VoteReply(was.term, true), f1);
    var hb := AppendArgs(t, me, 0, 0, [], 0);
    var l1 := Leading(t, me, 1, Log0, 0, 0, [], [1, 1, 1], [-1, -1, -1][me := 0]);
    var f2 := Facts(f1.peers[me := l1], f1.msgs + {AppendReq(1, hb)}, f1.ids, f1.votes, f1.told);
    r' := Elect(r', f1, t, me, 1, ask, VoteReply(was.term, true), l1, hb, f2);
    var l2 := Leading(t, me, 1, l, 0, 0, [], [1, 1, 1][me := 2], [-1, -1, -1][me := 1]);
    var f3 := Facts(f2.peers[me := l2], f2.msgs + {AppendReq(1, a)}, f2.ids + {cmd.id}, f2.votes, f2.told);
    r' := Propose(r', f2, t, me, 1, cmd, l, a, f3);
    r', f' := Finish(r', f3, t, me, cmd, l, a, v1, l2);
  }

  lemma Finish(r: Run, f: Facts, t: nat, me: nat, cmd: Command, l: Log, a: AppendArgs, v1: Server, l2: Server)
      returns (r': Run, f': Facts)
    requires Reaches(r, f) && |f.peers| == 3 && me < 3 && me != 1 && AppendReq(1, a) in f.msgs
    requires l == [Sentinel, Entry(t, cmd)] && a == AppendArgs(t, me, 0, 0, [Entry(t, cmd)], 0)
    requires l2 == Leading(t, me, 1, l, 0, 0, [], [1, 1, 1][me := 2], [-1, -1, -1][me := 1]) && f.peers[me] == l2
    requires f.peers[1] == v1 && v1.term == t && v1.role == Follower && v1.log == Log0 && v1.commit == 0
    ensures Reaches(r', f') && |f'.peers| == 3 && f'.ids == f.ids && f.msgs <= f'.msgs
    ensures f'.peers[1] == v1.(leaderId := me, log := l, disk := Durable(t, v1.vote, l))
    ensures forall p | 0 <= p < 3 && p != 1 && p != me :: f'.peers[p] == f.peers[p]
    ensures f'.told == f.told + {Delivery(me, 1, Entry(t, cmd))}
  {
    var rep := AppendReply(t, true, -1, 0);
    var v2 := v1.(leaderId := me, log := l, disk := Durable(t, v1.vote, l));
    var f1 := f.(peers := f.peers[1 := v2], msgs := f.msgs + {AppendRep(1, a, rep)});
    r' := Store(r, f, t, me, cmd, l, a, v1, v2, rep, f1);
    var l3 := Leading(t, me, 1, l, 1, 0, [], [1, 1, 1][me := 2][1 := 2], [-1, -1, -1][me := 1][1 := 1]);
    var f2 := f1.(peers := f1.peers[me := l3]);
    r' := Settle(r', f1, t, me, 1, cmd, l, a, rep, l3, f2);
    f' := f2.(peers := f2.peers[me := l3.(applied := 1)], told := f2.told + {Delivery(me, 1, l[1])});
    r' := Tell(r', f2, me, l3, l3.(applied := 1), l, f');
  }

  /** A peer stands for election in the next term. */
  lemma Stand(r: Run, f: Facts, me: nat, was: Server, sv: Server, f': Facts) returns (r': Run)
    requires Reaches(r, f) && me < |f.peers| && f.peers[me] == was && sv == OnTimeout(was, me)
    requires f' == f.(peers := f.peers[me := sv], msgs := f.msgs + {VoteReq(Ballots(sv, me))},
             votes := f.votes + {Grant(me, me, was.term + 1)})
    ensures Reaches(r', f')
  {
    assert TellsOf(f, Timeout(me)) == {};
    r' := Extend(r, f, Timeout(me), sv, {VoteReq(Ballots(sv, me))}, f');
  }

  /** The late, shorter message of the same leader makes peer 1 drop the entry it acknowledged. */
  lemma Forget(r: Run, f: Facts, was: Server, sv: Server, f': Facts) returns (r': Run)
    requires Reaches(r, f) && |f.peers| == 3 && AppendReq(1, Early) in f.msgs && f.peers[1] == was
    requires was.term == 1 && was.role == Follower && was.log == LogX && was.leaderId == 0 && was.commit == 0
    requires sv == was.(log := Log0) && f' == f.(peers := f.peers[1 := sv], msgs := f.msgs + {AppendRep(1, Early, Ok1)})
    ensures Reaches(r', f')
  {
    var e := RecvAppend(1, Early);
    assert LogX[..1] == Log0;
    assert OnAppend(was, Early) == sv && AppendAnswer(was, Early) == Ok1;
    assert VotesOf(f, e) == {} && TellsOf(f, e) == {};
    r' := Extend(r, f, e, sv, {AppendRep(1, Early, Ok1)}, f');
  }

  /** A truncation that is not written: peer 1 accepted X, then a late message drops it from memory only. */
  lemma DiskOutlivesMemory() returns (events: seq<Event>, states: seq<Cluster>)
    ensures IsRun(3, events, states) && |states[|events|].servers| == 3
    ensures var sv := states[|events|].servers[1]; sv.log == Log0 && sv.disk.log == LogX && |sv.log| < |sv.disk.log|
  {
    var r, f, v := XForgotten();
    events, states := r.events, r.states;
  }

  /** Leader 0 of term 1 gets X to peer 1, which then handles the earlier, empty message. */
  lemma XForgotten() returns (r: Run, f: Facts, v: Server)
    ensures Reaches(r, f) && |f.peers| == 3 && f.peers[1] == v && v.log == Log0 && v.disk.log == LogX
  {
    r := Begin();
    var f1 := Start().(peers := [Standing(1, 0), Fresh, Fresh], msgs := {} + {VoteReq(Ask1)},
        votes := {} + {Grant(0, 0, 1)});
    r := Stand(r, Start(), 0, Fresh, Standing(1, 0), f1);
    var f2;
    r, f2 := Reigns(r, f1, 1, 0, X, Fresh);
    v := f2.peers[1].(log := Log0);
    f := f2.(peers := f2.peers[1 := v], msgs := f2.msgs + {AppendRep(1, Early, Ok1)});
    r := Forget(r, f2, f2.peers[1], v, f);
  }

  /** Without the in-order hypothesis State Machine Safety fails: peers 0 and 2 deliver X and Y at index 1. */
  lemma SwappedMessagesBreakSafety() returns (events: seq<Event>, states: seq<Cluster>)
    ensures IsRun(3, events, states)
    ensures var told := states[|events|].hist.delivered;
            Delivery(0, 1, Entry(1, X)) in told && Delivery(2, 1, Entry(2, Y)) in told && Entry(1, X) != Entry(2, Y)
  {
    var r := Begin();
    var f1 := Start().(peers := [Standing(1, 0), Fresh, Fresh], msgs := {} + {VoteReq(Ask1)},
        votes := {} + {Grant(0, 0, 1)});
    r := Stand(r, Start(), 0, Fresh, Standing(1, 0), f1);
    var f2;
    r, f2 := Reigns(r, f1, 1, 0, X, Fresh);
    var v := f2.peers[1];
    var f3 := f2.(peers := f2.peers[1 := v.(log := Log0)], msgs := f2.msgs + {AppendRep(1, Early, Ok1)});
    r := Forget(r, f2, v, v.(log := Log0), f3);
    r, f3 := SecondReign(r, f3, v.(log := Log0));
    events, states := r.events, r.states;
  }

  lemma SecondReign(r: Run, f: Facts, v: Server) returns (r': Run, f': Facts)
    requires Reaches(r, f) && |f.peers| == 3 && f.peers[2] == Fresh && f.peers[1] == v && f.ids == {0}
    requires v.term == 1 && v.log == Log0 && v.commit == 0
    ensures Reaches(r', f') && f.told + {Delivery(2, 1, Entry(2, Y))} == f'.told
  {
    var c1, c2 := OnTimeout(Fresh, 2), Standing(2, 2);
    var f1 := f.(peers := f.peers[2 := c1], msgs := f.msgs + {VoteReq(Ballots(c1, 2))},
        votes := f.votes + {Grant(2, 2, 1)});
    r' := Stand(r, f, 2, Fresh, c1, f1);
    var f2 := f1.(peers := f1.peers[2 := c2], msgs := f1.msgs + {VoteReq(Ask2)}, votes := f1.votes + {Grant(2, 2, 2)});
    r' := Stand(r', f1, 2, c1, c2, f2);
    r', f' := Reigns(r', f2, 2, 2, Y, v);
  }

  // ---------------------------------------------------------------- two votes in one term

  /** A candidate that hears the leader of its own term forgets its vote and votes again in that term. */
  lemma VotesTwiceInOneTerm() returns (events: seq<Event>, states: seq<Cluster>)
    ensures IsRun(3, events, states)
    ensures var votes := states[|events|].hist.grants; Grant(1, 1, 1) in votes && Grant(1, 0, 1) in votes
  {
    var r := Begin();
    var f1 := Start().(peers := [Standing(1, 0), Fresh, Fresh], msgs := {} + {VoteReq(Ask1)},
        votes := {} + {Grant(0, 0, 1)});
    r := Stand(r, Start(), 0, Fresh, Standing(1, 0), f1);
    var f2 := f1.(peers := f1.peers[1 := Standing(1, 1)], msgs := f1.msgs + {VoteReq(VoteArgs(1, 1, 0, 0))},
        votes := f1.votes + {Grant(1, 1, 1)});
    r := Stand(r, f1, 1, Fresh, Standing(1, 1), f2);
    var v2 := Following(1, VotedFor(0), 0, Log0, Log0);
    assert OnVoteReq(Fresh, Ask1) == v2 && VoteAnswer(Fresh, Ask1) == Yes0;
    var f3 := f2.(peers := f2.peers[2 := v2], msgs := f2.msgs + {VoteRep(2, Ask1, Yes0)},
        votes := f2.votes + {Grant(2, 0, 1)});
    assert TellsOf(f2, RecvVoteReq(2, Ask1)) == {};
    r := Extend(r, f2, RecvVoteReq(2, Ask1), v2, {VoteRep(2, Ask1, Yes0)}, f3);
    var l1 := Leading(1, 0, 2, Log0, 0, 0, [], [1, 1, 1], [-1, -1, -1][0 := 0]);
    var f4 := Facts(f3.peers[0 := l1], f3.msgs + {AppendReq(1, Early)}, f3.ids, f3.votes, f3.told);
    r := Elect(r, f3, 1, 0, 2, Ask1, Yes0, l1, Early, f4);
    r := VoteAgain(r, f4);
    events, states := r.events, r.states;
  }

  lemma VoteAgain(r: Run, f: Facts) returns (r': Run)
    requires Reaches(r, f) && |f.peers| == 3 && f.peers[1] == Standing(1, 1)
    requires AppendReq(1, Early) in f.msgs && VoteReq(Ask1) in f.msgs && Grant(1, 1, 1) in f.votes
    ensures IsRun(3, r'.events, r'.states)
    ensures var votes := r'.states[|r'.events|].hist.grants; Grant(1, 1, 1) in votes && Grant(1, 0, 1) in votes
  {
    var s0 := Standing(1, 1);
    var s1 := s0.(role := Follower, vote := NoVote, disk := Durable(1, NoVote, Log0));
    var e1, e2 := RecvAppend(1, Early), RecvVoteReq(1, Ask1);
    assert Log0[..1] == Log0;
    assert OnAppend(s0, Early) == s1 && AppendAnswer(s0, Early) == Ok1;
    assert VotesOf(f, e1) == {} && TellsOf(f, e1) == {};
    var f1 := f.(peers := f.peers[1 := s1], msgs := f.msgs + {AppendRep(1, Early, Ok1)});
    r' := Extend(r, f, e1, s1, {AppendRep(1, Early, Ok1)}, f1);
    var s2 := s1.(vote := VotedFor(0), disk := Durable(1, VotedFor(0), Log0));
    assert Grants(s1, Ask1) && OnVoteReq(s1, Ask1) == s2 && VoteAnswer(s1, Ask1) == Yes1;
    assert TellsOf(f1, e2) == {};
    var f2 := f1.(peers := f1.peers[1 := s2], msgs := f1.msgs + {VoteRep(1, Ask1, Yes1)},
        votes := f1.votes + {Grant(1, 0, 1)});
    r' := Extend(r', f1, e2, s2, {VoteRep(1, Ask1, Yes1)}, f2);
  }
}
