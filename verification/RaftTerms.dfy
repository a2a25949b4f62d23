/**
 * How terms move.  A term changes only by a timeout or by a message of a later term; whoever hears of a later term is
 * a follower of it at once, on disk too, and never leads the old one again.
 */
module RaftTerms {
  import opened RaftTypes
  import opened RaftHandlers
  import opened RaftCluster
  import opened RaftInvariant
  import R = RaftTheorems

  // ---------------------------------------------------------------- one event

  /**
   * The term a message brings to peer sv: that of a request, or that of a reply to a request of the election it stands
   * in or of the term it leads.
   */
  function Brings(sv: Server, e: Event): nat {
    match e
    case RecvVoteReq(_, a) => a.term
    case RecvAppend(_, a) => a.term
    case RecvVoteRep(_, _, a, r) => if sv.role == Candidate && sv.term == a.term then r.term else 0
    case RecvAppendRep(_, _, a, r) => if sv.role == Leader && sv.term == a.term then r.term else 0
    case _ => 0
  }

  /** sv follows term t, in memory and on disk, and has no vote in it but one it just gave. */
  ghost predicate Follows(sv: Server, t: nat, e: Event) {
    && sv.role == Follower && sv.term == t && sv.disk.term == t && sv.disk.vote == sv.vote
    && (sv.vote == NoVote || (e.RecvVoteReq? && sv.vote == VotedFor(e.vargs.cand)))
  }

  /** A later term is followed at once; otherwise the term stays, but for a timeout, which adds one. */
  ghost predicate Heeds(sv: Server, e: Event, sv': Server) {
    if Brings(sv, e) > sv.term then Follows(sv', Brings(sv, e), e)
    else sv'.term == sv'.disk.term == sv.term + if e.Timeout? then 1 else 0
  }

  lemma AfterHeeds(c: Cluster, e: Event, sv: Server, sv': Server)
    requires Enabled(c, e) && sv == c.servers[e.s] && DiskOK(sv) && sv' == After(c, e)
    ensures Heeds(sv, e, sv')
  {
  }

  lemma StepHeeds(n: nat, events: seq<Event>, states: seq<Cluster>, i: nat)
    requires IsRun(n, events, states) && i < |events|
    ensures events[i].s < |states[i].servers| == |states[i + 1].servers|
    ensures Heeds(states[i].servers[events[i].s], events[i], states[i + 1].servers[events[i].s])
    ensures forall s | 0 <= s < |states[i].servers| && s != events[i].s ::
            states[i + 1].servers[s] == states[i].servers[s]
  {
    var c, s := states[i], events[i].s;
    assert DiskOK(c.servers[s]) by {
      R.RunKeeps(n, events, states, i);
      assert ServerOK(c.servers[s], s, c.hist, n);
    }
    AfterHeeds(c, events[i], c.servers[s], After(c, events[i]));
  }

  // ---------------------------------------------------------------- runs

  /** Terms never fall, crashes included. */
  lemma {:induction false} TermsNeverFall(n: nat, events: seq<Event>, states: seq<Cluster>, i: nat, j: nat, s: nat)
    requires IsRun(n, events, states) && i <= j < |states| && s < |states[i].servers|
    ensures s < |states[j].servers| && states[i].servers[s].term <= states[j].servers[s].term
    decreases j
  {
    if i < j {
      TermsNeverFall(n, events, states, i, j - 1, s);
      StepHeeds(n, events, states, j - 1);
    }
  }

  /** sv is past leading t: in a later term, or a follower in t. */
  predicate Past(sv: Server, t: nat) { sv.term > t || (sv.term == t && sv.role == Follower) }

  lemma AfterPast(c: Cluster, e: Event, sv: Server, sv': Server, t: nat)
    requires Enabled(c, e) && sv == c.servers[e.s] && DiskOK(sv) && sv' == After(c, e) && Past(sv, t)
    ensures Past(sv', t)
  {
    AfterHeeds(c, e, sv, sv');
  }

  /** Who is past leading a term never leads it again. */
  lemma {:induction false} PastForGood(n: nat, events: seq<Event>, states: seq<Cluster>, i: nat, j: nat, s: nat, t: nat)
    requires IsRun(n, events, states) && i <= j < |states| && s < |states[i].servers| && Past(states[i].servers[s], t)
    ensures s < |states[j].servers| && Past(states[j].servers[s], t) && !R.Leads(states[j], s, t)
    decreases j
  {
    if i < j {
      PastForGood(n, events, states, i, j - 1, s, t);
      PastNext(n, events, states, j - 1, s, t);
    }
  }

  lemma PastNext(n: nat, events: seq<Event>, states: seq<Cluster>, i: nat, s: nat, t: nat)
    requires IsRun(n, events, states) && i < |events| && s < |states[i].servers| && Past(states[i].servers[s], t)
    ensures s < |states[i + 1].servers| && Past(states[i + 1].servers[s], t)
  {
    if s == events[i].s {
      assert DiskOK(states[i].servers[s]) by {
        R.RunKeeps(n, events, states, i);
        assert ServerOK(states[i].servers[s], s, states[i].hist, n);
      }
      AfterPast(states[i], events[i], states[i].servers[s], After(states[i], events[i]), t);
    }
  }

  // ---------------------------------------------------------------- replies

  /** Every answer to a ballot answers one that was sent, and who says yes has no later term than it was asked in. */
  ghost predicate Honest(c: Cluster) {
    && (forall m | m in c.net && m.VoteRep? ::
          VoteReq(m.vargs) in c.net && (m.vreply.granted ==> m.vreply.term <= m.vargs.term))
    && (forall m | m in c.net && m.AppendRep? && m.reply.success :: m.reply.term == m.args.term)
  }

  lemma StepHonest(c: Cluster, e: Event, c': Cluster)
    requires Honest(c) && Enabled(c, e) && c' == Step(c, e)
    ensures Honest(c')
  {
    forall m | m in Sends(c, e) && m.VoteRep?
      ensures VoteReq(m.vargs) in c.net && (m.vreply.granted ==> m.vreply.term <= m.vargs.term) {}
  }

  lemma {:induction false} RunAnswers(n: nat, events: seq<Event>, states: seq<Cluster>, i: nat)
    requires IsRun(n, events, states) && i < |states|
    ensures Honest(states[i])
  {
    if i > 0 {
      RunAnswers(n, events, states, i - 1);
      StepHonest(states[i - 1], events[i - 1], states[i]);
    }
  }

  /** A reply to a request of term t that carries a later term, handled by the peer that sent the request. */
  predicate Deposes(e: Event, t: nat) {
    || (e.RecvVoteRep? && e.vargs.term == t && e.vreply.term > t)
    || (e.RecvAppendRep? && e.args.term == t && e.reply.term > t)
  }

  /** Whoever sent a request of term t is in t or beyond; a leader of t does not stand in it any more. */
  lemma SenderIsThere(c: Cluster, e: Event, t: nat, sv: Server)
    requires Inv(c) && Honest(c) && Enabled(c, e) && Deposes(e, t) && sv == c.servers[e.s]
    ensures t <= sv.term && (e.RecvAppendRep? && sv.term == t ==> sv.role != Candidate)
  {
    var h, n := c.hist, |c.servers|;
    assert ServerOK(sv, e.s, h, n);
    if e.RecvVoteRep? {
      assert MsgOK(VoteReq(e.vargs), h, n);
    } else {
      assert MsgOK(AppendRep(e.peer, e.args, e.reply), h, n);
      assert VotersOK(t, h.reigns[t], h, n) && ReignLogOK(t, h.reigns[t], h);
    }
  }

  /**
   * After the reply of a later term a peer leads its old term only if it was elected in it already and the reply was a
   * belated vote, which a leader ignores.
   */
  lemma DeposedAtOnce(n: nat, events: seq<Event>, states: seq<Cluster>, i: nat, t: nat)
    requires IsRun(n, events, states) && i < |events| && Deposes(events[i], t)
    ensures events[i].s < |states[i + 1].servers|
    ensures if events[i].RecvVoteRep? && R.Leads(states[i], events[i].s, t)
            then states[i + 1].servers[events[i].s] == states[i].servers[events[i].s]
            else Past(states[i + 1].servers[events[i].s], t)
  {
    var c, e := states[i], events[i];
    var sv := c.servers[e.s];
    R.RunKeeps(n, events, states, i);
    RunAnswers(n, events, states, i);
    SenderIsThere(c, e, t, sv);
    StepHeeds(n, events, states, i);
    if Past(sv, t) { PastNext(n, events, states, i, e.s, t); }
  }

  lemma NeverLeadsAgain(n: nat, events: seq<Event>, states: seq<Cluster>, i: nat, j: nat, t: nat)
    requires IsRun(n, events, states) && i < j < |states| && Deposes(events[i], t)
    requires !(events[i].RecvVoteRep? && R.Leads(states[i], events[i].s, t))
    ensures !R.Leads(states[j], events[i].s, t)
  {
    DeposedAtOnce(n, events, states, i, t);
    PastForGood(n, events, states, i + 1, j, events[i].s, t);
  }

  // ---------------------------------------------------------------- the answer to an old request

  /** Whoever gets a request of an earlier term changes nothing and answers with its own term. */
  lemma OldRequestIsAnswered(c: Cluster, e: Event)
    requires Enabled(c, e)
    ensures e.RecvAppend? && e.args.term < c.servers[e.s].term ==>
              && After(c, e) == c.servers[e.s]
              && exists r :: Sends(c, e) == {AppendRep(e.s, e.args, r)} && !r.success && r.term == c.servers[e.s].term
    ensures e.RecvVoteReq? && e.vargs.term < c.servers[e.s].term ==>
              && After(c, e) == c.servers[e.s]
              && Sends(c, e) == {VoteRep(e.s, e.vargs, VoteReply(c.servers[e.s].term, false))}
  {
    if e.RecvAppend? && e.args.term < c.servers[e.s].term {
      var r := AppendReply(c.servers[e.s].term, false, -1, 0);
      assert Sends(c, e) == {AppendRep(e.s, e.args, r)};
    }
  }

  /**
   * A deposed leader finds out: once a peer of a later term has answered an AppendEntries of term t and the leader of t
   * has handled that answer, it never leads t again, and if it still led t then it is in the peer's term or beyond.
   */
  lemma OldLeaderLearns(
      n: nat, events: seq<Event>, states: seq<Cluster>, i: nat, j: nat, k: nat, q: nat, a: AppendArgs, r: AppendReply)
    requires IsRun(n, events, states) && i < j < k < |states| && j < |events|
    requires events[i] == RecvAppend(q, a) && q < |states[i].servers| && a.term < states[i].servers[q].term
    requires AppendRep(q, a, r) in Sends(states[i], events[i]) && events[j] == RecvAppendRep(a.leader, q, a, r)
    ensures a.leader < |states[k].servers| && !R.Leads(states[k], a.leader, a.term)
    ensures R.Leads(states[j], a.leader, a.term) ==> states[k].servers[a.leader].term >= states[i].servers[q].term
  {
    OldRequestIsAnswered(states[i], events[i]);
    assert Deposes(events[j], a.term);
    DeposedAtOnce(n, events, states, j, a.term);
    PastForGood(n, events, states, j + 1, k, a.leader, a.term);
    if R.Leads(states[j], a.leader, a.term) {
      StepHeeds(n, events, states, j);
      TermsNeverFall(n, events, states, j + 1, k, a.leader);
    }
  }
}
