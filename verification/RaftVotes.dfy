/**
 * Votes and terms.  A candidate that steps down in its own term forgets its vote, so a peer may vote twice
 * in one term; it never does exactly when no peer that stood in a term grants a vote in that term.
 */
module RaftVotes {
  import opened RaftTypes
  import opened RaftHandlers
  import opened RaftCluster
  import opened RaftInvariant
  import opened RaftSteps

  /** Every vote a peer gave in a term names the same candidate. */
  ghost predicate OneVote(h: History) {
    forall g, g' | g in h.grants && g' in h.grants && g.voter == g'.voter && g.term == g'.term :: g.cand == g'.cand
  }

  /** The event grants a vote at a peer that stood for election in that very term. */
  predicate VotesAgain(c: Cluster, e: Event) {
    && e.RecvVoteReq? && e.s < |c.servers|
    && Grants(c.servers[e.s], e.vargs) && Stamp(e.s, e.vargs.term) in c.hist.cands
  }

  /** A peer that did not stand in its term still has the vote it gave there. */
  ghost predicate Steady(sv: Server, me: nat, h: History) {
    Stamp(me, sv.term) !in h.cands ==>
      forall g | g in h.grants && g.voter == me && g.term == sv.term :: sv.vote == VotedFor(g.cand)
  }

  /** Whoever stood voted for itself. */
  ghost predicate SelfVotes(h: History) {
    forall k | k in h.cands :: Grant(k.id, k.id, k.term) in h.grants
  }

  ghost predicate AllSteady(c: Cluster) {
    SelfVotes(c.hist) && forall s: nat | s < |c.servers| :: Steady(c.servers[s], s, c.hist)
  }

  // ---------------------------------------------------------------- votes and candidacies an event records

  lemma VotesRecorded(c: Cluster, e: Event, h': History)
    requires Enabled(c, e) && h' == Record(c, e)
    ensures e.Timeout? ==> var t := c.servers[e.s].term + 1;
              && h'.grants == c.hist.grants + {Grant(e.s, e.s, t)}
              && h'.cands.Keys == c.hist.cands.Keys + {Stamp(e.s, t)}
    ensures !e.Timeout? ==> h'.cands == c.hist.cands
    ensures e.RecvVoteReq? && Grants(c.servers[e.s], e.vargs) ==>
              h'.grants == c.hist.grants + {Grant(e.s, e.vargs.cand, e.vargs.term)}
    ensures !e.Timeout? && !(e.RecvVoteReq? && Grants(c.servers[e.s], e.vargs)) ==> h'.grants == c.hist.grants
  {
  }

  lemma SelfVotesKept(c: Cluster, e: Event, h': History)
    requires Enabled(c, e) && h' == Record(c, e) && SelfVotes(c.hist)
    ensures SelfVotes(h')
  {
    VotesRecorded(c, e, h');
    forall k | k in h'.cands ensures Grant(k.id, k.id, k.term) in h'.grants {
      if e.Timeout? && k !in c.hist.cands { assert k in h'.cands.Keys; }
    }
  }

  /** What an event makes of the term and the vote of its peer. */
  lemma TermAndVote(c: Cluster, e: Event, sv: Server, sv': Server)
    requires Enabled(c, e) && sv == c.servers[e.s] && sv' == After(c, e) && !e.Timeout? && !e.Restart?
    ensures sv'.term >= sv.term
    ensures e.RecvVoteReq? && Grants(sv, e.vargs) ==> sv'.term == e.vargs.term && sv'.vote == VotedFor(e.vargs.cand)
    ensures !(e.RecvVoteReq? && Grants(sv, e.vargs)) && sv'.term == sv.term ==>
              sv'.vote == sv.vote || (e.RecvAppend? && sv.role == Candidate)
  {
  }

  lemma ActorSteady(c: Cluster, e: Event, sv: Server, sv': Server, h: History, h': History, n: nat)
    requires Enabled(c, e) && sv == c.servers[e.s] && sv' == After(c, e) && h == c.hist && h' == Record(c, e)
    requires ServerOK(sv, e.s, h, n) && Steady(sv, e.s, h)
    ensures Steady(sv', e.s, h')
  {
    VotesRecorded(c, e, h');
    if e.Timeout? {
      assert Stamp(e.s, sv'.term) in h'.cands.Keys;
    } else if !e.Restart? {
      TermAndVote(c, e, sv, sv');
    }
  }

  lemma StepSteady(c: Cluster, e: Event, c': Cluster)
    requires Inv(c) && AllSteady(c) && Enabled(c, e) && c' == Step(c, e)
    ensures AllSteady(c')
  {
    SelfVotesKept(c, e, c'.hist);
    assert ServerOK(c.servers[e.s], e.s, c.hist, |c.servers|);
    ActorSteady(c, e, c.servers[e.s], After(c, e), c.hist, c'.hist, |c.servers|);
    forall s: nat | s < |c.servers| && s != e.s ensures Steady(c'.servers[s], s, c'.hist) {
      VotesRecorded(c, e, c'.hist);
      assert Steady(c.servers[s], s, c.hist);
    }
  }

  // ---------------------------------------------------------------- one vote per term

  lemma OneVoteMore(h: History, g: Grant, h': History)
    requires OneVote(h) && h'.grants == h.grants + {g}
    ensures OneVote(h') <==> forall k | k in h.grants && k.voter == g.voter && k.term == g.term :: k.cand == g.cand
  {
  }

  lemma GrantKeepsOne(sv: Server, s: nat, a: VoteArgs, h: History, h': History, n: nat)
    requires OneVote(h) && ServerOK(sv, s, h, n) && Steady(sv, s, h) && SelfVotes(h) && Grants(sv, a) && s != a.cand
    requires h'.grants == h.grants + {Grant(s, a.cand, a.term)}
    ensures OneVote(h') <==> Stamp(s, a.term) !in h.cands
  {
    OneVoteMore(h, Grant(s, a.cand, a.term), h');
    if Stamp(s, a.term) in h.cands { assert Grant(s, s, a.term) in h.grants; }
  }

  lemma StandingKeepsOne(sv: Server, s: nat, h: History, h': History, n: nat)
    requires OneVote(h) && ServerOK(sv, s, h, n) && h'.grants == h.grants + {Grant(s, s, sv.term + 1)}
    ensures OneVote(h')
  {
    OneVoteMore(h, Grant(s, s, sv.term + 1), h');
  }

  /** One event: there is still one vote per peer and term exactly when the event does not vote again. */
  lemma StepVotesOnce(c: Cluster, e: Event, h': History)
    requires Inv(c) && AllSteady(c) && OneVote(c.hist) && Enabled(c, e) && h' == Record(c, e)
    ensures OneVote(h') <==> !VotesAgain(c, e)
  {
    VotesRecorded(c, e, h');
    var sv, n := c.servers[e.s], |c.servers|;
    assert ServerOK(sv, e.s, c.hist, n) && Steady(sv, e.s, c.hist);
    if e.Timeout? { StandingKeepsOne(sv, e.s, c.hist, h', n); }
    else if e.RecvVoteReq? && Grants(sv, e.vargs) { GrantKeepsOne(sv, e.s, e.vargs, c.hist, h', n); }
  }

  // ---------------------------------------------------------------- who can vote twice

  /** Only a peer that stood in a term gave two different votes in it. */
  ghost predicate OnlyStandersTwice(h: History) {
    forall g, g' | g in h.grants && g' in h.grants && g.voter == g'.voter && g.term == g'.term && g.cand != g'.cand ::
      Stamp(g.voter, g.term) in h.cands
  }

  lemma GrantByStander(sv: Server, s: nat, a: VoteArgs, h: History, h': History, n: nat)
    requires OnlyStandersTwice(h) && ServerOK(sv, s, h, n) && Steady(sv, s, h) && Grants(sv, a)
    requires h'.grants == h.grants + {Grant(s, a.cand, a.term)} && h'.cands == h.cands
    ensures OnlyStandersTwice(h')
  {
  }

  lemma StepStanders(c: Cluster, e: Event, h': History)
    requires Inv(c) && AllSteady(c) && OnlyStandersTwice(c.hist) && Enabled(c, e) && h' == Record(c, e)
    ensures OnlyStandersTwice(h')
  {
    VotesRecorded(c, e, h');
    var sv, n := c.servers[e.s], |c.servers|;
    assert ServerOK(sv, e.s, c.hist, n) && Steady(sv, e.s, c.hist);
    if e.RecvVoteReq? && Grants(sv, e.vargs) { GrantByStander(sv, e.s, e.vargs, c.hist, h', n); }
    else if e.Timeout? { StandingByStander(sv, e.s, c.hist, h'); }
  }

  lemma StandingByStander(sv: Server, s: nat, h: History, h': History)
    requires OnlyStandersTwice(h) && h'.grants == h.grants + {Grant(s, s, sv.term + 1)}
    requires h'.cands.Keys == h.cands.Keys + {Stamp(s, sv.term + 1)}
    ensures OnlyStandersTwice(h')
  {
    forall g, g' | g in h'.grants && g' in h'.grants && g.voter == g'.voter && g.term == g'.term && g.cand != g'.cand
      ensures Stamp(g.voter, g.term) in h'.cands.Keys
    {
    }
  }
}
