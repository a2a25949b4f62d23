/**
 * Who gets votes.  The election restriction is a total order on logs, so among any peers there is one whom all of
 * them may vote for; and over runs a vote is granted exactly when that order and the voter's own vote allow it.
 */
module RaftElections {
  import opened RaftTypes
  import opened RaftHandlers
  import opened RaftCluster
  import opened RaftInvariant
  import R = RaftTheorems

  // ---------------------------------------------------------------- the order of logs

  /** a ends in an earlier term than b, or in the same term and sooner. */
  predicate Behind(a: Log, b: Log) {
    LastTerm(a) < LastTerm(b) || (LastTerm(a) == LastTerm(b) && |a| < |b|)
  }

  /** A candidate with log a is up to date for a voter with log b. */
  predicate Fresh(a: Log, b: Log) { UpToDate(LastIndex(a), LastTerm(a), b) }

  /** Up to date means not behind: of two logs one is up to date for the other, and both are iff they end alike. */
  lemma FreshIsNotBehind(a: Log, b: Log)
    ensures Fresh(a, b) <==> !Behind(a, b)
    ensures Fresh(a, b) || Fresh(b, a)
    ensures Fresh(a, b) && Fresh(b, a) <==> LastTerm(a) == LastTerm(b) && |a| == |b|
  {
  }

  lemma FreshThrough(a: Log, b: Log, c: Log)
    requires Fresh(a, b) && Fresh(b, c)
    ensures Fresh(a, c)
  {
  }

  /** p's log is up to date for every peer in q. */
  ghost predicate Freshest(servers: seq<Server>, q: set<nat>, p: nat) {
    p < |servers| && forall s | s in q :: s < |servers| && Fresh(servers[p].log, servers[s].log)
  }

  /** Among any peers there is one whose log is up to date for all of them. */
  lemma {:induction false} SomeoneIsFreshest(servers: seq<Server>, q: set<nat>) returns (p: nat)
    requires q != {} && forall s | s in q :: s < |servers|
    ensures p in q && Freshest(servers, q, p)
    decreases |q|
  {
    var s :| s in q;
    p := s;
    var rest := q - {s};
    if rest == {} {
      assert q == {s};
    } else {
      p := SomeoneIsFreshest(servers, rest);
      FreshIsNotBehind(servers[s].log, servers[p].log);
      if !Fresh(servers[p].log, servers[s].log) {
        forall x | x in q ensures Fresh(servers[s].log, servers[x].log) {
          if x != s { FreshThrough(servers[s].log, servers[p].log, servers[x].log); }
        }
        p := s;
      }
    }
  }

  // ---------------------------------------------------------------- a vote

  /** The voter can still give its vote of this term to cand. */
  predicate FreeFor(sv: Server, a: VoteArgs) {
    a.term > sv.term || (a.term == sv.term && (sv.vote == NoVote || sv.vote == VotedFor(a.cand)))
  }

  /** What the voter is left with: the later term, and the vote it gave or still has in that term. */
  ghost predicate VoterAfter(sv: Server, a: VoteArgs, granted: bool, sv': Server) {
    && sv'.term == Max(sv.term, a.term) && sv'.log == sv.log
    && sv'.vote == (if granted then VotedFor(a.cand) else if a.term > sv.term then NoVote else sv.vote)
    && sv'.disk.term == sv'.term && sv'.disk.vote == sv'.vote
    && (if a.term > sv.term then sv'.role == Follower else sv'.role == sv.role)
  }

  lemma VoteOf(sv: Server, a: VoteArgs, l: Log)
    requires DiskOK(sv) && a.lastIndex == LastIndex(l) && a.lastTerm == LastTerm(l)
    ensures Grants(sv, a) <==> FreeFor(sv, a) && !Behind(l, sv.log)
    ensures VoterAfter(sv, a, Grants(sv, a), OnVoteReq(sv, a))
  {
    FreshIsNotBehind(l, sv.log);
  }

  /**
   * In a run a voter answers every request once, and grants it if and only if its vote is free for the candidate and
   * the log with which the candidate stood is not behind its own; the vote is on disk when the answer goes out.
   */
  lemma VoteIsGrantedIff(n: nat, events: seq<Event>, states: seq<Cluster>, i: nat, s: nat, a: VoteArgs)
    requires IsRun(n, events, states) && i < |events| && events[i] == RecvVoteReq(s, a)
    ensures s < |states[i].servers| == |states[i + 1].servers| && Stamp(a.cand, a.term) in states[i].hist.cands
    ensures var sv, l := states[i].servers[s], states[i].hist.cands[Stamp(a.cand, a.term)];
            var granted := FreeFor(sv, a) && !Behind(l, sv.log);
            && Sends(states[i], events[i]) == {VoteRep(s, a, VoteReply(sv.term, granted))}
            && (Grant(s, a.cand, a.term) in states[i + 1].hist.grants <==>
                  granted || Grant(s, a.cand, a.term) in states[i].hist.grants)
            && VoterAfter(sv, a, granted, states[i + 1].servers[s])
  {
    R.RunKeeps(n, events, states, i);
    var c := states[i];
    assert ServerOK(c.servers[s], s, c.hist, n) && MsgOK(VoteReq(a), c.hist, n);
    VoteOf(c.servers[s], a, c.hist.cands[Stamp(a.cand, a.term)]);
  }
}
