/** Every in-order event keeps the safety invariant of RaftSafety. */
module RaftSafetySteps {
  import opened RaftTypes
  import opened RaftHandlers
  import opened RaftCluster
  import opened RaftInvariant
  import opened RaftSteps
  import opened RaftSafety

  lemma InitSafe(n: nat)
    ensures Safe(Init(n))
  {
    InitOK(n);
    var c := Init(n);
    forall s | 0 <= s < n ensures SafeServer(c.servers[s], s, c.hist) {
      assert c.servers[s] == Boot(Blank);
    }
  }

  /** The acting peer's log and progress are as before, its term as before or later. */
  lemma LogKept(sv: Server, sv': Server, me: nat, h: History)
    requires SafeServer(sv, me, h)
    requires sv'.log == sv.log && sv'.term >= sv.term && sv'.role != Leader
    requires sv'.commit == sv.commit && sv'.applied == sv.applied && sv'.batch == sv.batch
    ensures SafeServer(sv', me, h)
  {
    forall t, N | Own(h, t, N) && Acked(h, me, t, N) ensures UpTo(h, t, N) <= sv'.log || Lost(h, t, N, sv'.term) {
      if Lost(h, t, N, sv.term) { LostLater(h, t, N, sv.term, sv'.term); }
    }
    var p := sv.log[..sv.commit + 1];
    assert Backed(h, p, sv.term, me);
    if |p| > 1 && sv'.term > sv.term {
      var t: nat :| t <= sv.term && Vouches(h, t, p) && (t == sv.term ==> Acked(h, me, t, |p| - 1));
      assert t <= sv'.term && t != sv'.term;
    }
  }

  // ---------------------------------------------------------------- standing for election

  /** A candidate votes for itself: its own log is the one the vote respects. */
  lemma CandidacySafe(sv: Server, s: nat, h: History, h': History, n: nat)
    requires h' == WithCandidacy(h, s, sv.term + 1, sv.log)
    requires HistOK(h, n) && ServerOK(sv, s, h, n) && VotesSafe(h) && AckHeld(sv, s, h) && Grows(h, h')
    ensures VotesSafe(h')
  {
    var g := Grant(s, s, sv.term + 1);
    assert VoteSafe(h', g) by {
      AckHeldGrows(sv, s, h, h');
      OwnVoteSafe(sv, s, h', g);
    }
    assert forall k | Counts(h', k) && !Counts(h, k) :: k == g by { NewVote(h, h', g); }
    VotesSafeGrow(h, h');
  }

  lemma NewVote(h: History, h': History, g: Grant)
    requires h'.grants == h.grants + {g} && h'.reigns == h.reigns
    ensures forall k | Counts(h', k) && !Counts(h, k) :: k == g
  {
  }

  lemma OwnVoteSafe(sv: Server, s: nat, h: History, g: Grant)
    requires AckHeld(sv, s, h) && g == Grant(s, s, sv.term + 1) && Stamp(s, g.term) in h.cands
             && h.cands[Stamp(s, g.term)] == sv.log
    ensures VoteSafe(h, g)
  {
  }

  lemma TimeoutAdvances(sv: Server, s: nat, sv': Server, h: History, h': History, n: nat)
    requires sv' == OnTimeout(sv, s) && h' == WithCandidacy(h, s, sv'.term, sv'.log)
    requires HistOK(h, n) && ServerOK(sv, s, h, n) && HistSafe(h, n) && SafeServer(sv, s, h) && s < n
    ensures Advances(h, h', sv', s, n)
  {
    CandidacySpares(h, s, sv'.term, sv.log, h');
    CandidacySafe(sv, s, h, h', n);
    HistSafeGrows(h, h', n);
    assert SafeServer(sv', s, h) by { LogKept(sv, sv', s, h); }
    BystanderSafe(sv', s, h, h', n);
  }

  lemma TimeoutSafe(c: Cluster, s: nat, sv: Server, sv': Server, sends: set<Msg>, h: History, h': History, n: nat)
    requires Safe(c) && At(c, s, sv, h, n)
    requires sv' == OnTimeout(sv, s) && sends == {VoteReq(Ballots(sv', s))}
             && h' == WithCandidacy(h, s, sv'.term, sv'.log)
    ensures GrowsSafely(h, h') && Held(Cluster(c.servers[s := sv'], c.net + sends, h'))
  {
    TimeoutAdvances(sv, s, sv', h, h', n);
    AssembleSafe(c, s, sv', sends, h');
  }

  // ---------------------------------------------------------------- voting

  /** The election restriction at work: an up-to-date candidate holds what its voter acknowledged. */
  lemma UpToDateHolds(l: Log, cand: Log, t: nat, N: nat, u: nat, h: History, n: nat)
    requires HistOK(h, n) && Sourced(l, h) && Sourced(cand, h) && TermsBelow(cand, u)
    requires Own(h, t, N) && UpTo(h, t, N) <= l
    requires UpToDate(LastIndex(cand), LastTerm(cand), l)
    ensures UpTo(h, t, N) <= cand || Lost(h, t, N, u - 1)
  {
    var i, k := LastIndex(cand), LastIndex(l);
    assert l[N].term == t;
    TermsOrdered(l, h, n, N, k);
    assert ReignLogOK(t, h.reigns[t], h);
    assert LastTerm(cand) >= t >= 1;
    InReign(cand, h, n, i);
    assert cand == cand[..i + 1];
    if LastTerm(cand) > t { LaterLeaderHolds(cand, t, N, u, h, n); }
  }

  lemma LaterLeaderHolds(cand: Log, t: nat, N: nat, u: nat, h: History, n: nat)
    requires HistOK(h, n) && Own(h, t, N) && |cand| >= 2 && t < LastTerm(cand) < u
    requires var v := LastTerm(cand); v in h.reigns && |cand| > |h.reigns[v].first| && cand <= h.reigns[v].log
    ensures UpTo(h, t, N) <= cand || Lost(h, t, N, u - 1)
  {
    var v := LastTerm(cand);
    var r := h.reigns[v];
    assert ReignLogOK(v, r, h);
    if UpTo(h, t, N) <= r.first { assert r.first <= cand; }
  }

  lemma FreshVoteSafe(sv: Server, s: nat, a: VoteArgs, cand: Log, h: History, n: nat)
    requires HistOK(h, n) && ServerOK(sv, s, h, n) && AckHeld(sv, s, h)
    requires VoteReqOK(a, h) && Grants(sv, a) && a.term !in h.reigns && cand == h.cands[Stamp(a.cand, a.term)]
    ensures VoteSafe(h, Grant(s, a.cand, a.term))
  {
    SourcedPrefix(sv.disk.log, sv.log, h);
    assert Sourced(cand, h) && TermsBelow(cand, a.term);
    forall t: nat, N | t < a.term && Own(h, t, N) && Acked(h, s, t, N)
      ensures UpTo(h, t, N) <= cand || Lost(h, t, N, a.term - 1)
    {
      if UpTo(h, t, N) <= sv.log {
        UpToDateHolds(sv.log, cand, t, N, a.term, h, n);
      } else {
        LostBefore(h, t, N, sv.term, a.term);
      }
    }
  }

  lemma LostBefore(h: History, t: nat, N: nat, u: nat, u': nat)
    requires Own(h, t, N) && Lost(h, t, N, u) && u <= u' && u' !in h.reigns && u' >= 1
    ensures Lost(h, t, N, u' - 1)
  {
    var v :| v in h.reigns && t < v <= u && !(UpTo(h, t, N) <= h.reigns[v].first);
    assert v <= u' - 1;
  }

  lemma GrantSafe(sv: Server, s: nat, a: VoteArgs, g: Grant, h: History, h': History, n: nat)
    requires g == Grant(s, a.cand, a.term) && h' == WithGrant(h, g) && Grows(h, h')
    requires HistOK(h, n) && ServerOK(sv, s, h, n) && VotesSafe(h) && AckHeld(sv, s, h)
    requires VoteReqOK(a, h) && Grants(sv, a)
    ensures VotesSafe(h')
  {
    if !Counts(h, g) && Counts(h', g) {
      FreshVoteSafe(sv, s, a, h.cands[Stamp(a.cand, a.term)], h, n);
      VoteSafeGrows(g, h, h');
    }
    forall g' | Counts(h', g') && !Counts(h, g') ensures Stamp(g'.cand, g'.term) in h'.cands && VoteSafe(h', g') {
      assert g' == g;
    }
    VotesSafeGrow(h, h');
  }

  lemma LeaderRefuses(sv: Server, s: nat, a: VoteArgs, h: History, n: nat)
    requires ServerOK(sv, s, h, n) && HistOK(h, n) && s != a.cand && OnVoteReq(sv, a).role == Leader
    ensures OnVoteReq(sv, a) == sv
  {
    assert sv.role == Leader;
    assert VotersOK(sv.term, h.reigns[sv.term], h, n);
    assert BoundTo(sv, sv.term, s);
  }

  lemma VoterSafe(sv: Server, s: nat, a: VoteArgs, sv': Server, h: History, n: nat)
    requires sv' == OnVoteReq(sv, a) && HistOK(h, n) && ServerOK(sv, s, h, n) && SafeServer(sv, s, h) && s != a.cand
    ensures SafeServer(sv', s, h)
  {
    VoteShape(sv, a, sv');
    if sv'.role == Leader { LeaderRefuses(sv, s, a, h, n); } else { LogKept(sv, sv', s, h); }
  }

  lemma VoteShape(sv: Server, a: VoteArgs, sv': Server)
    requires sv' == OnVoteReq(sv, a)
    ensures sv'.log == sv.log && sv'.term >= sv.term
    ensures sv'.commit == sv.commit && sv'.applied == sv.applied && sv'.batch == sv.batch
  {
  }

  lemma GrantAdvances(sv: Server, s: nat, a: VoteArgs, sv': Server, h: History, h': History, n: nat)
    requires sv' == OnVoteReq(sv, a) && h' == WithGrant(h, Grant(s, a.cand, a.term)) && SafeServer(sv', s, h)
    requires HistOK(h, n) && ServerOK(sv, s, h, n) && HistSafe(h, n) && SafeServer(sv, s, h)
    requires VoteReqOK(a, h) && Grants(sv, a)
    ensures Advances(h, h', sv', s, n)
  {
    GrantSpares(h, Grant(s, a.cand, a.term), h');
    GrantSafe(sv, s, a, Grant(s, a.cand, a.term), h, h', n);
    HistSafeGrows(h, h', n);
    BystanderSafe(sv', s, h, h', n);
  }

  lemma VoteReqSafe(c: Cluster, s: nat, a: VoteArgs, sv: Server, sv': Server, sends: set<Msg>, h: History,
      h': History, n: nat)
    requires Safe(c) && At(c, s, sv, h, n) && VoteReq(a) in c.net && s != a.cand
    requires sv' == OnVoteReq(sv, a) && sends == {VoteRep(s, a, VoteAnswer(sv, a))}
    requires h' == if Grants(sv, a) then WithGrant(h, Grant(s, a.cand, a.term)) else h
    ensures GrowsSafely(h, h') && Held(Cluster(c.servers[s := sv'], c.net + sends, h'))
  {
    assert MsgOK(VoteReq(a), h, n);
    VoterSafe(sv, s, a, sv', h, n);
    if Grants(sv, a) {
      GrantAdvances(sv, s, a, sv', h, h', n);
      AssembleSafe(c, s, sv', sends, h');
    } else {
      QuietSafe(c, s, sv', sends);
    }
  }

  // ---------------------------------------------------------------- winning an election

  lemma WinVotes(sv: Server, s: nat, voters: set<nat>, h: History, h': History, n: nat)
    requires h' == WithReign(h, s, sv.term, voters, sv.log) && Grows(h, h')
    requires HistOK(h, n) && VotesSafe(h) && sv.term !in h.reigns
    requires forall g | g in h.grants && g.voter == s :: g.term <= sv.term
    ensures VotesSafe(h')
  {
    VotesSafeGrow(h, h');
  }

  lemma WinHolds(sv: Server, s: nat, voters: set<nat>, sv': Server, h: History, h': History)
    requires sv'.log == sv.log && sv'.term == sv.term && h' == WithReign(h, s, sv.term, voters, sv.log)
    requires AckedOK(h) && TermsBelow(sv.log, sv.term) && AckHeld(sv, s, h) && sv.term !in h.reigns && Grows(h, h')
    ensures AckHeld(sv', s, h')
  {
    forall t, N | Own(h', t, N) && Acked(h', s, t, N) ensures UpTo(h', t, N) <= sv.log || Lost(h', t, N, sv.term) {
      if t != sv.term {
        assert Acked(h, s, t, N);
        OwnGrows(h, h', t, N);
        if Lost(h, t, N, sv.term) { LostGrows(h, h', t, N, sv.term); }
      }
    }
  }

  lemma WinServer(sv: Server, s: nat, voters: set<nat>, sv': Server, h: History, h': History, n: nat)
    requires sv'.log == sv.log && sv'.term == sv.term && sv'.commit == sv.commit && sv'.applied == sv.applied
    requires sv'.batch == sv.batch && h' == WithReign(h, s, sv.term, voters, sv.log)
    requires AckedOK(h) && TermsBelow(sv.log, sv.term) && SafeServer(sv, s, h) && PointsOK(h, n) && sv.term !in h.reigns
    requires GrowsSafely(h, h') && PointsOK(h', n)
    ensures SafeServer(sv', s, h')
  {
    assert AckHeld(sv', s, h') by { WinHolds(sv, s, voters, sv', h, h'); }
    WinCommit(sv, s, sv', sv.log[..sv.commit + 1], h, h', n);
  }

  lemma WinCommit(sv: Server, s: nat, sv': Server, p: Log, h: History, h': History, n: nat)
    requires sv'.log == sv.log && sv'.term == sv.term && sv'.commit == sv.commit && CommitOK(sv, s, h)
    requires p == sv.log[..sv.commit + 1] && PointsOK(h, n) && sv.term !in h.reigns && h'.points == h.points
    requires GrowsSafely(h, h') && PointsOK(h', n)
    ensures CommitOK(sv', s, h')
  {
    BackedGrows(h, h', n, p, sv.term, s);
    NoPointYet(h, n, sv.term);
  }

  lemma NoPointYet(h: History, n: nat, t: nat)
    requires PointsOK(h, n) && t !in h.reigns
    ensures t !in h.points
  {
    assert t in h.points ==> Chosen(h, n, t, h.points[t]);
  }

  lemma WinAdvances(sv: Server, s: nat, v: nat, voters: set<nat>, sv': Server, h: History, h': History, n: nat)
    requires sv' == BecomeLeader(sv.(voters := voters), s, n) && h' == WithReign(h, s, sv.term, voters, sv.log)
    requires HistOK(h, n) && ServerOK(sv, s, h, n) && SafeServer(sv, s, h) && HistSafe(h, n) && s < n
    requires sv.role == Candidate && voters == sv.voters + {v}
    requires v < n && Grant(v, s, sv.term) in h.grants && |voters| > n / 2
    ensures Advances(h, h', sv', s, n)
    ensures forall m | m in Broadcast(sv', s) :: m.AppendReq? && SafeAppend(m.args, h')
  {
    WinHistory(sv, s, v, voters, h, h', n);
    assert ServerOK(sv', s, h', n) by { NewLeaderServer(sv, s, voters, sv', h, h', n); }
    assert VotesSafe(h') by { WinVotes(sv, s, voters, h, h', n); }
    HistSafeGrows(h, h', n);
    assert SafeServer(sv', s, h') by { WinServer(sv, s, voters, sv', h, h', n); }
    ReignSpares(h, s, sv.term, voters, sv.log, h');
    BroadcastSafe(sv', s, h', n);
  }

  lemma VoteRepSafe(c: Cluster, s: nat, v: nat, a: VoteArgs, r: VoteReply,
                    sv: Server, sv': Server, sends: set<Msg>, h: History, h': History, n: nat)
    requires Safe(c) && At(c, s, sv, h, n) && VoteRep(v, a, r) in c.net && s == a.cand
    requires sv' == OnVoteRep(sv, s, n, v, a, r)
    requires Wins(sv, n, v, a, r) ==>
             sends == Broadcast(sv', s) && h' == WithReign(h, s, sv.term, sv.voters + {v}, sv.log)
    requires !Wins(sv, n, v, a, r) ==> sends == {} && h' == h
    ensures GrowsSafely(h, h') && Held(Cluster(c.servers[s := sv'], c.net + sends, h'))
  {
    assert MsgOK(VoteRep(v, a, r), h, n);
    if Wins(sv, n, v, a, r) {
      WinAdvances(sv, s, v, sv.voters + {v}, sv', h, h', n);
      AssembleSafe(c, s, sv', sends, h');
    } else {
      assert SafeServer(sv, s, h);
      assert SafeServer(sv', s, h) by { if sv'.role != Leader { LogKept(sv, sv', s, h); } }
      QuietSafe(c, s, sv', sends);
    }
  }

  // ---------------------------------------------------------------- replication, leader side

  lemma SuffixSafe(sv: Server, me: nat, next: nat, a: AppendArgs, h: History, n: nat)
    requires a == Suffix(sv, me, next)
    requires sv.role == Leader && LeaderOK(sv, me, h, n) && CommitOK(sv, me, h)
    requires 1 <= next <= |sv.log| && h.reigns[sv.term].first <= sv.log
    ensures SafeAppend(a, h)
  {
    SuffixOK(sv, me, next, a, h, n);
    if sv.commit > 0 {
      var p := sv.log[..sv.commit + 1];
      assert p == UpTo(h, sv.term, sv.commit);
      var t: nat :| t <= sv.term && Vouches(h, t, p);
    }
  }

  lemma BroadcastSafe(sv: Server, me: nat, h: History, n: nat)
    requires LeaderOK(sv, me, h, n) && HistOK(h, n) && CommitOK(sv, me, h)
    ensures forall m | m in Broadcast(sv, me) :: m.AppendReq? && SafeAppend(m.args, h)
  {
    if sv.role == Leader { assert ReignLogOK(sv.term, h.reigns[sv.term], h); }
    forall m | m in Broadcast(sv, me) ensures m.AppendReq? && SafeAppend(m.args, h) {
      SuffixSafe(sv, me, sv.next[m.dest], m.args, h, n);
    }
  }

  lemma HeartbeatSafe(c: Cluster, s: nat, sv: Server, sends: set<Msg>, h: History, n: nat)
    requires Safe(c) && At(c, s, sv, h, n) && sends == Broadcast(sv, s)
    ensures GrowsSafely(h, h) && Held(Cluster(c.servers[s := sv], c.net + sends, h))
  {
    assert ServerOK(sv, s, h, n) && SafeServer(sv, s, h);
    BroadcastSafe(sv, s, h, n);
    QuietSafe(c, s, sv, sends);
  }

  lemma StartVotes(s: nat, t: nat, e: Entry, h: History, h': History, n: nat)
    requires Appends(h, s, t, e, h') && Grows(h, h') && HistOK(h, n) && VotesSafe(h)
    requires forall g | g in h.grants && g.voter == s :: g.term <= t
    ensures VotesSafe(h')
  {
    forall g | Counts(h', g) ensures Counts(h, g) {
      if g.term in h.reigns { assert ReignGrows(h.reigns[g.term], h'.reigns[g.term]); }
    }
    VotesSafeGrow(h, h');
  }

  lemma StartHolds(sv: Server, s: nat, cmd: Command, sv': Server, h: History, h': History)
    requires sv' == OnStart(sv, s, cmd) && Appends(h, s, sv.term, Entry(sv.term, cmd), h') && Grows(h, h')
    requires AckedOK(h) && AckHeld(sv, s, h) && sv.role == Leader && h.reigns[sv.term].log == sv.log
    ensures AckHeld(sv', s, h')
  {
    forall t, N | Own(h', t, N) && Acked(h', s, t, N) ensures UpTo(h', t, N) <= sv'.log || Lost(h', t, N, sv'.term) {
      if t != sv.term {
        assert Acked(h, s, t, N);
        OwnGrows(h, h', t, N);
        if Lost(h, t, N, sv.term) { LostGrows(h, h', t, N, sv.term); }
      }
    }
  }

  lemma BatchStays(sv: Server, l: Log)
    requires ApplierOK(sv) && sv.log[..sv.commit + 1] <= l
    ensures sv.commit < |l| && sv.batch == l[sv.applied + 1..sv.applied + 1 + |sv.batch|]
  {
    var p := sv.log[..sv.commit + 1];
    assert l[sv.applied + 1..sv.applied + 1 + |sv.batch|] == p[sv.applied + 1..sv.applied + 1 + |sv.batch|];
  }

  lemma ApplierKept(sv: Server, sv': Server, p: Log, commit: int)
    requires ApplierOK(sv) && p == sv.log[..sv.commit + 1] && p <= sv'.log && sv'.applied == sv.applied
             && sv'.batch == sv.batch
    requires sv'.commit == if commit > sv.commit then Min(commit, LastIndex(sv'.log)) else sv.commit
    ensures ApplierOK(sv')
  {
    BatchStays(sv, sv'.log);
  }

  lemma StarterSafe(sv: Server, s: nat, cmd: Command, sv': Server, h: History, h': History, n: nat)
    requires sv' == OnStart(sv, s, cmd) && Appends(h, s, sv.term, Entry(sv.term, cmd), h') && GrowsSafely(h, h')
    requires AckedOK(h) && SafeServer(sv, s, h) && PointsOK(h', n) && sv.role == Leader
             && h.reigns[sv.term].log == sv.log
    ensures SafeServer(sv', s, h')
  {
    assert AckHeld(sv', s, h') by { StartHolds(sv, s, cmd, sv', h, h'); }
    var p := sv.log[..sv.commit + 1];
    assert p <= sv'.log && sv'.log[..sv.commit + 1] == p;
    assert CommitOK(sv', s, h') by { BackedGrows(h, h', n, p, sv.term, s); }
    ApplierKept(sv, sv', p, sv.commit);
  }

  lemma StartAdvances(sv: Server, s: nat, cmd: Command, e: Entry, sv': Server, h: History, h': History, n: nat)
    requires e == Entry(sv.term, cmd) && sv' == OnStart(sv, s, cmd) && Appends(h, s, sv.term, e, h')
    requires HistOK(h, n) && ServerOK(sv, s, h, n) && SafeServer(sv, s, h) && HistSafe(h, n) && s < n
             && sv.role == Leader
    ensures Advances(h, h', sv', s, n)
    ensures forall m | m in Broadcast(sv', s) :: m.AppendReq? && SafeAppend(m.args, h')
  {
    EntrySpares(h, s, sv.term, e, h');
    assert VotesSafe(h') by { StartVotes(s, sv.term, e, h, h', n); }
    HistSafeGrows(h, h', n);
    assert SafeServer(sv', s, h') by { StarterSafe(sv, s, cmd, sv', h, h', n); }
    assert HistOK(h', n) by { EntryOK(h, s, sv.term, e, h', n); }
    assert ServerOK(sv', s, h', n) by {
      assert ReignLogOK(sv.term, h'.reigns[sv.term], h');
      StartServer(sv, s, cmd, sv', h, h', n);
    }
    BroadcastSafe(sv', s, h', n);
  }

  lemma StartSafe(c: Cluster, s: nat, cmd: Command, sv: Server, sv': Server, sends: set<Msg>, h: History,
      h': History, n: nat)
    requires Safe(c) && At(c, s, sv, h, n) && sv.role == Leader
    requires sv' == OnStart(sv, s, cmd) && sends == Broadcast(sv', s) && Appends(h, s, sv.term, Entry(sv.term, cmd), h')
    ensures GrowsSafely(h, h') && Held(Cluster(c.servers[s := sv'], c.net + sends, h'))
  {
    StartAdvances(sv, s, cmd, Entry(sv.term, cmd), sv', h, h', n);
    AssembleSafe(c, s, sv', sends, h');
  }

  // ---------------------------------------------------------------- the commit rule

  /** The peers the commit rule counted, as a set. */
  lemma CountIsQuorum(acks: seq<Index>, me: nat, N: nat, k: nat) returns (q: set<nat>)
    requires k <= |acks|
    ensures forall p: nat :: p in q <==> p < k && p != me && acks[p] >= N
    ensures |q| == CountAcks(acks, me, N, k)
  {
    q := {};
    if k > 0 {
      q := CountIsQuorum(acks, me, N, k - 1);
      if k - 1 != me && acks[k - 1] >= N { q := q + {k - 1}; }
    }
  }

  /** The descending loop: nothing committable lies above the index it stops at. */
  lemma CommitFromIs(sv: Server, me: nat, N: int)
    ensures var k := CommitFrom(sv, me, N);
            && k >= sv.commit && (k > sv.commit ==> k <= N && Committable(sv, me, k))
            && forall i | k < i <= N :: !Committable(sv, me, i)
    decreases N - sv.commit
  {
    if N > sv.commit && !Committable(sv, me, N) { CommitFromIs(sv, me, N - 1); }
  }

  lemma CommittableChosen(sv: Server, me: nat, N: nat, h: History, n: nat)
    requires LeaderOK(sv, me, h, n) && me < n && sv.role == Leader && Committable(sv, me, N)
    ensures Chosen(h, n, sv.term, N)
  {
    var q := CountIsQuorum(sv.acks, me, N, n);
    assert q + {me} <= Ackers(h, n, sv.term, N);
    Subset(q + {me}, Ackers(h, n, sv.term, N));
  }

  ghost function WithPoint(h: History, t: nat, N: nat): History { h.(points := h.points[t := N]) }

  lemma PointSpares(h: History, s: nat, t: nat, N: nat, h': History)
    requires h' == WithPoint(h, t, N) && t in h.reigns && h.reigns[t].leader == s
             && (t in h.points ==> h.points[t] <= N)
    ensures GrowsSafely(h, h') && PointsOf(h, h', s) && forall p: nat | p != s :: Spares(h, h', p)
  {
  }

  lemma PointChosen(h: History, n: nat, t: nat, N: nat, h': History)
    requires h' == WithPoint(h, t, N) && PointsOK(h, n) && Chosen(h, n, t, N) && Grows(h, h')
    ensures PointsOK(h', n)
  {
    forall u | u in h'.points ensures Chosen(h', n, u, h'.points[u]) {
      ChosenGrows(h, h', n, u, if u == t then N else h.points[u]);
    }
  }

  lemma PointAdvances(sv: Server, sv': Server, s: nat, t: nat, N: nat, h: History, h': History, n: nat)
    requires h' == WithPoint(h, t, N) && t == sv.term && N == sv'.commit
    requires AckedOK(h) && HistSafe(h, n) && SafeServer(sv, s, h) && sv.role == Leader
    requires t in h.reigns && h.reigns[t].log == sv.log && h.reigns[t].leader == s && Acked(h, s, t, LastIndex(sv.log))
    requires sv' == sv.(commit := N, acks := sv'.acks, next := sv'.next) && sv.commit < N < |sv.log|
    requires Chosen(h, n, t, N)
    ensures Advances(h, h', sv', s, n)
  {
    PointSpares(h, s, t, N, h');
    assert HistSafe(h', n) by { PointHistory(t, N, h, h', n); }
    assert SafeServer(sv', s, h') by { PointServer(sv, sv', s, t, N, h, h'); }
  }

  lemma PointHistory(t: nat, N: nat, h: History, h': History, n: nat)
    requires h' == WithPoint(h, t, N) && AckedOK(h) && HistSafe(h, n) && Chosen(h, n, t, N) && GrowsSafely(h, h')
    ensures HistSafe(h', n)
  {
    assert PointsOK(h', n) by { PointChosen(h, n, t, N, h'); }
    assert DeliveredOK(h') by { DeliveredGrows(h, h', n); }
    assert VotesSafe(h') by { VotesSafeGrow(h, h'); }
  }

  lemma PointServer(sv: Server, sv': Server, s: nat, t: nat, N: nat, h: History, h': History)
    requires h' == WithPoint(h, t, N) && t == sv.term && N == sv'.commit && AckedOK(h) && SafeServer(sv, s, h)
    requires t in h.reigns && h.reigns[t].log == sv.log && Acked(h, s, t, LastIndex(sv.log)) && Grows(h, h')
    requires sv' == sv.(commit := N, acks := sv'.acks, next := sv'.next) && sv.commit < N < |sv.log|
    ensures SafeServer(sv', s, h')
  {
    assert AckHeld(sv', s, h') by { AckHeldGrows(sv, s, h, h'); }
    assert CommitOK(sv', s, h') by { assert Vouches(h', t, sv'.log[..N + 1]); }
  }

  lemma CommitAdvances(sv: Server, s: nat, peer: nat, a: AppendArgs, r: AppendReply, sv': Server, h: History,
      h': History, n: nat)
    requires sv' == OnAppendRep(sv, s, peer, a, r) && sv'.commit > sv.commit && sv'.commit >= 0
             && h' == WithPoint(h, sv.term, sv'.commit)
    requires HistOK(h, n) && ServerOK(sv, s, h, n) && SafeServer(sv, s, h) && HistSafe(h, n) && s < n
    requires ReplyOK(peer, a, r, h, n) && peer != s
    ensures Retry(sv, s, peer, a, r) == {}
    ensures Advances(h, h', sv', s, n)
  {
    assert LeaderOK(sv', s, h, n) by { AppendRepServer(sv, s, peer, a, r, sv', h, n); }
    var sv1 := sv'.(commit := sv.commit);
    assert sv'.commit == CommitFrom(sv1, s, LastIndex(sv.log));
    CommitFromIs(sv1, s, LastIndex(sv.log));
    CommittableChosen(sv', s, sv'.commit, h, n);
    PointAdvances(sv, sv', s, sv.term, sv'.commit, h, h', n);
  }

  lemma NoCommitSafe(sv: Server, s: nat, peer: nat, a: AppendArgs, r: AppendReply, sv': Server, h: History)
    requires sv' == OnAppendRep(sv, s, peer, a, r) && SafeServer(sv, s, h) && sv'.commit <= sv.commit
    ensures SafeServer(sv', s, h)
  {
    if sv'.role != Leader {
      LogKept(sv, sv', s, h);
    } else if !Retries(sv, a, r) && sv' != sv {
      CommitFromIs(sv'.(commit := sv.commit), s, LastIndex(sv.log));
    }
  }

  lemma RetrySafe(sv: Server, s: nat, peer: nat, a: AppendArgs, r: AppendReply, h: History, n: nat)
    requires ServerOK(sv, s, h, n) && HistOK(h, n) && CommitOK(sv, s, h) && ReplyOK(peer, a, r, h, n)
    ensures forall m | m in Retry(sv, s, peer, a, r) :: m.AppendReq? && SafeAppend(m.args, h)
  {
    if Retries(sv, a, r) {
      var k := BackUp(sv.log, r);
      assert 1 <= k <= |sv.log| by { RetryOK(sv, s, peer, a, r, h, n); }
      assert h.reigns[sv.term].first <= sv.log by { assert ReignLogOK(sv.term, h.reigns[sv.term], h); }
      SuffixSafe(sv, s, k, Suffix(sv, s, k), h, n);
    }
  }

  lemma AppendRepSafe(c: Cluster, s: nat, peer: nat, a: AppendArgs, r: AppendReply,
                      sv: Server, sv': Server, sends: set<Msg>, h: History, h': History, n: nat)
    requires Safe(c) && At(c, s, sv, h, n) && AppendRep(peer, a, r) in c.net && s == a.leader
    requires sv' == OnAppendRep(sv, s, peer, a, r) && sends == Retry(sv, s, peer, a, r)
    requires h' == if sv'.commit > sv.commit && sv'.commit >= 0 then WithPoint(h, sv.term, sv'.commit) else h
    ensures GrowsSafely(h, h') && Held(Cluster(c.servers[s := sv'], c.net + sends, h'))
  {
    assert MsgOK(AppendRep(peer, a, r), h, n) && SafeServer(sv, s, h);
    if sv'.commit > sv.commit {
      CommitAdvances(sv, s, peer, a, r, sv', h, h', n);
      AssembleSafe(c, s, sv', sends, h');
    } else {
      RetrySafe(sv, s, peer, a, r, h, n);
      NoCommitSafe(sv, s, peer, a, r, sv', h);
      QuietSafe(c, s, sv', sends);
    }
  }

  // ---------------------------------------------------------------- replication, follower side

  lemma AcceptHolds(sv: Server, sv': Server, s: nat, a: AppendArgs, h: History, h': History)
    requires AppendOK(a, h) && h' == WithAck(h, Stamp(s, a.term), a.End()) && Grows(h, h')
    requires AckHeld(sv, s, h) && AckedOK(h)
    requires forall k | k in h.acked && k.id == s :: k.term <= a.term
    requires Stamp(s, a.term) in h.acked ==> a.End() >= h.acked[Stamp(s, a.term)]
    requires sv'.log == h.reigns[a.term].log[..a.End() + 1] && sv'.term == a.term && h.reigns[a.term].first <= sv'.log
    ensures AckHeld(sv', s, h')
  {
    forall t, N | Own(h', t, N) && Acked(h', s, t, N) ensures UpTo(h', t, N) <= sv'.log || Lost(h', t, N, sv'.term) {
      OwnGrows(h, h', t, N);
      if t != a.term && !(UpTo(h, t, N) <= h.reigns[a.term].first) {
        assert Lost(h, t, N, a.term);
        LostGrows(h, h', t, N, a.term);
      }
    }
  }

  /** The leader of u began with everything committed in earlier terms. */
  ghost predicate Inherits(h: History, u: nat)
    requires u in h.reigns
  {
    forall t | t in h.points && t < u && t in h.reigns && h.points[t] < |h.reigns[t].log| ::
      UpTo(h, t, h.points[t]) <= h.reigns[u].first
  }

  lemma Inherited(h: History, n: nat, u: nat)
    requires HistOK(h, n) && VotesSafe(h) && PointsOK(h, n) && u in h.reigns
    ensures Inherits(h, u)
  {
    forall t | t in h.points && t < u ensures UpTo(h, t, h.points[t]) <= h.reigns[u].first {
      assert Chosen(h, n, t, h.points[t]);
      Complete(h, n, t, h.points[t], u);
    }
  }

  lemma CommittedStays(u: nat, s: nat, a: AppendArgs, r: Reign, p: Log, h: History, n: nat)
    requires AppendOK(a, h) && r == h.reigns[a.term] && r.first <= r.log[..a.End() + 1] && r.log[0] == Sentinel
    requires PointsOK(h, n) && Inherits(h, a.term)
    requires |p| >= 1 && p[0] == Sentinel && Backed(h, p, u, s) && a.term >= u
    requires Stamp(s, a.term) in h.acked ==> a.End() >= h.acked[Stamp(s, a.term)]
    ensures p <= r.log[..a.End() + 1]
  {
    if |p| > 1 {
      var t: nat :| t <= u && Vouches(h, t, p) && (t == u ==> Acked(h, s, t, |p| - 1));
      var q := UpTo(h, t, h.points[t]);
      if t < a.term {
        Chain(p, q, r.first, r.log[..a.End() + 1]);
      } else {
        Cut(p, q, r.log, a.End() + 1);
      }
    }
  }

  lemma Chain(p: Log, q: Log, f: Log, l: Log)
    requires p <= q && q <= f && f <= l
    ensures p <= l
  {
  }

  lemma Cut(p: Log, q: Log, l: Log, k: nat)
    requires p <= q && q <= l && |p| <= k <= |l|
    ensures p <= l[..k]
  {
  }

  lemma CommittedBacked(p: Log, u: nat, s: nat, a: AppendArgs, h: History, h': History, n: nat)
    requires h' == WithAck(h, Stamp(s, a.term), Max(0, a.End())) && GrowsSafely(h, h') && PointsOK(h', n)
    requires Backed(h, p, u, s) && a.term >= u
    ensures Backed(h', p, a.term, s)
  {
    if |p| > 1 {
      var t: nat :| t <= u && Vouches(h, t, p) && (t == u ==> Acked(h, s, t, |p| - 1));
      VouchesAfter(h, h', n, t, p);
      assert t == a.term ==> Acked(h', s, t, |p| - 1);
    }
  }

  /** What the leader says is committed is backed at the receiver, too. */
  lemma AcceptLearns(s: nat, a: AppendArgs, q: Log, h: History, h': History, n: nat)
    requires AppendOK(a, h) && SafeAppend(a, h) && a.commit > 0 && q == UpTo(h, a.term, a.commit)
    requires h' == WithAck(h, Stamp(s, a.term), a.End()) && GrowsSafely(h, h') && PointsOK(h', n)
    ensures Backed(h', q, a.term, s)
  {
    var t: nat :| t <= a.term && Vouches(h, t, q);
    VouchesAfter(h, h', n, t, q);
    assert Acked(h', s, a.term, |q| - 1);
  }

  lemma AcceptCommit(sv: Server, sv': Server, s: nat, a: AppendArgs, p: Log, h: History, h': History, n: nat)
    requires AppendOK(a, h) && SafeAppend(a, h) && CommitOK(sv, s, h) && a.term >= sv.term
    requires sv'.log == h.reigns[a.term].log[..a.End() + 1] && sv'.term == a.term && sv'.role == Follower
    requires sv'.commit == if a.commit > sv.commit then Min(a.commit, LastIndex(sv'.log)) else sv.commit
    requires p == sv.log[..sv.commit + 1] && p <= sv'.log
    requires h' == WithAck(h, Stamp(s, a.term), a.End()) && GrowsSafely(h, h') && PointsOK(h', n)
    ensures CommitOK(sv', s, h')
  {
    if a.commit > sv.commit {
      var q := UpTo(h, a.term, a.commit);
      assert Backed(h', q, a.term, s) by { AcceptLearns(s, a, q, h, h', n); }
      BackedCommit(sv', s, h', q);
    } else {
      assert Backed(h', p, a.term, s) by { CommittedBacked(p, sv.term, s, a, h, h', n); }
      BackedCommit(sv', s, h', p);
    }
  }

  lemma BackedCommit(sv: Server, s: nat, h: History, q: Log)
    requires sv.role == Follower && |q| == sv.commit + 1 && sv.commit >= 0 && q <= sv.log && Backed(h, q, sv.term, s)
    ensures CommitOK(sv, s, h)
  {
    assert sv.log[..sv.commit + 1] == q;
  }

  /** An accepted in-order message drops nothing its receiver committed. */
  lemma AcceptLog(sv: Server, s: nat, a: AppendArgs, sv': Server, r: Reign, p: Log, h: History, n: nat)
    requires AppendOK(a, h) && CommitOK(sv, s, h) && sv' == OnAppend(sv, a) && p == sv.log[..sv.commit + 1]
             && r == h.reigns[a.term]
    requires HistOK(h, n) && VotesSafe(h) && PointsOK(h, n) && s != a.leader && ServerOK(sv, s, h, n) && Accepts(sv, a)
    requires Stamp(s, a.term) in h.acked ==> a.End() >= h.acked[Stamp(s, a.term)]
    ensures sv'.log == r.log[..a.End() + 1] && r.first <= sv'.log && p <= sv'.log && sv'.role == Follower
  {
    assert sv'.log == r.log[..a.End() + 1] by { Accepted(sv, a, h, n); }
    assert r.first <= sv'.log && r.log[0] == Sentinel by { assert ReignLogOK(a.term, r, h); }
    assert p <= sv'.log by {
      assert sv.log[0] == sv.disk.log[0];
      Inherited(h, n, a.term);
      CommittedStays(sv.term, s, a, r, p, h, n);
    }
    assert sv'.role == Follower by { HeedServer(sv, s, a, Heed(sv, a), h, n); }
  }

  lemma AcceptSafe(sv: Server, s: nat, a: AppendArgs, sv': Server, p: Log, h: History, h': History, n: nat)
    requires AppendOK(a, h) && SafeAppend(a, h) && SafeServer(sv, s, h) && AckedOK(h) && a.term >= sv.term
    requires forall k | k in h.acked && k.id == s :: k.term <= a.term
    requires h' == WithAck(h, Stamp(s, a.term), a.End()) && p == sv.log[..sv.commit + 1]
    requires sv'.term == a.term && sv'.applied == sv.applied && sv'.batch == sv.batch
    requires sv'.commit == if a.commit > sv.commit then Min(a.commit, LastIndex(sv'.log)) else sv.commit
    requires Stamp(s, a.term) in h.acked ==> a.End() >= h.acked[Stamp(s, a.term)]
    requires GrowsSafely(h, h') && PointsOK(h', n)
    requires sv'.log == h.reigns[a.term].log[..a.End() + 1] && h.reigns[a.term].first <= sv'.log && p <= sv'.log
             && sv'.role == Follower
    ensures SafeServer(sv', s, h')
  {
    assert AckHeld(sv', s, h') by { AcceptHolds(sv, sv', s, a, h, h'); }
    assert CommitOK(sv', s, h') by { AcceptCommit(sv, sv', s, a, p, h, h', n); }
    ApplierKept(sv, sv', p, a.commit);
  }

  lemma AcceptVotes(sv: Server, s: nat, k: Stamp, v: nat, h: History, h': History, n: nat)
    requires h' == WithAck(h, k, v) && Grows(h, h') && k.id == s && k.term >= sv.term
    requires HistOK(h, n) && VoteOK(sv, s, h) && VotesSafe(h)
    ensures VotesSafe(h')
  {
    VotesSafeGrow(h, h');
  }

  lemma AcceptAdvances(sv: Server, s: nat, a: AppendArgs, sv': Server, k: Stamp, h: History, h': History, n: nat)
    requires HistOK(h, n) && HistSafe(h, n) && AppendOK(a, h) && SafeAppend(a, h) && s != a.leader
    requires k == Stamp(s, a.term) && sv' == OnAppend(sv, a) && h' == WithAck(h, k, a.End())
    requires ServerOK(sv, s, h, n) && SafeServer(sv, s, h) && Accepts(sv, a)
    requires k in h.acked ==> a.End() >= h.acked[k]
    ensures Advances(h, h', sv', s, n)
  {
    AckSpares(h, k, a.End(), h');
    assert VotesSafe(h') by { AcceptVotes(sv, s, k, a.End(), h, h', n); }
    HistSafeGrows(h, h', n);
    AcceptActor(sv, s, a, sv', k, h, h', n);
  }

  lemma AcceptActor(sv: Server, s: nat, a: AppendArgs, sv': Server, k: Stamp, h: History, h': History, n: nat)
    requires HistOK(h, n) && VotesSafe(h) && PointsOK(h, n) && AppendOK(a, h) && SafeAppend(a, h) && s != a.leader
    requires k == Stamp(s, a.term) && sv' == OnAppend(sv, a) && h' == WithAck(h, k, a.End())
    requires ServerOK(sv, s, h, n) && SafeServer(sv, s, h) && Accepts(sv, a)
    requires k in h.acked ==> a.End() >= h.acked[k]
    requires GrowsSafely(h, h') && PointsOK(h', n)
    ensures SafeServer(sv', s, h')
  {
    var p := sv.log[..sv.commit + 1];
    AcceptLog(sv, s, a, sv', h.reigns[a.term], p, h, n);
    AcceptShape(sv, a, sv');
    assert forall i | i in h.acked && i.id == s :: i.term <= a.term by { assert VoteOK(sv, s, h); }
    AcceptSafe(sv, s, a, sv', p, h, h', n);
  }

  lemma AcceptShape(sv: Server, a: AppendArgs, sv': Server)
    requires Accepts(sv, a) && sv' == OnAppend(sv, a)
    ensures sv'.term == a.term >= sv.term && sv'.applied == sv.applied && sv'.batch == sv.batch
    ensures sv'.commit == if a.commit > sv.commit then Min(a.commit, LastIndex(sv'.log)) else sv.commit
  {
  }

  lemma RefusedSafe(sv: Server, s: nat, a: AppendArgs, sv': Server, h: History, n: nat)
    requires sv' == OnAppend(sv, a) && AppendOK(a, h) && s != a.leader && !Accepts(sv, a)
    requires ServerOK(sv, s, h, n) && SafeServer(sv, s, h)
    ensures SafeServer(sv', s, h)
  {
    if a.term >= sv.term { HeedServer(sv, s, a, sv', h, n); LogKept(sv, sv', s, h); }
  }

  lemma AppendSafe(c: Cluster, s: nat, a: AppendArgs, sv: Server, sv': Server, k: Stamp, sends: set<Msg>, h: History,
      h': History, n: nat)
    requires Safe(c) && At(c, s, sv, h, n) && AppendReq(s, a) in c.net && k == Stamp(s, a.term)
    requires sv' == OnAppend(sv, a) && forall m | m in sends :: m.AppendRep?
    requires h' == if Accepts(sv, a) then WithAck(h, k, Max(0, a.End())) else h
    requires Accepts(sv, a) && k in h.acked ==> a.End() >= h.acked[k]
    ensures GrowsSafely(h, h') && Held(Cluster(c.servers[s := sv'], c.net + sends, h'))
  {
    assert MsgOK(AppendReq(s, a), h, n) && SafeAppend(a, h) && SafeServer(sv, s, h);
    if Accepts(sv, a) {
      AcceptAdvances(sv, s, a, sv', k, h, h', n);
      AssembleSafe(c, s, sv', sends, h');
    } else {
      RefusedSafe(sv, s, a, sv', h, n);
      QuietSafe(c, s, sv', sends);
    }
  }

  // ---------------------------------------------------------------- applier, restart

  lemma TakeSafe(c: Cluster, s: nat, sv: Server, sv': Server, h: History, n: nat)
    requires Safe(c) && At(c, s, sv, h, n) && sv' == OnTake(sv)
    ensures GrowsSafely(h, h) && Held(Cluster(c.servers[s := sv'], c.net + {}, h))
  {
    TakerSafe(sv, s, sv', h);
    QuietSafe(c, s, sv', {});
  }

  lemma TakerSafe(sv: Server, s: nat, sv': Server, h: History)
    requires SafeServer(sv, s, h) && sv' == OnTake(sv)
    ensures SafeServer(sv', s, h)
  {
  }

  ghost function WithDelivery(h: History, d: Delivery): History { h.(delivered := h.delivered + {d}) }

  lemma DeliverySpares(h: History, s: nat, d: Delivery, h': History)
    requires h' == WithDelivery(h, d)
    ensures GrowsSafely(h, h') && PointsOf(h, h', s) && forall p: nat | p != s :: Spares(h, h', p)
  {
  }

  lemma DeliveredMore(sv: Server, s: nat, d: Delivery, p: Log, h: History, h': History, n: nat)
    requires SafeServer(sv, s, h) && sv.batch != [] && d == Delivery(s, sv.applied + 1, sv.batch[0])
    requires p == sv.log[..sv.commit + 1]
    requires DeliveredOK(h) && h' == WithDelivery(h, d) && GrowsSafely(h, h') && PointsOK(h', n)
    ensures DeliveredOK(h')
  {
    assert Backed(h, p, sv.term, s);
    var t: nat :| t <= sv.term && Vouches(h, t, p);
    assert d.entry == sv.log[d.index] == p[d.index] == UpTo(h, t, h.points[t])[d.index];
    assert Vouches(h', t, []) && d.index <= h'.points[t] && h'.reigns[t].log[d.index] == d.entry;
    forall e | e in h'.delivered
      ensures e.index >= 1 && exists t: nat ::
              Vouches(h', t, []) && e.index <= h'.points[t] && h'.reigns[t].log[e.index] == e.entry
    {
      if e != d {
        var u: nat :| Vouches(h, u, []) && e.index <= h.points[u] && h.reigns[u].log[e.index] == e.entry;
        VouchesAfter(h, h', n, u, []);
      }
    }
  }

  lemma DelivererSafe(sv: Server, s: nat, sv': Server, h: History)
    requires SafeServer(sv, s, h) && sv.batch != [] && sv' == OnDeliver(sv)
    ensures SafeServer(sv', s, h)
  {
  }

  lemma DeliverAdvances(sv: Server, s: nat, d: Delivery, sv': Server, h: History, h': History, n: nat)
    requires AckedOK(h) && HistSafe(h, n) && SafeServer(sv, s, h) && sv.batch != [] && sv' == OnDeliver(sv)
    requires d == Delivery(s, sv.applied + 1, sv.batch[0]) && h' == WithDelivery(h, d)
    ensures Advances(h, h', sv', s, n)
  {
    DeliverySpares(h, s, d, h');
    assert PointsOK(h', n) by { PointsGrow(h, h', n); }
    assert VotesSafe(h') by { VotesSafeGrow(h, h'); }
    assert DeliveredOK(h') by { DeliveredMore(sv, s, d, sv.log[..sv.commit + 1], h, h', n); }
    assert SafeServer(sv, s, h') by { BystanderSafe(sv, s, h, h', n); }
    DelivererSafe(sv, s, sv', h');
  }

  lemma DeliverSafe(c: Cluster, s: nat, d: Delivery, sv: Server, sv': Server, h: History, h': History, n: nat)
    requires Safe(c) && At(c, s, sv, h, n) && sv.batch != [] && sv' == OnDeliver(sv)
    requires d == Delivery(s, sv.applied + 1, sv.batch[0]) && h' == WithDelivery(h, d)
    ensures GrowsSafely(h, h') && Held(Cluster(c.servers[s := sv'], c.net + {}, h'))
  {
    DeliverAdvances(sv, s, d, sv', h, h', n);
    AssembleSafe(c, s, sv', {}, h');
  }

  /** Restarting may bring back truncated entries, but loses nothing that was acknowledged. */
  lemma RestartSafe(c: Cluster, s: nat, sv: Server, sv': Server, h: History, n: nat)
    requires Safe(c) && At(c, s, sv, h, n) && sv' == Boot(sv.disk)
    ensures GrowsSafely(h, h) && Held(Cluster(c.servers[s := sv'], c.net + {}, h))
  {
    assert ServerOK(sv, s, h, n) && SafeServer(sv, s, h);
    QuietSafe(c, s, sv', {});
  }

  // ---------------------------------------------------------------- all events

  lemma ElectionSafe(c: Cluster, e: Event)
    requires Safe(c) && Enabled(c, e) && (e.Timeout? || e.RecvVoteReq? || e.RecvVoteRep?)
    ensures GrowsSafely(c.hist, Record(c, e)) && Held(Step(c, e))
  {
    var n, sv, sv', sends, h, h' := |c.servers|, c.servers[e.s], After(c, e), Sends(c, e), c.hist, Record(c, e);
    match e
    case Timeout(s) => TimeoutSafe(c, s, sv, sv', sends, h, h', n);
    case RecvVoteReq(s, a) => VoteReqSafe(c, s, a, sv, sv', sends, h, h', n);
    case RecvVoteRep(s, v, a, r) => VoteRepSafe(c, s, v, a, r, sv, sv', sends, h, h', n);
  }

  lemma StartOrNotSafe(c: Cluster, s: nat, cmd: Command, sv: Server, sv': Server, sends: set<Msg>, h: History,
      h': History, n: nat)
    requires Safe(c) && Enabled(c, ClientStart(s, cmd)) && At(c, s, sv, h, n)
    requires sv' == After(c, ClientStart(s, cmd)) && sends == Sends(c, ClientStart(s, cmd))
             && h' == Record(c, ClientStart(s, cmd))
    ensures GrowsSafely(h, h') && Held(Cluster(c.servers[s := sv'], c.net + sends, h'))
  {
    assert ServerOK(sv, s, h, n) && SafeServer(sv, s, h);
    if sv.role == Leader { StartSafe(c, s, cmd, sv, sv', sends, h, h', n); } else { QuietSafe(c, s, sv, sends); }
  }

  lemma HeartbeatEventSafe(c: Cluster, s: nat)
    requires Safe(c) && Enabled(c, Heartbeat(s))
    ensures GrowsSafely(c.hist, Record(c, Heartbeat(s))) && Held(Step(c, Heartbeat(s)))
  {
    HeartbeatSafe(c, s, c.servers[s], Sends(c, Heartbeat(s)), c.hist, |c.servers|);
  }

  lemma StartEventSafe(c: Cluster, s: nat, cmd: Command, e: Event)
    requires Safe(c) && Enabled(c, e) && e == ClientStart(s, cmd)
    ensures GrowsSafely(c.hist, Record(c, e)) && Held(Step(c, e))
  {
    StartOrNotSafe(c, s, cmd, c.servers[s], After(c, e), Sends(c, e), c.hist, Record(c, e), |c.servers|);
  }

  lemma AppendEventSafe(c: Cluster, s: nat, a: AppendArgs, e: Event)
    requires Safe(c) && Enabled(c, e) && InOrder(c, e) && e == RecvAppend(s, a)
    ensures GrowsSafely(c.hist, Record(c, e)) && Held(Step(c, e))
  {
    AppendSafe(c, s, a, c.servers[s], After(c, e), Stamp(s, a.term), Sends(c, e), c.hist, Record(c, e), |c.servers|);
  }

  lemma AppendRepEventSafe(c: Cluster, s: nat, p: nat, a: AppendArgs, r: AppendReply, e: Event)
    requires Safe(c) && Enabled(c, e) && e == RecvAppendRep(s, p, a, r)
    ensures GrowsSafely(c.hist, Record(c, e)) && Held(Step(c, e))
  {
    AppendRepSafe(c, s, p, a, r, c.servers[s], After(c, e), Sends(c, e), c.hist, Record(c, e), |c.servers|);
  }

  lemma ReplicationSafe(c: Cluster, e: Event)
    requires Safe(c) && Enabled(c, e) && InOrder(c, e)
    requires e.Heartbeat? || e.ClientStart? || e.RecvAppend? || e.RecvAppendRep?
    ensures GrowsSafely(c.hist, Record(c, e)) && Held(Step(c, e))
  {
    match e
    case Heartbeat(s) => HeartbeatEventSafe(c, s);
    case ClientStart(s, cmd) => StartEventSafe(c, s, cmd, e);
    case RecvAppend(s, a) => AppendEventSafe(c, s, a, e);
    case RecvAppendRep(s, p, a, r) => AppendRepEventSafe(c, s, p, a, r, e);
  }

  lemma TakeEventSafe(c: Cluster, s: nat)
    requires Safe(c) && Enabled(c, Take(s))
    ensures GrowsSafely(c.hist, Record(c, Take(s))) && Held(Step(c, Take(s)))
  {
    TakeSafe(c, s, c.servers[s], After(c, Take(s)), c.hist, |c.servers|);
  }

  lemma DeliverEventSafe(c: Cluster, s: nat)
    requires Safe(c) && Enabled(c, Deliver(s))
    ensures GrowsSafely(c.hist, Record(c, Deliver(s))) && Held(Step(c, Deliver(s)))
  {
    var sv := c.servers[s];
    var d := Delivery(s, sv.applied + 1, sv.batch[0]);
    var sv', h' := OnDeliver(sv), WithDelivery(c.hist, d);
    DeliverSafe(c, s, d, sv, sv', c.hist, h', |c.servers|);
    DeliverShape(c, s, sv, d);
  }

  lemma DeliverShape(c: Cluster, s: nat, sv: Server, d: Delivery)
    requires Enabled(c, Deliver(s)) && sv == c.servers[s] && d == Delivery(s, sv.applied + 1, sv.batch[0])
    ensures Record(c, Deliver(s)) == WithDelivery(c.hist, d)
    ensures Step(c, Deliver(s)) == Cluster(c.servers[s := OnDeliver(sv)], c.net + {}, WithDelivery(c.hist, d))
  {
  }

  lemma RestartEventSafe(c: Cluster, s: nat)
    requires Safe(c) && Enabled(c, Restart(s))
    ensures GrowsSafely(c.hist, Record(c, Restart(s))) && Held(Step(c, Restart(s)))
  {
    RestartSafe(c, s, c.servers[s], After(c, Restart(s)), c.hist, |c.servers|);
  }

  lemma LocalSafe(c: Cluster, e: Event)
    requires Safe(c) && Enabled(c, e) && (e.Take? || e.Deliver? || e.Restart?)
    ensures GrowsSafely(c.hist, Record(c, e)) && Held(Step(c, e))
  {
    match e
    case Take(s) => TakeEventSafe(c, s);
    case Deliver(s) => DeliverEventSafe(c, s);
    case Restart(s) => RestartEventSafe(c, s);
  }

  lemma StepSafe(c: Cluster, e: Event)
    requires Safe(c) && Enabled(c, e) && InOrder(c, e)
    ensures GrowsSafely(c.hist, Step(c, e).hist) && Safe(Step(c, e))
  {
    assert Inv(Step(c, e)) by { StepKeeps(c, e); }
    if e.Timeout? || e.RecvVoteReq? || e.RecvVoteRep? { ElectionSafe(c, e); }
    else if e.Take? || e.Deliver? || e.Restart? { LocalSafe(c, e); }
    else { ReplicationSafe(c, e); }
  }
}
