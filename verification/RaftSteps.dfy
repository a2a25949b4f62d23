/** Every event keeps the invariant of RaftInvariant, on an unrestricted network. */
module RaftSteps {
  import opened RaftTypes
  import opened RaftHandlers
  import opened RaftCluster
  import opened RaftInvariant

  /** Names for the parts of c that an event of s works on. */
  ghost predicate At(c: Cluster, s: nat, sv: Server, h: History, n: nat) {
    n == |c.servers| && s < n && sv == c.servers[s] && h == c.hist
  }

  lemma InitOK(n: nat)
    ensures Inv(Init(n))
  {
  }

  // ---------------------------------------------------------------- quorums

  lemma Below(n: nat) returns (all: set<nat>)
    ensures (forall i: nat :: i in all <==> i < n) && |all| == n
  {
    all := {};
    if n > 0 {
      var rest := Below(n - 1);
      all := rest + {n - 1};
    }
  }

  lemma Subset(a: set<nat>, b: set<nat>)
    requires a <= b
    ensures |a| <= |b|
  {
    assert b == a + (b - a);
  }

  lemma QuorumsMeet(a: set<nat>, b: set<nat>, n: nat) returns (x: nat)
    requires forall i | i in a :: i < n
    requires forall i | i in b :: i < n
    requires 2 * |a| > n && 2 * |b| > n
    ensures x in a && x in b
  {
    var all := Below(n);
    if a * b == {} {
      assert |a + b| == |a| + |b| && a + b <= all;
      Subset(a + b, all);
    }
    x :| x in a * b;
  }

  // ---------------------------------------------------------------- standing for election

  ghost function WithCandidacy(h: History, s: nat, t: nat, log: Log): History {
    h.(cands := h.cands[Stamp(s, t) := log], grants := h.grants + {Grant(s, s, t)})
  }

  lemma CandidacySpares(h: History, s: nat, t: nat, log: Log, h': History)
    requires h' == WithCandidacy(h, s, t, log) && Stamp(s, t) !in h.cands
    ensures Grows(h, h') && forall p: nat | p != s :: Spares(h, h', p)
  {
  }

  lemma CandidacyOK(h: History, s: nat, t: nat, log: Log, h': History, n: nat)
    requires h' == WithCandidacy(h, s, t, log) && Grows(h, h')
    requires HistOK(h, n) && Sourced(log, h) && TermsBelow(log, t)
    requires forall g | g in h.grants && g.voter == s :: g.term < t
    requires t in h.reigns ==> s !in h.reigns[t].voters
    ensures HistOK(h', n)
  {
    assert CandsOK(h') by { CandsGrow(h, h'); }
    assert AckedOK(h') && GrantsOK(h');
    ReignsKept(h, h', n);
  }

  lemma CandidacyServer(sv: Server, s: nat, sv': Server, h: History, h': History, n: nat)
    requires sv' == OnTimeout(sv, s) && h' == WithCandidacy(h, s, sv'.term, sv'.log)
    requires ServerOK(sv, s, h, n) && Grows(h, h') && s < n
    ensures ServerOK(sv', s, h', n)
  {
    SourcedPrefix(sv.disk.log, sv.log, h);
    SourcedGrows(sv.log, h, h');
  }

  lemma TimeoutKeeps(c: Cluster, s: nat, sv: Server, sv': Server, sends: set<Msg>, h: History, h': History, n: nat)
    requires Inv(c) && At(c, s, sv, h, n)
    requires sv' == OnTimeout(sv, s) && sends == {VoteReq(Ballots(sv', s))}
             && h' == WithCandidacy(h, s, sv'.term, sv'.log)
    ensures Grows(h, h') && Inv(Cluster(c.servers[s := sv'], c.net + sends, h'))
  {
    assert ServerOK(sv, s, h, n);
    assert Sourced(sv.log, h) by { SourcedPrefix(sv.disk.log, sv.log, h); }
    CandidacySpares(h, s, sv'.term, sv.log, h');
    CandidacyOK(h, s, sv'.term, sv.log, h', n);
    CandidacyServer(sv, s, sv', h, h', n);
    Assemble(c, s, sv', sends, h');
  }

  // ---------------------------------------------------------------- voting

  ghost function WithGrant(h: History, g: Grant): History { h.(grants := h.grants + {g}) }

  lemma GrantSpares(h: History, g: Grant, h': History)
    requires h' == WithGrant(h, g)
    ensures Grows(h, h') && forall p: nat | p != g.voter :: Spares(h, h', p)
  {
  }

  lemma GrantOK(h: History, g: Grant, h': History, n: nat)
    requires h' == WithGrant(h, g) && Grows(h, h') && HistOK(h, n) && Stamp(g.cand, g.term) in h.cands
    requires forall g' | g' in h.grants && g'.voter == g.voter && g'.term == g.term && g.term !in h.reigns ::
             g'.cand == g.cand
    requires g.term in h.reigns && g.voter in h.reigns[g.term].voters ==> g.cand == h.reigns[g.term].leader
    ensures HistOK(h', n)
  {
    assert CandsOK(h') by { CandsGrow(h, h'); }
    assert AckedOK(h') && GrantsOK(h');
    ReignsKept(h, h', n);
  }

  /** A vote given: at most one per term until that term has a leader. */
  lemma GrantHistory(sv: Server, s: nat, a: VoteArgs, h: History, h': History, n: nat)
    requires h' == WithGrant(h, Grant(s, a.cand, a.term))
    requires ServerOK(sv, s, h, n) && HistOK(h, n) && VoteReqOK(a, h) && Grants(sv, a)
    ensures HistOK(h', n) && Grows(h, h') && forall p: nat | p != s :: Spares(h, h', p)
  {
    GrantSpares(h, Grant(s, a.cand, a.term), h');
    GrantOK(h, Grant(s, a.cand, a.term), h', n);
  }

  lemma GrantServer(sv: Server, s: nat, a: VoteArgs, sv': Server, h: History, h': History, n: nat)
    requires sv' == OnVoteReq(sv, a) && h' == WithGrant(h, Grant(s, a.cand, a.term))
    requires ServerOK(sv, s, h, n) && Grants(sv, a) && s != a.cand && Grows(h, h')
    ensures ServerOK(sv', s, h', n)
  {
    SourcedPrefix(sv.disk.log, sv.log, h);
    SourcedGrows(sv.log, h, h');
    assert VoteOK(sv', s, h');
    assert PledgeOK(sv', s, h');
  }

  lemma RefuseServer(sv: Server, s: nat, a: VoteArgs, h: History, n: nat)
    requires ServerOK(sv, s, h, n) && !Grants(sv, a)
    ensures ServerOK(OnVoteReq(sv, a), s, h, n)
  {
    SourcedPrefix(sv.disk.log, sv.log, h);
  }

  lemma VoteReqKeeps(c: Cluster, s: nat, a: VoteArgs, sv: Server, sv': Server, sends: set<Msg>, h: History,
      h': History, n: nat)
    requires Inv(c) && At(c, s, sv, h, n) && VoteReq(a) in c.net && s != a.cand
    requires sv' == OnVoteReq(sv, a) && sends == {VoteRep(s, a, VoteAnswer(sv, a))}
    requires h' == if Grants(sv, a) then WithGrant(h, Grant(s, a.cand, a.term)) else h
    ensures Grows(h, h') && Inv(Cluster(c.servers[s := sv'], c.net + sends, h'))
  {
    assert ServerOK(sv, s, h, n) && MsgOK(VoteReq(a), h, n);
    if Grants(sv, a) {
      GrantHistory(sv, s, a, h, h', n);
      GrantServer(sv, s, a, sv', h, h', n);
      Assemble(c, s, sv', sends, h');
    } else {
      RefuseServer(sv, s, a, h, n);
      Quiet(c, s, sv', sends);
    }
  }

  // ---------------------------------------------------------------- winning an election

  /** The heart of Election Safety: a majority of votes for a term that already has a leader cannot exist. */
  lemma NoSecondLeader(h: History, n: nat, s: nat, voters: set<nat>, t: nat)
    requires HistOK(h, n) && t in h.reigns && 2 * |voters| > n
    requires forall v | v in voters :: v < n && Grant(v, s, t) in h.grants
    ensures s == h.reigns[t].leader
  {
    var r := h.reigns[t];
    assert VotersOK(t, r, h, n);
    var v := QuorumsMeet(voters, r.voters, n);
    assert Grant(v, s, t) in h.grants;
  }

  /** A peer that voted for s in a term still without a leader has not cleared or changed that vote. */
  lemma VoterBound(sv: Server, p: nat, s: nat, t: nat, h: History, n: nat)
    requires ServerOK(sv, p, h, n) && Grant(p, s, t) in h.grants && t !in h.reigns && p != s
    ensures BoundTo(sv, t, s)
  {
  }

  ghost function WithReign(h: History, s: nat, t: nat, voters: set<nat>, log: Log): History {
    h.(reigns := h.reigns[t := Reign(s, voters, log, log)],
       acked := Raise(h.acked, Stamp(s, t), Max(0, LastIndex(log))))
  }

  lemma ReignSpares(h: History, s: nat, t: nat, voters: set<nat>, log: Log, h': History)
    requires h' == WithReign(h, s, t, voters, log) && t !in h.reigns
    ensures Grows(h, h') && forall p: nat | p != s :: Spares(h, h', p)
  {
  }

  lemma ReignOK(h: History, s: nat, t: nat, voters: set<nat>, log: Log, h': History, n: nat)
    requires h' == WithReign(h, s, t, voters, log) && HistOK(h, n) && t !in h.reigns && t >= 1 && Grows(h, h')
    requires Stamp(s, t) in h.cands && h.cands[Stamp(s, t)] == log && s in voters && 2 * |voters| > n
    requires forall v | v in voters :: v < n && Grant(v, s, t) in h.grants
    ensures HistOK(h', n)
  {
    assert CandsOK(h') by { CandsGrow(h, h'); }
    assert AckedOK(h') && GrantsOK(h');
    forall u | u in h'.reigns ensures VotersOK(u, h'.reigns[u], h', n) && ReignLogOK(u, h'.reigns[u], h') {
      ReignAt(h, s, t, voters, log, h', n, u);
    }
  }

  lemma ReignAt(h: History, s: nat, t: nat, voters: set<nat>, log: Log, h': History, n: nat, u: nat)
    requires h' == WithReign(h, s, t, voters, log) && HistOK(h, n) && t !in h.reigns && t >= 1 && Grows(h, h')
    requires Stamp(s, t) in h.cands && h.cands[Stamp(s, t)] == log && s in voters && 2 * |voters| > n
    requires forall v | v in voters :: v < n && Grant(v, s, t) in h.grants
    requires u in h'.reigns
    ensures VotersOK(u, h'.reigns[u], h', n) && ReignLogOK(u, h'.reigns[u], h')
  {
    if u == t {
      SourcedGrows(log, h, h');
    } else {
      assert VotersOK(u, h.reigns[u], h, n) && ReignLogOK(u, h.reigns[u], h);
      SourcedGrows(h.reigns[u].log, h, h');
    }
  }

  lemma NewLeaderServer(sv: Server, s: nat, voters: set<nat>, sv': Server, h: History, h': History, n: nat)
    requires sv' == BecomeLeader(sv.(voters := voters), s, n) && h' == WithReign(h, s, sv.term, voters, sv.log)
    requires ServerOK(sv, s, h, n) && AckedOK(h) && s < n && s in voters && Grows(h, h') && sv.role == Candidate
             && sv.term !in h.reigns
    ensures ServerOK(sv', s, h', n)
  {
    SourcedGrows(sv.disk.log, h, h');
    assert LeaderOK(sv', s, h', n);
    assert PledgeOK(sv', s, h') && VoteOK(sv', s, h');
  }

  lemma WinHistory(sv: Server, s: nat, v: nat, voters: set<nat>, h: History, h': History, n: nat)
    requires voters == sv.voters + {v} && h' == WithReign(h, s, sv.term, voters, sv.log)
    requires ServerOK(sv, s, h, n) && HistOK(h, n) && sv.role == Candidate
    requires v < n && Grant(v, s, sv.term) in h.grants && |voters| > n / 2
    ensures sv.term !in h.reigns && Grows(h, h') && HistOK(h', n)
  {
    var t := sv.term;
    assert t !in h.reigns by { if t in h.reigns { NoSecondLeader(h, n, s, voters, t); } }
    ReignSpares(h, s, t, voters, sv.log, h');
    assert t >= 1 by { assert sv.log[0].term < t; }
    ReignOK(h, s, t, voters, sv.log, h', n);
  }

  lemma WinKeeps(c: Cluster, s: nat, v: nat, voters: set<nat>, sv: Server, sv': Server, sends: set<Msg>, h: History,
      h': History, n: nat)
    requires Inv(c) && At(c, s, sv, h, n) && sv.role == Candidate && voters == sv.voters + {v}
    requires v < n && Grant(v, s, sv.term) in h.grants && |voters| > n / 2
    requires sv' == BecomeLeader(sv.(voters := voters), s, n) && sends == Broadcast(sv', s)
    requires h' == WithReign(h, s, sv.term, voters, sv.log)
    ensures Grows(h, h') && Inv(Cluster(c.servers[s := sv'], c.net + sends, h'))
  {
    var t := sv.term;
    assert ServerOK(sv, s, h, n);
    WinHistory(sv, s, v, voters, h, h', n);
    NewLeaderServer(sv, s, voters, sv', h, h', n);
    BroadcastOK(sv', s, h', n);
    ReignSpares(h, s, t, voters, sv.log, h');
    forall p | 0 <= p < n && p != s && p in voters ensures BoundTo(c.servers[p], t, s) {
      VoterBound(c.servers[p], p, s, t, h, n);
    }
    Assemble(c, s, sv', sends, h');
  }

  lemma CountServer(sv: Server, s: nat, v: nat, a: VoteArgs, r: VoteReply, h: History, n: nat)
    requires ServerOK(sv, s, h, n) && v < n && s == a.cand
    requires r.granted ==> Grant(v, a.cand, a.term) in h.grants
    requires !Wins(sv, n, v, a, r)
    ensures ServerOK(OnVoteRep(sv, s, n, v, a, r), s, h, n)
  {
    SourcedPrefix(sv.disk.log, sv.log, h);
  }

  lemma VoteRepKeeps(c: Cluster, s: nat, v: nat, a: VoteArgs, r: VoteReply,
                     sv: Server, sv': Server, sends: set<Msg>, h: History, h': History, n: nat)
    requires Inv(c) && At(c, s, sv, h, n) && VoteRep(v, a, r) in c.net && s == a.cand
    requires sv' == OnVoteRep(sv, s, n, v, a, r)
    requires Wins(sv, n, v, a, r) ==>
             sends == Broadcast(sv', s) && h' == WithReign(h, s, sv.term, sv.voters + {v}, sv.log)
    requires !Wins(sv, n, v, a, r) ==> sends == {} && h' == h
    ensures Grows(h, h') && Inv(Cluster(c.servers[s := sv'], c.net + sends, h'))
  {
    assert MsgOK(VoteRep(v, a, r), h, n);
    if Wins(sv, n, v, a, r) {
      WinKeeps(c, s, v, sv.voters + {v}, sv, sv', sends, h, h', n);
    } else {
      CountServer(sv, s, v, a, r, h, n);
      Quiet(c, s, sv', sends);
    }
  }

  // ---------------------------------------------------------------- replication, leader side

  /** Every message a leader builds reaches to the end of its log and matches it. */
  lemma SuffixOK(sv: Server, me: nat, next: nat, a: AppendArgs, h: History, n: nat)
    requires a == Suffix(sv, me, next)
    requires sv.role == Leader && LeaderOK(sv, me, h, n) && 1 <= next <= |sv.log|
    requires h.reigns[sv.term].first <= sv.log
    ensures AppendOK(a, h) && a.End() == LastIndex(sv.log)
  {
    assert a.entries == sv.log[next..];
    assert sv.log[a.prev + 1..a.End() + 1] == sv.log[next..];
  }

  lemma BroadcastOK(sv: Server, me: nat, h: History, n: nat)
    requires LeaderOK(sv, me, h, n) && HistOK(h, n)
    ensures forall m | m in Broadcast(sv, me) :: MsgOK(m, h, n)
  {
    if sv.role == Leader { assert ReignLogOK(sv.term, h.reigns[sv.term], h); }
    forall m | m in Broadcast(sv, me) ensures MsgOK(m, h, n) {
      SuffixOK(sv, me, sv.next[m.dest], m.args, h, n);
    }
  }

  lemma HeartbeatKeeps(c: Cluster, s: nat, sv: Server, sends: set<Msg>, h: History, n: nat)
    requires Inv(c) && At(c, s, sv, h, n) && sends == Broadcast(sv, s)
    ensures Grows(h, h) && Inv(Cluster(c.servers[s := sv], c.net + sends, h))
  {
    BroadcastOK(sv, s, h, n);
    Quiet(c, s, sv, sends);
  }

  ghost function WithEntry(h: History, s: nat, t: nat, e: Entry): History
    requires t in h.reigns && e.cmd.Command?
  {
    var log := h.reigns[t].log + [e];
    h.(reigns := h.reigns[t := h.reigns[t].(log := log)],
       acked := Raise(h.acked, Stamp(s, t), LastIndex(log)),
       started := h.started[e.cmd.id := Slot(LastIndex(log), t)])
  }

  ghost predicate Appends(h: History, s: nat, t: nat, e: Entry, h': History) {
    && t in h.reigns && e.cmd.Command? && e.cmd.id !in h.started && e.term == t && h.reigns[t].leader == s
    && h' == WithEntry(h, s, t, e)
  }

  lemma EntrySpares(h: History, s: nat, t: nat, e: Entry, h': History)
    requires Appends(h, s, t, e, h')
    ensures Grows(h, h') && forall p: nat | p != s :: Spares(h, h', p)
  {
  }

  lemma SourcedAppend(l: Log, e: Entry, h: History)
    requires Sourced(l, h) && e.term >= 1 && e.term in h.reigns && h.reigns[e.term].log == l + [e]
    ensures Sourced(l + [e], h)
  {
    var l' := l + [e];
    forall i | 1 <= i < |l'| ensures SourcedAt(l', i, h) {
      if i < |l| { assert SourcedAt(l, i, h) && l'[..i + 1] == l[..i + 1]; }
    }
  }

  lemma EntryAt(h: History, s: nat, t: nat, e: Entry, h': History, n: nat, u: nat)
    requires HistOK(h, n) && Appends(h, s, t, e, h') && Grows(h, h') && u in h.reigns
    ensures VotersOK(u, h'.reigns[u], h', n) && ReignLogOK(u, h'.reigns[u], h')
  {
    var r, r' := h.reigns[u], h'.reigns[u];
    assert VotersOK(u, r, h, n) && ReignLogOK(u, r, h);
    assert Sourced(r'.log, h') by {
      SourcedGrows(r.log, h, h');
      if u == t { SourcedAppend(r.log, e, h'); }
    }
  }

  lemma EntryOK(h: History, s: nat, t: nat, e: Entry, h': History, n: nat)
    requires HistOK(h, n) && Appends(h, s, t, e, h') && Grows(h, h')
    ensures HistOK(h', n)
  {
    assert CandsOK(h') by { CandsGrow(h, h'); }
    assert AckedOK(h') && GrantsOK(h');
    forall u | u in h'.reigns ensures VotersOK(u, h'.reigns[u], h', n) && ReignLogOK(u, h'.reigns[u], h') {
      EntryAt(h, s, t, e, h', n, u);
    }
  }

  lemma StartServer(sv: Server, s: nat, cmd: Command, sv': Server, h: History, h': History, n: nat)
    requires sv' == OnStart(sv, s, cmd) && Appends(h, s, sv.term, Entry(sv.term, cmd), h')
    requires ServerOK(sv, s, h, n) && s < n && sv.role == Leader && Grows(h, h') && Sourced(sv'.log, h')
    ensures ServerOK(sv', s, h', n)
  {
    assert LeaderOK(sv', s, h', n);
    forall t | t in h'.reigns && s in h'.reigns[t].voters ensures BoundTo(sv', t, h'.reigns[t].leader) {
      assert ReignGrows(h.reigns[t], h'.reigns[t]) && BoundTo(sv, t, h.reigns[t].leader);
    }
  }

  lemma StartKeeps(c: Cluster, s: nat, cmd: Command, sv: Server, sv': Server, sends: set<Msg>, h: History,
      h': History, n: nat)
    requires Inv(c) && At(c, s, sv, h, n) && sv.role == Leader
    requires sv' == OnStart(sv, s, cmd) && sends == Broadcast(sv', s) && Appends(h, s, sv.term, Entry(sv.term, cmd), h')
    ensures Grows(h, h') && Inv(Cluster(c.servers[s := sv'], c.net + sends, h'))
  {
    var t, e := sv.term, Entry(sv.term, cmd);
    assert ServerOK(sv, s, h, n);
    EntrySpares(h, s, t, e, h');
    EntryOK(h, s, t, e, h', n);
    assert Sourced(sv'.log, h') by { assert ReignLogOK(t, h'.reigns[t], h'); }
    StartServer(sv, s, cmd, sv', h, h', n);
    BroadcastOK(sv', s, h', n);
    Assemble(c, s, sv', sends, h');
  }

  /** A change of the parts of the history that the invariant does not read. */
  lemma Unread(c: Cluster, s: nat, sv': Server, sends: set<Msg>, h: History, h': History, n: nat)
    requires Inv(c) && s < n && h == c.hist && n == |c.servers|
    requires ServerOK(sv', s, h, n)
    requires forall m | m in sends :: MsgOK(m, h, n)
    requires h' == h.(points := h'.points, delivered := h'.delivered)
    ensures Grows(h, h') && Inv(Cluster(c.servers[s := sv'], c.net + sends, h'))
  {
    UnreadHistory(h, h', n);
    assert ServerOK(sv', s, h', n) by { BystanderKept(sv', s, h, h', n); }
    forall m | m in sends ensures MsgOK(m, h', n) { MsgGrows(m, h, h', n); }
    Assemble(c, s, sv', sends, h');
  }

  lemma UnreadHistory(h: History, h': History, n: nat)
    requires HistOK(h, n) && h' == h.(points := h'.points, delivered := h'.delivered)
    ensures Grows(h, h') && HistOK(h', n) && forall p: nat :: Spares(h, h', p)
  {
    assert Grows(h, h');
    assert CandsOK(h') by { CandsGrow(h, h'); }
    ReignsKept(h, h', n);
  }

  lemma FirstIndexIs(log: Log, term: int, i: nat)
    requires i <= |log|
    ensures FirstIndexFrom(log, term, i) == -1 <==> forall j | i <= j < |log| :: log[j].term != term
    ensures FirstIndexFrom(log, term, i) != -1 ==>
              var k := FirstIndexFrom(log, term, i);
              i <= k < |log| && log[k].term == term && forall j | i <= j < k :: log[j].term != term
    decreases |log| - i
  {
    if i < |log| { FirstIndexIs(log, term, i + 1); }
  }

  /** Fast backup is exact: whichever branch the leader takes, it resumes at the follower's ConflictIndex. */
  lemma BackUpExact(log: Log, a: AppendArgs, r: AppendReply, h: History, n: nat)
    requires HistOK(h, n) && Sourced(log, h) && ConflictOK(a, r, h)
    ensures BackUp(log, r) == r.conflictIndex
  {
    if r.conflictTerm != -1 {
      var t := r.conflictTerm;
      var k, l := FirstIndexOfTerm(log, t), h.reigns[t].log;
      FirstIndexIs(log, t, 0);
      if k != -1 {
        assert k < |l| && log[..k + 1] == l[..k + 1] by { InReign(log, h, n, k); }
        assert l[Min(k, r.conflictIndex - 1)].term < t by {
          assert ReignLogOK(t, h.reigns[t], h);
          TermsOrdered(l, h, n, Min(k, r.conflictIndex - 1), r.conflictIndex - 1);
        }
        assert forall j | 0 <= j <= k :: log[j] == log[..k + 1][j] == l[j];
      }
    }
  }

  lemma RetryOK(sv: Server, s: nat, peer: nat, a: AppendArgs, r: AppendReply, h: History, n: nat)
    requires ServerOK(sv, s, h, n) && HistOK(h, n) && ReplyOK(peer, a, r, h, n)
    ensures Retries(sv, a, r) ==> BackUp(sv.log, r) == r.conflictIndex && 1 <= r.conflictIndex <= a.prev < |sv.log|
    ensures forall m | m in Retry(sv, s, peer, a, r) :: AppendOK(m.args, h)
  {
    if Retries(sv, a, r) {
      var k := BackUp(sv.log, r);
      assert h.reigns[sv.term].first <= sv.log && Sourced(sv.log, h) by {
        assert ReignLogOK(sv.term, h.reigns[sv.term], h);
      }
      assert k == r.conflictIndex by { BackUpExact(sv.log, a, r, h, n); }
      assert AppendOK(Suffix(sv, s, k), h) by { SuffixOK(sv, s, k, Suffix(sv, s, k), h, n); }
    }
  }

  lemma AppendRepServer(sv: Server, s: nat, peer: nat, a: AppendArgs, r: AppendReply, sv': Server, h: History, n: nat)
    requires sv' == OnAppendRep(sv, s, peer, a, r)
    requires ServerOK(sv, s, h, n) && ReplyOK(peer, a, r, h, n) && peer != s
    requires Retries(sv, a, r) ==> 1 <= BackUp(sv.log, r) <= |sv.log|
    ensures ServerOK(sv', s, h, n)
  {
    SourcedPrefix(sv.disk.log, sv.log, h);
    if sv'.role == Leader && sv'.term == a.term {
      assert sv'.log == sv.log && sv'.vote == sv.vote && sv'.disk == sv.disk && sv'.term == sv.term;
      assert LeaderOK(sv', s, h, n);
    }
  }

  lemma RetrySends(sv: Server, s: nat, peer: nat, a: AppendArgs, r: AppendReply, sends: set<Msg>, h: History, n: nat)
    requires ServerOK(sv, s, h, n) && HistOK(h, n) && MsgOK(AppendRep(peer, a, r), h, n) && s == a.leader
             && sends == Retry(sv, s, peer, a, r)
    ensures (Retries(sv, a, r) ==> 1 <= BackUp(sv.log, r) <= |sv.log|) && forall m | m in sends :: MsgOK(m, h, n)
  {
    assert ReplyOK(peer, a, r, h, n);
    RetryOK(sv, s, peer, a, r, h, n);
    forall m | m in sends ensures MsgOK(m, h, n) { assert m.AppendReq? && AppendOK(m.args, h); }
  }

  lemma AppendRepKeeps(c: Cluster, s: nat, peer: nat, a: AppendArgs, r: AppendReply,
                       sv: Server, sv': Server, sends: set<Msg>, h: History, h': History, n: nat)
    requires Inv(c) && At(c, s, sv, h, n) && AppendRep(peer, a, r) in c.net && s == a.leader
    requires sv' == OnAppendRep(sv, s, peer, a, r) && sends == Retry(sv, s, peer, a, r)
    requires h' == h.(points := h'.points)
    ensures Grows(h, h') && Inv(Cluster(c.servers[s := sv'], c.net + sends, h'))
  {
    assert ServerOK(sv, s, h, n) && MsgOK(AppendRep(peer, a, r), h, n);
    RetrySends(sv, s, peer, a, r, sends, h, n);
    assert ServerOK(sv', s, h, n) by { AppendRepServer(sv, s, peer, a, r, sv', h, n); }
    Unread(c, s, sv', sends, h, h', n);
  }

  // ---------------------------------------------------------------- replication, follower side

  /** An accepted AppendEntries leaves the follower with exactly the leader's log up to its end. */
  lemma Accepted(sv: Server, a: AppendArgs, h: History, n: nat)
    requires HistOK(h, n) && DiskOK(sv) && LogOK(sv, h) && AppendOK(a, h) && Accepts(sv, a)
    ensures OnAppend(sv, a).log == h.reigns[a.term].log[..a.End() + 1]
  {
    var r := h.reigns[a.term];
    assert ReignLogOK(a.term, r, h);
    SourcedPrefix(sv.disk.log, sv.log, h);
    Matching(sv.log, r.log, a.prev, h);
    assert sv.log[..a.prev + 1] + a.entries == r.log[..a.End() + 1];
    if a.entries == [] { assert sv.log[..a.prev + 1] + a.entries == sv.log[..a.prev + 1]; }
  }

  /** The disk after an accepted AppendEntries still extends memory, and is sourced. */
  lemma AcceptedDisk(sv: Server, a: AppendArgs, sv': Server, h: History, n: nat)
    requires HistOK(h, n) && DiskOK(sv) && LogOK(sv, h) && AppendOK(a, h) && Accepts(sv, a) && sv' == OnAppend(sv, a)
    ensures DiskOK(sv') && LogOK(sv', h)
  {
    Accepted(sv, a, h, n);
    var r := h.reigns[a.term];
    assert ReignLogOK(a.term, r, h);
    SourcedPrefix(sv.disk.log, sv.log, h);
    if a.entries != [] {
      SourcedPrefix(r.log, sv'.log, h);
      forall i | 0 <= i < |sv'.log| ensures sv'.log[i].term < a.term + 1 {
        if i < |r.first| { assert r.log[i] == r.first[i]; }
      }
    }
  }

  ghost function WithAck(h: History, k: Stamp, v: nat): History { h.(acked := Raise(h.acked, k, v)) }

  lemma AckSpares(h: History, k: Stamp, v: nat, h': History)
    requires h' == WithAck(h, k, v)
    ensures Grows(h, h') && forall p: nat | p != k.id :: Spares(h, h', p)
  {
  }

  lemma AckOK(h: History, k: Stamp, v: nat, h': History, n: nat)
    requires h' == WithAck(h, k, v) && HistOK(h, n) && k.term in h.reigns && v < |h.reigns[k.term].log| && Grows(h, h')
    ensures HistOK(h', n)
  {
    assert CandsOK(h') by { CandsGrow(h, h'); }
    assert AckedOK(h') && GrantsOK(h');
    ReignsKept(h, h', n);
  }

  /**
   * Stepping down in one's own term clears the vote, but a message of that term shows that the
   * term has its leader, and a peer whose vote made that leader is not a candidate.
   */
  lemma HeedServer(sv: Server, s: nat, a: AppendArgs, sv': Server, h: History, n: nat)
    requires sv' == Heed(sv, a)
    requires ServerOK(sv, s, h, n) && a.term in h.reigns && h.reigns[a.term].leader != s && a.term >= sv.term
    ensures ServerOK(sv', s, h, n) && sv'.role == Follower
  {
    SourcedPrefix(sv.disk.log, sv.log, h);
  }

  lemma AcceptServer(sv: Server, s: nat, a: AppendArgs, sv': Server, h: History, h': History, n: nat)
    requires sv' == OnAppend(sv, a) && h' == WithAck(h, Stamp(s, a.term), Max(0, a.End())) && Grows(h, h')
    requires ServerOK(sv, s, h, n) && HistOK(h, n) && AppendOK(a, h) && s != a.leader && Accepts(sv, a)
    ensures ServerOK(sv', s, h', n)
  {
    var sv1 := Heed(sv, a);
    HeedServer(sv, s, a, sv1, h, n);
    AcceptedDisk(sv, a, sv', h, n);
    SourcedGrows(sv'.disk.log, h, h');
    AcceptedRole(sv, a, sv1, sv');
  }

  lemma AcceptedRole(sv: Server, a: AppendArgs, sv1: Server, sv': Server)
    requires Accepts(sv, a) && sv1 == Heed(sv, a) && sv' == OnAppend(sv, a)
    ensures sv'.role == sv1.role && sv'.vote == sv1.vote && sv'.term == sv1.term == a.term
  {
  }

  lemma RunStartIs(log: Log, i: nat)
    requires i < |log|
    ensures RunStart(log, i) <= i
    ensures forall j | RunStart(log, i) <= j <= i :: log[j].term == log[i].term
    ensures RunStart(log, i) > 0 ==> log[RunStart(log, i) - 1].term != log[i].term
  {
    if i > 0 && log[i - 1].term == log[i].term { RunStartIs(log, i - 1); }
  }

  lemma RefusalOK(log: Log, a: AppendArgs, term: nat, k: nat, t: nat, h: History, n: nat)
    requires HistOK(h, n) && Sourced(log, h) && AppendOK(a, h) && a.prev < |log| && !Fits(log, a)
    requires t == log[a.prev].term && k == RunStart(log, a.prev)
    ensures ConflictOK(a, AppendReply(term, false, t, k), h)
  {
    assert Sourced(h.reigns[a.term].log, h) by { assert ReignLogOK(a.term, h.reigns[a.term], h); }
    RunStartIs(log, a.prev);
    assert log[0] == Sentinel && SourcedAt(log, a.prev, h);
    assert k > 0 && SourcedAt(log, k, h);
    TermsOrdered(log, h, n, k - 1, k);
    SameEnds(h.reigns[t].log, log, k);
  }

  lemma SameEnds(l: Log, log: Log, k: nat)
    requires 0 < k < |l| && k < |log| && l[..k + 1] == log[..k + 1]
    ensures l[k - 1] == log[k - 1] && l[k] == log[k]
  {
    assert l[k - 1] == l[..k + 1][k - 1] == log[k - 1] && l[k] == l[..k + 1][k] == log[k];
  }

  lemma AppendReplyOK(sv: Server, s: nat, a: AppendArgs, r: AppendReply, h: History, n: nat)
    requires r == AppendAnswer(sv, a) && ServerOK(sv, s, h, n) && HistOK(h, n) && AppendOK(a, h)
    ensures r.success == Accepts(sv, a) && (!r.success && r.term <= a.term ==> ConflictOK(a, r, h))
  {
    SourcedPrefix(sv.disk.log, sv.log, h);
    if a.term >= sv.term && a.prev < |sv.log| && !Fits(sv.log, a) {
      RefusalOK(sv.log, a, sv.term, RunStart(sv.log, a.prev), sv.log[a.prev].term, h, n);
    }
  }

  lemma AcceptAll(s: nat, a: AppendArgs, sv: Server, sv': Server, r: AppendReply, k: Stamp, v: nat, h: History,
      h': History, n: nat)
    requires HistOK(h, n) && AppendOK(a, h) && s != a.leader && s < n && ServerOK(sv, s, h, n)
    requires sv' == OnAppend(sv, a) && r.success
    requires Accepts(sv, a) && k == Stamp(s, a.term) && v == a.End() && h' == WithAck(h, k, v)
    ensures Grows(h, h') && HistOK(h', n) && ServerOK(sv', s, h', n) && MsgOK(AppendRep(s, a, r), h', n)
    ensures forall p: nat | p != s :: Spares(h, h', p)
  {
    AckSpares(h, k, v, h');
    AckOK(h, k, v, h', n);
    AcceptServer(sv, s, a, sv', h, h', n);
    AppendGrows(a, h, h');
  }

  /** What an accepted message leaves behind fits into the cluster. */
  lemma AcceptFits(c: Cluster, s: nat, sv': Server, m: Msg, h: History, h': History, n: nat)
    requires Inv(c) && h == c.hist && n == |c.servers| && s < n && Grows(h, h') && h'.reigns == h.reigns
             && HistOK(h', n)
    requires ServerOK(sv', s, h', n) && MsgOK(m, h', n) && forall p: nat | p != s :: Spares(h, h', p)
    ensures Inv(Cluster(c.servers[s := sv'], c.net + {m}, h'))
  {
    Assemble(c, s, sv', {m}, h');
  }

  lemma AppendKeeps(c: Cluster, s: nat, a: AppendArgs, sv: Server, sv': Server, r: AppendReply,
                    sends: set<Msg>, h: History, h': History, n: nat)
    requires Inv(c) && At(c, s, sv, h, n) && AppendReq(s, a) in c.net
    requires sv' == OnAppend(sv, a) && r == AppendAnswer(sv, a) && sends == {AppendRep(s, a, r)}
    requires h' == if Accepts(sv, a) then WithAck(h, Stamp(s, a.term), Max(0, a.End())) else h
    ensures Grows(h, h') && Inv(Cluster(c.servers[s := sv'], c.net + sends, h'))
  {
    assert ServerOK(sv, s, h, n) && MsgOK(AppendReq(s, a), h, n);
    AppendReplyOK(sv, s, a, r, h, n);
    if Accepts(sv, a) {
      AcceptAll(s, a, sv, sv', r, Stamp(s, a.term), a.End(), h, h', n);
      AcceptFits(c, s, sv', AppendRep(s, a, r), h, h', n);
    } else {
      if a.term >= sv.term { HeedServer(sv, s, a, sv', h, n); }
      Quiet(c, s, sv', sends);
    }
  }

  // ---------------------------------------------------------------- restart, all events

  /** A crash loses everything but the disk; nothing the history records is contradicted. */
  lemma RestartKeeps(c: Cluster, s: nat, sv: Server, sv': Server, h: History, n: nat)
    requires Inv(c) && At(c, s, sv, h, n) && sv' == Boot(sv.disk)
    ensures Grows(h, h) && Inv(Cluster(c.servers[s := sv'], c.net + {}, h))
  {
    assert ServerOK(sv, s, h, n);
    Quiet(c, s, sv', {});
  }

  lemma ElectionKeeps(c: Cluster, e: Event)
    requires Inv(c) && Enabled(c, e) && (e.Timeout? || e.RecvVoteReq? || e.RecvVoteRep?)
    ensures Grows(c.hist, Record(c, e)) && Inv(Step(c, e))
  {
    var n, sv, sv', sends, h, h' := |c.servers|, c.servers[e.s], After(c, e), Sends(c, e), c.hist, Record(c, e);
    match e
    case Timeout(s) => TimeoutKeeps(c, s, sv, sv', sends, h, h', n);
    case RecvVoteReq(s, a) => VoteReqKeeps(c, s, a, sv, sv', sends, h, h', n);
    case RecvVoteRep(s, v, a, r) => VoteRepKeeps(c, s, v, a, r, sv, sv', sends, h, h', n);
  }

  lemma ReplicationKeeps(c: Cluster, e: Event)
    requires Inv(c) && Enabled(c, e) && (e.Heartbeat? || e.ClientStart? || e.RecvAppend? || e.RecvAppendRep?)
    ensures Grows(c.hist, Record(c, e)) && Inv(Step(c, e))
  {
    var n, sv, sv', sends, h, h' := |c.servers|, c.servers[e.s], After(c, e), Sends(c, e), c.hist, Record(c, e);
    match e
    case Heartbeat(s) => HeartbeatKeeps(c, s, sv, sends, h, n);
    case ClientStart(s, cmd) => StartOrNot(c, s, cmd, sv, sv', sends, h, h', n);
    case RecvAppend(s, a) => AppendKeeps(c, s, a, sv, sv', AppendAnswer(sv, a), sends, h, h', n);
    case RecvAppendRep(s, p, a, r) => AppendRepKeeps(c, s, p, a, r, sv, sv', sends, h, h', n);
  }

  lemma StartOrNot(c: Cluster, s: nat, cmd: Command, sv: Server, sv': Server, sends: set<Msg>, h: History,
      h': History, n: nat)
    requires Inv(c) && Enabled(c, ClientStart(s, cmd)) && At(c, s, sv, h, n)
    requires sv' == After(c, ClientStart(s, cmd)) && sends == Sends(c, ClientStart(s, cmd))
             && h' == Record(c, ClientStart(s, cmd))
    ensures Grows(h, h') && Inv(Cluster(c.servers[s := sv'], c.net + sends, h'))
  {
    assert ServerOK(sv, s, h, n);
    if sv.role == Leader { StartKeeps(c, s, cmd, sv, sv', sends, h, h', n); } else { Quiet(c, s, sv, sends); }
  }

  lemma RebootKeeps(c: Cluster, e: Event)
    requires Inv(c) && Enabled(c, e) && e.Restart?
    ensures Grows(c.hist, Record(c, e)) && Inv(Step(c, e))
  {
    var n, sv, sv', h := |c.servers|, c.servers[e.s], After(c, e), c.hist;
    assert ServerOK(sv, e.s, h, n);
    RestartKeeps(c, e.s, sv, sv', h, n);
  }

  lemma ApplierKeeps(c: Cluster, e: Event)
    requires Inv(c) && Enabled(c, e) && (e.Take? || e.Deliver?)
    ensures Grows(c.hist, Record(c, e)) && Inv(Step(c, e))
  {
    var n, sv, sv', sends, h, h' := |c.servers|, c.servers[e.s], After(c, e), Sends(c, e), c.hist, Record(c, e);
    assert ServerOK(sv, e.s, h, n);
    Unread(c, e.s, sv', sends, h, h', n);
  }

  lemma StepKeeps(c: Cluster, e: Event)
    requires Inv(c) && Enabled(c, e)
    ensures Grows(c.hist, Step(c, e).hist) && Inv(Step(c, e))
  {
    if e.Timeout? || e.RecvVoteReq? || e.RecvVoteRep? { ElectionKeeps(c, e); }
    else if e.Take? || e.Deliver? { ApplierKeeps(c, e); }
    else if e.Restart? { RebootKeeps(c, e); }
    else { ReplicationKeeps(c, e); }
  }
}
