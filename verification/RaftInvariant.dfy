/**
 * What every reachable state keeps on an unrestricted network.  Each clause relates one peer,
 * or one message, to the history; peers are never compared with each other directly.
 */
module RaftInvariant {
  import opened RaftTypes
  import opened RaftHandlers
  import opened RaftCluster

  // ---------------------------------------------------------------- logs

  /** The entry at i, and everything before it, is what the leader of its term had there. */
  ghost predicate SourcedAt(l: Log, i: nat, h: History)
    requires i < |l|
  {
    var t := l[i].term;
    t >= 1 && t in h.reigns && i < |h.reigns[t].log| && l[..i + 1] == h.reigns[t].log[..i + 1]
  }

  ghost predicate Sourced(l: Log, h: History) {
    |l| >= 1 && l[0] == Sentinel && forall i | 1 <= i < |l| :: SourcedAt(l, i, h)
  }

  ghost predicate TermsBelow(l: Log, t: nat) { forall i | 0 <= i < |l| :: l[i].term < t }

  // ---------------------------------------------------------------- history

  ghost predicate VotersOK(t: nat, r: Reign, h: History, n: nat) {
    && r.leader in r.voters
    && 2 * |r.voters| > n
    && (forall v | v in r.voters :: v < n && Grant(v, r.leader, t) in h.grants)
    && (forall g | g in h.grants && g.term == t && g.voter in r.voters :: g.cand == r.leader)
  }

  ghost predicate ReignLogOK(t: nat, r: Reign, h: History) {
    && t >= 1
    && Stamp(r.leader, t) in h.cands && h.cands[Stamp(r.leader, t)] == r.first
    && r.first <= r.log && Sourced(r.log, h)
    && TermsBelow(r.first, t)
    && forall i | |r.first| <= i < |r.log| ::
         && r.log[i].term == t && r.log[i].cmd.Command?
         && r.log[i].cmd.id in h.started && h.started[r.log[i].cmd.id] == Slot(i, t)
  }

  ghost predicate CandsOK(h: History) {
    forall k | k in h.cands :: Sourced(h.cands[k], h) && TermsBelow(h.cands[k], k.term)
  }

  ghost predicate GrantsOK(h: History) {
    && (forall g | g in h.grants :: Stamp(g.cand, g.term) in h.cands)
    && forall g, g' | g in h.grants && g' in h.grants && g.voter == g'.voter && g.term == g'.term ::
         g.term in h.reigns || g.cand == g'.cand
  }

  ghost predicate AckedOK(h: History) {
    forall k | k in h.acked :: k.term in h.reigns && h.acked[k] < |h.reigns[k.term].log|
  }

  ghost predicate HistOK(h: History, n: nat) {
    && (forall t | t in h.reigns :: VotersOK(t, h.reigns[t], h, n) && ReignLogOK(t, h.reigns[t], h))
    && CandsOK(h) && GrantsOK(h) && AckedOK(h)
  }

  // ---------------------------------------------------------------- one peer

  /** Disk and memory agree on term and vote; the log in memory is a prefix of the one on disk. */
  ghost predicate DiskOK(sv: Server) {
    sv.disk.term == sv.term && sv.disk.vote == sv.vote && sv.log <= sv.disk.log
  }

  ghost predicate LogOK(sv: Server, h: History) {
    |sv.log| >= 1 && Sourced(sv.disk.log, h) && TermsBelow(sv.disk.log, sv.term + 1)
  }

  ghost predicate VoteOK(sv: Server, me: nat, h: History) {
    && (sv.vote.VotedFor? ==> Grant(me, sv.vote.id, sv.term) in h.grants)
    && (forall g | g in h.grants && g.voter == me ::
          && g.term <= sv.term
          && (g.term == sv.term && g.term !in h.reigns ==> sv.vote == VotedFor(g.cand)))
    && (forall k | k in h.cands && k.id == me :: k.term <= sv.term)
    && (forall k | k in h.acked && k.id == me :: k.term <= sv.term)
  }

  /** A peer whose vote elected the leader of t never votes otherwise in t nor stands in t again. */
  ghost predicate BoundTo(sv: Server, t: nat, leader: nat) {
    sv.term > t || (sv.term == t && sv.vote == VotedFor(leader) && sv.role != Candidate)
  }

  ghost predicate PledgeOK(sv: Server, me: nat, h: History) {
    forall t | t in h.reigns && me in h.reigns[t].voters :: BoundTo(sv, t, h.reigns[t].leader)
  }

  ghost predicate CandidateOK(sv: Server, me: nat, h: History, n: nat) {
    sv.role == Candidate ==>
      && sv.vote == VotedFor(me) && me in sv.voters
      && Stamp(me, sv.term) in h.cands && h.cands[Stamp(me, sv.term)] == sv.log
      && forall v | v in sv.voters :: v < n && Grant(v, me, sv.term) in h.grants
  }

  ghost predicate AcksOK(sv: Server, me: nat, h: History) {
    && (forall p | 0 <= p < |sv.next| :: 1 <= sv.next[p] <= |sv.log|)
    && forall p | 0 <= p < |sv.acks| ::
         && sv.acks[p] < |sv.log|
         && (sv.acks[p] >= 0 && p != me ==>
               Stamp(p, sv.term) in h.acked && sv.acks[p] <= h.acked[Stamp(p, sv.term)])
  }

  ghost predicate LeaderOK(sv: Server, me: nat, h: History, n: nat) {
    sv.role == Leader ==>
      && sv.term in h.reigns
      && h.reigns[sv.term].leader == me
      && h.reigns[sv.term].log == sv.log
      && Stamp(me, sv.term) in h.acked && h.acked[Stamp(me, sv.term)] == LastIndex(sv.log)
      && |sv.next| == n && |sv.acks| == n && AcksOK(sv, me, h)
  }

  ghost predicate ServerOK(sv: Server, me: nat, h: History, n: nat) {
    && DiskOK(sv) && LogOK(sv, h) && VoteOK(sv, me, h) && PledgeOK(sv, me, h)
    && CandidateOK(sv, me, h, n) && LeaderOK(sv, me, h, n)
  }

  // ---------------------------------------------------------------- one message

  ghost predicate VoteReqOK(a: VoteArgs, h: History) {
    && Stamp(a.cand, a.term) in h.cands
    && var l := h.cands[Stamp(a.cand, a.term)];
       a.lastIndex == LastIndex(l) && a.lastTerm == LastTerm(l)
  }

  /** The message is a stretch of its leader's log that reaches at least to where the reign began. */
  ghost predicate AppendOK(a: AppendArgs, h: History) {
    && a.term in h.reigns
    && var r := h.reigns[a.term];
       && a.leader == r.leader
       && 0 <= a.prev <= a.End() < |r.log| && |r.first| <= a.End() + 1
       && a.prevTerm == r.log[a.prev].term
       && a.entries == r.log[a.prev + 1..a.End() + 1]
  }

  /** A refusal names a place strictly before the refused one: where a term's entries begin. */
  ghost predicate ConflictOK(a: AppendArgs, r: AppendReply, h: History) {
    && 1 <= r.conflictIndex <= a.prev
    && (r.conflictTerm != -1 ==>
          && r.conflictTerm >= 1 && r.conflictTerm in h.reigns
          && var l := h.reigns[r.conflictTerm].log;
             && r.conflictIndex < |l| && l[r.conflictIndex].term == r.conflictTerm
             && l[r.conflictIndex - 1].term < r.conflictTerm)
  }

  ghost predicate ReplyOK(from: nat, a: AppendArgs, r: AppendReply, h: History, n: nat) {
    && from < n && AppendOK(a, h)
    && (r.success ==> Stamp(from, a.term) in h.acked && a.End() <= h.acked[Stamp(from, a.term)])
    && (!r.success && r.term <= a.term ==> ConflictOK(a, r, h))
  }

  ghost predicate MsgOK(m: Msg, h: History, n: nat) {
    match m
    case VoteReq(a) => VoteReqOK(a, h)
    case VoteRep(v, a, r) => v < n && (r.granted ==> Grant(v, a.cand, a.term) in h.grants)
    case AppendReq(dest, a) => AppendOK(a, h) && dest != a.leader
    case AppendRep(from, a, r) => ReplyOK(from, a, r, h, n) && from != a.leader
  }

  ghost predicate Inv(c: Cluster) {
    var n := |c.servers|;
    && HistOK(c.hist, n)
    && (forall s | 0 <= s < n :: ServerOK(c.servers[s], s, c.hist, n))
    && (forall m | m in c.net :: MsgOK(m, c.hist, n))
  }

  // ---------------------------------------------------------------- facts about sourced logs

  /** Log Matching, for any two logs the history accounts for. */
  lemma Matching(a: Log, b: Log, i: nat, h: History)
    requires Sourced(a, h) && Sourced(b, h) && i < |a| && i < |b| && a[i].term == b[i].term
    ensures a[..i + 1] == b[..i + 1]
  {
    if i > 0 { assert SourcedAt(a, i, h) && SourcedAt(b, i, h); }
  }

  lemma SourcedPrefix(l: Log, p: Log, h: History)
    requires Sourced(l, h) && p <= l && |p| >= 1
    ensures Sourced(p, h)
  {
    forall i | 1 <= i < |p| ensures SourcedAt(p, i, h) {
      assert SourcedAt(l, i, h) && p[..i + 1] == l[..i + 1];
    }
  }

  /** Terms never decrease along a sourced log. */
  lemma TermsOrdered(l: Log, h: History, n: nat, i: nat, j: nat)
    requires HistOK(h, n) && Sourced(l, h) && i <= j < |l|
    ensures l[i].term <= l[j].term
  {
    if j > 0 {
      assert SourcedAt(l, j, h);
      var r := h.reigns[l[j].term];
      assert l[i] == l[..j + 1][i] == r.log[i];
      assert ReignLogOK(l[j].term, r, h);
      if i < |r.first| { assert r.log[i] == r.first[i]; }
    }
  }

  /** Where the entries of the term of l[i] begin in their leader's log. */
  lemma InReign(l: Log, h: History, n: nat, i: nat)
    requires HistOK(h, n) && Sourced(l, h) && 1 <= i < |l|
    ensures l[i].term in h.reigns
    ensures var r := h.reigns[l[i].term]; |r.first| <= i < |r.log| && l[i] == r.log[i] && l[..i + 1] == r.log[..i + 1]
  {
    assert SourcedAt(l, i, h);
    var t := l[i].term;
    var r := h.reigns[t];
    assert l[i] == l[..i + 1][i] == r.log[i];
    assert ReignLogOK(t, r, h);
  }

  // ---------------------------------------------------------------- growth of the history

  ghost predicate ReignGrows(r: Reign, r': Reign) {
    r'.leader == r.leader && r'.voters == r.voters && r'.first == r.first && r.log <= r'.log
  }

  ghost predicate Grows(h: History, h': History) {
    && (forall k | k in h.cands :: k in h'.cands && h'.cands[k] == h.cands[k])
    && h.grants <= h'.grants
    && (forall t | t in h.reigns :: t in h'.reigns && ReignGrows(h.reigns[t], h'.reigns[t]))
    && (forall k | k in h.acked :: k in h'.acked && h.acked[k] <= h'.acked[k])
    && (forall k | k in h.started :: k in h'.started && h'.started[k] == h.started[k])
  }

  lemma SourcedGrows(l: Log, h: History, h': History)
    requires Sourced(l, h) && Grows(h, h')
    ensures Sourced(l, h')
  {
    forall i | 1 <= i < |l| ensures SourcedAt(l, i, h') {
      assert SourcedAt(l, i, h);
      var t := l[i].term;
      assert ReignGrows(h.reigns[t], h'.reigns[t]);
      assert h'.reigns[t].log[..i + 1] == h.reigns[t].log[..i + 1];
    }
  }

  lemma MsgGrows(m: Msg, h: History, h': History, n: nat)
    requires MsgOK(m, h, n) && Grows(h, h')
    ensures MsgOK(m, h', n)
  {
    if m.AppendReq? || m.AppendRep? { AppendGrows(m.args, h, h'); }
    if m.AppendRep? && !m.reply.success && m.reply.term <= m.args.term && m.reply.conflictTerm != -1 {
      var t := m.reply.conflictTerm;
      assert ReignGrows(h.reigns[t], h'.reigns[t]);
    }
  }

  lemma AppendGrows(a: AppendArgs, h: History, h': History)
    requires AppendOK(a, h) && Grows(h, h')
    ensures AppendOK(a, h')
  {
    var r, r' := h.reigns[a.term], h'.reigns[a.term];
    assert ReignGrows(r, r');
    assert r'.log[a.prev + 1..a.End() + 1] == r.log[a.prev + 1..a.End() + 1];
  }

  /** Nothing the history says about peer s changed, except perhaps that its vote elected someone. */
  ghost predicate Spares(h: History, h': History, s: nat) {
    && (forall g | g in h'.grants && g.voter == s :: g in h.grants)
    && (forall k | k in h'.cands && k.id == s :: k in h.cands)
    && (forall k | k in h'.acked && k.id == s :: k in h.acked && h'.acked[k] == h.acked[k])
    && (forall t | t in h.reigns && h.reigns[t].leader == s :: t in h'.reigns && h'.reigns[t] == h.reigns[t])
  }

  lemma BystanderKept(sv: Server, s: nat, h: History, h': History, n: nat)
    requires ServerOK(sv, s, h, n) && Grows(h, h') && Spares(h, h', s)
    requires forall t | t in h'.reigns && t !in h.reigns && s in h'.reigns[t].voters ::
             BoundTo(sv, t, h'.reigns[t].leader)
    ensures ServerOK(sv, s, h', n)
  {
    SourcedGrows(sv.disk.log, h, h');
    forall t | t in h'.reigns && s in h'.reigns[t].voters ensures BoundTo(sv, t, h'.reigns[t].leader) {
      if t in h.reigns { assert ReignGrows(h.reigns[t], h'.reigns[t]); }
    }
  }

  lemma CandsGrow(h: History, h': History)
    requires CandsOK(h) && Grows(h, h')
    requires forall k | k in h'.cands && k !in h.cands :: Sourced(h'.cands[k], h) && TermsBelow(h'.cands[k], k.term)
    ensures CandsOK(h')
  {
    forall k | k in h'.cands ensures Sourced(h'.cands[k], h') && TermsBelow(h'.cands[k], k.term) {
      SourcedGrows(h'.cands[k], h, h');
    }
  }

  /** An event that elects nobody and appends to no leader's log keeps what is said of reigns. */
  lemma ReignsKept(h: History, h': History, n: nat)
    requires HistOK(h, n) && Grows(h, h') && h'.reigns == h.reigns
    requires forall g | g in h'.grants && g !in h.grants && g.term in h.reigns && g.voter in h.reigns[g.term].voters ::
               g.cand == h.reigns[g.term].leader
    ensures forall t | t in h'.reigns :: VotersOK(t, h'.reigns[t], h', n) && ReignLogOK(t, h'.reigns[t], h')
  {
    forall t | t in h'.reigns ensures VotersOK(t, h'.reigns[t], h', n) && ReignLogOK(t, h'.reigns[t], h') {
      assert VotersOK(t, h.reigns[t], h, n) && ReignLogOK(t, h.reigns[t], h);
      SourcedGrows(h.reigns[t].log, h, h');
    }
  }

  /** One event: the acting peer, the new messages and the history are fine, so the state is. */
  lemma Assemble(c: Cluster, s: nat, sv': Server, sends: set<Msg>, h': History)
    requires Inv(c) && s < |c.servers|
    requires Grows(c.hist, h') && HistOK(h', |c.servers|)
    requires ServerOK(sv', s, h', |c.servers|)
    requires forall m | m in sends :: MsgOK(m, h', |c.servers|)
    requires forall p: nat | p != s :: Spares(c.hist, h', p)
    requires forall p, t | 0 <= p < |c.servers| && p != s && t in h'.reigns && t !in c.hist.reigns
             && p in h'.reigns[t].voters ::
               BoundTo(c.servers[p], t, h'.reigns[t].leader)
    ensures Inv(Cluster(c.servers[s := sv'], c.net + sends, h'))
  {
    var n := |c.servers|;
    forall p | 0 <= p < n && p != s ensures ServerOK(c.servers[p], p, h', n) {
      BystanderKept(c.servers[p], p, c.hist, h', n);
    }
    forall m | m in c.net ensures MsgOK(m, h', n) { MsgGrows(m, c.hist, h', n); }
  }

  /** An event that leaves the history alone. */
  lemma Quiet(c: Cluster, s: nat, sv': Server, sends: set<Msg>)
    requires Inv(c) && s < |c.servers|
    requires ServerOK(sv', s, c.hist, |c.servers|)
    requires forall m | m in sends :: MsgOK(m, c.hist, |c.servers|)
    ensures Grows(c.hist, c.hist) && Inv(Cluster(c.servers[s := sv'], c.net + sends, c.hist))
  {
    Still(c.hist);
    Assemble(c, s, sv', sends, c.hist);
  }

  lemma Still(h: History)
    ensures Grows(h, h) && forall p: nat :: Spares(h, h, p)
  {
  }
}
