/** The guarantees of src/raft over whole runs, for any number of peers and any list of events. */
module RaftTheorems {
  import opened RaftTypes
  import opened RaftHandlers
  import opened RaftCluster
  import opened RaftInvariant
  import opened RaftSteps
  import opened RaftSafety
  import opened RaftSafetySteps
  import opened RaftLedger
  import opened RaftAcks
  import opened RaftVotes
  import opened RaftDisk
  import opened RaftBackup
  import RL = ReplicatedLog

  // ---------------------------------------------------------------- runs

  lemma {:induction false} RunKeeps(n: nat, events: seq<Event>, states: seq<Cluster>, i: nat)
    requires IsRun(n, events, states) && i < |states|
    ensures Inv(states[i]) && |states[i].servers| == n
  {
    if i == 0 { InitOK(n); } else { RunKeeps(n, events, states, i - 1); StepKeeps(states[i - 1], events[i - 1]); }
  }

  lemma GrowsThrough(a: History, b: History, c: History)
    requires Grows(a, b) && Grows(b, c)
    ensures Grows(a, c)
  {
    forall t | t in a.reigns ensures t in c.reigns && ReignGrows(a.reigns[t], c.reigns[t]) {
      assert ReignGrows(a.reigns[t], b.reigns[t]) && ReignGrows(b.reigns[t], c.reigns[t]);
    }
  }

  lemma {:induction false} RunGrows(n: nat, events: seq<Event>, states: seq<Cluster>, i: nat, j: nat)
    requires IsRun(n, events, states) && i <= j < |states|
    ensures Grows(states[i].hist, states[j].hist)
    decreases j - i
  {
    if i == j {
      Still(states[i].hist);
    } else {
      RunKeeps(n, events, states, j - 1);
      StepKeeps(states[j - 1], events[j - 1]);
      RunGrows(n, events, states, i, j - 1);
      GrowsThrough(states[i].hist, states[j - 1].hist, states[j].hist);
    }
  }

  lemma {:induction false} RunSafe(n: nat, events: seq<Event>, states: seq<Cluster>, i: nat)
    requires IsRun(n, events, states) && Ordered(events, states) && i < |states|
    ensures Safe(states[i]) && |states[i].servers| == n
  {
    if i == 0 {
      InitSafe(n);
    } else {
      RunSafe(n, events, states, i - 1);
      assert InOrder(states[i - 1], events[i - 1]);
      StepSafe(states[i - 1], events[i - 1]);
    }
  }

  lemma {:induction false} RunGrowsSafely(n: nat, events: seq<Event>, states: seq<Cluster>, i: nat, j: nat)
    requires IsRun(n, events, states) && Ordered(events, states) && i <= j < |states|
    ensures GrowsSafely(states[i].hist, states[j].hist)
    decreases j - i
  {
    if i == j {
      StillSafe(states[i].hist, 0);
    } else {
      RunSafe(n, events, states, j - 1);
      assert InOrder(states[j - 1], events[j - 1]);
      StepSafe(states[j - 1], events[j - 1]);
      RunGrowsSafely(n, events, states, i, j - 1);
      GrowsThrough(states[i].hist, states[j - 1].hist, states[j].hist);
    }
  }

  // ---------------------------------------------------------------- on any network

  /** s leads term t in state c. */
  predicate Leads(c: Cluster, s: nat, t: nat) {
    s < |c.servers| && c.servers[s].role == Leader && c.servers[s].term == t
  }

  lemma LeaderFacts(c: Cluster, s: nat, t: nat)
    requires Inv(c) && Leads(c, s, t)
    ensures t in c.hist.reigns && c.hist.reigns[t].leader == s && c.hist.reigns[t].log == c.servers[s].log
    ensures ReignLogOK(t, c.hist.reigns[t], c.hist)
  {
    assert ServerOK(c.servers[s], s, c.hist, |c.servers|);
  }

  /** Election Safety: in a whole run, a term has at most one leader. */
  lemma ElectionSafety(n: nat, events: seq<Event>, states: seq<Cluster>, i: nat, j: nat, a: nat, b: nat, t: nat)
    requires IsRun(n, events, states) && i <= j < |states| && Leads(states[i], a, t) && Leads(states[j], b, t)
    ensures a == b
  {
    RunKeeps(n, events, states, i);
    RunKeeps(n, events, states, j);
    RunGrows(n, events, states, i, j);
    LeaderFacts(states[i], a, t);
    LeaderFacts(states[j], b, t);
    assert ReignGrows(states[i].hist.reigns[t], states[j].hist.reigns[t]);
  }

  /** Through every state of a run: who did not stand in its term keeps its vote, and only who stood votes twice. */
  lemma {:induction false} RunSteady(n: nat, events: seq<Event>, states: seq<Cluster>, i: nat)
    requires IsRun(n, events, states) && i < |states|
    ensures AllSteady(states[i]) && OnlyStandersTwice(states[i].hist)
  {
    if i > 0 {
      RunSteady(n, events, states, i - 1);
      RunKeeps(n, events, states, i - 1);
      StepSteady(states[i - 1], events[i - 1], states[i]);
      StepStanders(states[i - 1], events[i - 1], states[i].hist);
    }
  }

  /** A peer that gave two different votes in a term stood for election in that term. */
  lemma OnlyStandersVoteTwice(n: nat, events: seq<Event>, states: seq<Cluster>, i: nat, g: Grant, g': Grant)
    requires IsRun(n, events, states) && i < |states| && g in states[i].hist.grants && g' in states[i].hist.grants
    requires g.voter == g'.voter && g.term == g'.term && g.cand != g'.cand
    ensures Stamp(g.voter, g.term) in states[i].hist.cands
  {
    RunSteady(n, events, states, i);
  }

  lemma {:induction false} RunVotesOnce(n: nat, events: seq<Event>, states: seq<Cluster>, i: nat)
    requires IsRun(n, events, states) && i < |states| && forall k | 0 <= k < i :: !VotesAgain(states[k], events[k])
    ensures OneVote(states[i].hist)
  {
    if i > 0 {
      RunVotesOnce(n, events, states, i - 1);
      RunKeeps(n, events, states, i - 1);
      RunSteady(n, events, states, i - 1);
      StepVotesOnce(states[i - 1], events[i - 1], states[i].hist);
    }
  }

  /** There is one vote per peer and term throughout a run if and only if nobody votes in a term it stood in. */
  lemma OneVotePerTermIff(n: nat, events: seq<Event>, states: seq<Cluster>)
    requires IsRun(n, events, states)
    ensures (forall i | 0 <= i < |states| :: OneVote(states[i].hist)) <==>
            forall k | 0 <= k < |events| :: !VotesAgain(states[k], events[k])
  {
    if forall k | 0 <= k < |events| :: !VotesAgain(states[k], events[k]) {
      forall i | 0 <= i < |states| ensures OneVote(states[i].hist) { RunVotesOnce(n, events, states, i); }
    } else if forall i | 0 <= i < |states| :: OneVote(states[i].hist) {
      forall k | 0 <= k < |events| ensures !VotesAgain(states[k], events[k]) {
        RunKeeps(n, events, states, k);
        RunSteady(n, events, states, k);
        StepVotesOnce(states[k], events[k], states[k + 1].hist);
      }
    }
  }

  /** Leader Append-Only: while it leads a term, a peer neither drops nor replaces entries. */
  lemma LeaderAppendOnly(n: nat, events: seq<Event>, states: seq<Cluster>, i: nat, j: nat, s: nat, t: nat)
    requires IsRun(n, events, states) && i <= j < |states| && Leads(states[i], s, t) && Leads(states[j], s, t)
    ensures states[i].servers[s].log <= states[j].servers[s].log
  {
    RunKeeps(n, events, states, i);
    RunKeeps(n, events, states, j);
    RunGrows(n, events, states, i, j);
    LeaderFacts(states[i], s, t);
    LeaderFacts(states[j], s, t);
    assert ReignGrows(states[i].hist.reigns[t], states[j].hist.reigns[t]);
  }

  /** Some peer has l in memory or on disk. */
  predicate Stores(c: Cluster, l: Log) {
    exists s | 0 <= s < |c.servers| :: l == c.servers[s].log || l == c.servers[s].disk.log
  }

  lemma StoredSourced(c: Cluster, l: Log)
    requires Inv(c) && Stores(c, l)
    ensures Sourced(l, c.hist)
  {
    var s :| 0 <= s < |c.servers| && (l == c.servers[s].log || l == c.servers[s].disk.log);
    assert ServerOK(c.servers[s], s, c.hist, |c.servers|);
    SourcedPrefix(c.servers[s].disk.log, c.servers[s].log, c.hist);
  }

  /** Log Matching: two logs stored anywhere, at any two moments, agree up to any entry of equal index and term. */
  lemma LogMatching(n: nat, events: seq<Event>, states: seq<Cluster>, i: nat, j: nat, k: Log, l: Log, x: nat)
    requires IsRun(n, events, states) && i <= j < |states| && Stores(states[i], k) && Stores(states[j], l)
    requires x < |k| && x < |l| && k[x].term == l[x].term
    ensures k[..x + 1] == l[..x + 1]
  {
    RunKeeps(n, events, states, i);
    RunKeeps(n, events, states, j);
    RunGrows(n, events, states, i, j);
    StoredSourced(states[i], k);
    StoredSourced(states[j], l);
    SourcedGrows(k, states[i].hist, states[j].hist);
    Matching(k, l, x, states[j].hist);
  }

  lemma SentInReign(n: nat, events: seq<Event>, states: seq<Cluster>, i: nat, k: nat, dest: nat, a: AppendArgs)
    requires IsRun(n, events, states) && i <= k < |states| && AppendReq(dest, a) in states[i].net
    ensures AppendOK(a, states[k].hist)
  {
    RunKeeps(n, events, states, i);
    assert MsgOK(AppendReq(dest, a), states[i].hist, n);
    RunGrows(n, events, states, i, k);
    AppendGrows(a, states[i].hist, states[k].hist);
  }

  lemma StoredLater(n: nat, events: seq<Event>, states: seq<Cluster>, j: nat, k: nat, l: Log)
    requires IsRun(n, events, states) && j <= k < |states| && Stores(states[j], l)
    ensures Sourced(l, states[k].hist)
  {
    RunKeeps(n, events, states, j);
    StoredSourced(states[j], l);
    RunGrows(n, events, states, j, k);
    SourcedGrows(l, states[j].hist, states[k].hist);
  }

  /**
   * The same for a log stored at any moment and an AppendEntries in flight at any other: where they share an
   * entry they share all the message says before it.
   */
  lemma MessageMatching(
      n: nat, events: seq<Event>, states: seq<Cluster>, i: nat, j: nat, dest: nat, a: AppendArgs, l: Log, x: nat)
    requires IsRun(n, events, states) && i < |states| && j < |states|
    requires AppendReq(dest, a) in states[i].net && Stores(states[j], l)
    requires a.prev < x <= a.End() && x < |l| && l[x].term == a.entries[x - a.prev - 1].term
    ensures 0 <= a.prev && l[a.prev].term == a.prevTerm && l[a.prev + 1..x + 1] == a.entries[..x - a.prev]
  {
    var k := if i < j then j else i;
    SentInReign(n, events, states, i, k, dest, a);
    StoredLater(n, events, states, j, k, l);
    assert HistOK(states[k].hist, n) by { RunKeeps(n, events, states, k); }
    MessageAndLog(states[k].hist, n, a, l, x);
  }

  lemma MessageAndLog(h: History, n: nat, a: AppendArgs, l: Log, x: nat)
    requires HistOK(h, n) && AppendOK(a, h) && Sourced(l, h)
    requires a.prev < x <= a.End() && x < |l| && l[x].term == a.entries[x - a.prev - 1].term
    ensures 0 <= a.prev && l[a.prev].term == a.prevTerm && l[a.prev + 1..x + 1] == a.entries[..x - a.prev]
  {
    var r := h.reigns[a.term];
    assert ReignLogOK(a.term, r, h);
    assert a.entries[x - a.prev - 1] == r.log[x];
    Matching(l, r.log, x, h);
    SameStretch(l, r.log, a, x);
  }

  lemma SameStretch(l: Log, k: Log, a: AppendArgs, x: nat)
    requires 0 <= a.prev < x <= a.End() < |k| && x < |l| && l[..x + 1] == k[..x + 1]
    requires a.prevTerm == k[a.prev].term && a.entries == k[a.prev + 1..a.End() + 1]
    ensures l[a.prev].term == a.prevTerm && l[a.prev + 1..x + 1] == a.entries[..x - a.prev]
  {
    assert forall i | 0 <= i <= x :: l[i] == l[..x + 1][i] == k[i];
    assert forall i | 0 <= i < x - a.prev :: a.entries[i] == k[a.prev + 1 + i];
  }

  /** Every log starts with the sentinel and has terms from 1 on that never decrease. */
  lemma LogShape(n: nat, events: seq<Event>, states: seq<Cluster>, i: nat, l: Log, x: nat, y: nat)
    requires IsRun(n, events, states) && i < |states| && Stores(states[i], l)
    ensures |l| >= 1 && l[0] == Sentinel
    ensures 1 <= x <= y < |l| ==> 1 <= l[x].term <= l[y].term
  {
    RunKeeps(n, events, states, i);
    StoredSourced(states[i], l);
    if 1 <= x <= y < |l| {
      InReign(l, states[i].hist, n, x);
      assert ReignLogOK(l[x].term, states[i].hist.reigns[l[x].term], states[i].hist);
      TermsOrdered(l, states[i].hist, n, x, y);
    }
  }

  /** A leader's bookkeeping always points into its log, so no log access is out of range. */
  lemma LeaderIndices(n: nat, events: seq<Event>, states: seq<Cluster>, i: nat, s: nat, t: nat, p: nat)
    requires IsRun(n, events, states) && i < |states| && Leads(states[i], s, t) && p < n
    ensures var sv := states[i].servers[s];
            |sv.next| == |sv.acks| == n && 1 <= sv.next[p] <= |sv.log| && sv.acks[p] < |sv.log|
  {
    RunKeeps(n, events, states, i);
    assert ServerOK(states[i].servers[s], s, states[i].hist, n);
  }

  /** Crash consistency: between critical sections the disk agrees on term and vote and extends the log. */
  lemma CrashConsistency(n: nat, events: seq<Event>, states: seq<Cluster>, i: nat, s: nat)
    requires IsRun(n, events, states) && i < |states| && s < n
    ensures |states[i].servers| == n
    ensures var sv := states[i].servers[s];
            sv.disk.term == sv.term && sv.disk.vote == sv.vote && sv.log <= sv.disk.log
  {
    RunKeeps(n, events, states, i);
    assert ServerOK(states[i].servers[s], s, states[i].hist, n);
  }

  lemma {:induction false} RunWritten(n: nat, events: seq<Event>, states: seq<Cluster>, i: nat)
    requires IsRun(n, events, states) && i < |states| && forall k | 0 <= k < i :: !OnlyTruncates(states[k], events[k])
    ensures AllWritten(states[i])
  {
    if i > 0 {
      RunWritten(n, events, states, i - 1);
      StepWritten(states[i - 1], events[i - 1], states[i]);
    }
  }

  /** Disk and memory hold the same logs throughout a run if and only if no accepted message only truncates. */
  lemma DiskIsMemoryIff(n: nat, events: seq<Event>, states: seq<Cluster>)
    requires IsRun(n, events, states)
    ensures (forall i | 0 <= i < |states| :: AllWritten(states[i])) <==>
            forall k | 0 <= k < |events| :: !OnlyTruncates(states[k], events[k])
  {
    if forall k | 0 <= k < |events| :: !OnlyTruncates(states[k], events[k]) {
      forall i | 0 <= i < |states| ensures AllWritten(states[i]) { RunWritten(n, events, states, i); }
    } else if forall i | 0 <= i < |states| :: AllWritten(states[i]) {
      forall k | 0 <= k < |events| ensures !OnlyTruncates(states[k], events[k]) {
        StepWritten(states[k], events[k], states[k + 1]);
      }
    }
  }

  /**
   * A refused AppendEntries is retried once, strictly lower and never below the sentinel, where the follower said; the
   * leader remembers the place.
   */
  lemma RetriesDescend(n: nat, events: seq<Event>, states: seq<Cluster>, i: nat) returns (b: AppendArgs)
    requires IsRun(n, events, states) && i < |events| && events[i].RecvAppendRep?
    requires var e := events[i]; e.s < |states[i].servers| && Retries(states[i].servers[e.s], e.args, e.reply)
    ensures var e := events[i];
            && Sends(states[i], e) == {AppendReq(e.peer, b)}
            && b.prev == e.reply.conflictIndex - 1 && 0 <= b.prev < e.args.prev
            && e.s < |states[i + 1].servers| && e.peer < |states[i + 1].servers[e.s].next|
            && states[i + 1].servers[e.s].next[e.peer] == b.prev + 1
  {
    var e := events[i];
    RunKeeps(n, events, states, i);
    var sv := states[i].servers[e.s];
    assert MsgOK(AppendRep(e.peer, e.args, e.reply), states[i].hist, n) && ServerOK(sv, e.s, states[i].hist, n);
    RetryOK(sv, e.s, e.peer, e.args, e.reply, states[i].hist, n);
    b := Suffix(sv, e.s, BackUp(sv.log, e.reply));
  }

  /**
   * Wherever a leader starts probing a peer of no later term, it is refused at most once per term in that peer's log.
   */
  lemma BackupTerminatesInRun(n: nat, events: seq<Event>, states: seq<Cluster>, i: nat, s: nat, t: nat, p: nat,
      prev: nat)
    requires IsRun(n, events, states) && i < |states| && Leads(states[i], s, t) && prev < |states[i].servers[s].log|
    requires p < |states[i].servers| && states[i].servers[p].term <= t
    ensures Inv(states[i]) && t in states[i].hist.reigns && prev < |states[i].hist.reigns[t].log|
    ensures Sourced(states[i].servers[p].log, states[i].hist) && HistOK(states[i].hist, n)
    ensures Refusals(states[i].hist, n, t, states[i].servers[p], prev) <= |TermsOf(states[i].servers[p].log)|
  {
    RunKeeps(n, events, states, i);
    LeaderFacts(states[i], s, t);
    StoredSourced(states[i], states[i].servers[p].log);
    BackupTerminates(states[i].hist, n, t, states[i].servers[p], prev);
  }

  // ---------------------------------------------------------------- acknowledgements

  /** m was cut from the log of a leader as it is now, and reaches to that log's end. */
  predicate CutFrom(m: Msg, sv: Server, s: nat) {
    m.AppendReq? && sv.role == Leader && m.args.leader == s && m.args.term == sv.term
        && m.args.End() == LastIndex(sv.log)
  }

  lemma BroadcastEnds(sv: Server, s: nat, h: History, n: nat, m: Msg)
    requires LeaderOK(sv, s, h, n) && HistOK(h, n) && m in Broadcast(sv, s)
    ensures CutFrom(m, sv, s)
  {
    assert ReignLogOK(sv.term, h.reigns[sv.term], h);
    SuffixOK(sv, s, sv.next[m.dest], m.args, h, n);
  }

  lemma RetryEnds(sv: Server, s: nat, peer: nat, a: AppendArgs, r: AppendReply, sv': Server, h: History, n: nat, m: Msg)
    requires ServerOK(sv, s, h, n) && HistOK(h, n) && ReplyOK(peer, a, r, h, n)
    requires sv' == OnAppendRep(sv, s, peer, a, r) && m in Retry(sv, s, peer, a, r)
    ensures CutFrom(m, sv', s)
  {
    RetryOK(sv, s, peer, a, r, h, n);
    assert ReignLogOK(sv.term, h.reigns[sv.term], h);
    SuffixOK(sv, s, BackUp(sv.log, r), m.args, h, n);
  }

  lemma SendsEnd(c: Cluster, e: Event, c': Cluster, m: Msg)
    requires Inv(c) && Enabled(c, e) && c' == Step(c, e) && Inv(c') && m in Sends(c, e) && m.AppendReq?
    ensures CutFrom(m, After(c, e), e.s)
  {
    var s, n, sv' := e.s, |c.servers|, After(c, e);
    assert c'.servers[s] == sv';
    if e.RecvAppendRep? {
      assert ServerOK(c.servers[s], s, c.hist, n) && MsgOK(AppendRep(e.peer, e.args, e.reply), c.hist, n);
      RetryEnds(c.servers[s], s, e.peer, e.args, e.reply, sv', c.hist, n, m);
    } else {
      assert ServerOK(sv', s, c'.hist, n);
      SendsBroadcast(c, e, m);
      BroadcastEnds(sv', s, c'.hist, n, m);
    }
  }

  lemma SendsBroadcast(c: Cluster, e: Event, m: Msg)
    requires Enabled(c, e) && m in Sends(c, e) && m.AppendReq? && !e.RecvAppendRep?
    ensures m in Broadcast(After(c, e), e.s)
  {
  }

  /** Every AppendEntries reaches to the end of the log its leader has once it is sent. */
  lemma SentWhole(n: nat, events: seq<Event>, states: seq<Cluster>, j: nat, m: Msg)
    requires IsRun(n, events, states) && j < |events| && m in Sends(states[j], events[j]) && m.AppendReq?
    ensures events[j].s == m.args.leader && Leads(states[j + 1], m.args.leader, m.args.term)
    ensures var h, l := states[j + 1].hist, states[j + 1].servers[m.args.leader].log;
            m.args.End() == LastIndex(l) && m.args.term in h.reigns && h.reigns[m.args.term].log == l
  {
    RunKeeps(n, events, states, j);
    RunKeeps(n, events, states, j + 1);
    SendsEnd(states[j], events[j], states[j + 1], m);
    assert CutFrom(m, states[j + 1].servers[events[j].s], events[j].s);
    LeaderFacts(states[j + 1], m.args.leader, m.args.term);
  }

  /**
   * Acknowledgements mean the whole log: whoever accepts an AppendEntries has the log its leader had when it was sent.
   */
  lemma SuccessCopiesLeader(n: nat, events: seq<Event>, states: seq<Cluster>, j: nat, i: nat, s: nat, a: AppendArgs)
    requires IsRun(n, events, states) && j < i < |events| && events[i] == RecvAppend(s, a)
             && AppendReq(s, a) in Sends(states[j], events[j])
    ensures Leads(states[j + 1], a.leader, a.term) && s < |states[i].servers| && s < |states[i + 1].servers|
    ensures Accepts(states[i].servers[s], a) ==> states[i + 1].servers[s].log == states[j + 1].servers[a.leader].log
  {
    SentWhole(n, events, states, j, AppendReq(s, a));
    RunGrows(n, events, states, j + 1, i);
    CopiedAt(n, events, states, i, s, a, states[j + 1].hist, states[j + 1].servers[a.leader].log);
  }

  lemma CopiedAt(n: nat, events: seq<Event>, states: seq<Cluster>, i: nat, s: nat, a: AppendArgs, h: History, l: Log)
    requires IsRun(n, events, states) && i < |events| && events[i] == RecvAppend(s, a) && Grows(h, states[i].hist)
    requires a.term in h.reigns && h.reigns[a.term].log == l && a.End() == LastIndex(l)
    ensures s < |states[i].servers| && s < |states[i + 1].servers|
    ensures Accepts(states[i].servers[s], a) ==> states[i + 1].servers[s].log == l
  {
    RunKeeps(n, events, states, i);
    Copies(states[i], s, a, h, l);
  }

  lemma Copies(c: Cluster, s: nat, a: AppendArgs, h: History, l: Log)
    requires Inv(c) && s < |c.servers| && AppendReq(s, a) in c.net && Grows(h, c.hist)
    requires a.term in h.reigns && h.reigns[a.term].log == l && a.End() == LastIndex(l)
    ensures Accepts(c.servers[s], a) ==> OnAppend(c.servers[s], a).log == l
  {
    assert ServerOK(c.servers[s], s, c.hist, |c.servers|) && MsgOK(AppendReq(s, a), c.hist, |c.servers|);
    if Accepts(c.servers[s], a) { CopiesTo(c.servers[s], s, a, h, c.hist, |c.servers|, l); }
  }

  lemma CopiesTo(sv: Server, s: nat, a: AppendArgs, h: History, h': History, n: nat, l: Log)
    requires HistOK(h', n) && DiskOK(sv) && LogOK(sv, h') && AppendOK(a, h') && Accepts(sv, a) && Grows(h, h')
    requires a.term in h.reigns && h.reigns[a.term].log == l && a.End() == LastIndex(l)
    ensures OnAppend(sv, a).log == l
  {
    assert ReignGrows(h.reigns[a.term], h'.reigns[a.term]);
    Accepted(sv, a, h', n);
  }

  /** In a run whose first i events are in order everybody keeps its word through state i. */
  lemma {:induction false} OrderedHonours(n: nat, events: seq<Event>, states: seq<Cluster>, i: nat)
    requires IsRun(n, events, states) && i < |states|
    requires forall k | 0 <= k < i :: InOrder(states[k], events[k])
    ensures AllHonour(states[i])
  {
    if i > 0 {
      OrderedHonours(n, events, states, i - 1);
      RunKeeps(n, events, states, i - 1);
      StepHonours(states[i - 1], events[i - 1], states[i]);
    }
  }

  /** Acknowledgements stay true throughout a run if and only if the run is in order. */
  lemma AcknowledgementsHoldIffOrdered(n: nat, events: seq<Event>, states: seq<Cluster>)
    requires IsRun(n, events, states)
    ensures Ordered(events, states) <==> forall i | 0 <= i < |states| :: AllHonour(states[i])
  {
    if Ordered(events, states) {
      forall i | 0 <= i < |states| ensures AllHonour(states[i]) { OrderedHonours(n, events, states, i); }
    } else if forall i | 0 <= i < |states| :: AllHonour(states[i]) {
      forall k | 0 <= k < |events| ensures InOrder(states[k], events[k]) {
        RunKeeps(n, events, states, k);
        StepHonours(states[k], events[k], states[k + 1]);
      }
    }
  }

  /** What a leader counts is true: a follower still in the leader's term holds its prefix up to matchIndex. */
  lemma MatchIndexSound(n: nat, events: seq<Event>, states: seq<Cluster>, i: nat, s: nat, t: nat, p: nat)
    requires IsRun(n, events, states) && Ordered(events, states) && i < |states| && Leads(states[i], s, t) && p < n
             && p != s
    ensures |states[i].servers| == n && |states[i].servers[s].acks| == n
    ensures var sv, pv := states[i].servers[s], states[i].servers[p];
            (pv.term == t && sv.acks[p] >= 0 ==>
              sv.acks[p] < |pv.log| && sv.acks[p] < |sv.log| && pv.log[..sv.acks[p] + 1] == sv.log[..sv.acks[p] + 1])
  {
    RunKeeps(n, events, states, i);
    OrderedHonours(n, events, states, i);
    AcksTrue(states[i], s, t, p, states[i].servers[s], states[i].servers[p]);
  }

  lemma AcksTrue(c: Cluster, s: nat, t: nat, p: nat, sv: Server, pv: Server)
    requires Inv(c) && AllHonour(c) && Leads(c, s, t) && p < |c.servers| && p != s && sv == c.servers[s]
             && pv == c.servers[p]
    ensures |sv.acks| == |c.servers| && (pv.term == t && sv.acks[p] >= 0 ==>
              sv.acks[p] < |pv.log| && sv.acks[p] < |sv.log| && pv.log[..sv.acks[p] + 1] == sv.log[..sv.acks[p] + 1])
  {
    assert LeaderOK(sv, s, c.hist, |c.servers|) by { assert ServerOK(sv, s, c.hist, |c.servers|); }
    assert Honours(pv, p, c.hist);
    PrefixesAgree(sv, pv, s, p, c.hist, |c.servers|);
  }

  lemma PrefixesAgree(sv: Server, pv: Server, s: nat, p: nat, h: History, n: nat)
    requires LeaderOK(sv, s, h, n) && sv.role == Leader && Honours(pv, p, h) && p < n && p != s
    ensures |sv.acks| == n && (pv.term == sv.term && sv.acks[p] >= 0 ==>
              sv.acks[p] < |pv.log| && sv.acks[p] < |sv.log| && pv.log[..sv.acks[p] + 1] == sv.log[..sv.acks[p] + 1])
  {
    if pv.term == sv.term && sv.acks[p] >= 0 {
      var k, m := h.acked[Stamp(p, sv.term)], sv.acks[p];
      assert pv.log[..m + 1] == pv.log[..k + 1][..m + 1] == sv.log[..k + 1][..m + 1] == sv.log[..m + 1];
    }
  }

  // ---------------------------------------------------------------- commit guarantees of in-order runs

  /**
   * Leader Completeness: what a leader committed by counting is in the log of every leader of a later term, whenever
   * observed.
   */
  lemma LeaderCompleteness(n: nat, events: seq<Event>, states: seq<Cluster>, i: nat, j: nat, a: nat, b: nat, t: nat,
      u: nat)
    requires IsRun(n, events, states) && Ordered(events, states) && i < |events| && j < |states|
    requires Leads(states[i + 1], a, t) && a < |states[i].servers| && Leads(states[j], b, u) && t < u
    requires events[i].RecvAppendRep? && events[i].s == a
             && states[i + 1].servers[a].commit > states[i].servers[a].commit
    ensures var sv := states[i + 1].servers[a];
            0 <= sv.commit < |sv.log| && sv.log[..sv.commit + 1] <= states[j].servers[b].log
  {
    var N := states[i + 1].servers[a].commit;
    CommitIsChosen(n, events, states, i, a, t, N);
    ChosenReaches(n, events, states, i + 1, j, t, N, b, u);
  }

  lemma CommitIsChosen(n: nat, events: seq<Event>, states: seq<Cluster>, i: nat, a: nat, t: nat, N: int)
    requires IsRun(n, events, states) && Ordered(events, states) && i < |events|
    requires Leads(states[i + 1], a, t) && a < |states[i].servers| && N == states[i + 1].servers[a].commit
    requires events[i].RecvAppendRep? && events[i].s == a && N > states[i].servers[a].commit
    ensures 0 <= N < |states[i + 1].servers[a].log| && Chosen(states[i + 1].hist, n, t, N)
    ensures states[i + 1].servers[a].log[..N + 1] == UpTo(states[i + 1].hist, t, N)
  {
    RunSafe(n, events, states, i + 1);
    LeaderStays(states[i], events[i], states[i].servers[a], states[i + 1].servers[a]);
    CountedPoint(states[i + 1], a, states[i + 1].servers[a], t, N);
  }

  lemma ChosenReaches(n: nat, events: seq<Event>, states: seq<Cluster>, i: nat, j: nat, t: nat, N: nat, b: nat, u: nat)
    requires IsRun(n, events, states) && Ordered(events, states) && i < |states| && j < |states|
    requires Chosen(states[i].hist, n, t, N) && Leads(states[j], b, u) && t < u
    ensures UpTo(states[i].hist, t, N) <= states[j].servers[b].log
  {
    var k := if i < j then j else i;
    assert HistOK(states[k].hist, n) && VotesSafe(states[k].hist) by { RunSafe(n, events, states, k); }
    RunGrowsSafely(n, events, states, i, k);
    RunGrowsSafely(n, events, states, j, k);
    RunKeeps(n, events, states, j);
    LeaderFacts(states[j], b, u);
    PointReaches(states[i].hist, states[j].hist, states[k].hist, n, t, N, u);
  }

  lemma CountedPoint(c: Cluster, a: nat, sv: Server, t: nat, N: int)
    requires Safe(c) && Leads(c, a, t) && sv == c.servers[a] && N == sv.commit
    requires N >= 0 ==> t in c.hist.points && c.hist.points[t] == N
    ensures 0 <= N < |sv.log| && Chosen(c.hist, |c.servers|, t, N) && sv.log[..N + 1] == UpTo(c.hist, t, N)
  {
    assert SafeServer(sv, a, c.hist);
    LeaderFacts(c, a, t);
  }

  lemma LeaderStays(c: Cluster, e: Event, sv: Server, sv': Server)
    requires Enabled(c, e) && e.RecvAppendRep? && sv == c.servers[e.s] && sv' == After(c, e) && sv'.role == Leader
             && sv'.commit > sv.commit
    ensures sv'.term == sv.term && (sv'.commit >= 0 ==> Record(c, e).points == c.hist.points[sv.term := sv'.commit])
  {
  }

  lemma PointReaches(h: History, g: History, k: History, n: nat, t: nat, N: nat, u: nat)
    requires GrowsSafely(h, k) && GrowsSafely(g, k) && HistOK(k, n) && VotesSafe(k)
    requires Chosen(h, n, t, N) && t < u && u in g.reigns && ReignLogOK(u, g.reigns[u], g)
    ensures UpTo(h, t, N) <= g.reigns[u].log
  {
    ChosenGrows(h, k, n, t, N);
    OwnGrows(h, k, t, N);
    assert ReignGrows(g.reigns[u], k.reigns[u]);
    Complete(k, n, t, N, u);
  }

  /** State Machine Safety: no two peers, in any lifetimes, deliver different entries at one index. */
  lemma StateMachineSafety(n: nat, events: seq<Event>, states: seq<Cluster>, i: nat, j: nat, d: Delivery, d': Delivery)
    requires IsRun(n, events, states) && Ordered(events, states) && i <= j < |states|
    requires d in states[i].hist.delivered && d' in states[j].hist.delivered && d.index == d'.index
    ensures d.entry == d'.entry
  {
    RunSafe(n, events, states, j);
    RunGrowsSafely(n, events, states, i, j);
    var h := states[j].hist;
    LedgerCovers(h, n, Ledger(h, n));
    DeliveredInLedger(d, Ledger(h, n), h);
    DeliveredInLedger(d', Ledger(h, n), h);
  }

  /** The peers that hold entry e at index x both in memory and on disk. */
  function Keepers(c: Cluster, x: nat, e: Entry): set<nat> {
    set s: nat | s < |c.servers| && x < |c.servers[s].log| && c.servers[s].log[x] == e
                 && x < |c.servers[s].disk.log| && c.servers[s].disk.log[x] == e
  }

  /**
   * Durability: a delivered entry is never lost or replaced; in every later state a majority stores it, in memory and
   * on disk.
   */
  lemma Durability(n: nat, events: seq<Event>, states: seq<Cluster>, i: nat, j: nat, d: Delivery)
    requires IsRun(n, events, states) && Ordered(events, states) && i <= j < |states| && d in states[i].hist.delivered
    ensures 2 * |Keepers(states[j], d.index, d.entry)| > n
  {
    RunSafe(n, events, states, j);
    RunGrowsSafely(n, events, states, i, j);
    var c := states[j];
    var h := c.hist;
    var t: nat :| Vouches(h, t, []) && d.index <= h.points[t] && h.reigns[t].log[d.index] == d.entry;
    var N := h.points[t];
    assert Chosen(h, n, t, N);
    forall s | s in Ackers(h, n, t, N) ensures s in Keepers(c, d.index, d.entry) {
      AckerKeeps(c, s, c.servers[s], t, N, d.index);
    }
    Subset(Ackers(h, n, t, N), Keepers(c, d.index, d.entry));
  }

  lemma AckerKeeps(c: Cluster, s: nat, sv: Server, t: nat, N: nat, x: nat)
    requires Safe(c) && s < |c.servers| && sv == c.servers[s] && Chosen(c.hist, |c.servers|, t, N)
             && Acked(c.hist, s, t, N) && x <= N
    ensures x < |sv.log| && sv.log[x] == c.hist.reigns[t].log[x] && sv.log <= sv.disk.log
  {
    assert SafeServer(sv, s, c.hist) && ServerOK(sv, s, c.hist, |c.servers|);
    NeverLost(c.hist, |c.servers|, t, N, sv.term);
    assert UpTo(c.hist, t, N)[x] == c.hist.reigns[t].log[x];
  }

  /** The peers a leader knows to hold index N, itself included. */
  function Holders(sv: Server, me: nat, N: int): set<nat> {
    set p: nat | p < |sv.acks| && (p == me || sv.acks[p] >= N)
  }

  /** N is an entry of the leader's own term that it knows a majority to hold. */
  predicate MajorityHolds(sv: Server, me: nat, N: int) {
    0 <= N < |sv.log| && sv.log[N].term == sv.term && 2 * |Holders(sv, me, N)| > |sv.acks|
  }

  lemma CountIsMajority(sv: Server, me: nat, N: nat)
    requires me < |sv.acks|
    ensures Committable(sv, me, N) <==> MajorityHolds(sv, me, N)
  {
    var q := CountIsQuorum(sv.acks, me, N, |sv.acks|);
    assert Holders(sv, me, N) == q + {me};
  }

  /** The commit rule finds the largest index of the leader's term that a majority holds, or changes nothing. */
  lemma CommitIsLargestMajority(sv: Server, me: nat)
    requires me < |sv.acks| && sv.commit >= 0
    ensures var k := CommitFrom(sv, me, LastIndex(sv.log));
            && sv.commit <= k && (k != sv.commit ==> MajorityHolds(sv, me, k))
            && forall N | k < N :: !MajorityHolds(sv, me, N)
  {
    var k := CommitFrom(sv, me, LastIndex(sv.log));
    CommitFromIs(sv, me, LastIndex(sv.log));
    forall N: nat ensures Committable(sv, me, N) <==> MajorityHolds(sv, me, N) { CountIsMajority(sv, me, N); }
  }

  /** Commit indices stay inside the log and never go back while a peer is up. */
  lemma CommitAdvance(n: nat, events: seq<Event>, states: seq<Cluster>, i: nat, s: nat)
    requires IsRun(n, events, states) && Ordered(events, states) && i < |events| && s < n
    ensures |states[i].servers| == |states[i + 1].servers| == n
    ensures 0 <= states[i + 1].servers[s].commit < |states[i + 1].servers[s].log|
    ensures events[i] != Restart(s) ==> states[i].servers[s].commit <= states[i + 1].servers[s].commit
  {
    RunSafe(n, events, states, i);
    RunSafe(n, events, states, i + 1);
    var c, e, c' := states[i], events[i], states[i + 1];
    assert SafeServer(c'.servers[s], s, c'.hist);
    if s == e.s && e.RecvAppend? {
      assert ServerOK(c.servers[s], s, c.hist, n) && MsgOK(AppendReq(s, e.args), c.hist, n)
          && SafeAppend(e.args, c.hist);
      AppendCommit(s, e.args, c.servers[s], After(c, e), c.hist, n);
    }
    else if s == e.s && !e.Restart? { OtherCommit(c, e); }
  }

  lemma AppendCommit(s: nat, a: AppendArgs, sv: Server, sv': Server, h: History, n: nat)
    requires HistOK(h, n) && ServerOK(sv, s, h, n) && AppendOK(a, h) && SafeAppend(a, h) && sv' == OnAppend(sv, a)
    ensures sv.commit <= sv'.commit
  {
    if Accepts(sv, a) { assert |sv'.log| == a.End() + 1 by { Accepted(sv, a, h, n); } }
  }

  lemma OtherCommit(c: Cluster, e: Event)
    requires Enabled(c, e) && !e.RecvAppend? && !e.Restart?
    ensures c.servers[e.s].commit <= After(c, e).commit
  {
    var sv, sv' := c.servers[e.s], After(c, e);
    if e.RecvAppendRep? && sv'.role == Leader && sv.role == Leader && e.reply.success && sv' != sv {
      CommitFromIs(sv'.(commit := sv.commit), e.s, LastIndex(sv.log));
    }
  }

  /** Refinement: an in-order run is a run of one growing log from which peers deliver in order. */
  lemma RefinesReplicatedLog(n: nat, events: seq<Event>, states: seq<Cluster>, i: nat)
    requires IsRun(n, events, states) && Ordered(events, states) && i < |events|
    ensures Safe(states[i]) && Safe(states[i + 1])
    ensures RL.Moves(SharedOf(View(states[i])), SharedOf(View(states[i + 1])), MoveOf(states[i], events[i]))
  {
    RunSafe(n, events, states, i);
    assert InOrder(states[i], events[i]);
    StepRefines(states[i], events[i]);
  }

  /** In the committed log of an in-order run every command id occurs once. */
  lemma CommittedOnce(n: nat, events: seq<Event>, states: seq<Cluster>, i: nat, x: nat, y: nat)
    requires IsRun(n, events, states) && Ordered(events, states) && i < |states|
    ensures Safe(states[i])
    ensures var l := View(states[i]).log;
            1 <= x < y < |l| ==> l[x].cmd.Command? && l[y].cmd.Command? && l[x].cmd.id != l[y].cmd.id
  {
    RunSafe(n, events, states, i);
    var l := View(states[i]).log;
    if 1 <= x < y < |l| { LedgerIdsUnique(states[i].hist, n, l, x, y); }
  }

  // ---------------------------------------------------------------- where commands come from and go

  /** Every entry a leader appended in its own term carries one of these commands. */
  ghost predicate Given(h: History, cmds: set<Command>) {
    forall t | t in h.reigns :: GivenIn(h.reigns[t], cmds)
  }

  ghost predicate GivenIn(r: Reign, cmds: set<Command>) {
    forall x | |r.first| <= x < |r.log| :: r.log[x].cmd in cmds
  }

  /** The commands handed to Start in the first i events. */
  function Commanded(events: seq<Event>, i: nat): set<Command>
    requires i <= |events|
  {
    set k | 0 <= k < i && events[k].ClientStart? :: events[k].cmd
  }

  lemma StartGives(sv: Server, s: nat, cmd: Command, r: Reign, r': Reign, cmds: set<Command>)
    requires sv.role == Leader && s < |sv.acks| && s < |sv.next| && r.log == sv.log && GivenIn(r, cmds)
             && r' == r.(log := OnStart(sv, s, cmd).log)
    ensures GivenIn(r', cmds + {cmd})
  {
  }

  lemma StepGiven(c: Cluster, e: Event, h': History, cmds: set<Command>)
    requires Inv(c) && Enabled(c, e) && h' == Record(c, e) && Given(c.hist, cmds)
    ensures Given(h', if e.ClientStart? then cmds + {e.cmd} else cmds)
  {
    if e.ClientStart? && c.servers[e.s].role == Leader {
      assert ServerOK(c.servers[e.s], e.s, c.hist, |c.servers|);
      var t := c.servers[e.s].term;
      StartGives(c.servers[e.s], e.s, e.cmd, c.hist.reigns[t], h'.reigns[t], cmds);
    } else {
      OthersGive(c, e, h');
    }
  }

  /** Only Start extends a leader's log; a new leader has added nothing yet. */
  lemma OthersGive(c: Cluster, e: Event, h': History)
    requires Enabled(c, e) && h' == Record(c, e) && !(e.ClientStart? && c.servers[e.s].role == Leader)
    ensures forall t | t in h'.reigns ::
            (t in c.hist.reigns && h'.reigns[t] == c.hist.reigns[t]) || h'.reigns[t].first == h'.reigns[t].log
  {
  }

  lemma {:induction false} RunGiven(n: nat, events: seq<Event>, states: seq<Cluster>, i: nat)
    requires IsRun(n, events, states) && i < |states|
    ensures Given(states[i].hist, Commanded(events, i))
  {
    if i > 0 {
      RunGiven(n, events, states, i - 1);
      RunKeeps(n, events, states, i - 1);
      StepGiven(states[i - 1], events[i - 1], states[i].hist, Commanded(events, i - 1));
    }
  }

  lemma LedgerGiven(h: History, n: nat, l: Log, x: nat, cmds: set<Command>)
    requires HistOK(h, n) && PointsOK(h, n) && l == Ledger(h, n) && 1 <= x < |l| && Given(h, cmds)
    ensures l[x].cmd in cmds
  {
    var t := LedgerVouched(h, n, l);
    assert Sourced(l, h) by {
      assert ReignLogOK(t, h.reigns[t], h);
      SourcedPrefix(h.reigns[t].log, l, h);
    }
    InReign(l, h, n, x);
    assert GivenIn(h.reigns[l[x].term], cmds);
  }

  /** Every committed command was handed to Start earlier in the run. */
  lemma CommittedWasStarted(n: nat, events: seq<Event>, states: seq<Cluster>, i: nat, x: nat)
    requires IsRun(n, events, states) && Ordered(events, states) && i < |states|
    ensures Safe(states[i])
    ensures 1 <= x < |View(states[i]).log| ==>
              exists k | 0 <= k < i :: events[k].ClientStart? && events[k].cmd == View(states[i]).log[x].cmd
  {
    RunSafe(n, events, states, i);
    RunGiven(n, events, states, i);
    var l := View(states[i]).log;
    if 1 <= x < |l| { LedgerGiven(states[i].hist, n, l, x, Commanded(events, i)); }
  }

  /** The moves of the replicated log a run makes. */
  function MovesOf(events: seq<Event>, states: seq<Cluster>): seq<RL.Move>
    requires |states| == |events| + 1 && forall i | 0 <= i < |events| :: Enabled(states[i], events[i])
  {
    seq(|events|, i requires 0 <= i < |events| => MoveOf(states[i], events[i]))
  }

  ghost predicate AllSafe(states: seq<Cluster>) { forall i | 0 <= i < |states| :: Safe(states[i]) }

  ghost function ViewsOf(states: seq<Cluster>): seq<RL.Shared>
    requires AllSafe(states)
  {
    seq(|states|, i requires 0 <= i < |states| => SharedOf(View(states[i])))
  }

  lemma RunIsPath(n: nat, events: seq<Event>, states: seq<Cluster>)
    requires IsRun(n, events, states) && Ordered(events, states)
    ensures AllSafe(states) && RL.Path(ViewsOf(states), MovesOf(events, states)) && |ViewsOf(states)[0].applied| == n
  {
    forall i | 0 <= i < |states| ensures Safe(states[i]) { RunSafe(n, events, states, i); }
    forall i | 0 <= i < |events|
      ensures RL.Moves(ViewsOf(states)[i], ViewsOf(states)[i + 1], MovesOf(events, states)[i])
    {
      RefinesReplicatedLog(n, events, states, i);
    }
  }

  /**
   * In its present lifetime a peer delivered the first commands of the committed log, in order, without gap or repeat.
   */
  lemma DeliveredInOrder(n: nat, events: seq<Event>, states: seq<Cluster>, s: nat)
    requires IsRun(n, events, states) && Ordered(events, states) && s < n
    ensures var c := states[|events|];
            && Safe(c) && |c.servers| == n && c.servers[s].applied < |View(c).log|
            && RL.Taken(MovesOf(events, states), s) == Commands(View(c).log)[..c.servers[s].applied]
  {
    RunIsPath(n, events, states);
    RunSafe(n, events, states, |events|);
    RL.TakenIsPrefix(ViewsOf(states), MovesOf(events, states), s);
    var c := states[|events|];
    LedgerCovers(c.hist, n, View(c).log);
  }
}
