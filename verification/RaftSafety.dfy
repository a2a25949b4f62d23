/**
 * What every state reachable under the in-order hypothesis keeps: acknowledged entries are still
 * held, votes respect them, and whatever any peer commits or delivers was acknowledged by a majority.
 */
module RaftSafety {
  import opened RaftTypes
  import opened RaftHandlers
  import opened RaftCluster
  import opened RaftInvariant
  import opened RaftSteps

  // ---------------------------------------------------------------- definitions

  /** N is an index the leader of t filled itself. */
  ghost predicate Own(h: History, t: nat, N: nat) {
    t in h.reigns && N < |h.reigns[t].log| && h.reigns[t].log[N].term == t
  }

  ghost function UpTo(h: History, t: nat, N: nat): Log
    requires t in h.reigns && N < |h.reigns[t].log|
  {
    h.reigns[t].log[..N + 1]
  }

  /** Some later leader, up to term u, began without the prefix through N of term t. */
  ghost predicate Lost(h: History, t: nat, N: nat, u: nat)
    requires Own(h, t, N)
  {
    exists v | v in h.reigns :: t < v <= u && !(UpTo(h, t, N) <= h.reigns[v].first)
  }

  ghost predicate Acked(h: History, s: nat, t: nat, N: nat) {
    Stamp(s, t) in h.acked && N <= h.acked[Stamp(s, t)]
  }

  ghost predicate AckHeld(sv: Server, me: nat, h: History) {
    forall t, N | Own(h, t, N) && Acked(h, me, t, N) :: UpTo(h, t, N) <= sv.log || Lost(h, t, N, sv.term)
  }

  /** A vote that can elect, or did elect, somebody. */
  ghost predicate Counts(h: History, g: Grant) {
    g in h.grants && (g.term in h.reigns ==> g.voter in h.reigns[g.term].voters)
  }

  ghost predicate VoteSafe(h: History, g: Grant)
    requires Stamp(g.cand, g.term) in h.cands
  {
    forall t: nat, N | t < g.term && Own(h, t, N) && Acked(h, g.voter, t, N) ::
      UpTo(h, t, N) <= h.cands[Stamp(g.cand, g.term)] || Lost(h, t, N, g.term - 1)
  }

  ghost predicate VotesSafe(h: History) {
    forall g | Counts(h, g) :: Stamp(g.cand, g.term) in h.cands && VoteSafe(h, g)
  }

  ghost function Ackers(h: History, n: nat, t: nat, N: nat): set<nat> {
    set s: nat | 0 <= s < n && Acked(h, s, t, N)
  }

  ghost predicate Chosen(h: History, n: nat, t: nat, N: nat) {
    Own(h, t, N) && 2 * |Ackers(h, n, t, N)| > n
  }

  ghost predicate PointsOK(h: History, n: nat) {
    forall t | t in h.points :: Chosen(h, n, t, h.points[t])
  }

  /** The leader of t, having counted up to the commit point of t, vouches for p. */
  ghost predicate Vouches(h: History, t: nat, p: Log) {
    && t in h.points && t in h.reigns && h.points[t] < |h.reigns[t].log|
    && p <= UpTo(h, t, h.points[t])
  }

  /** Some leader up to the given term vouches for p, and in that very term `me` acknowledged all of p. */
  ghost predicate Backed(h: History, p: Log, term: nat, me: nat) {
    |p| > 1 ==> exists t: nat :: t <= term && Vouches(h, t, p) && (t == term ==> Acked(h, me, t, |p| - 1))
  }

  ghost predicate CommitOK(sv: Server, me: nat, h: History) {
    && 0 <= sv.commit < |sv.log|
    && Backed(h, sv.log[..sv.commit + 1], sv.term, me)
    && (sv.role == Leader && sv.term in h.points ==> h.points[sv.term] <= sv.commit)
  }

  ghost predicate ApplierOK(sv: Server) {
    && sv.applied + |sv.batch| <= sv.commit < |sv.log|
    && sv.batch == sv.log[sv.applied + 1..sv.applied + 1 + |sv.batch|]
  }

  ghost predicate SafeServer(sv: Server, me: nat, h: History) {
    AckHeld(sv, me, h) && CommitOK(sv, me, h) && ApplierOK(sv)
  }

  ghost predicate SafeAppend(a: AppendArgs, h: History) {
    && 0 <= a.commit <= a.End()
    && (a.commit > 0 ==>
          && AppendOK(a, h)
          && exists t: nat :: t <= a.term && Vouches(h, t, UpTo(h, a.term, a.commit)))
  }

  ghost predicate DeliveredOK(h: History) {
    forall d | d in h.delivered :: d.index >= 1 && exists t: nat ::
      Vouches(h, t, []) && d.index <= h.points[t] && h.reigns[t].log[d.index] == d.entry
  }

  ghost predicate HistSafe(h: History, n: nat) {
    VotesSafe(h) && PointsOK(h, n) && DeliveredOK(h)
  }

  ghost predicate Held(c: Cluster) {
    && HistSafe(c.hist, |c.servers|)
    && (forall s | 0 <= s < |c.servers| :: SafeServer(c.servers[s], s, c.hist))
    && (forall m | m in c.net && m.AppendReq? :: SafeAppend(m.args, c.hist))
  }

  ghost predicate Safe(c: Cluster) { Inv(c) && Held(c) }

  // ---------------------------------------------------------------- Leader Completeness

  /** A prefix chosen in term t is part of the log every later leader starts with. */
  lemma {:induction false} Complete(h: History, n: nat, t: nat, N: nat, u: nat)
    requires HistOK(h, n) && VotesSafe(h) && Chosen(h, n, t, N) && t < u && u in h.reigns
    ensures UpTo(h, t, N) <= h.reigns[u].first
    decreases u
  {
    var r := h.reigns[u];
    assert VotersOK(u, r, h, n) && ReignLogOK(u, r, h);
    var v := QuorumsMeet(Ackers(h, n, t, N), r.voters, n);
    var g := Grant(v, r.leader, u);
    assert Counts(h, g) && VoteSafe(h, g);
    if Lost(h, t, N, u - 1) {
      var w :| w in h.reigns && t < w <= u - 1 && !(UpTo(h, t, N) <= h.reigns[w].first);
      Complete(h, n, t, N, w);
    }
  }

  lemma NeverLost(h: History, n: nat, t: nat, N: nat, u: nat)
    requires HistOK(h, n) && VotesSafe(h) && Chosen(h, n, t, N)
    ensures !Lost(h, t, N, u)
  {
    forall v | v in h.reigns && t < v <= u ensures UpTo(h, t, N) <= h.reigns[v].first { Complete(h, n, t, N, v); }
  }

  // ---------------------------------------------------------------- growth of the history

  ghost predicate GrowsSafely(h: History, h': History) {
    && Grows(h, h')
    && (forall t | t in h.points :: t in h'.points && h.points[t] <= h'.points[t])
    && h.delivered <= h'.delivered
  }

  lemma OwnGrows(h: History, h': History, t: nat, N: nat)
    requires Grows(h, h') && t in h.reigns && N < |h.reigns[t].log|
    ensures Own(h, t, N) == Own(h', t, N)
    ensures t in h'.reigns && N < |h'.reigns[t].log| && UpTo(h', t, N) == UpTo(h, t, N)
  {
    assert ReignGrows(h.reigns[t], h'.reigns[t]);
  }

  lemma LostGrows(h: History, h': History, t: nat, N: nat, u: nat)
    requires Grows(h, h') && Own(h, t, N) && Own(h', t, N) && Lost(h, t, N, u)
    ensures Lost(h', t, N, u)
  {
    OwnGrows(h, h', t, N);
    var v :| v in h.reigns && t < v <= u && !(UpTo(h, t, N) <= h.reigns[v].first);
    assert ReignGrows(h.reigns[v], h'.reigns[v]);
  }

  lemma LostLater(h: History, t: nat, N: nat, u: nat, u': nat)
    requires Own(h, t, N) && Lost(h, t, N, u) && u <= u'
    ensures Lost(h, t, N, u')
  {
    var v :| v in h.reigns && t < v <= u && !(UpTo(h, t, N) <= h.reigns[v].first);
  }

  /** Acknowledgements of s at (t, N) known after the event were known before it. */
  ghost predicate SameAcks(h: History, h': History, s: nat, t: nat) {
    Stamp(s, t) in h'.acked ==> Stamp(s, t) in h.acked && h'.acked[Stamp(s, t)] == h.acked[Stamp(s, t)]
  }

  lemma AckHeldGrows(sv: Server, p: nat, h: History, h': History)
    requires AckHeld(sv, p, h) && Grows(h, h') && AckedOK(h) && forall t :: SameAcks(h, h', p, t)
    ensures AckHeld(sv, p, h')
  {
    forall t, N | Own(h', t, N) && Acked(h', p, t, N)
      ensures UpTo(h', t, N) <= sv.log || Lost(h', t, N, sv.term)
    {
      assert SameAcks(h, h', p, t) && Acked(h, p, t, N);
      OwnGrows(h, h', t, N);
      if Lost(h, t, N, sv.term) { LostGrows(h, h', t, N, sv.term); }
    }
  }

  lemma VoteSafeGrows(g: Grant, h: History, h': History)
    requires Stamp(g.cand, g.term) in h.cands && VoteSafe(h, g) && Grows(h, h') && AckedOK(h)
    requires forall t: nat | t < g.term :: SameAcks(h, h', g.voter, t)
    ensures Stamp(g.cand, g.term) in h'.cands && VoteSafe(h', g)
  {
    forall t: nat, N | t < g.term && Own(h', t, N) && Acked(h', g.voter, t, N)
      ensures UpTo(h', t, N) <= h'.cands[Stamp(g.cand, g.term)] || Lost(h', t, N, g.term - 1)
    {
      assert SameAcks(h, h', g.voter, t) && Acked(h, g.voter, t, N);
      OwnGrows(h, h', t, N);
      if Lost(h, t, N, g.term - 1) { LostGrows(h, h', t, N, g.term - 1); }
    }
  }

  lemma VotesSafeGrow(h: History, h': History)
    requires VotesSafe(h) && Grows(h, h') && AckedOK(h)
    requires forall g | Counts(h', g) && Counts(h, g) :: forall t: nat | t < g.term :: SameAcks(h, h', g.voter, t)
    requires forall g | Counts(h', g) && !Counts(h, g) :: Stamp(g.cand, g.term) in h'.cands && VoteSafe(h', g)
    ensures VotesSafe(h')
  {
    forall g | Counts(h', g) && Counts(h, g) ensures Stamp(g.cand, g.term) in h'.cands && VoteSafe(h', g) {
      VoteSafeGrows(g, h, h');
    }
  }

  lemma VouchesGrows(h: History, h': History, t: nat, p: Log)
    requires GrowsSafely(h, h') && Vouches(h, t, p) && t in h'.points && t in h'.reigns
             && h'.points[t] < |h'.reigns[t].log|
    ensures Vouches(h', t, p)
  {
    assert ReignGrows(h.reigns[t], h'.reigns[t]);
    assert h.reigns[t].log[..h.points[t] + 1] <= h'.reigns[t].log[..h'.points[t] + 1];
  }

  lemma VouchesAfter(h: History, h': History, n: nat, t: nat, p: Log)
    requires GrowsSafely(h, h') && Vouches(h, t, p) && PointsOK(h', n)
    ensures Vouches(h', t, p)
  {
    assert Chosen(h', n, t, h'.points[t]);
    VouchesGrows(h, h', t, p);
  }

  lemma BackedGrows(h: History, h': History, n: nat, p: Log, term: nat, me: nat)
    requires Backed(h, p, term, me) && GrowsSafely(h, h') && PointsOK(h', n)
    ensures Backed(h', p, term, me)
  {
    if |p| > 1 {
      var t: nat :| t <= term && Vouches(h, t, p) && (t == term ==> Acked(h, me, t, |p| - 1));
      VouchesAfter(h, h', n, t, p);
    }
  }

  lemma BystanderSafe(sv: Server, p: nat, h: History, h': History, n: nat)
    requires SafeServer(sv, p, h) && GrowsSafely(h, h') && AckedOK(h) && PointsOK(h', n)
    requires forall t :: SameAcks(h, h', p, t)
    requires sv.role == Leader && sv.term in h'.points ==>
             sv.term in h.points && h'.points[sv.term] == h.points[sv.term]
    ensures SafeServer(sv, p, h')
  {
    AckHeldGrows(sv, p, h, h');
    BackedGrows(h, h', n, sv.log[..sv.commit + 1], sv.term, p);
  }

  lemma SafeAppendGrows(a: AppendArgs, h: History, h': History, n: nat)
    requires SafeAppend(a, h) && GrowsSafely(h, h') && PointsOK(h', n)
    ensures SafeAppend(a, h')
  {
    if a.commit > 0 {
      AppendGrows(a, h, h');
      OwnGrows(h, h', a.term, a.commit);
      var t: nat :| t <= a.term && Vouches(h, t, UpTo(h, a.term, a.commit));
      VouchesAfter(h, h', n, t, UpTo(h, a.term, a.commit));
    }
  }

  lemma DeliveredGrows(h: History, h': History, n: nat)
    requires DeliveredOK(h) && GrowsSafely(h, h') && h'.delivered == h.delivered && PointsOK(h', n)
    ensures DeliveredOK(h')
  {
    forall d | d in h'.delivered
      ensures d.index >= 1 && exists t: nat ::
              Vouches(h', t, []) && d.index <= h'.points[t] && h'.reigns[t].log[d.index] == d.entry
    {
      var t: nat :| Vouches(h, t, []) && d.index <= h.points[t] && h.reigns[t].log[d.index] == d.entry;
      VouchesAfter(h, h', n, t, []);
      assert ReignGrows(h.reigns[t], h'.reigns[t]);
    }
  }

  lemma ChosenGrows(h: History, h': History, n: nat, t: nat, N: nat)
    requires Grows(h, h') && Chosen(h, n, t, N)
    ensures Chosen(h', n, t, N)
  {
    OwnGrows(h, h', t, N);
    Subset(Ackers(h, n, t, N), Ackers(h', n, t, N));
  }

  lemma PointsGrow(h: History, h': History, n: nat)
    requires PointsOK(h, n) && Grows(h, h') && h'.points == h.points
    ensures PointsOK(h', n)
  {
    forall t | t in h'.points ensures Chosen(h', n, t, h'.points[t]) { ChosenGrows(h, h', n, t, h.points[t]); }
  }

  /** The commit points that moved belong to reigns of s. */
  ghost predicate PointsOf(h: History, h': History, s: nat) {
    forall t | t in h'.points ::
        (t in h.points && h'.points[t] == h.points[t]) || (t in h.reigns && h.reigns[t].leader == s)
  }

  /** What an event of s must achieve: history and peer go from safe to safe, other peers are spared. */
  ghost predicate Advances(h: History, h': History, sv': Server, s: nat, n: nat) {
    && GrowsSafely(h, h') && HistSafe(h', n) && SafeServer(sv', s, h')
    && PointsOf(h, h', s) && forall p: nat | p != s :: Spares(h, h', p)
  }

  /** One event: what it does to the acting peer, its messages and the history is safe, so the state is. */
  lemma AssembleSafe(c: Cluster, s: nat, sv': Server, sends: set<Msg>, h': History)
    requires Safe(c) && s < |c.servers|
    requires Advances(c.hist, h', sv', s, |c.servers|)
    requires forall m | m in sends && m.AppendReq? :: SafeAppend(m.args, h')
    ensures Held(Cluster(c.servers[s := sv'], c.net + sends, h'))
  {
    var h, n := c.hist, |c.servers|;
    forall p | 0 <= p < n && p != s ensures SafeServer(c.servers[p], p, h') {
      assert ServerOK(c.servers[p], p, h, n) && SafeServer(c.servers[p], p, h) && Spares(h, h', p);
      BystanderSafe(c.servers[p], p, h, h', n);
    }
    forall m | m in c.net && m.AppendReq? ensures SafeAppend(m.args, h') { SafeAppendGrows(m.args, h, h', n); }
  }

  lemma QuietSafe(c: Cluster, s: nat, sv': Server, sends: set<Msg>)
    requires Safe(c) && s < |c.servers| && SafeServer(sv', s, c.hist)
    requires forall m | m in sends && m.AppendReq? :: SafeAppend(m.args, c.hist)
    ensures GrowsSafely(c.hist, c.hist) && Held(Cluster(c.servers[s := sv'], c.net + sends, c.hist))
  {
    StillSafe(c.hist, s);
    AssembleSafe(c, s, sv', sends, c.hist);
  }

  lemma StillSafe(h: History, s: nat)
    ensures GrowsSafely(h, h) && PointsOf(h, h, s) && forall p: nat :: Spares(h, h, p)
  {
  }

  /** A history that records no new commit point or delivery. */
  lemma HistSafeGrows(h: History, h': History, n: nat)
    requires HistSafe(h, n) && Grows(h, h') && h'.points == h.points && h'.delivered == h.delivered && VotesSafe(h')
    ensures GrowsSafely(h, h') && HistSafe(h', n)
  {
    PointsGrow(h, h', n);
    DeliveredGrows(h, h', n);
  }
}
