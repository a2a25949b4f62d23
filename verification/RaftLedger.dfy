/**
 * The committed log.  Under the in-order hypothesis a Raft cluster behaves like one log that only
 * grows, from which each peer delivers entries 1, 2, 3, ... and starts over after a crash.
 */
module RaftLedger {
  import opened RaftTypes
  import opened RaftHandlers
  import opened RaftCluster
  import opened RaftInvariant
  import opened RaftSteps
  import opened RaftSafety
  import opened RaftSafetySteps
  import RL = ReplicatedLog

  datatype LogView = LogView(log: Log, applied: seq<nat>)

  // ---------------------------------------------------------------- the ledger

  ghost function MaxOf(s: set<nat>): (t: nat)
    requires s != {}
    ensures t in s && forall u | u in s :: u <= t
  {
    var x :| x in s;
    if s == {x} then x
    else
      var t := MaxOf(s - {x});
      assert forall u | u in s :: u == x || u in s - {x};
      if t < x then x else t
  }

  /** Everything any leader ever committed: the commit point of the latest term that has one. */
  ghost function Ledger(h: History, n: nat): Log
    requires PointsOK(h, n)
  {
    if h.points == map[] then [Sentinel]
    else
      var t := MaxOf(h.points.Keys);
      assert Chosen(h, n, t, h.points[t]);
      UpTo(h, t, h.points[t])
  }

  /** l extends whatever any leader vouches for. */
  ghost predicate Covers(h: History, l: Log) {
    && |l| >= 1 && l[0] == Sentinel
    && forall t | t in h.points && t in h.reigns && h.points[t] < |h.reigns[t].log| :: UpTo(h, t, h.points[t]) <= l
  }

  lemma LaterPointCovers(h: History, n: nat, t: nat, m: nat, l: Log)
    requires HistOK(h, n) && VotesSafe(h) && t in h.points && m in h.points && t < m
    requires Chosen(h, n, m, h.points[m]) && Chosen(h, n, t, h.points[t]) && l == UpTo(h, m, h.points[m])
    ensures UpTo(h, t, h.points[t]) <= l
  {
    var r := h.reigns[m];
    assert UpTo(h, t, h.points[t]) <= r.first by { Complete(h, n, t, h.points[t], m); }
    assert r.first <= l by { assert ReignLogOK(m, r, h); }
  }

  lemma LastPointCovers(h: History, n: nat, m: nat, l: Log)
    requires HistOK(h, n) && VotesSafe(h) && PointsOK(h, n) && m in h.points && forall t | t in h.points :: t <= m
    requires Chosen(h, n, m, h.points[m]) && l == UpTo(h, m, h.points[m])
    ensures Covers(h, l)
  {
    assert l[0] == Sentinel by { assert ReignLogOK(m, h.reigns[m], h); }
    forall t | t in h.points ensures Chosen(h, n, t, h.points[t]) && UpTo(h, t, h.points[t]) <= l {
      assert Chosen(h, n, t, h.points[t]);
      if t < m { LaterPointCovers(h, n, t, m, l); }
    }
  }

  lemma LedgerCovers(h: History, n: nat, l: Log)
    requires HistOK(h, n) && VotesSafe(h) && PointsOK(h, n) && l == Ledger(h, n)
    ensures Covers(h, l)
  {
    if h.points != map[] {
      var m := MaxOf(h.points.Keys);
      assert Chosen(h, n, m, h.points[m]) && l == UpTo(h, m, h.points[m]);
      LastPointCovers(h, n, m, l);
    }
  }

  lemma LedgerVouched(h: History, n: nat, l: Log) returns (t: nat)
    requires PointsOK(h, n) && l == Ledger(h, n) && l != [Sentinel]
    ensures Vouches(h, t, l) && Chosen(h, n, t, h.points[t])
  {
    t := MaxOf(h.points.Keys);
    assert Chosen(h, n, t, h.points[t]);
  }

  lemma LedgerGrows(h: History, h': History, n: nat, l: Log, l': Log)
    requires PointsOK(h, n) && PointsOK(h', n) && GrowsSafely(h, h')
    requires l == Ledger(h, n) && Covers(h, l) && Covers(h', l')
    ensures l <= l'
  {
    if l != [Sentinel] {
      var t := LedgerVouched(h, n, l);
      VouchesAfter(h, h', n, t, l);
    }
  }

  /** What a peer has committed is a prefix of the ledger. */
  lemma CommittedInLedger(sv: Server, s: nat, p: Log, l: Log, h: History, n: nat)
    requires ServerOK(sv, s, h, n) && CommitOK(sv, s, h) && Covers(h, l) && p == sv.log[..sv.commit + 1]
    ensures p <= l
  {
    assert p[0] == Sentinel by { assert sv.log[0] == sv.disk.log[0]; }
    BackedInLedger(h, p, sv.term, s, l);
  }

  lemma BackedInLedger(h: History, p: Log, u: nat, s: nat, l: Log)
    requires Backed(h, p, u, s) && |p| >= 1 && p[0] == Sentinel && Covers(h, l)
    ensures p <= l
  {
    if |p| > 1 {
      var t: nat :| t <= u && Vouches(h, t, p);
    }
  }

  /** What any peer ever delivered is in the ledger, at the index it was delivered for. */
  lemma DeliveredInLedger(d: Delivery, l: Log, h: History)
    requires DeliveredOK(h) && d in h.delivered && Covers(h, l)
    ensures 1 <= d.index < |l| && l[d.index] == d.entry
  {
    var t: nat :| Vouches(h, t, []) && d.index <= h.points[t] && h.reigns[t].log[d.index] == d.entry;
    assert UpTo(h, t, h.points[t])[d.index] == d.entry;
  }

  /** No command id occurs twice in the ledger. */
  lemma LedgerIdsUnique(h: History, n: nat, l: Log, i: nat, j: nat)
    requires HistOK(h, n) && PointsOK(h, n) && l == Ledger(h, n) && 1 <= i < j < |l|
    ensures l[i].cmd.Command? && l[j].cmd.Command? && l[i].cmd.id != l[j].cmd.id
  {
    var t := LedgerVouched(h, n, l);
    assert Sourced(l, h) by {
      assert ReignLogOK(t, h.reigns[t], h);
      SourcedPrefix(h.reigns[t].log, l, h);
    }
    InReign(l, h, n, i);
    InReign(l, h, n, j);
    assert ReignLogOK(l[i].term, h.reigns[l[i].term], h) && ReignLogOK(l[j].term, h.reigns[l[j].term], h);
  }

  // ---------------------------------------------------------------- refinement

  ghost function View(c: Cluster): LogView
    requires PointsOK(c.hist, |c.servers|)
  {
    LogView(Ledger(c.hist, |c.servers|), seq(|c.servers|, s requires 0 <= s < |c.servers| => c.servers[s].applied))
  }

  function Commands(l: Log): seq<Command> { seq(Max(0, |l| - 1), i requires 0 <= i < |l| - 1 => l[i + 1].cmd) }

  /** The cluster as the service above it sees it. */
  ghost function SharedOf(v: LogView): RL.Shared { RL.Shared(Commands(v.log), v.applied) }

  /** What an event does to that view, besides perhaps letting the log grow. */
  function MoveOf(c: Cluster, e: Event): RL.Move
    requires Enabled(c, e)
  {
    match e
    case Deliver(s) => RL.Take(s, c.servers[s].batch[0].cmd)
    case Restart(s) => RL.Forget(s)
    case _ => RL.Grow
  }

  lemma OthersKeepApplied(c: Cluster, e: Event)
    requires Enabled(c, e) && !e.Deliver? && !e.Restart?
    ensures After(c, e).applied == c.servers[e.s].applied
  {
  }

  lemma SamePoints(c: Cluster, e: Event)
    requires Enabled(c, e) && (e.Deliver? || e.Restart?)
    ensures Record(c, e).points == c.hist.points && Record(c, e).reigns == c.hist.reigns
  {
  }

  lemma SameLedger(h: History, h': History, n: nat)
    requires PointsOK(h, n) && PointsOK(h', n) && h'.points == h.points && h'.reigns == h.reigns
    ensures Ledger(h', n) == Ledger(h, n)
  {
  }

  lemma DeliverApplies(sv: Server, s: nat, p: Log, l: Log, h: History, n: nat)
    requires ServerOK(sv, s, h, n) && SafeServer(sv, s, h) && sv.batch != [] && Covers(h, l)
             && p == sv.log[..sv.commit + 1]
    ensures sv.applied + 1 < |l| && l[sv.applied + 1] == sv.batch[0]
  {
    CommittedInLedger(sv, s, p, l, h, n);
    assert p[sv.applied + 1] == sv.log[sv.applied + 1] == sv.batch[0];
  }

  lemma BothLedgers(h: History, h': History, n: nat, l: Log, l': Log)
    requires HistOK(h, n) && HistSafe(h, n) && HistOK(h', n) && HistSafe(h', n) && GrowsSafely(h, h')
    requires l == Ledger(h, n) && l' == Ledger(h', n)
    ensures Covers(h, l) && l <= l'
  {
    LedgerCovers(h, n, l);
    LedgerCovers(h', n, l');
    LedgerGrows(h, h', n, l, l');
  }

  lemma ViewAt(c: Cluster, e: Event, c': Cluster)
    requires Enabled(c, e) && c' == Step(c, e) && PointsOK(c.hist, |c.servers|) && PointsOK(c'.hist, |c.servers|)
    ensures View(c').applied == View(c).applied[e.s := After(c, e).applied]
  {
  }

  lemma Conclude(c: Cluster, e: Event, sv: Server, v: LogView, v': LogView)
    requires Enabled(c, e) && sv == c.servers[e.s] && |v.applied| == |c.servers| && v.applied[e.s] == sv.applied
    requires v'.applied == v.applied[e.s := After(c, e).applied] && v.log <= v'.log
    requires e.Deliver? || e.Restart? ==> v'.log == v.log
    requires e.Deliver? ==> sv.applied + 1 < |v.log| && v.log[sv.applied + 1] == sv.batch[0]
    ensures RL.Moves(SharedOf(v), SharedOf(v'), MoveOf(c, e))
  {
    if !e.Deliver? && !e.Restart? {
      OthersKeepApplied(c, e);
      CommandsGrow(v.log, v'.log);
    }
  }

  lemma CommandsGrow(l: Log, l': Log)
    requires l <= l'
    ensures Commands(l) <= Commands(l')
  {
  }

  /** What the invariant says about the ledgers before and after an event. */
  ghost predicate LedgersMove(c: Cluster, e: Event, c': Cluster) {
    && e.s < |c.servers| == |c'.servers| && PointsOK(c.hist, |c.servers|) && PointsOK(c'.hist, |c.servers|)
    && Ledger(c.hist, |c.servers|) <= Ledger(c'.hist, |c.servers|)
    && (e.Deliver? ==> Heads(c.servers[e.s], Ledger(c.hist, |c.servers|)))
  }

  /** The next entry the peer will deliver is the next one of l. */
  ghost predicate Heads(sv: Server, l: Log) {
    sv.batch != [] && sv.applied + 1 < |l| && l[sv.applied + 1] == sv.batch[0]
  }

  lemma ViewStep(c: Cluster, e: Event, c': Cluster)
    requires Enabled(c, e) && c' == Step(c, e) && LedgersMove(c, e, c')
    ensures RL.Moves(SharedOf(View(c)), SharedOf(View(c')), MoveOf(c, e))
  {
    ViewMoves(c, e, c', View(c), View(c'));
  }

  lemma ViewMoves(c: Cluster, e: Event, c': Cluster, v: LogView, v': LogView)
    requires Enabled(c, e) && c' == Step(c, e) && LedgersMove(c, e, c') && v == View(c) && v' == View(c')
    ensures RL.Moves(SharedOf(v), SharedOf(v'), MoveOf(c, e))
  {
    assert v'.applied == v.applied[e.s := After(c, e).applied] by { ViewAt(c, e, c'); }
    assert e.Deliver? || e.Restart? ==> v'.log == v.log by {
      if e.Deliver? || e.Restart? { QuietLedger(c, e, c', |c.servers|); }
    }
    Conclude(c, e, c.servers[e.s], v, v');
  }

  lemma LedgersMoveSafely(c: Cluster, e: Event, c': Cluster)
    requires Safe(c) && Safe(c') && GrowsSafely(c.hist, c'.hist) && e.s < |c.servers| == |c'.servers|
    requires e.Deliver? ==> c.servers[e.s].batch != []
    ensures LedgersMove(c, e, c')
  {
    var n := |c.servers|;
    var l, l' := Ledger(c.hist, n), Ledger(c'.hist, n);
    assert l <= l' by { LedgersOf(c, c', n, l, l'); }
    if e.Deliver? { NextHeads(c, e.s, c.servers[e.s], l); }
  }

  lemma NextHeads(c: Cluster, s: nat, sv: Server, l: Log)
    requires Safe(c) && s < |c.servers| && sv == c.servers[s] && sv.batch != [] && l == Ledger(c.hist, |c.servers|)
    ensures Heads(sv, l)
  {
    DeliverStep(c, s, sv, l);
  }

  lemma LedgersOf(c: Cluster, c': Cluster, n: nat, l: Log, l': Log)
    requires Safe(c) && Safe(c') && GrowsSafely(c.hist, c'.hist) && |c.servers| == |c'.servers| == n
    requires l == Ledger(c.hist, n) && l' == Ledger(c'.hist, n)
    ensures l <= l'
  {
    BothLedgers(c.hist, c'.hist, n, l, l');
  }

  lemma QuietLedger(c: Cluster, e: Event, c': Cluster, n: nat)
    requires Enabled(c, e) && c' == Step(c, e) && (e.Deliver? || e.Restart?) && PointsOK(c.hist, n)
             && PointsOK(c'.hist, n)
    ensures Ledger(c'.hist, n) == Ledger(c.hist, n)
  {
    SamePoints(c, e);
    SameLedger(c.hist, c'.hist, n);
  }

  /** Every in-order event of a safe cluster is a step of the abstract replicated log. */
  lemma StepRefines(c: Cluster, e: Event)
    requires Safe(c) && Enabled(c, e) && InOrder(c, e)
    ensures Safe(Step(c, e)) && RL.Moves(SharedOf(View(c)), SharedOf(View(Step(c, e))), MoveOf(c, e))
  {
    StepSafe(c, e);
    LedgersMoveSafely(c, e, Step(c, e));
    ViewStep(c, e, Step(c, e));
  }

  lemma DeliverStep(c: Cluster, s: nat, sv: Server, l: Log)
    requires Safe(c) && s < |c.servers| && sv == c.servers[s] && sv.batch != [] && l == Ledger(c.hist, |c.servers|)
    ensures sv.applied + 1 < |l| && l[sv.applied + 1] == sv.batch[0]
  {
    LedgerCovers(c.hist, |c.servers|, l);
    assert SafeServer(sv, s, c.hist);
    DeliverApplies(sv, s, sv.log[..sv.commit + 1], l, c.hist, |c.servers|);
  }
}
