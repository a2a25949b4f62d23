/**
 * The fast-backup conversation of one leader with one follower: send, be refused, back up, send
 * again.  It ends in a match after at most as many refusals as the follower's log has terms.
 */
module RaftBackup {
  import opened RaftTypes
  import opened RaftHandlers
  import opened RaftCluster
  import opened RaftInvariant
  import opened RaftSteps

  /** The AppendEntries the leader of t sends for nextIndex prev + 1. */
  ghost function Probe(h: History, t: nat, prev: nat): AppendArgs
    requires t in h.reigns && prev < |h.reigns[t].log|
  {
    var r := h.reigns[t];
    AppendArgs(t, r.leader, prev, r.log[prev].term, r.log[prev + 1..], 0)
  }

  lemma ProbeOK(h: History, n: nat, t: nat, prev: nat)
    requires HistOK(h, n) && t in h.reigns && prev < |h.reigns[t].log|
    ensures AppendOK(Probe(h, t, prev), h)
  {
    assert ReignLogOK(t, h.reigns[t], h);
  }

  /** PrevLogIndex of the retry after a follower with log f refused the probe at prev. */
  ghost function Retreat(h: History, t: nat, f: Server, prev: nat): int
    requires t in h.reigns && prev < |h.reigns[t].log|
  {
    BackUp(h.reigns[t].log, AppendAnswer(f, Probe(h, t, prev))) - 1
  }

  /** Either way the leader resumes just before the follower's offending stretch of entries. */
  lemma RetreatIs(h: History, n: nat, t: nat, f: Server, prev: nat)
    requires HistOK(h, n) && t in h.reigns && prev < |h.reigns[t].log| && Sourced(f.log, h) && f.term <= t
    requires !Accepts(f, Probe(h, t, prev))
    ensures 0 <= Retreat(h, t, f, prev) < prev
    ensures Retreat(h, t, f, prev) == if prev >= |f.log| then LastIndex(f.log) else RunStart(f.log, prev) - 1
  {
    var a := Probe(h, t, prev);
    var r := AppendAnswer(f, a);
    ProbeOK(h, n, t, prev);
    if prev < |f.log| {
      RefusalOK(f.log, a, f.term, RunStart(f.log, prev), f.log[prev].term, h, n);
    }
    assert Sourced(h.reigns[t].log, h) by { assert ReignLogOK(t, h.reigns[t], h); }
    BackUpExact(h.reigns[t].log, a, r, h, n);
  }

  /** How often the follower refuses before it accepts, its log staying as it is. */
  ghost function Refusals(h: History, n: nat, t: nat, f: Server, prev: nat): nat
    requires HistOK(h, n) && t in h.reigns && prev < |h.reigns[t].log| && Sourced(f.log, h) && f.term <= t
    decreases prev
  {
    if Accepts(f, Probe(h, t, prev)) then 0
    else
      RetreatIs(h, n, t, f, prev);
      1 + Refusals(h, n, t, f, Retreat(h, t, f, prev))
  }

  ghost function TermsOf(l: Log): set<nat> { set i | 0 <= i < |l| :: l[i].term }

  lemma TermsAbove(l: Log, prev: nat, k: nat, h: History, n: nat)
    requires HistOK(h, n) && Sourced(l, h) && prev < |l| && k == RunStart(l, prev) && k > 0
    ensures TermsOf(l[..k]) + {l[prev].term} <= TermsOf(l[..prev + 1]) && l[prev].term !in TermsOf(l[..k])
  {
    RunStartIs(l, prev);
    assert l[..prev + 1][prev].term == l[prev].term;
    forall i | 0 <= i < k ensures l[i].term in TermsOf(l[..prev + 1]) && l[i].term != l[prev].term {
      assert l[..prev + 1][i] == l[i];
      TermsOrdered(l, h, n, i, k - 1);
      TermsOrdered(l, h, n, k - 1, prev);
    }
    forall x | x in TermsOf(l[..k]) ensures x in TermsOf(l[..prev + 1]) && x != l[prev].term {
      var i :| 0 <= i < |l[..k]| && l[..k][i].term == x;
      assert l[i].term == x;
    }
  }

  lemma SomeTerm(l: Log)
    requires |l| >= 1
    ensures |TermsOf(l)| >= 1
  {
    assert l[0].term in TermsOf(l);
    Subset({l[0].term}, TermsOf(l));
  }

  lemma OneTermMore(l: Log, prev: nat, k: nat, h: History, n: nat)
    requires HistOK(h, n) && Sourced(l, h) && prev < |l| && k == RunStart(l, prev) && k > 0
    ensures |TermsOf(l[..k])| + 1 <= |TermsOf(l[..prev + 1])|
  {
    TermsAbove(l, prev, k, h, n);
    Subset(TermsOf(l[..k]) + {l[prev].term}, TermsOf(l[..prev + 1]));
  }

  /** Within the follower's log each refusal uses up one of its terms, and the sentinel's is never refused. */
  lemma {:induction false} RefusalsInside(h: History, n: nat, t: nat, f: Server, prev: nat)
    requires HistOK(h, n) && t in h.reigns && prev < |h.reigns[t].log| && Sourced(f.log, h) && f.term <= t
             && prev < |f.log|
    ensures Refusals(h, n, t, f, prev) + 1 <= |TermsOf(f.log[..prev + 1])|
    decreases prev
  {
    if Accepts(f, Probe(h, t, prev)) {
      SomeTerm(f.log[..prev + 1]);
    } else {
      RetreatIs(h, n, t, f, prev);
      var k := RunStart(f.log, prev);
      RefusalsInside(h, n, t, f, k - 1);
      OneTermMore(f.log, prev, k, h, n);
    }
  }

  /** Fast backup terminates: at most one refusal per distinct term in the follower's log, sentinel included. */
  lemma BackupTerminates(h: History, n: nat, t: nat, f: Server, prev: nat)
    requires HistOK(h, n) && t in h.reigns && prev < |h.reigns[t].log| && Sourced(f.log, h) && f.term <= t
    ensures Refusals(h, n, t, f, prev) <= |TermsOf(f.log)|
  {
    if prev < |f.log| {
      RefusalsInside(h, n, t, f, prev);
      TermsOfPrefix(f.log, prev + 1);
      Subset(TermsOf(f.log[..prev + 1]), TermsOf(f.log));
    } else if !Accepts(f, Probe(h, t, prev)) {
      RetreatIs(h, n, t, f, prev);
      RefusalsInside(h, n, t, f, LastIndex(f.log));
      assert f.log[..LastIndex(f.log) + 1] == f.log;
    }
  }

  lemma TermsOfPrefix(l: Log, k: nat)
    requires k <= |l|
    ensures TermsOf(l[..k]) <= TermsOf(l)
  {
    forall x | x in TermsOf(l[..k]) ensures x in TermsOf(l) {
      var i :| 0 <= i < |l[..k]| && l[..k][i].term == x;
      assert l[i].term == x;
    }
  }
}
