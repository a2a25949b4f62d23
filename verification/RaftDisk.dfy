/**
 * Memory and disk.  A truncation without new entries is not written, so the log on disk may be longer than
 * the one in memory; the two are equal throughout exactly when no accepted message only truncates.
 */
module RaftDisk {
  import opened RaftTypes
  import opened RaftHandlers
  import opened RaftCluster

  /** Every peer has on disk exactly the log it has in memory. */
  ghost predicate AllWritten(c: Cluster) {
    forall s: nat | s < |c.servers| :: c.servers[s].disk.log == c.servers[s].log
  }

  /** The event accepts an AppendEntries that drops entries and brings none. */
  predicate OnlyTruncates(c: Cluster, e: Event) {
    && e.RecvAppend? && e.s < |c.servers| && Accepts(c.servers[e.s], e.args)
    && e.args.entries == [] && e.args.prev + 1 < |c.servers[e.s].log|
  }

  lemma AppendWritten(sv: Server, a: AppendArgs, sv': Server)
    requires sv.disk.log == sv.log && sv' == OnAppend(sv, a)
    ensures sv'.disk.log == sv'.log <==> !(Accepts(sv, a) && a.entries == [] && a.prev + 1 < |sv.log|)
  {
    if Accepts(sv, a) && a.entries == [] && a.prev + 1 == |sv.log| { assert sv.log[..a.prev + 1] == sv.log; }
  }

  lemma OthersWritten(c: Cluster, e: Event)
    requires Enabled(c, e) && !e.RecvAppend? && c.servers[e.s].disk.log == c.servers[e.s].log
    ensures After(c, e).disk.log == After(c, e).log
  {
  }

  /** One event: disk and memory stay equal exactly when the event does not only truncate. */
  lemma StepWritten(c: Cluster, e: Event, c': Cluster)
    requires AllWritten(c) && Enabled(c, e) && c' == Step(c, e)
    ensures AllWritten(c') <==> !OnlyTruncates(c, e)
  {
    var sv, sv' := c.servers[e.s], After(c, e);
    if e.RecvAppend? { AppendWritten(sv, e.args, sv'); } else { OthersWritten(c, e); }
    assert c'.servers[e.s] == sv';
    assert forall s: nat | s < |c.servers| && s != e.s :: c'.servers[s] == c.servers[s];
  }
}
