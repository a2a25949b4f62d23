/**
 * Acknowledgements.  A follower that told its leader "I hold everything up to N" keeps holding it
 * for the rest of the term exactly when it handles the leader's messages in order.
 */
module RaftAcks {
  import opened RaftTypes
  import opened RaftHandlers
  import opened RaftCluster
  import opened RaftInvariant
  import opened RaftSteps

  /** sv still holds, of its present term's leader's log, all it acknowledged in that term. */
  ghost predicate Honours(sv: Server, me: nat, h: History) {
    Stamp(me, sv.term) in h.acked ==>
      && sv.term in h.reigns
      && var k := h.acked[Stamp(me, sv.term)];
         k < |sv.log| && k < |h.reigns[sv.term].log| && sv.log[..k + 1] == h.reigns[sv.term].log[..k + 1]
  }

  ghost predicate AllHonour(c: Cluster) {
    forall s: nat | s < |c.servers| :: Honours(c.servers[s], s, c.hist)
  }

  /** The acting peer keeps its word, given that history and term move as they do. */
  lemma TermHonours(sv: Server, sv': Server, s: nat, h: History, h': History, n: nat)
    requires ServerOK(sv, s, h, n) && Honours(sv, s, h) && Grows(h, h')
    requires sv'.term >= sv.term && sv.log <= sv'.log
    requires AcksOf(h, h', s)
    ensures Honours(sv', s, h')
  {
    if Stamp(s, sv'.term) in h'.acked { assert ReignGrows(h.reigns[sv.term], h'.reigns[sv.term]); }
  }

  ghost predicate AcksOf(h: History, h': History, s: nat) {
    forall k | k in h'.acked && k.id == s :: k in h.acked && h'.acked[k] == h.acked[k]
  }

  lemma OthersAcks(c: Cluster, e: Event, p: nat)
    requires Enabled(c, e) && p != e.s
    ensures AcksOf(c.hist, Record(c, e), p)
  {
  }

  lemma PlainEvent(c: Cluster, e: Event, sv: Server, sv': Server)
    requires Enabled(c, e) && sv == c.servers[e.s] && sv' == After(c, e) && DiskOK(sv)
    requires e.Timeout? || e.RecvVoteReq? || e.Heartbeat? || e.RecvAppendRep? || e.Take? || e.Deliver? || e.Restart?
    ensures sv'.term >= sv.term && sv.log <= sv'.log && AcksOf(c.hist, Record(c, e), e.s)
  {
  }

  lemma LeaderHonours(sv: Server, s: nat, h: History, n: nat)
    requires sv.role == Leader && LeaderOK(sv, s, h, n) && |sv.log| >= 1
    ensures Honours(sv, s, h)
  {
  }

  lemma WinHonours(c: Cluster, e: Event, sv: Server, sv': Server, h: History, h': History, n: nat)
    requires Inv(c) && Enabled(c, e) && At(c, e.s, sv, h, n) && sv' == After(c, e) && h' == Record(c, e)
    requires Grows(h, h') && Honours(sv, e.s, h) && e.RecvVoteRep? && ServerOK(sv', e.s, h', n)
    ensures Honours(sv', e.s, h')
  {
    assert ServerOK(sv, e.s, h, n);
    if Wins(sv, n, e.voter, e.vargs, e.vreply) { LeaderHonours(sv', e.s, h', n); } else {
      TermHonours(sv, sv', e.s, h, h', n);
    }
  }

  lemma StartHonours(c: Cluster, e: Event, sv: Server, sv': Server, h: History, h': History, n: nat)
    requires Inv(c) && Enabled(c, e) && At(c, e.s, sv, h, n) && sv' == After(c, e) && h' == Record(c, e)
    requires Grows(h, h') && Honours(sv, e.s, h) && e.ClientStart? && ServerOK(sv', e.s, h', n)
    ensures Honours(sv', e.s, h')
  {
    if sv.role == Leader { LeaderHonours(sv', e.s, h', n); }
  }

  lemma RefusalHonours(sv: Server, s: nat, a: AppendArgs, sv': Server, h: History, n: nat)
    requires sv' == OnAppend(sv, a) && ServerOK(sv, s, h, n) && Honours(sv, s, h) && !Accepts(sv, a)
    ensures Honours(sv', s, h)
  {
  }

  /** Accepting a message keeps the word given exactly when the message reaches as far as that word. */
  lemma AcceptHonours(sv: Server, s: nat, a: AppendArgs, sv': Server, k: Stamp, h: History, h': History, n: nat)
    requires AppendOK(a, h) && ServerOK(sv, s, h, n) && HistOK(h, n) && Accepts(sv, a)
    requires k == Stamp(s, a.term) && sv' == OnAppend(sv, a) && h' == WithAck(h, k, a.End())
    ensures Honours(sv', s, h') <==> (k in h.acked ==> a.End() >= h.acked[k])
  {
    Accepted(sv, a, h, n);
    assert sv'.term == a.term && |sv'.log| == a.End() + 1;
  }

  lemma AppendHonours(c: Cluster, e: Event, sv: Server, sv': Server, h: History, h': History, n: nat)
    requires Inv(c) && Enabled(c, e) && At(c, e.s, sv, h, n) && sv' == After(c, e) && h' == Record(c, e)
    requires Honours(sv, e.s, h) && e.RecvAppend?
    ensures Honours(sv', e.s, h') <==> InOrder(c, e)
  {
    var a := e.args;
    assert ServerOK(sv, e.s, h, n) && MsgOK(AppendReq(e.s, a), h, n);
    if Accepts(sv, a) { AcceptHonours(sv, e.s, a, sv', Stamp(e.s, a.term), h, h', n); } else {
      RefusalHonours(sv, e.s, a, sv', h, n);
    }
  }

  lemma ActorHonours(c: Cluster, e: Event, c': Cluster)
    requires Inv(c) && AllHonour(c) && Enabled(c, e) && c' == Step(c, e) && Inv(c') && Grows(c.hist, c'.hist)
    ensures Honours(c'.servers[e.s], e.s, c'.hist) <==> InOrder(c, e)
  {
    var sv, sv', h, h', n := c.servers[e.s], After(c, e), c.hist, Record(c, e), |c.servers|;
    assert ServerOK(c'.servers[e.s], e.s, h', n);
    if e.RecvAppend? { AppendHonours(c, e, sv, sv', h, h', n); }
    else if e.RecvVoteRep? { WinHonours(c, e, sv, sv', h, h', n); }
    else if e.ClientStart? { StartHonours(c, e, sv, sv', h, h', n); }
    else { PlainEvent(c, e, sv, sv'); TermHonours(sv, sv', e.s, h, h', n); }
  }

  /** One event: everybody keeps its word exactly when the event is in order. */
  lemma StepHonours(c: Cluster, e: Event, c': Cluster)
    requires Inv(c) && AllHonour(c) && Enabled(c, e) && c' == Step(c, e)
    ensures AllHonour(c') <==> InOrder(c, e)
  {
    StepKeeps(c, e);
    ActorHonours(c, e, c');
    forall p: nat | p < |c.servers| && p != e.s ensures Honours(c'.servers[p], p, c'.hist) {
      BystanderHonours(c, e, c', p, c.servers[p]);
    }
  }

  lemma BystanderHonours(c: Cluster, e: Event, c': Cluster, p: nat, sv: Server)
    requires Inv(c) && AllHonour(c) && Enabled(c, e) && c' == Step(c, e) && Grows(c.hist, c'.hist)
    requires p < |c.servers| && p != e.s && sv == c.servers[p]
    ensures Honours(sv, p, c'.hist)
  {
    OthersAcks(c, e, p);
    TermHonours(sv, sv, p, c.hist, c'.hist, |c.servers|);
  }
}
