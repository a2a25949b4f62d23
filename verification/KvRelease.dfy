/**
 * The sync branch of DoOp run in one go, as the KVServer class does it, against the machine, which takes it step by
 * step: both end with the same fields and reply, or both wait for the same Get; and a sync releases only once.
 */
module KvRelease {
  import opened Options
  import opened RaftTypes
  import opened KvStore
  import opened Submits
  import opened AlrMachine
  import opened AlrInvariant
  import opened AlrSteps
  import opened KvServer

  // ---------------------------------------------------------------- the loop, on one replica

  /** The replica can go through k rounds of the dequeue loop. */
  ghost predicate Answerable(rep: Replica, k: nat)
    decreases k
  {
    k == 0 || (&& rep.work.Draining? && rep.work.left > 0 && rep.queue != [] && rep.queue[0].id in rep.chans
               && Answerable(Dequeued(rep), k - 1))
  }

  ghost function DequeuedBy(rep: Replica, k: nat): Replica
    requires Answerable(rep, k)
    decreases k
  {
    if k == 0 then rep else DequeuedBy(Dequeued(rep), k - 1)
  }

  /** What k rounds leave alone, and what they leave to do. */
  lemma {:induction false} DequeuedIs(rep: Replica, k: nat)
    requires Answerable(rep, k) && rep.work.Draining?
    ensures k <= rep.work.left && k <= |rep.queue|
    ensures var rep' := DequeuedBy(rep, k);
            && rep'.work == Draining(rep.work.left - k, rep.work.limit) && rep'.queue == rep.queue[k..]
            && rep'.waits == rep.waits && rep'.applied == rep.applied
    decreases k
  {
    if k > 0 {
      DequeuedIs(Dequeued(rep), k - 1);
      assert rep.queue[1..][k - 1..] == rep.queue[k..];
    }
  }

  /** The first k Gets of the queue have their channels, each its own. */
  ghost predicate Queued(rep: Replica, k: nat) {
    && k <= |rep.queue| && (forall j | 0 <= j < k :: rep.queue[j].id in rep.chans)
    && (forall i, j | 0 <= i < j < k :: rep.queue[i].id != rep.queue[j].id)
  }

  lemma {:induction false} QueuedIsAnswerable(rep: Replica, k: nat)
    requires rep.work.Draining? && k <= rep.work.left && Queued(rep, k)
    ensures Answerable(rep, k)
    decreases k
  {
    if k > 0 {
      assert forall j | 0 <= j < |rep.queue| - 1 :: Dequeued(rep).queue[j] == rep.queue[j + 1];
      QueuedIsAnswerable(Dequeued(rep), k - 1);
    }
  }

  /** The loop of the class does to the fields what the machine's rounds do to the replica. */
  lemma {:induction false} LoopFits(v: Fields, rep: Replica, k: nat)
    requires Fits(v, rep) && Answerable(rep, k)
    ensures Drain(v, k).0 == Replied(PutReply(OK)) && Fits(Drain(v, k).1, DequeuedBy(rep, k))
    decreases k
  {
    if k > 0 {
      ServeFits(v, rep);
      LoopFits(ServeFirst(v).1, Dequeued(rep), k - 1);
    }
  }

  lemma {:induction false} DrainSplits(v: Fields, k: nat, count: nat)
    requires k <= count && Drain(v, k).0.Replied?
    ensures Drain(v, count) == Drain(Drain(v, k).1, count - k)
    decreases k
  {
    if k > 0 { DrainSplits(ServeFirst(v).1, k - 1, count - 1); }
  }

  lemma LoopWaits(v: Fields, rep: Replica, k: nat, count: nat)
    requires Fits(v, rep) && rep.work.Draining? && Answerable(rep, k) && k == |rep.queue| < count
    ensures Drain(v, count) == (Blocked, Drain(v, k).1) && Fits(Drain(v, k).1, DequeuedBy(rep, k))
  {
    LoopFits(v, rep, k);
    DequeuedIs(rep, k);
    DrainSplits(v, k, count);
    assert Drain(v, k).1.queue == [];
  }

  // ---------------------------------------------------------------- the loop, in the machine

  /** The machine goes from s to s' by these events. */
  ghost predicate Reaches(s: State, events: seq<Event>, s': State)
    decreases |events|
  {
    if events == [] then s' == s else Enabled(s, events[0]) && Reaches(Next(s, events[0]), events[1..], s')
  }

  lemma ReachesFirst(s: State, e: Event, t: State, events: seq<Event>, u: State)
    requires Enabled(s, e) && t == Next(s, e) && Reaches(t, events, u)
    ensures Reaches(s, [e] + events, u)
  {
    assert ([e] + events)[1..] == events;
  }

  /** k rounds of the dequeue loop and, if it is done, its end. */
  function Rounds(r: nat, k: nat, done: bool): seq<Event> {
    seq(k, _ => Dequeue(r)) + if done then [EndRelease(r)] else []
  }

  lemma EndOnly(s: State, r: nat, rep: Replica, s': State)
    requires Enabled(s, EndRelease(r)) && rep == s.replicas[r] && s' == Next(s, EndRelease(r))
    requires s.log[rep.applied].Command?
    ensures Reaches(s, Rounds(r, 0, true), s')
    ensures |s'.replicas| == |s.replicas| && s'.replicas[r] == Closed(rep, s.log[rep.applied].id)
  {
    assert Rounds(r, 0, true) == [EndRelease(r)] + [];
    ReachesFirst(s, EndRelease(r), s', [], s');
  }

  /** What the machine reaches by k rounds from a replica in the loop, and by its end if nothing is left. */
  ghost predicate Loops(s: State, r: nat, rep: Replica, k: nat, id: nat, s': State)
    requires rep.work.Draining? && k <= rep.work.left
  {
    && Reaches(s, Rounds(r, k, k == rep.work.left), s') && Answerable(rep, k) && r < |s'.replicas| == |s.replicas|
    && s'.replicas[r] == if k < rep.work.left then DequeuedBy(rep, k) else Closed(DequeuedBy(rep, k), id)
  }

  lemma Round(s: State, r: nat, rep: Replica, s': State)
    requires Enabled(s, Dequeue(r)) && rep == s.replicas[r] && s' == Next(s, Dequeue(r))
    ensures |s'.replicas| == |s.replicas| && s'.log == s.log && s'.replicas[r] == Dequeued(rep)
  {
  }

  lemma OneMoreRound(s: State, r: nat, rep: Replica, k: nat, id: nat, t: State, s': State)
    requires Enabled(s, Dequeue(r)) && t == Next(s, Dequeue(r)) && rep == s.replicas[r] && 0 < k <= rep.work.left
    requires |t.replicas| == |s.replicas| && Loops(t, r, Dequeued(rep), k - 1, id, s')
    ensures Loops(s, r, rep, k, id, s')
  {
    var done := k == rep.work.left;
    ReachesFirst(s, Dequeue(r), t, Rounds(r, k - 1, done), s');
    assert Rounds(r, k, done) == [Dequeue(r)] + Rounds(r, k - 1, done);
  }

  lemma NoMoreRounds(s: State, r: nat, rep: Replica, id: nat) returns (s': State)
    requires r < |s.replicas| && rep == s.replicas[r] && rep.work.Draining? && rep.applied < |s.log|
    requires s.log[rep.applied].Command? && s.log[rep.applied].id == id
    ensures Loops(s, r, rep, 0, id, s')
  {
    if rep.work.left > 0 {
      s' := s;
      assert Rounds(r, 0, false) == [];
    } else {
      s' := Next(s, EndRelease(r));
      EndOnly(s, r, rep, s');
    }
  }

  /** The machine can go on with the loop, and can end it when nothing is left. */
  lemma {:induction false} MachineLoops(s: State, r: nat, rep: Replica, k: nat, cmd: Command) returns (s': State)
    requires r < |s.replicas| && rep == s.replicas[r] && rep.work.Draining? && k <= rep.work.left && Answerable(rep, k)
    requires rep.applied < |s.log| && cmd == s.log[rep.applied] && cmd.Command?
    ensures Loops(s, r, rep, k, cmd.id, s')
    decreases k
  {
    if k == 0 {
      s' := NoMoreRounds(s, r, rep, cmd.id);
    } else {
      var t := Next(s, Dequeue(r));
      Round(s, r, rep, t);
      s' := MachineLoops(t, r, Dequeued(rep), k - 1, cmd);
      OneMoreRound(s, r, rep, k, cmd.id, t, s');
    }
  }

  // ---------------------------------------------------------------- the whole branch

  lemma Opens(s: State, r: nat, nu: nat, rep: Replica, req: Request, s': State)
    requires Enabled(s, Apply(r, nu)) && rep == s.replicas[r] && s' == Next(s, Apply(r, nu))
    requires s.log[rep.applied].Command? && req == s.log[rep.applied].req && Releases(rep, r, req)
    ensures |s'.replicas| == |s.replicas| && s'.log == s.log
    ensures s'.replicas[r] == Opened(rep, req.count, LimitOf(s, req.nonce), nu)
  {
  }

  lemma Lowers(s: State, r: nat, rep: Replica, s': State)
    requires Enabled(s, Subtract(r)) && rep == s.replicas[r] && s' == Next(s, Subtract(r))
    ensures |s'.replicas| == |s.replicas| && s'.log == s.log && s'.replicas[r] == Subtracted(rep)
  {
  }

  /** The replica when the loop begins. */
  function Begun(s: State, rep: Replica, req: Request, nu: nat): Replica
    requires req.Sync?
  {
    Subtracted(Opened(rep, req.count, LimitOf(s, req.nonce), nu))
  }

  lemma BegunIsReady(v: Fields, s: State, r: nat, rep: Replica, req: Request, nu: nat, k: nat)
    requires Inv(s) && r < |s.replicas| && rep == s.replicas[r] && Fits(v, rep) && req.Sync?
    requires k <= req.count && k <= |rep.queue|
    ensures Fits(Lower(Renew(v, nu), req.count), Begun(s, rep, req, nu)) && Answerable(Begun(s, rep, req, nu), k)
  {
    assert GetsOK(rep, s.calls) by { assert ReplicaOK(rep, r, s); }
    assert forall j | 0 <= j < k :: GetOK(rep.queue[j], rep, s.calls);
    QueuedIsAnswerable(Begun(s, rep, req, nu), k);
  }

  /** The events of a release that answers k Gets. */
  function ReleaseOf(r: nat, nu: nat, k: nat, done: bool): seq<Event> {
    [Apply(r, nu)] + ([Subtract(r)] + Rounds(r, k, done))
  }

  lemma MachineReleases(s: State, r: nat, nu: nat, rep: Replica, cmd: Command, mid: Replica, k: nat)
      returns (s': State)
    requires Enabled(s, Apply(r, nu)) && rep == s.replicas[r] && cmd == s.log[rep.applied] && cmd.Command?
    requires Releases(rep, r, cmd.req) && mid == Begun(s, rep, cmd.req, nu) && k <= mid.work.left && Answerable(mid, k)
    ensures Reaches(s, ReleaseOf(r, nu, k, k == cmd.req.count), s') && |s'.replicas| == |s.replicas|
    ensures s'.replicas[r] == if k < cmd.req.count then DequeuedBy(mid, k) else Closed(DequeuedBy(mid, k), cmd.id)
  {
    var t := Next(s, Apply(r, nu));
    Opens(s, r, nu, rep, cmd.req, t);
    var u := Next(t, Subtract(r));
    Lowers(t, r, t.replicas[r], u);
    s' := MachineLoops(u, r, mid, k, cmd);
    assert Loops(u, r, mid, k, cmd.id, s');
    var rounds := Rounds(r, k, k == cmd.req.count);
    ReachesFirst(t, Subtract(r), u, rounds, s');
    ReachesFirst(s, Apply(r, nu), t, [Subtract(r)] + rounds, s');
  }

  /**
   * DoOp on a sync that releases, in one go: with enough Gets in the queue it replies OK, and the fields are those of
   * the replica after the machine's steps, whose Submit gets that reply.
   */
  lemma SyncIsRelease(v: Fields, s: State, r: nat, nu: nat, rep: Replica, cmd: Command) returns (s': State)
    requires Inv(s) && Enabled(s, Apply(r, nu)) && rep == s.replicas[r] && Fits(v, rep)
    requires cmd == s.log[rep.applied] && cmd.Command? && Releases(rep, r, cmd.req) && cmd.req.count <= |rep.queue|
    ensures Reaches(s, ReleaseOf(r, nu, cmd.req.count, true), s') && |s'.replicas| == |s.replicas|
    ensures var done, rep' := Perform(v, r, cmd.req, nu), s'.replicas[r];
            && done.0 == Replied(PutReply(OK)) && Fits(done.1, rep') && rep'.queue == rep.queue[cmd.req.count..]
            && rep'.applied == rep.applied + 1 && rep'.waits == Post(rep.waits, cmd.id, Value(done.0.reply))
  {
    var mid := Begun(s, rep, cmd.req, nu);
    BegunIsReady(v, s, r, rep, cmd.req, nu, cmd.req.count);
    s' := MachineReleases(s, r, nu, rep, cmd, mid, cmd.req.count);
    LoopFits(Lower(Renew(v, nu), cmd.req.count), mid, cmd.req.count);
    DequeuedIs(mid, cmd.req.count);
  }

  /** With too few Gets in the queue, DoOp and the machine both answer these and then wait for the next one. */
  lemma SyncWaits(v: Fields, s: State, r: nat, nu: nat, rep: Replica, cmd: Command) returns (s': State)
    requires Inv(s) && Enabled(s, Apply(r, nu)) && rep == s.replicas[r] && Fits(v, rep)
    requires cmd == s.log[rep.applied] && cmd.Command? && Releases(rep, r, cmd.req) && cmd.req.count > |rep.queue|
    ensures Reaches(s, ReleaseOf(r, nu, |rep.queue|, false), s') && |s'.replicas| == |s.replicas|
    ensures var done, rep' := Perform(v, r, cmd.req, nu), s'.replicas[r];
            && done.0 == Blocked && Fits(done.1, rep') && rep'.queue == []
            && rep'.work.Draining? && rep'.work.left == cmd.req.count - |rep.queue|
  {
    var k, v1, mid := |rep.queue|, Lower(Renew(v, nu), cmd.req.count), Begun(s, rep, cmd.req, nu);
    BegunIsReady(v, s, r, rep, cmd.req, nu, k);
    s' := MachineReleases(s, r, nu, rep, cmd, mid, k);
    LoopWaits(v1, mid, k, cmd.req.count);
    DequeuedIs(mid, k);
  }

  // ---------------------------------------------------------------- once

  lemma {:induction false} DrainKeepsNonce(v: Fields, count: nat)
    ensures Drain(v, count).1.nonce == v.nonce
    decreases count
  {
    if count > 0 && ServeFirst(v).0.Replied? { DrainKeepsNonce(ServeFirst(v).1, count - 1); }
  }

  /** Whatever a sync did, the same sync again changes nothing and is answered OK. */
  lemma SyncTwiceIsOnce(v: Fields, me: nat, req: Request, nu: nat, nu': nat)
    requires req.Sync? && nu != v.nonce
    ensures var w := Perform(v, me, req, nu).1; Perform(w, me, req, nu') == (Replied(PutReply(OK)), w)
  {
    if req.server == me && req.nonce == v.nonce { DrainKeepsNonce(Lower(Renew(v, nu), req.count), req.count); }
  }
}
