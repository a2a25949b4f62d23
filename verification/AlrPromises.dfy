/**
 * The promise behind an almost-local read: the Gets a sync was sent for are the ones its entry releases.
 * Counting a Get and sending it to the queue are two steps, and so are drawing a new nonce and lowering
 * the queue length, so the promise can be broken; it is kept exactly when every event is timely.
 */
module AlrPromises {
  import opened Options
  import opened RaftTypes
  import opened KvStore
  import opened KvModel
  import opened Submits
  import opened AlrMachine
  import opened AlrInvariant
  import opened AlrSteps

  // ---------------------------------------------------------------- counting tickets

  /** How many of the Gets were counted before `limit`. */
  function CountBelow(gets: seq<GetOp>, limit: nat): nat {
    if gets == [] then 0
    else CountBelow(gets[..|gets| - 1], limit) + if gets[|gets| - 1].ticket < limit then 1 else 0
  }

  lemma CountOne(gets: seq<GetOp>, g: GetOp, m: nat)
    ensures CountBelow(gets + [g], m) == CountBelow(gets, m) + if g.ticket < m then 1 else 0
  {
    assert (gets + [g])[..|gets|] == gets;
  }

  lemma {:induction false} CountConcat(a: seq<GetOp>, b: seq<GetOp>, m: nat)
    ensures CountBelow(a + b, m) == CountBelow(a, m) + CountBelow(b, m)
    decreases |b|
  {
    if b == [] {
      assert a + b == a;
    } else {
      var n := |b| - 1;
      assert a + b == (a + b[..n]) + [b[n]];
      CountOne(a + b[..n], b[n], m);
      CountConcat(a, b[..n], m);
    }
  }

  lemma CountRemove(a: seq<GetOp>, i: nat, m: nat)
    requires i < |a|
    ensures CountBelow(a[..i] + a[i + 1..], m) == CountBelow(a, m) - if a[i].ticket < m then 1 else 0
  {
    assert a == (a[..i] + [a[i]]) + a[i + 1..];
    CountConcat(a[..i] + [a[i]], a[i + 1..], m);
    CountOne(a[..i], a[i], m);
    CountConcat(a[..i], a[i + 1..], m);
  }

  lemma CountTail(a: seq<GetOp>, m: nat)
    requires a != []
    ensures CountBelow(a[1..], m) == CountBelow(a, m) - if a[0].ticket < m then 1 else 0
  {
    assert a[..0] + a[1..] == a[1..];
    CountRemove(a, 0, m);
  }

  lemma {:induction false} CountBounds(a: seq<GetOp>, m: nat)
    ensures CountBelow(a, m) <= |a|
    ensures (forall i | 0 <= i < |a| :: a[i].ticket < m) ==> CountBelow(a, m) == |a|
    ensures CountBelow(a, m) == 0 <==> forall i | 0 <= i < |a| :: a[i].ticket >= m
    decreases |a|
  {
    if a != [] {
      var n := |a| - 1;
      CountBounds(a[..n], m);
      assert forall i | 0 <= i < n :: a[..n][i] == a[i];
    }
  }

  /** If the first k are below the limit, at least k are. */
  lemma CountFirst(a: seq<GetOp>, k: nat, m: nat)
    requires k <= |a| && forall i | 0 <= i < k :: a[i].ticket < m
    ensures CountBelow(a, m) >= k
  {
    assert a == a[..k] + a[k..];
    CountConcat(a[..k], a[k..], m);
    CountBounds(a[..k], m);
  }

  // ---------------------------------------------------------------- promises

  /** Exactly k Gets counted before `limit` still wait, and they are the next k to come out of the queue. */
  ghost predicate Promise(queue: seq<GetOp>, arriving: seq<GetOp>, k: nat, limit: nat) {
    && CountBelow(queue, limit) + CountBelow(arriving, limit) == k
    && forall i | 0 <= i < k && i < |queue| :: queue[i].ticket < limit
  }

  /** How many Gets the running release will still take. */
  function Due(work: Work): nat {
    match work
    case Nonced(count, _) => count
    case Draining(left, _) => left
    case _ => 0
  }

  /** What the reader is taking, and what the last length that was read will take after that, are the Gets counted. */
  ghost predicate Kept(rep: Replica) {
    && (Working(rep) ==> Promise(rep.queue, rep.arriving, Due(rep.work), rep.work.limit))
    && (Outstanding(rep) ==> Promise(rep.queue, rep.arriving, Due(rep.work) + rep.pc.count, rep.pc.limit))
  }

  ghost predicate AllKept(s: State) { forall r | 0 <= r < |s.replicas| :: Kept(s.replicas[r]) }

  predicate Absent(arriving: seq<GetOp>, limit: nat) { exists j | 0 <= j < |arriving| :: arriving[j].ticket < limit }

  /** A Get that reaches the queue breaks a promise exactly when it overtakes a promised one. */
  lemma PromiseEnqueue(q: seq<GetOp>, a: seq<GetOp>, i: nat, q': seq<GetOp>, a': seq<GetOp>, k: nat, m: nat)
    requires Promise(q, a, k, m) && i < |a| && q' == q + [a[i]] && a' == a[..i] + a[i + 1..]
    ensures Promise(q', a', k, m) <==> !(a[i].ticket >= m && Absent(a, m))
  {
    CountOne(q, a[i], m);
    CountRemove(a, i, m);
    CountBounds(a, m);
    CountBounds(q, m);
    if |q| >= k { CountFirst(q, k, m); }
    assert q'[|q|] == a[i];
    assert forall j | 0 <= j < |q| :: q'[j] == q[j];
  }

  lemma PromiseCount(q: seq<GetOp>, a: seq<GetOp>, g: GetOp, k: nat, m: nat)
    requires Promise(q, a, k, m) && g.ticket >= m
    ensures Promise(q, a + [g], k, m)
  {
    CountOne(a, g, m);
  }

  lemma PromiseDequeue(q: seq<GetOp>, a: seq<GetOp>, k: nat, m: nat)
    requires Promise(q, a, k, m) && q != [] && k > 0
    ensures q[0].ticket < m && Promise(q[1..], a, k - 1, m)
  {
    CountTail(q, m);
    forall i | 0 <= i < k - 1 && i < |q[1..]| ensures q[1..][i].ticket < m { assert q[1..][i] == q[i + 1]; }
  }

  /** Reading a length that is the number of Gets waiting promises exactly those. */
  lemma PromiseLoad(q: seq<GetOp>, a: seq<GetOp>, k: nat, m: nat)
    requires (forall i | 0 <= i < |q| :: q[i].ticket < m) && (forall i | 0 <= i < |a| :: a[i].ticket < m)
    ensures Promise(q, a, k, m) <==> k == |q| + |a|
  {
    CountBounds(q, m);
    CountBounds(a, m);
  }

  // ---------------------------------------------------------------- one event

  lemma EnqueueKept(rep: Replica, i: nat, rep': Replica)
    requires Kept(rep) && i < |rep.arriving| && rep' == Enqueued(rep, i)
    ensures Kept(rep') <==> !Overtakes(rep, i)
  {
    if Working(rep) {
      PromiseEnqueue(rep.queue, rep.arriving, i, rep'.queue, rep'.arriving, Due(rep.work), rep.work.limit);
      assert Absent(rep.arriving, rep.work.limit) == Missing(rep, rep.work.limit);
    }
    if Outstanding(rep) {
      PromiseEnqueue(rep.queue, rep.arriving, i, rep'.queue, rep'.arriving, Due(rep.work) + rep.pc.count, rep.pc.limit);
      assert Absent(rep.arriving, rep.pc.limit) == Missing(rep, rep.pc.limit);
    }
  }

  lemma CountKept(s: State, r: nat, rep: Replica, id: nat, key: string, rep': Replica)
    requires ReplicaOK(rep, r, s) && Kept(rep) && rep' == Counted(rep, id, key)
    ensures Kept(rep')
  {
    var g := GetOp(id, key, |rep.came|);
    if Working(rep) { PromiseCount(rep.queue, rep.arriving, g, Due(rep.work), rep.work.limit); }
    if Outstanding(rep) { PromiseCount(rep.queue, rep.arriving, g, Due(rep.work) + rep.pc.count, rep.pc.limit); }
  }

  lemma DequeueKept(rep: Replica, rep': Replica)
    requires Kept(rep) && rep.queue != [] && rep.work.Draining? && rep.work.left > 0 && rep' == Dequeued(rep)
    ensures Kept(rep') && rep.queue[0].ticket < rep.work.limit
  {
    PromiseDequeue(rep.queue, rep.arriving, rep.work.left, rep.work.limit);
    if Outstanding(rep) { PromiseDequeue(rep.queue, rep.arriving, rep.work.left + rep.pc.count, rep.pc.limit); }
  }

  lemma LoadKept(s: State, r: nat, rep: Replica, rep': Replica)
    requires ReplicaOK(rep, r, s) && Kept(rep) && rep.pc.Idle? && rep.queueLen > 0
    requires rep' == rep.(pc := Loaded(rep.queueLen, |rep.came|))
    ensures Kept(rep') <==> !rep.work.Nonced?
  {
    forall i | 0 <= i < |rep.queue|
      ensures rep.queue[i].ticket < |rep.came|
    {
      assert GetOK(rep.queue[i], rep, s.calls);
    }
    forall i | 0 <= i < |rep.arriving|
      ensures rep.arriving[i].ticket < |rep.came|
    {
      assert GetOK(rep.arriving[i], rep, s.calls);
    }
    PromiseLoad(rep.queue, rep.arriving, Due(rep.work) + rep.queueLen, |rep.came|);
  }

  lemma OpenKept(s: State, r: nat, rep: Replica, req: Request, limit: nat, nu: nat, rep': Replica)
    requires Inv(s) && r < |s.replicas| && rep == s.replicas[r] && Kept(rep) && rep.work.Free?
             && rep.applied < |s.log| && nu !in s.nonces
    requires s.log[rep.applied].Command? && s.log[rep.applied].req == req && Releases(rep, r, req)
             && limit == LimitOf(s, req.nonce)
    requires rep' == Opened(rep, req.count, limit, nu)
    ensures Kept(rep')
  {
    assert ReplicaOK(rep, r, s) && rep.nonce in s.nonces;
    ReleaseIsLive(s, r, rep, req);
  }

  /** The queue stays, the release in progress has the same Gets to take, and no new length is promised. */
  predicate Unmoved(rep: Replica, rep': Replica) {
    && rep'.queue == rep.queue && rep'.arriving == rep.arriving && Due(rep'.work) == Due(rep.work)
    && (Working(rep') ==> Working(rep) && rep'.work.limit == rep.work.limit)
    && (Outstanding(rep') ==> Outstanding(rep) && rep'.pc.count == rep.pc.count && rep'.pc.limit == rep.pc.limit)
  }

  lemma UnmovedKept(rep: Replica, rep': Replica)
    requires Kept(rep) && Unmoved(rep, rep')
    ensures Kept(rep')
  {
  }

  /** The events that touch a queue, a release or a promise. */
  predicate Moving(s: State, e: Event)
    requires Enabled(s, e)
  {
    || e.CallGet? || e.Enqueue? || e.LoadLength? || e.Dequeue? || e.Crash?
    || (e.Apply? && s.log[s.replicas[e.r].applied].Command?
          && Releases(s.replicas[e.r], e.r, s.log[s.replicas[e.r].applied].req))
  }

  lemma OthersUnmoved(s: State, e: Event, s': State)
    requires Enabled(s, e) && s' == Next(s, e) && !e.Commit? && !e.StraySync? && !Moving(s, e)
    ensures e.r < |s.replicas| == |s'.replicas| && Unmoved(s.replicas[e.r], s'.replicas[e.r]) && Timely(s, e)
  {
    if AtReader(e) { ReaderUnmoved(s, e, s'); }
    else if AtSubmit(e) { SubmitUnmoved(s, e, s'); }
    else { RestUnmoved(s, e, s'); }
  }

  lemma ReaderUnmoved(s: State, e: Event, s': State)
    requires Enabled(s, e) && s' == Next(s, e) && AtReader(e) && !Moving(s, e)
    ensures |s.replicas| == |s'.replicas| && Unmoved(s.replicas[e.r], s'.replicas[e.r])
  {
  }

  lemma SubmitUnmoved(s: State, e: Event, s': State)
    requires Enabled(s, e) && s' == Next(s, e) && AtSubmit(e)
    ensures |s.replicas| == |s'.replicas| && Unmoved(s.replicas[e.r], s'.replicas[e.r])
  {
    SubmitOnlyAt(s, e, s');
  }

  lemma RestUnmoved(s: State, e: Event, s': State)
    requires Enabled(s, e) && s' == Next(s, e) && (AtGets(e) || AtSync(e)) && !Moving(s, e)
    ensures |s.replicas| == |s'.replicas| && Unmoved(s.replicas[e.r], s'.replicas[e.r])
  {
  }

  /** What such an event makes of the replica, and what makes it timely. */
  lemma MovedTo(s: State, e: Event, rep: Replica, s': State, rep': Replica)
    requires Enabled(s, e) && s' == Next(s, e) && Moving(s, e) && rep == s.replicas[e.r] && e.r < |s'.replicas|
             && rep' == s'.replicas[e.r]
    ensures e.CallGet? ==> rep' == Counted(rep, e.id, e.key) && Timely(s, e)
    ensures e.Enqueue? ==> rep' == Enqueued(rep, e.i) && (Timely(s, e) <==> !Overtakes(rep, e.i))
    ensures e.LoadLength? ==>
            rep' == rep.(pc := Loaded(rep.queueLen, |rep.came|)) && (Timely(s, e) <==> !rep.work.Nonced?)
    ensures e.Dequeue? ==> rep' == Dequeued(rep) && Timely(s, e)
    ensures e.Crash? ==> rep' == Booted(e.nu) && Timely(s, e)
    ensures e.Apply? ==> Timely(s, e)
    ensures e.Apply? ==>
              var req := s.log[rep.applied].req; rep' == Opened(rep, req.count, LimitOf(s, req.nonce), e.nu)
  {
  }

  lemma MovingKept(s: State, e: Event, r: nat, rep: Replica, s': State, rep': Replica)
    requires Enabled(s, e) && s' == Next(s, e) && Moving(s, e) && !e.Apply? && r == e.r && rep == s.replicas[r]
             && Kept(rep)
    requires ReplicaOK(rep, r, s) && |s'.replicas| == |s.replicas| && rep' == s'.replicas[r]
    ensures Kept(rep') <==> Timely(s, e)
  {
    MovedTo(s, e, rep, s', rep');
    if e.CallGet? { CountKept(s, r, rep, e.id, e.key, rep'); }
    else if e.Enqueue? { EnqueueKept(rep, e.i, rep'); }
    else if e.LoadLength? { LoadKept(s, r, rep, rep'); }
    else if e.Dequeue? { DequeueKept(rep, rep'); }
  }

  lemma ReleaseKept(s: State, r: nat, nu: nat, rep: Replica, s': State, rep': Replica)
    requires Inv(s) && Enabled(s, Apply(r, nu)) && Moving(s, Apply(r, nu)) && s' == Next(s, Apply(r, nu))
    requires rep == s.replicas[r] && Kept(rep) && |s'.replicas| == |s.replicas| && rep' == s'.replicas[r]
    ensures Kept(rep') && Timely(s, Apply(r, nu))
  {
    MovedTo(s, Apply(r, nu), rep, s', rep');
    OpenKept(s, r, rep, s.log[rep.applied].req, LimitOf(s, s.log[rep.applied].req.nonce), nu, rep');
  }

  /** At the replica an event touches, the promises stay kept exactly when the event is timely. */
  lemma ActorKept(s: State, e: Event, r: nat, rep: Replica, s': State, rep': Replica)
    requires Inv(s) && !e.Commit? && !e.StraySync? && Enabled(s, e) && s' == Next(s, e) && r == e.r
             && rep == s.replicas[r] && Kept(rep)
    requires |s'.replicas| == |s.replicas| && rep' == s'.replicas[r] && ReplicaOK(rep, r, s)
    ensures Kept(rep') <==> Timely(s, e)
  {
    if !Moving(s, e) {
      OthersUnmoved(s, e, s');
      UnmovedKept(rep, rep');
    } else if e.Apply? {
      ReleaseKept(s, r, e.nu, rep, s', rep');
    } else {
      MovingKept(s, e, r, rep, s', rep');
    }
  }

  lemma Conclude(s: State, r: nat, rep': Replica, s': State)
    requires AllKept(s) && r < |s.replicas| && s'.replicas == s.replicas[r := rep']
    ensures AllKept(s') <==> Kept(rep')
  {
    assert s'.replicas[r] == rep';
    if Kept(rep') {
      forall q | 0 <= q < |s'.replicas| ensures Kept(s'.replicas[q]) { assert q != r ==> Kept(s.replicas[q]); }
    }
  }

  /** One event: all promises stay kept exactly when the event is timely. */
  lemma StepKept(s: State, e: Event, s': State)
    requires Inv(s) && AllKept(s) && Enabled(s, e) && s' == Next(s, e)
    ensures AllKept(s') <==> Timely(s, e)
  {
    SameReplicas(s, e, s');
    if !e.Commit? && !e.StraySync? {
      var rep, rep' := s.replicas[e.r], s'.replicas[e.r];
      assert ReplicaOK(rep, e.r, s);
      ActorKept(s, e, e.r, rep, s', rep');
      Conclude(s, e.r, rep', s');
    }
  }

  lemma FirstOvertakesNobody(rep: Replica)
    requires PlacesOK(rep.queue, rep.arriving) && rep.arriving != []
    ensures !Overtakes(rep, 0)
  {
    assert forall j | 0 <= j < |rep.arriving| :: rep.arriving[0].ticket <= rep.arriving[j].ticket;
  }

  /** Sending Gets to the queue in the order they were counted, and not reading the length in mid-release, is timely. */
  lemma FirstComeIsTimely(s: State, e: Event)
    requires Inv(s) && Enabled(s, e) && FirstCome(s, e)
    ensures Timely(s, e)
  {
    if e.Enqueue? {
      assert PlacesOK(s.replicas[e.r].queue, s.replicas[e.r].arriving) by { assert ReplicaOK(s.replicas[e.r], e.r, s); }
      FirstOvertakesNobody(s.replicas[e.r]);
    }
  }

  // ---------------------------------------------------------------- the queue length

  /** What the reader will still subtract from the queue length. */
  function Pending(work: Work): nat { if work.Nonced? then work.count else 0 }

  /** The length covers what the reader will subtract, and after that what the outstanding sync will. */
  ghost predicate Covered(rep: Replica) {
    && rep.queueLen >= Pending(rep.work)
    && (Outstanding(rep) ==> rep.queueLen >= Pending(rep.work) + rep.pc.count)
  }

  ghost predicate AllCovered(s: State) { forall r | 0 <= r < |s.replicas| :: Covered(s.replicas[r]) }

  lemma OpenCovered(s: State, r: nat, rep: Replica, req: Request, limit: nat, nu: nat, rep': Replica)
    requires Inv(s) && r < |s.replicas| && rep == s.replicas[r] && Covered(rep) && rep.work.Free?
    requires rep.applied < |s.log| && nu !in s.nonces
    requires s.log[rep.applied].Command? && s.log[rep.applied].req == req && Releases(rep, r, req)
    requires rep' == Opened(rep, req.count, limit, nu)
    ensures Covered(rep')
  {
    assert ReplicaOK(rep, r, s) && rep.nonce in s.nonces;
    ReleaseIsLive(s, r, rep, req);
  }

  /** The events that leave the length and what will be subtracted from it alone. */
  predicate SameLength(rep: Replica, rep': Replica) {
    && rep'.queueLen == rep.queueLen && Pending(rep'.work) == Pending(rep.work)
    && (Outstanding(rep') ==> Outstanding(rep) && rep'.pc.count == rep.pc.count)
  }

  predicate MovesLength(s: State, e: Event)
    requires Enabled(s, e)
  {
    || e.CallGet? || e.LoadLength? || e.Subtract? || e.Crash?
    || (e.Apply? && s.log[s.replicas[e.r].applied].Command?
          && Releases(s.replicas[e.r], e.r, s.log[s.replicas[e.r].applied].req))
  }

  lemma ReaderSameLength(s: State, e: Event, s': State)
    requires Enabled(s, e) && s' == Next(s, e) && AtReader(e) && !MovesLength(s, e)
    ensures |s.replicas| == |s'.replicas| && SameLength(s.replicas[e.r], s'.replicas[e.r])
  {
  }

  lemma RestSameLength(s: State, e: Event, s': State)
    requires Enabled(s, e) && s' == Next(s, e) && !AtReader(e) && !e.Commit? && !e.StraySync? && !MovesLength(s, e)
    ensures |s.replicas| == |s'.replicas| && SameLength(s.replicas[e.r], s'.replicas[e.r])
  {
    if AtSubmit(e) { SubmitOnlyAt(s, e, s'); }
  }

  lemma LengthMoved(s: State, e: Event, rep: Replica, s': State, rep': Replica)
    requires Enabled(s, e) && s' == Next(s, e) && MovesLength(s, e) && rep == s.replicas[e.r]
    requires e.r < |s'.replicas| && rep' == s'.replicas[e.r]
    ensures e.CallGet? ==> rep' == Counted(rep, e.id, e.key)
    ensures e.LoadLength? ==> rep' == rep.(pc := Loaded(rep.queueLen, |rep.came|))
    ensures e.Subtract? ==> rep' == Subtracted(rep)
    ensures e.Crash? ==> rep' == Booted(e.nu)
    ensures e.Apply? ==>
              var req := s.log[rep.applied].req; rep' == Opened(rep, req.count, LimitOf(s, req.nonce), e.nu)
  {
  }

  lemma MovedCovered(s: State, e: Event, rep: Replica, s': State, rep': Replica)
    requires Enabled(s, e) && s' == Next(s, e) && MovesLength(s, e) && !e.Apply? && rep == s.replicas[e.r]
    requires Covered(rep) && |s'.replicas| == |s.replicas| && rep' == s'.replicas[e.r]
    requires rep.work.Nonced? ==> rep.work.count > 0
    ensures Covered(rep') <==> !ReadsEarly(s, e)
  {
    LengthMoved(s, e, rep, s', rep');
  }

  lemma ReleaseCovered(s: State, r: nat, nu: nat, rep: Replica, s': State, rep': Replica)
    requires Inv(s) && Enabled(s, Apply(r, nu)) && MovesLength(s, Apply(r, nu)) && s' == Next(s, Apply(r, nu))
    requires rep == s.replicas[r] && Covered(rep) && |s'.replicas| == |s.replicas| && rep' == s'.replicas[r]
    ensures Covered(rep')
  {
    LengthMoved(s, Apply(r, nu), rep, s', rep');
    OpenCovered(s, r, rep, s.log[rep.applied].req, LimitOf(s, s.log[rep.applied].req.nonce), nu, rep');
  }

  lemma CoveredAt(s: State, r: nat, rep': Replica, s': State)
    requires AllCovered(s) && r < |s.replicas| && s'.replicas == s.replicas[r := rep']
    ensures AllCovered(s') <==> Covered(rep')
  {
    assert s'.replicas[r] == rep';
    if Covered(rep') {
      forall q | 0 <= q < |s'.replicas| ensures Covered(s'.replicas[q]) { assert q != r ==> Covered(s.replicas[q]); }
    }
  }

  lemma ActorCovered(s: State, e: Event, r: nat, rep: Replica, s': State, rep': Replica)
    requires Inv(s) && Enabled(s, e) && s' == Next(s, e) && !e.Commit? && !e.StraySync? && r == e.r
    requires rep == s.replicas[r] && Covered(rep) && |s'.replicas| == |s.replicas| && rep' == s'.replicas[r]
    requires ReplicaOK(rep, r, s)
    ensures Covered(rep') <==> !ReadsEarly(s, e)
  {
    if MovesLength(s, e) && e.Apply? { ReleaseCovered(s, r, e.nu, rep, s', rep'); }
    else if MovesLength(s, e) { MovedCovered(s, e, rep, s', rep'); }
    else if AtReader(e) { ReaderSameLength(s, e, s'); }
    else { RestSameLength(s, e, s'); }
  }

  /** One event: the length stays large enough exactly when it is not read too early. */
  lemma StepCovered(s: State, e: Event, s': State)
    requires Inv(s) && AllCovered(s) && Enabled(s, e) && s' == Next(s, e)
    ensures AllCovered(s') <==> !ReadsEarly(s, e)
  {
    SameReplicas(s, e, s');
    if !e.Commit? && !e.StraySync? {
      var rep, rep' := s.replicas[e.r], s'.replicas[e.r];
      assert ReplicaOK(rep, e.r, s);
      ActorCovered(s, e, e.r, rep, s', rep');
      CoveredAt(s, e.r, rep', s');
    }
  }

  // ---------------------------------------------------------------- what kept promises give

  /** No Get was answered at a sync entry committed before the Get was called. */
  ghost predicate Current(s: State) {
    forall p, j | p in s.batches && 0 <= j < |s.batches[p]| ::
      s.batches[p][j].id in s.calls && s.calls[s.batches[p][j].id].at <= p
  }

  /** The Get a kept promise releases next was called no later than the sync entry. */
  lemma FrontCalled(s: State, r: nat, rep: Replica)
    requires ReplicaOK(rep, r, s) && Kept(rep) && rep.queue != [] && rep.work.Draining? && rep.work.left > 0
    ensures rep.queue[0].id in s.calls && s.calls[rep.queue[0].id].at <= rep.applied
  {
    assert GetOK(rep.queue[0], rep, s.calls);
    DequeueKept(rep, Dequeued(rep));
  }

  lemma DequeueCurrent(s: State, r: nat, rep: Replica, s': State)
    requires Inv(s) && Kept(rep) && Current(s) && Enabled(s, Dequeue(r)) && rep == s.replicas[r]
             && s' == DequeueOne(s, r)
    ensures Current(s')
  {
    assert ReplicaOK(rep, r, s);
    FrontCalled(s, r, rep);
    BatchOne(s, r, rep, s');
    CurrentOne(s, rep.applied, s'.batches[rep.applied], rep.queue[0].id, s');
  }

  lemma BatchOne(s: State, r: nat, rep: Replica, s': State)
    requires Enabled(s, Dequeue(r)) && rep == s.replicas[r] && s' == DequeueOne(s, r)
    ensures rep.applied in s'.batches && s'.calls == s.calls
    ensures var p := rep.applied;
            && s'.batches == s.batches[p := s'.batches[p]]
            && forall j | 0 <= j < |s'.batches[p]| ::
                 || s'.batches[p][j].id == rep.queue[0].id
                 || (p in s.batches && j < |s.batches[p]| && s'.batches[p][j] == s.batches[p][j])
  {
  }

  lemma CurrentOne(s: State, p: nat, batch: seq<Answered>, id: nat, s': State)
    requires Current(s) && s'.calls == s.calls && s'.batches == s.batches[p := batch] && id in s.calls
             && s.calls[id].at <= p
    requires forall j | 0 <= j < |batch| ::
             batch[j].id == id || (p in s.batches && j < |s.batches[p]| && batch[j] == s.batches[p][j])
    ensures Current(s')
  {
  }

  lemma BatchesOnlyOpen(s: State, e: Event, s': State)
    requires Enabled(s, e) && s' == Next(s, e) && !e.Dequeue?
    ensures forall p | p in s'.batches :: s'.batches[p] == [] || (p in s.batches && s'.batches[p] == s.batches[p])
  {
  }

  lemma OthersCurrent(s: State, s': State)
    requires Current(s) && CallsGrow(s.calls, s'.calls, s.ids)
    requires forall p | p in s'.batches :: s'.batches[p] == [] || (p in s.batches && s'.batches[p] == s.batches[p])
    ensures Current(s')
  {
  }

  lemma StepCurrent(s: State, e: Event, s': State)
    requires Inv(s) && AllKept(s) && Current(s) && Enabled(s, e) && s' == Next(s, e)
    ensures Current(s')
  {
    if e.Dequeue? {
      DequeueCurrent(s, e.r, s.replicas[e.r], s');
    } else {
      StepKeeps(s, e, s');
      BatchesOnlyOpen(s, e, s');
      OthersCurrent(s, s');
    }
  }
}
