/**
 * Two runs with a stale read.  In the first a Get overtakes another on its way to the queue; in the second
 * the queue length is read between the new nonce and the subtraction.  Either way a sync releases a Get
 * that was called after a Put behind the sync had been answered, and no order explains what clients saw.
 */
module AlrWitness {
  import opened Options
  import opened RaftTypes
  import opened KvStore
  import opened KvModel
  import opened Submits
  import opened AlrMachine
  import A = AlrTheorems

  // ---------------------------------------------------------------- a stale read has no linearization

  /** Request by request, what the history of a store without syncs says. */
  lemma {:induction false} TraceAt(reqs: seq<Request>, x: nat)
    requires x < |reqs| && forall i | 0 <= i < |reqs| :: !reqs[i].Sync?
    ensures |Trace(reqs)| == |reqs|
    ensures Trace(reqs)[x] == KvOp(InputOf(reqs[x]), OutputOf(Answer(Replay(reqs[..x]), reqs[x])))
    decreases |reqs|
  {
    var n := |reqs| - 1;
    if n > 0 { TraceAt(reqs[..n], if x < n then x else 0); }
    if x < n { assert reqs[..n][..x] == reqs[..x]; }
  }

  lemma {:induction false} KeyStays(reqs: seq<Request>, key: string, x: nat, y: nat)
    requires x <= y <= |reqs| && key in Replay(reqs[..x]).kv
    ensures key in Replay(reqs[..y]).kv
    decreases y
  {
    if x < y {
      KeyStays(reqs, key, x, y - 1);
      ReplayStep(reqs, y - 1);
    }
  }

  /** In a sequential history a Get after a successful Put finds the key. */
  lemma FindsKey(line: seq<A.LinOp>, i: nat, j: nat, key: string)
    requires Trace(A.RequestsOf(line)) == A.OpsOf(line) && i < j < |line|
    requires line[i].input.KvPut? && line[i].input.key == key && key != SyncKey && line[i].output.err == OK
    requires line[j].input == KvGet(key)
    ensures line[j].output.err == OK
  {
    var reqs := A.RequestsOf(line);
    TraceAt(reqs, i);
    TraceAt(reqs, j);
    assert A.OpsOf(line)[i].output == line[i].output && A.OpsOf(line)[j].output == line[j].output;
    ReplayStep(reqs, i);
    KeyStays(reqs, key, i + 1, j);
  }

  /** A Put of the key was answered OK, then a Get of it was called, and answered that there is no such key. */
  predicate Stale(trace: seq<Action>, k: nat, l: nat, m: nat, key: string) {
    && k < l < m < |trace| && key != SyncKey
    && trace[k].Return? && trace[k].input.KvPut? && trace[k].input.key == key && trace[k].output.err == OK
    && trace[l].Call? && trace[m].Return? && trace[m].id == trace[l].id
    && trace[m].input == KvGet(key) && trace[m].output.err == ErrNoKey
  }

  lemma StaleIsNotLinearizable(trace: seq<Action>, k: nat, l: nat, m: nat, key: string, line: seq<A.LinOp>)
    requires Stale(trace, k, l, m, key)
    ensures !A.IsLinearization(trace, line)
  {
    if A.IsLinearization(trace, line) {
      assert A.Has(line, trace[k].id, trace[k].input, trace[k].output)
          && A.Has(line, trace[m].id, trace[m].input, trace[m].output);
      var i :| 0 <= i < |line| && line[i].id == trace[k].id && line[i].input == trace[k].input
          && line[i].output == trace[k].output;
      var j :| 0 <= j < |line| && line[j].id == trace[m].id && line[j].input == trace[m].input
          && line[j].output == trace[m].output;
      FindsKey(line, i, j, key);
    }
  }

  // ---------------------------------------------------------------- building runs

  datatype Run = Run(events: seq<Event>, states: seq<State>)

  const Nonces: seq<nat> := [0, 1]

  ghost predicate Good(r: Run) { IsRun(Nonces, r.events, r.states) }

  function End(r: Run): State
    requires r.states != []
  {
    r.states[|r.states| - 1]
  }

  /** Every Get reached its queue in the order it was counted. */
  predicate InTurn(events: seq<Event>) { forall k | 0 <= k < |events| :: events[k].Enqueue? ==> events[k].i == 0 }

  lemma Begin() returns (r: Run)
    ensures Good(r) && r.states == [Init(Nonces)] && InTurn(r.events)
  {
    r := Run([], [Init(Nonces)]);
  }

  lemma Extend(r: Run, e: Event) returns (r': Run)
    requires Good(r) && Enabled(End(r), e)
    ensures Good(r') && End(r') == Next(End(r), e)
    ensures InTurn(r'.events) <==> InTurn(r.events) && (e.Enqueue? ==> e.i == 0)
  {
    r' := Run(r.events + [e], r.states + [Next(End(r), e)]);
    assert forall i | 0 <= i < |r.events| :: r'.events[i] == r.events[i];
    assert r'.events[|r.events|] == e;
    forall i | 0 <= i < |r'.events|
      ensures Enabled(r'.states[i], r'.events[i]) && r'.states[i + 1] == Next(r'.states[i], r'.events[i])
    {
      if i < |r.events| {
        assert r'.events[i] == r.events[i] && r'.states[i] == r.states[i] && r'.states[i + 1] == r.states[i + 1];
      }
    }
  }

  // ---------------------------------------------------------------- the common end

  /**
   * Server 0 is about to apply the last entry, a sync of its own for one Get, and its queue is empty;
   * server 1 has applied everything; nobody has written anything.
   */
  predicate Ripe(s: State) {
    && |s.replicas| == 2 && |s.log| >= 1
    && s.log[|s.log| - 1].Command? && s.log[|s.log| - 1].req == Sync(0, 1, s.replicas[0].nonce)
    && s.replicas[0].applied == |s.log| - 1 && s.replicas[0].work == Free && s.replicas[0].store == Empty
    && s.replicas[0].queue == []
    && s.replicas[1].applied == |s.log| && s.replicas[1].work == Free && s.replicas[1].store == Empty
    && 30 !in s.replicas[1].waits
    && 30 !in s.ids && 40 !in s.ids && !InLog(s.log, 30) && 100 !in s.nonces && 101 !in s.nonces
  }

  const Written := KvPut("k", "v", 0)

  const Writing := Put("k", "v", 0)

  /** A Put is called at server 1, started and committed. */
  lemma PutCommitted(r: Run, s: State) returns (r': Run)
    requires Good(r) && s == End(r) && Ripe(s)
    ensures Good(r') && (InTurn(r.events) ==> InTurn(r'.events))
    ensures var s' := End(r');
            && |s'.replicas| == 2 && s'.replicas[0] == s.replicas[0] && s'.log == s.log + [Command(30, Writing)]
            && s'.nonces == s.nonces && 40 !in s'.ids && s'.trace == s.trace + [Call(30, Written, |s.log|)]
            && s'.replicas[1] == s.replicas[1].(waits := s.replicas[1].waits[30 := Wait(Writing, Some(1), None)])
  {
    r' := PutCalled(r, s, s.replicas[1]);
    r' := PutStarted(r', s, s.replicas[1]);
    r' := Extend(r', Commit(30));
  }

  /** s with the Put registered at server 1, whose Submit knows what Start told it. */
  function Registered(s: State, b: Replica, term: Option<nat>): State
    requires |s.replicas| == 2
  {
    s.(replicas := [s.replicas[0], b.(waits := b.waits[30 := Wait(Writing, term, None)])],
       calls := s.calls[30 := Called(Written, |s.log|)], subs := s.subs[30 := Writing], ids := s.ids + {30},
       trace := s.trace + [Call(30, Written, |s.log|)])
  }

  lemma PutCalled(r: Run, s: State, b: Replica) returns (r': Run)
    requires Good(r) && s == End(r) && |s.replicas| == 2 && b == s.replicas[1] && 30 !in s.ids
    ensures Good(r') && (InTurn(r.events) ==> InTurn(r'.events)) && End(r') == Registered(s, b, None)
  {
    r' := Extend(r, CallPut(1, 30, "k", "v", 0));
    assert End(r').replicas == [s.replicas[0], b.(waits := b.waits[30 := Wait(Writing, None, None)])];
  }

  lemma PutStarted(r: Run, s: State, b: Replica) returns (r': Run)
    requires Good(r) && |s.replicas| == 2 && End(r) == Registered(s, b, None)
    ensures Good(r') && (InTurn(r.events) ==> InTurn(r'.events)) && End(r') == Registered(s, b, Some(1))
  {
    r' := Extend(r, StartReturns(1, 30, 1, true));
    var w := b.waits[30 := Wait(Writing, None, None)];
    assert w[30 := Wait(Writing, Some(1), None)] == b.waits[30 := Wait(Writing, Some(1), None)];
    assert End(r').replicas == [s.replicas[0], b.(waits := b.waits[30 := Wait(Writing, Some(1), None)])];
  }

  /** Server 1 applies it and Submit returns OK. */
  lemma PutReturned(r: Run, s: State, b: Replica) returns (r': Run)
    requires Good(r) && s == End(r) && |s.replicas| == 2 && b == s.replicas[1] && b.applied < |s.log|
             && s.log[b.applied] == Command(30, Writing)
    requires b.work == Free && b.store == Empty && 30 in b.waits && b.waits[30] == Wait(Writing, Some(1), None)
             && 100 !in s.nonces
    ensures Good(r') && (InTurn(r.events) ==> InTurn(r'.events))
    ensures var s' := End(r');
            && |s'.replicas| == 2 && s'.replicas[0] == s.replicas[0] && s'.log == s.log && s'.nonces == s.nonces
            && s'.ids == s.ids
            && s'.trace == s.trace + [Return(30, Written, KvOutput("", 0, OK), |s.log|)]
  {
    r' := Extend(r, Apply(1, 100));
    assert End(r').replicas[1] == Executed(b, 30, Writing);
    assert End(r').replicas[1].waits[30] == Wait(Writing, Some(1), Some(Value(PutReply(OK))));
    r' := Extend(r', Finish(1, 30, 1, true));
  }

  /** Server 0 enters the sync branch. */
  lemma SyncApplied(r: Run, s: State, a: Replica) returns (r': Run)
    requires Good(r) && s == End(r) && |s.replicas| == 2 && a == s.replicas[0] && a.applied < |s.log|
             && a.work == Free && 101 !in s.nonces
    requires s.log[a.applied].Command? && s.log[a.applied].req == Sync(0, 1, a.nonce)
    ensures Good(r') && (InTurn(r.events) ==> InTurn(r'.events))
    ensures var s', b := End(r'), Subtracted(Opened(a, 1, LimitOf(s, a.nonce), 101));
            s' == s.(replicas := [b, s.replicas[1]], nonces := s.nonces + {101}, batches := s.batches[a.applied := []])
  {
    r' := Extend(r, Apply(0, 101));
    assert End(r').replicas == [Opened(a, 1, LimitOf(s, a.nonce), 101), s.replicas[1]];
    r' := Extend(r', Subtract(0));
    assert End(r').replicas == [Subtracted(Opened(a, 1, LimitOf(s, a.nonce), 101)), s.replicas[1]];
  }

  /** A new Get is called at server 0. */
  lemma GetCalled(r: Run, s: State, a: Replica) returns (r': Run)
    requires Good(r) && s == End(r) && |s.replicas| == 2 && a == s.replicas[0] && 40 !in s.ids
    ensures Good(r') && (InTurn(r.events) ==> InTurn(r'.events))
    ensures var s' := End(r');
            && s'.replicas == [Counted(a, 40, "k"), s.replicas[1]] && s'.log == s.log
            && s'.trace == s.trace + [Call(40, KvGet("k"), |s.log|)]
  {
    r' := Extend(r, CallGet(0, 40, "k"));
    assert End(r').replicas == [Counted(a, 40, "k"), s.replicas[1]];
  }

  /** It is the first to reach the queue. */
  lemma GetQueued(r: Run, s: State, a: Replica) returns (r': Run)
    requires Good(r) && s == End(r) && |s.replicas| == 2 && s.replicas[0] == Counted(a, 40, "k") && a.queue == []
    ensures Good(r') && (InTurn(r.events) && a.arriving == [] ==> InTurn(r'.events))
    ensures End(r') == s.(replicas := [Enqueued(Counted(a, 40, "k"), |a.arriving|), s.replicas[1]])
    ensures Enqueued(Counted(a, 40, "k"), |a.arriving|).queue == [GetOp(40, "k", |a.came|)]
  {
    r' := Extend(r, Enqueue(0, |a.arriving|));
    assert End(r').replicas == [Enqueued(Counted(a, 40, "k"), |a.arriving|), s.replicas[1]];
  }

  /** It is answered. */
  lemma GetServed(r: Run, s: State, b: Replica) returns (r': Run)
    requires Good(r) && s == End(r) && |s.replicas| == 2 && b == s.replicas[0]
    requires b.queue != [] && b.queue[0].id == 40 && b.queue[0].key == "k" && 40 in b.chans
    requires b.store == Empty && b.work.Draining? && b.work.left == 1
    ensures Good(r') && (InTurn(r.events) ==> InTurn(r'.events))
    ensures End(r').trace == s.trace + [Return(40, KvGet("k"), KvOutput("", 0, ErrNoKey), |s.log|)]
  {
    r' := Extend(r, Dequeue(0));
  }

  lemma GetAnswered(r: Run, s: State, a: Replica) returns (r': Run)
    requires Good(r) && s == End(r) && |s.replicas| == 2 && a == s.replicas[0] && 40 !in s.ids
    requires a.store == Empty && a.queue == [] && a.work.Draining? && a.work.left == 1
    ensures Good(r') && (InTurn(r.events) && a.arriving == [] ==> InTurn(r'.events))
    ensures End(r').trace == s.trace + [Call(40, KvGet("k"), |s.log|),
        Return(40, KvGet("k"), KvOutput("", 0, ErrNoKey), |s.log|)]
  {
    r' := GetCalled(r, s, a);
    r' := GetQueued(r', End(r'), a);
    r' := GetServed(r', End(r'), End(r').replicas[0]);
  }

  /** From there on a stale read is possible. */
  lemma StaleRead(r: Run) returns (r': Run)
    requires Good(r) && Ripe(End(r))
    ensures Good(r') && (InTurn(r.events) && End(r).replicas[0].arriving == [] ==> InTurn(r'.events))
    ensures exists k: nat, l: nat, m: nat :: Stale(End(r').trace, k, l, m, "k")
  {
    var s := End(r);
    var n := |s.trace|;
    r' := PutCommitted(r, s);
    r' := PutReturned(r', End(r'), End(r').replicas[1]);
    r' := SyncApplied(r', End(r'), End(r').replicas[0]);
    r' := GetAnswered(r', End(r'), End(r').replicas[0]);
    assert Stale(End(r').trace, n + 1, n + 2, n + 3, "k");
  }

  // ---------------------------------------------------------------- overtaking

  /** Server 0 counted Gets and sent a sync for one of them with its first nonce; the sync is the only entry. */
  predicate SyncOut(s: State, a: Replica) {
    && |s.replicas| == 2 && a == s.replicas[0] && s.replicas[1].applied == 0 && s.replicas[1].work == Free
    && s.replicas[1].store == Empty
    && s.replicas[1].nonce == 1 && s.replicas[1].waits.Keys == {20} && s.replicas[1].waits[20].got.None?
    && s.log == [Command(20, Sync(0, 1, 0))] && a.applied == 0 && a.nonce == 0 && a.store == Empty && a.work == Free
    && s.ids == {10, 20} && s.nonces == {0, 1}
    && s.syncs == map[0 := SyncInfo(0, 1, 1, 0)]
  }

  /** From a server 0 with one Get counted: read the length and send the sync. */
  lemma SyncSent(r: Run, s: State, a: Replica) returns (r': Run)
    requires Good(r) && s == End(r) && |s.replicas| == 2 && a == s.replicas[0] && s.log == [] && s.syncs == map[]
    requires a.pc == Idle && a.queueLen == 1 && |a.came| == 1 && a.nonce == 0
    ensures Good(r') && (InTurn(r.events) ==> InTurn(r'.events))
    ensures End(r') == s.(replicas := [a.(pc := Sent(1, 1, 0)), s.replicas[1]], syncs := map[0 := SyncInfo(0, 1, 1, 0)])
  {
    r' := Extend(r, LoadLength(0));
    r' := Extend(r', SendSync(0));
    assert End(r').replicas == [a.(pc := Sent(1, 1, 0)), s.replicas[1]];
  }

  /** Server 1 submits the sync, which gets committed. */
  lemma SyncCommitted(r: Run, s: State, a: Replica) returns (r': Run)
    requires Good(r) && s == End(r) && s.replicas == [a, Booted(1)] && s.log == [] && s.ids == {10} && s.subs == map[]
    requires s.nonces == {0, 1} && s.syncs == map[0 := SyncInfo(0, 1, 1, 0)]
    requires a.applied == 0 && a.nonce == 0 && a.store == Empty && a.work == Free
    ensures Good(r') && (InTurn(r.events) ==> InTurn(r'.events)) && SyncOut(End(r'), a)
  {
    r' := Extend(r, SubmitSync(1, 20, 0));
    assert End(r').subs == map[20 := Sync(0, 1, 0)] && End(r').log == [];
    r' := Extend(r', Commit(20));
  }

  /** One Get is counted and waits just before the queue; its sync is committed and applied at server 1. */
  lemma Overtaking() returns (r: Run)
    ensures Good(r) && Ripe(End(r))
  {
    r := Begin();
    r := Extend(r, CallGet(0, 10, "k"));
    r := SyncSent(r, End(r), End(r).replicas[0]);
    r := SyncCommitted(r, End(r), End(r).replicas[0]);
    r := Extend(r, Apply(1, 50));
  }

  /**
   * Without the timeliness hypothesis reads are not linearizable: a Get counted after the length was read
   * reaches the queue first and is answered from a store older than a Put answered before it was called.
   */
  lemma OvertakingBreaksLinearizability() returns (nonces: seq<nat>, events: seq<Event>, states: seq<State>)
    ensures IsRun(nonces, events, states)
    ensures forall line :: !A.IsLinearization(states[|events|].trace, line)
  {
    var r := Overtaking();
    r := StaleRead(r);
    nonces, events, states := Nonces, r.events, r.states;
    var k: nat, l: nat, m: nat :| Stale(End(r).trace, k, l, m, "k");
    forall line ensures !A.IsLinearization(states[|events|].trace, line) {
      StaleIsNotLinearizable(End(r).trace, k, l, m, "k", line);
    }
  }

  // ---------------------------------------------------------------- reading the length in mid-release

  /** Server 0 enters the sync branch for its only Get and draws a new nonce. */
  lemma ReleaseBegins(r: Run, s: State, a: Replica) returns (r': Run)
    requires Good(r) && s == End(r) && SyncOut(s, a) && a.pc == Sent(1, 1, 0)
    ensures Good(r') && (InTurn(r.events) ==> InTurn(r'.events))
    ensures End(r') == s.(replicas := [a.(pc := Confirmed(1, 1, 0), nonce := 51, work := Nonced(1, 1)), s.replicas[1]],
                          nonces := {0, 1, 51}, batches := s.batches[0 := []])
  {
    assert s.log[0].req.nonce == 0;
    r' := Extend(r, SyncOk(0));
    assert End(r').replicas == [a.(pc := Confirmed(1, 1, 0)), s.replicas[1]];
    r' := Extend(r', Apply(0, 51));
    assert End(r').replicas == [a.(pc := Confirmed(1, 1, 0), nonce := 51, work := Nonced(1, 1)), s.replicas[1]];
  }

  /** The sync goroutine sees the new nonce and reads the length before it is lowered. */
  lemma LengthReadTooEarly(r: Run, s: State, a: Replica) returns (r': Run)
    requires Good(r) && s == End(r) && |s.replicas| == 2 && a == s.replicas[0] && a.pc == Confirmed(1, 1, 0)
    requires a.nonce == 51 && a.work == Nonced(1, 1) && a.queueLen == 1 && |a.came| == 1
    ensures Good(r') && (InTurn(r.events) ==> InTurn(r'.events))
    ensures End(r') == s.(replicas := [a.(pc := Loaded(1, 1), queueLen := 0, work := Draining(1, 1)), s.replicas[1]])
  {
    r' := NonceSeen(r, s, a);
    r' := LengthRead(r', s, a);
    r' := Extend(r', Subtract(0));
    assert End(r').replicas == [a.(pc := Loaded(1, 1), queueLen := 0, work := Draining(1, 1)), s.replicas[1]];
  }

  lemma NonceSeen(r: Run, s: State, a: Replica) returns (r': Run)
    requires Good(r) && s == End(r) && |s.replicas| == 2 && a == s.replicas[0] && a.pc == Confirmed(1, 1, 0)
             && a.nonce == 51
    ensures Good(r') && (InTurn(r.events) ==> InTurn(r'.events))
    ensures End(r') == s.(replicas := [a.(pc := Idle), s.replicas[1]])
  {
    r' := Extend(r, SyncSeen(0));
    assert End(r').replicas == [a.(pc := Idle), s.replicas[1]];
  }

  lemma LengthRead(r: Run, s: State, a: Replica) returns (r': Run)
    requires Good(r) && |s.replicas| == 2 && End(r) == s.(replicas := [a.(pc := Idle), s.replicas[1]])
    requires a.queueLen == 1 && |a.came| == 1
    ensures Good(r') && (InTurn(r.events) ==> InTurn(r'.events))
    ensures End(r') == s.(replicas := [a.(pc := Loaded(1, 1)), s.replicas[1]])
  {
    r' := Extend(r, LoadLength(0));
    assert End(r').replicas == [a.(pc := Loaded(1, 1)), s.replicas[1]];
  }

  /** The release ends. */
  lemma ReleaseEnds(r: Run, s: State, b: Replica) returns (r': Run)
    requires Good(r) && s == End(r) && |s.replicas| == 2 && b == s.replicas[0] && b.work == Draining(1, 1)
             && |s.log| == 1 && s.log[0].Command?
    requires b.queue == [GetOp(10, "k", 0)] && 10 in b.chans && b.applied == 0 && b.waits == map[]
    ensures Good(r') && (InTurn(r.events) ==> InTurn(r'.events))
    ensures var s', a := End(r'), b.(queue := [], chans := b.chans - {10}, went := b.went + [10], applied := 1,
            work := Free);
            s' == s.(replicas := [a, s.replicas[1]], batches := s'.batches, trace := s'.trace)
  {
    r' := Extend(r, Dequeue(0));
    assert b.queue[1..] == [];
    assert End(r').replicas == [b.(queue := [], chans := b.chans - {10}, went := b.went + [10],
        work := Draining(0, 1)), s.replicas[1]];
    r' := Extend(r', EndRelease(0));
    assert End(r').replicas == [b.(queue := [], chans := b.chans - {10}, went := b.went + [10], applied := 1,
        work := Free), s.replicas[1]];
  }

  /** The sync with the length that was too large is sent and committed. */
  lemma SecondSync(r: Run, s: State, a: Replica) returns (r': Run)
    requires Good(r) && s == End(r) && |s.replicas| == 2 && a == s.replicas[0] && a.pc == Loaded(1, 1) && a.nonce == 51
    requires s.log == [Command(20, Sync(0, 1, 0))] && s.ids == {10, 20} && s.nonces == {0, 1, 51}
    ensures Good(r') && (InTurn(r.events) ==> InTurn(r'.events))
    ensures var s' := End(r');
            && |s'.replicas| == 2 && s'.log == [Command(20, Sync(0, 1, 0)), Command(21, Sync(0, 1, 51))]
            && s'.replicas[0] == a.(pc := Sent(1, 1, 51)) && s'.ids == {10, 20, 21} && s'.nonces == {0, 1, 51}
            && s'.replicas[1] == s.replicas[1].(waits := s.replicas[1].waits[21 := Wait(Sync(0, 1, 51), None, None)])
  {
    r' := Extend(r, SendSync(0));
    assert End(r').replicas == [a.(pc := Sent(1, 1, 51)), s.replicas[1]] && SyncRequest(End(r'), 51) == Sync(0, 1, 51);
    r' := SecondCommit(r', End(r'), End(r').replicas[1]);
  }

  lemma SecondCommit(r: Run, s: State, b: Replica) returns (r': Run)
    requires Good(r) && s == End(r) && |s.replicas| == 2 && b == s.replicas[1]
    requires 51 in s.syncs && SyncRequest(s, 51) == Sync(0, 1, 51)
    requires s.log == [Command(20, Sync(0, 1, 0))] && s.ids == {10, 20}
    ensures Good(r') && (InTurn(r.events) ==> InTurn(r'.events))
    ensures var s' := End(r');
            && s'.log == [Command(20, Sync(0, 1, 0)), Command(21, Sync(0, 1, 51))] && s'.ids == {10, 20, 21}
            && s'.replicas == [s.replicas[0], b.(waits := b.waits[21 := Wait(Sync(0, 1, 51), None, None)])]
            && s'.nonces == s.nonces
  {
    r' := Extend(r, SubmitSync(1, 21, 51));
    assert End(r').replicas == [s.replicas[0], b.(waits := b.waits[21 := Wait(Sync(0, 1, 51), None, None)])];
    assert End(r').subs[21] == Sync(0, 1, 51) && !InLog(s.log, 21);
    r' := Extend(r', Commit(21));
  }

  /** Server 1 applies both syncs, which are not for it. */
  lemma Bystander(r: Run, b: Replica) returns (r': Run)
    requires Good(r) && |End(r).replicas| == 2 && b == End(r).replicas[1] && b.applied == 0 && b.work == Free
             && b.store == Empty && b.nonce == 1
    requires b.waits.Keys == {20, 21} && b.waits[20].got.None? && b.waits[21].got.None?
    requires End(r).log == [Command(20, Sync(0, 1, 0)), Command(21, Sync(0, 1, 51))] && End(r).nonces == {0, 1, 51}
    ensures Good(r') && (InTurn(r.events) ==> InTurn(r'.events))
    ensures var s, s' := End(r), End(r');
            && |s'.replicas| == 2 && s'.replicas[0] == s.replicas[0] && s'.log == s.log && s'.ids == s.ids
            && s'.nonces == s.nonces
            && s'.replicas[1].applied == 2 && s'.replicas[1].work == Free && s'.replicas[1].store == Empty
            && s'.replicas[1].waits.Keys == {20, 21}
  {
    r' := Extend(r, Apply(1, 52));
    assert End(r').replicas[1] == Executed(b, 20, Sync(0, 1, 0));
    r' := Extend(r', Apply(1, 53));
  }

  lemma Lengthened() returns (r: Run)
    ensures Good(r) && Ripe(End(r)) && InTurn(r.events)
    ensures End(r).replicas[0].arriving == [] && End(r).replicas[0].queueLen == 0
  {
    r := Begin();
    r := Extend(r, CallGet(0, 10, "k"));
    r := Extend(r, Enqueue(0, 0));
    r := SyncSent(r, End(r), End(r).replicas[0]);
    r := SyncCommitted(r, End(r), End(r).replicas[0]);
    r := ReleaseBegins(r, End(r), End(r).replicas[0]);
    r := LengthReadTooEarly(r, End(r), End(r).replicas[0]);
    r := ReleaseEnds(r, End(r), End(r).replicas[0]);
    r := SecondSync(r, End(r), End(r).replicas[0]);
    r := Bystander(r, End(r).replicas[1]);
  }

  /** The same with all Gets in order, when the length is read between the new nonce and the subtraction. */
  lemma EarlyLengthBreaksLinearizability() returns (nonces: seq<nat>, events: seq<Event>, states: seq<State>)
    ensures IsRun(nonces, events, states) && InTurn(events)
    ensures forall line :: !A.IsLinearization(states[|events|].trace, line)
  {
    var r := Lengthened();
    r := StaleRead(r);
    nonces, events, states := Nonces, r.events, r.states;
    var k: nat, l: nat, m: nat :| Stale(End(r).trace, k, l, m, "k");
    forall line ensures !A.IsLinearization(states[|events|].trace, line) {
      StaleIsNotLinearizable(End(r).trace, k, l, m, "k", line);
    }
  }

  /** In that run the queue length becomes negative when the second sync is applied. */
  lemma EarlyLengthGoesNegative() returns (nonces: seq<nat>, events: seq<Event>, states: seq<State>)
    ensures IsRun(nonces, events, states) && InTurn(events)
    ensures |states[|events|].replicas| == 2 && states[|events|].replicas[0].queueLen == -1
  {
    var r := Lengthened();
    r := SyncApplied(r, End(r), End(r).replicas[0]);
    nonces, events, states := Nonces, r.events, r.states;
  }
}
