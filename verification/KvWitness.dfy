/**
 * Two timely runs in which a Clerk.Put returns something the model cannot accept: ErrVersion, from a later RPC
 * of the first pass, although the first RPC's Put took effect; and ErrMaybe, from a time-out, although the Put
 * never reached a server.
 */
module KvWitness {
  import opened Options
  import opened RaftTypes
  import opened KvStore
  import opened KvModel
  import opened Submits
  import opened AlrMachine
  import opened AlrWitness
  import K = KvClerk
  import H = KvHistories

  // ---------------------------------------------------------------- runs without Gets

  /** Nothing that could be untimely happens. */
  predicate Calm(events: seq<Event>) { forall k | 0 <= k < |events| :: !events[k].Enqueue? && !events[k].LoadLength? }

  lemma CalmIsTimely(events: seq<Event>, states: seq<State>)
    requires |states| == |events| + 1 && Calm(events)
    ensures AllTimely(events, states)
  {
  }

  lemma Go(r: Run, e: Event, s: State) returns (r': Run)
    requires Good(r) && Calm(r.events) && !e.Enqueue? && !e.LoadLength? && s == End(r) && Enabled(s, e)
    ensures Good(r') && Calm(r'.events) && End(r') == Next(s, e)
    ensures r.states <= r'.states && |r'.states| == |r.states| + 1
  {
    r' := Run(r.events + [e], r.states + [Next(s, e)]);
    forall i | 0 <= i < |r'.events|
      ensures Enabled(r'.states[i], r'.events[i]) && r'.states[i + 1] == Next(r'.states[i], r'.events[i])
    {
      if i < |r.events| {
        assert r'.events[i] == r.events[i] && r'.states[i] == r.states[i] && r'.states[i + 1] == r.states[i + 1];
      }
    }
  }

  ghost predicate Calmly(r: Run) { Good(r) && Calm(r.events) }

  lemma Start() returns (r: Run)
    ensures Calmly(r) && r.states == [Init(Nonces)] && Init(Nonces).replicas == [Booted(0), Booted(1)]
    ensures Init(Nonces).nonces == {0, 1}
  {
    r := Run([], [Init(Nonces)]);
    assert Nonces[0] in Init(Nonces).nonces && Nonces[1] in Init(Nonces).nonces;
  }

  /** The only Submit at server 1 returns. */
  lemma Returns(s: State, id: nat, term: nat, err: Err)
    requires |s.replicas| == 2 && s.replicas[1].waits == map[id := Wait(Writing, Some(term),
             Some(Value(PutReply(err))))]
    ensures Enabled(s, Finish(1, id, term, true))
    ensures var s' := Next(s, Finish(1, id, term, true));
            && s'.trace == s.trace + [Return(id, Written, KvOutput("", 0, err), |s.log|)]
            && s'.log == s.log && s'.calls == s.calls && s'.subs == s.subs
  {
  }

  // ---------------------------------------------------------------- a Put that took effect unanswered

  const BothCalled: map<nat, Called> := map[30 := Called(Written, 0), 31 := Called(Written, 0)]
  const BothSubs: map<nat, Request> := map[30 := Writing, 31 := Writing]
  const Both: seq<Command> := [Command(30, Writing), Command(31, Writing)]

  /** Server 0 is asked for the Put. */
  lemma FirstAsked() returns (r: Run)
    ensures Calmly(r) && r.states[0] == Init(Nonces)
    ensures var s := End(r);
            && |s.replicas| == 2 && s.replicas[1] == Booted(1) && s.log == [] && s.nonces == {0, 1} && s.ids == {30}
            && s.calls == map[30 := Called(Written, 0)] && s.subs == map[30 := Writing]
            && s.trace == [Call(30, Written, 0)]
  {
    r := Start();
    r := Go(r, CallPut(0, 30, "k", "v", 0), End(r));
  }

  /** So is server 1. */
  lemma BothAsked() returns (r: Run)
    ensures Calmly(r) && r.states[0] == Init(Nonces)
    ensures var s := End(r);
            && |s.replicas| == 2 && s.replicas[1] == Booted(1).(waits := map[31 := Wait(Writing, None, None)])
            && s.log == [] && s.nonces == {0, 1} && s.calls == BothCalled && s.subs == BothSubs
            && s.trace == [Call(30, Written, 0), Call(31, Written, 0)]
  {
    r := FirstAsked();
    r := Go(r, CallPut(1, 31, "k", "v", 0), End(r));
  }

  lemma BothStarted() returns (r: Run)
    ensures Calmly(r) && r.states[0] == Init(Nonces)
    ensures var s := End(r);
            && |s.replicas| == 2 && s.replicas[1] == Booted(1).(waits := map[31 := Wait(Writing, Some(2), None)])
            && s.log == [] && s.nonces == {0, 1} && s.calls == BothCalled && s.subs == BothSubs
            && s.trace == [Call(30, Written, 0), Call(31, Written, 0)]
  {
    r := BothAsked();
    r := Go(r, StartReturns(1, 31, 2, true), End(r));
    assert End(r).replicas[1].waits == map[31 := Wait(Writing, Some(2), None)];
  }

  lemma BothCommitted() returns (r: Run)
    ensures Calmly(r) && r.states[0] == Init(Nonces)
    ensures var s := End(r);
            && |s.replicas| == 2 && s.replicas[1] == Booted(1).(waits := map[31 := Wait(Writing, Some(2), None)])
            && s.log == Both && s.nonces == {0, 1} && s.calls == BothCalled && s.subs == BothSubs
            && s.trace == [Call(30, Written, 0), Call(31, Written, 0)]
  {
    r := BothStarted();
    r := Go(r, Commit(30), End(r));
    assert End(r).log == [Command(30, Writing)];
    r := Go(r, Commit(31), End(r));
  }

  /** Server 1 applies the first, which takes effect; nobody waits for it there. */
  lemma FirstApplied() returns (r: Run)
    ensures Calmly(r) && r.states[0] == Init(Nonces)
    ensures var s := End(r);
            && |s.replicas| == 2 && s.log == Both && s.nonces == {0, 1} && s.calls == BothCalled && s.subs == BothSubs
            && s.replicas[1] == Booted(1).(waits := map[31 := Wait(Writing, Some(2), None)], applied := 1,
                                           store := Execute(Empty, Writing))
            && s.trace == [Call(30, Written, 0), Call(31, Written, 0)]
  {
    r := BothCommitted();
    r := Go(r, Apply(1, 60), End(r));
  }

  /** It applies the second, its own. */
  lemma SecondApplied() returns (r: Run)
    ensures Calmly(r) && r.states[0] == Init(Nonces)
    ensures var s := End(r);
            && |s.replicas| == 2 && s.log == Both && s.calls == BothCalled && s.subs == BothSubs
            && s.replicas[1].waits == map[31 := Wait(Writing, Some(2), Some(Value(PutReply(ErrVersion))))]
            && s.trace == [Call(30, Written, 0), Call(31, Written, 0)]
  {
    r := FirstApplied();
    r := Go(r, Apply(1, 61), End(r));
  }

  const Refused := KvOutput("", 0, ErrVersion)

  /** It answers ErrVersion; nobody answers for the first. */
  lemma SecondRefused() returns (r: Run)
    ensures Calmly(r) && r.states[0] == Init(Nonces)
    ensures var s := End(r);
            && s.log == Both && s.calls == BothCalled && s.subs == BothSubs
            && s.trace == [Call(30, Written, 0), Call(31, Written, 0), Return(31, Written, Refused, 2)]
  {
    r := SecondApplied();
    Returns(End(r), 31, 2, ErrVersion);
    r := Go(r, Finish(1, 31, 2, true), End(r));
  }

  /** The first RPC fails, the second is answered ErrVersion. */
  const FailedThenRefused: seq<K.Outcome> := [K.Failed, K.Replied(ErrVersion)]

  lemma BothLog()
    ensures StoreAt(Both, 0) == Empty && Answer(StoreAt(Both, 1), Writing) == PutReply(ErrVersion)
    ensures Requests(Both)[..0] == [] && Requests(Both)[0] == Writing
  {
    assert Both[..0] == [] && Requests([]) == [];
    assert Requests(Both[..1]) == [Writing] && [Writing][..0] == [];
    assert Replay([Writing]) == Execute(Replay([]), Writing);
  }

  lemma BothExplain()
    ensures K.Explains(K.WorldOf(Both, [30, 31]), Writing, FailedThenRefused)
    ensures K.TookEffect(K.WorldOf(Both, [30, 31]), "k")
  {
    BothLog();
    K.SentIs(FailedThenRefused, 1);
    assert Both[1] == Command(31, Writing);
    assert K.Truthful(Both, 31, Writing, ErrVersion);
    K.ServiceExplains(Both, [30, 31], Writing, FailedThenRefused);
    assert K.PlaceOf(Both, 30) == Some(0);
    assert K.CopyTookEffect(K.WorldOf(Both, [30, 31]), "k", 0);
  }

  const ToldErrVersion := H.ClerkOp(Written, Refused, 0, 0, [30, 31])

  /**
   * The run in which ErrVersion does not mean "not performed": the first RPC's Put takes effect unanswered, the
   * second, still of the first pass over two servers, is refused, and the Clerk returns ErrVersion.  That one
   * operation has no linearization.
   */
  lemma UnansweredPutTakesEffect() returns (events: seq<Event>, states: seq<State>)
    ensures IsRun(Nonces, events, states) && AllTimely(events, states)
    ensures K.Verdict(FailedThenRefused, 2) == Some(ErrVersion)
    ensures var w := K.WorldOf(states[|events|].log, [30, 31]);
            K.Explains(w, Writing, FailedThenRefused) && K.TookEffect(w, "k")
    ensures var h := [ToldErrVersion.(end := |events|)];
            H.History(states, h) && forall order :: !H.Linearizes(h, order)
  {
    var r := SecondRefused();
    events, states := r.events, r.states;
    CalmIsTimely(events, states);
    K.SentIs(FailedThenRefused, 1);
    BothExplain();
    RefusalIsHistory(states, End(r));
    forall order ensures !H.Linearizes([ToldErrVersion.(end := |events|)], order) {
      RefusalAlone(ToldErrVersion.(end := |events|), order);
    }
  }

  lemma RefusalIsHistory(m: seq<State>, s: State)
    requires |m| > 0 && m[0].calls == map[] && s == m[|m| - 1] && s.log == Both && s.calls == BothCalled
    requires s.trace == [Call(30, Written, 0), Call(31, Written, 0), Return(31, Written, Refused, 2)]
    ensures H.History(m, [ToldErrVersion.(end := |m| - 1)])
  {
    var o := ToldErrVersion.(end := |m| - 1);
    assert s.trace[2].id in o.ids;
    assert H.AnsweredWith(s.trace, o.ids, Refused) && Refused == H.PutOutput(ErrVersion);
    assert H.Conducted(m, o);
    assert [o][0] == o;
  }

  lemma SingleOp(a: KvOp, key: string)
    ensures Project([a], key) == if a.input.key == key then [a] else []
    ensures Accepts([a]) == Step(InitState, a).0 && StateAfter([a]) == Step(InitState, a).1
  {
    var one := [a];
    assert one[..0] == [] && one[0] == a && |one| == 1;
  }

  /** On a fresh key the model never accepts ErrVersion for version 0. */
  lemma RefusalRejected(a: KvOp)
    requires a == KvOp(Written, Refused)
    ensures !Accepts(Project([a], "k"))
  {
    SingleOp(a, "k");
  }

  lemma RefusalAlone(o: H.ClerkOp, order: seq<nat>)
    requires o.input == Written && o.output == Refused
    ensures !H.Linearizes([o], order)
  {
    if H.IsOrder(1, order) {
      assert order == [0];
      assert H.OpsIn([o], order) == [KvOp(o.input, o.output)];
      RefusalRejected(KvOp(o.input, o.output));
    }
  }

  // ---------------------------------------------------------------- a Put that never arrived

  const Done := KvOutput("", 0, OK)
  const Unsure := KvOutput("", 0, ErrMaybe)

  /** A reader's message about an id nobody waits for changes nothing. */
  lemma Pause() returns (r: Run)
    ensures Calmly(r) && |r.states| == 2 && End(r) == Init(Nonces) && r.states[1].calls == map[]
    ensures End(r).replicas == [Booted(0), Booted(1)] && End(r).nonces == {0, 1}
  {
    r := Start();
    r := Go(r, Abort(1, 5), End(r));
    assert End(r).replicas == [Booted(0), Booted(1)];
  }

  lemma OtherCalled() returns (r: Run)
    ensures Calmly(r) && |r.states| > 2 && r.states[1].calls == map[]
    ensures var s := End(r);
            && |s.replicas| == 2 && s.replicas[1] == Booted(1).(waits := map[30 := Wait(Writing, None, None)])
            && s.log == [] && s.nonces == {0, 1} && s.calls == map[30 := Called(Written, 0)]
            && s.subs == map[30 := Writing]
            && s.trace == [Call(30, Written, 0)]
  {
    r := Pause();
    r := Go(r, CallPut(1, 30, "k", "v", 0), End(r));
  }

  lemma OtherCommitted() returns (r: Run)
    ensures Calmly(r) && |r.states| > 2 && r.states[1].calls == map[]
    ensures var s := End(r);
            && |s.replicas| == 2 && s.replicas[1] == Booted(1).(waits := map[30 := Wait(Writing, Some(1), None)])
            && s.log == [Command(30, Writing)] && s.nonces == {0, 1} && s.calls == map[30 := Called(Written, 0)]
            && s.trace == [Call(30, Written, 0)]
  {
    r := OtherCalled();
    r := Go(r, StartReturns(1, 30, 1, true), End(r));
    assert End(r).replicas[1].waits == map[30 := Wait(Writing, Some(1), None)];
    r := Go(r, Commit(30), End(r));
  }

  lemma OtherApplied() returns (r: Run)
    ensures Calmly(r) && |r.states| > 2 && r.states[1].calls == map[]
    ensures var s := End(r);
            && |s.replicas| == 2 && s.replicas[1].waits == map[30 := Wait(Writing, Some(1), Some(Value(PutReply(OK))))]
            && s.log == [Command(30, Writing)] && s.calls == map[30 := Called(Written, 0)]
            && s.trace == [Call(30, Written, 0)]
  {
    r := OtherCommitted();
    r := Go(r, Apply(1, 60), End(r));
  }

  lemma OtherDone() returns (r: Run)
    ensures Calmly(r) && |r.states| > 2 && r.states[1].calls == map[]
    ensures var s := End(r);
            && s.log == [Command(30, Writing)] && s.calls == map[30 := Called(Written, 0)]
            && s.trace == [Call(30, Written, 0), Return(30, Written, Done, 1)]
  {
    r := OtherApplied();
    Returns(End(r), 30, 1, OK);
    r := Go(r, Finish(1, 30, 1, true), End(r));
  }

  /** One Clerk's Put times out unheard; then another Clerk's Put of the same key and version goes through. */
  function LostThenDone(end: nat): seq<H.ClerkOp> {
    [H.ClerkOp(KvPut("k", "lost", 0), Unsure, 0, 0, [99]), H.ClerkOp(Written, Done, 1, end, [30])]
  }

  /**
   * A Put that timed out and never reached a server returned ErrMaybe, which the model takes for performed as the
   * version matched all along: the history has no linearization.
   */
  lemma LostPutIsNotAccepted() returns (events: seq<Event>, states: seq<State>)
    ensures IsRun(Nonces, events, states) && AllTimely(events, states)
    ensures H.History(states, LostThenDone(|events|)) && forall order :: !H.Linearizes(LostThenDone(|events|), order)
  {
    var r := OtherDone();
    events, states := r.events, r.states;
    CalmIsTimely(events, states);
    LostIsHistory(states, End(r));
    forall order ensures !H.Linearizes(LostThenDone(|events|), order) { LostAlone(|events|, order); }
  }

  lemma LostIsHistory(m: seq<State>, s: State)
    requires |m| > 2 && m[0].calls == map[] && m[1].calls == map[] && s == m[|m| - 1]
    requires s.log == [Command(30, Writing)] && s.calls == map[30 := Called(Written, 0)]
    requires s.trace == [Call(30, Written, 0), Return(30, Written, Done, 1)]
    ensures H.History(m, LostThenDone(|m| - 1))
  {
    var h := LostThenDone(|m| - 1);
    assert Unsure == H.PutOutput(ErrMaybe) && Done == H.PutOutput(OK);
    assert s.trace[1].id in h[1].ids;
    assert H.AnsweredWith(s.trace, h[1].ids, Done);
    assert H.Conducted(m, h[0]) && H.Conducted(m, h[1]);
  }

  lemma LostAlone(end: nat, order: seq<nat>)
    ensures !H.Linearizes(LostThenDone(end), order)
  {
    var h := LostThenDone(end);
    if H.IsOrder(2, order) && !(h[order[1]].end < h[order[0]].begin) {
      assert order == [0, 1];
      var a, b := KvOp(h[0].input, h[0].output), KvOp(h[1].input, h[1].output);
      assert H.OpsIn(h, order) == [a, b];
      LostRejected(a, b);
    }
  }

  lemma SecondOp(a: KvOp, b: KvOp, key: string)
    requires a.input.key == b.input.key == key
    ensures Project([a, b], key) == [a, b] && Accepts([a, b]) == (Accepts([a]) && Step(StateAfter([a]), b).0)
  {
    var both := [a, b];
    SingleOp(a, key);
    assert both[..1] == [a] && both[1] == b && |both| == 2;
  }

  lemma LostRejected(a: KvOp, b: KvOp)
    requires a == KvOp(KvPut("k", "lost", 0), Unsure) && b == KvOp(Written, Done)
    ensures !Accepts(Project([a, b], "k"))
  {
    SingleOp(a, "k");
    SecondOp(a, b, "k");
  }

  /**
   * Acceptability is about the log, which no client sees: the lost Put alone is not acceptable, and yet its
   * history passes, as nobody notices that it is missing.
   */
  lemma UnnoticedLossPasses(o: H.ClerkOp)
    requires o == H.ClerkOp(KvPut("k", "lost", 0), Unsure, 0, 0, [99])
    ensures IsRun(Nonces, [], [Init(Nonces)]) && H.History([Init(Nonces)], [o])
    ensures !H.AllAcceptable([Init(Nonces)], [o]) && H.Linearizes([o], [0])
  {
    var m := [Init(Nonces)];
    assert Unsure == H.PutOutput(ErrMaybe) && H.Conducted(m, o) && [o][0] == o;
    assert StoreAt([], 0) == Empty by { assert Requests([]) == []; }
    assert !H.Acceptable([], o, 0, 0);
    assert [0][0] == 0;
    assert H.OpsIn([o], [0]) == [KvOp(o.input, Unsure)];
    forall key ensures Accepts(Project([KvOp(o.input, Unsure)], key)) { SingleOp(KvOp(o.input, Unsure), key); }
  }
}
