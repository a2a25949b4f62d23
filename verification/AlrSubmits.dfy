/**
 * What becomes of a Submit over a run: whatever the reader hands over to a waiting Submit, the reply to its entry or
 * the news that it was aborted, reaches its caller when it returns, and it returns at most once.
 */
module AlrSubmits {
  import opened Options
  import opened RaftTypes
  import opened KvStore
  import opened KvModel
  import opened Submits
  import opened AlrMachine
  import opened AlrInvariant
  import opened AlrSteps
  import A = AlrTheorems

  // ---------------------------------------------------------------- what an event does to the waiting Submits

  /** What the reader hands over, and for which id. */
  datatype Word = Word(id: nat, result: Result)

  function Handed(s: State, e: Event): Option<Word>
    requires Enabled(s, e)
  {
    match e
    case Apply(r, _) =>
      var rep := s.replicas[r];
      var cmd := s.log[rep.applied];
      if cmd.Command? && !Releases(rep, r, cmd.req)
      then Some(Word(cmd.id, Value(Answer(rep.store, cmd.req)))) else None
    case EndRelease(r) =>
      var cmd := s.log[s.replicas[r].applied];
      if cmd.Command? then Some(Word(cmd.id, Value(PutReply(OK)))) else None
    case Abort(_, id) => Some(Word(id, Aborted))
    case _ => None
  }

  /** The Submits waiting at the event's replica once it happened. */
  function WaitsAfter(s: State, e: Event): Waits
    requires Enabled(s, e) && !e.Commit? && !e.StraySync?
  {
    var w := s.replicas[e.r].waits;
    match e
    case CallPut(_, id, key, value, version) => w[id := Wait(Put(key, value, version), None, None)]
    case SubmitSync(_, id, nonce) => w[id := Wait(SyncRequest(s, nonce), None, None)]
    case StartReturns(_, id, term, isLeader) => Begun(w, id, term, isLeader)
    case Finish(_, id, _, _) => w - {id}
    case Crash(_, _) => map[]
    case _ => if Handed(s, e).Some? then Post(w, Handed(s, e).value.id, Handed(s, e).value.result) else w
  }

  lemma ApplyWaits(s: State, e: Event, rep: Replica, cmd: Command, s': State)
    requires Enabled(s, e) && e.Apply? && rep == s.replicas[e.r] && cmd == s.log[rep.applied]
    requires s' == ApplyEntry(s, e.r, cmd, e.nu)
    ensures |s'.replicas| == |s.replicas| && s'.told == s.told
    ensures s'.replicas[e.r].waits == WaitsAfter(s, e)
  {
  }

  lemma ReaderWaits(s: State, e: Event, s': State)
    requires Enabled(s, e) && s' == Next(s, e) && AtReader(e) && !e.Apply?
    ensures |s'.replicas| == |s.replicas| && s'.replicas[e.r].waits == WaitsAfter(s, e) && s'.told == s.told
  {
  }

  lemma RegisterWaits(s: State, e: Event, s': State)
    requires Enabled(s, e) && s' == Next(s, e) && (e.CallPut? || e.SubmitSync?)
    ensures |s'.replicas| == |s.replicas| && s'.replicas[e.r].waits == WaitsAfter(s, e)
  {
  }

  lemma ReturnWaits(s: State, e: Event, s': State)
    requires Enabled(s, e) && s' == Next(s, e) && (e.StartReturns? || e.Finish?)
    ensures |s'.replicas| == |s.replicas| && s'.replicas[e.r].waits == WaitsAfter(s, e)
  {
  }

  lemma GetWaits(s: State, e: Event, s': State)
    requires Enabled(s, e) && s' == Next(s, e) && AtGets(e)
    ensures |s'.replicas| == |s.replicas| && s'.replicas[e.r].waits == WaitsAfter(s, e) && s'.told == s.told
  {
  }

  lemma SyncWaits(s: State, e: Event, s': State)
    requires Enabled(s, e) && s' == Next(s, e) && AtSync(e)
    ensures |s'.replicas| == |s.replicas| && s'.replicas[e.r].waits == WaitsAfter(s, e) && s'.told == s.told
  {
  }

  lemma WaitsStep(s: State, e: Event, s': State)
    requires Enabled(s, e) && s' == Next(s, e) && !e.Commit? && !e.StraySync?
    ensures |s'.replicas| == |s.replicas| && s'.replicas[e.r].waits == WaitsAfter(s, e)
    ensures !AtSubmit(e) ==> s'.told == s.told
  {
    if e.Apply? { ApplyWaits(s, e, s.replicas[e.r], s.log[s.replicas[e.r].applied], s'); }
    else if AtReader(e) { ReaderWaits(s, e, s'); }
    else if AtGets(e) { GetWaits(s, e, s'); }
    else if AtSync(e) { SyncWaits(s, e, s'); }
    else if e.StartReturns? || e.Finish? { ReturnWaits(s, e, s'); }
    else { RegisterWaits(s, e, s'); }
  }

  /** What the event tells a caller. */
  lemma ToldStep(s: State, e: Event, s': State)
    requires Enabled(s, e) && s' == Next(s, e) && AtSubmit(e)
    ensures e.CallPut? || e.SubmitSync? || (e.StartReturns? && e.isLeader) ==> s'.told == s.told
    ensures e.Finish? || (e.StartReturns? && !e.isLeader) ==>
              |s'.told| == |s.told| + 1 && s'.told[..|s.told|] == s.told && s'.told[|s.told|].id == e.id
  {
  }

  // ---------------------------------------------------------------- a Submit keeps what it has

  /** The event ends the Submit of id at replica r. */
  predicate EndsSubmit(e: Event, r: nat, id: nat) {
    || (e.Crash? && e.r == r) || (e.Finish? && e.r == r && e.id == id)
    || (e.StartReturns? && e.r == r && e.id == id && !e.isLeader)
  }

  /** id waits at replica r with at least what w has. */
  ghost predicate WaitsWith(s: State, r: nat, id: nat, w: Wait) {
    && r < |s.replicas| && id in s.replicas[r].waits
    && var w' := s.replicas[r].waits[id];
       w'.req == w.req && (w.term.Some? ==> w'.term == w.term) && (w.got.Some? ==> w'.got == w.got)
  }

  lemma PostKeeps(w: Waits, x: nat, res: Result, id: nat)
    requires id in w
    ensures id in Post(w, x, res) && Post(w, x, res)[id].req == w[id].req && Post(w, x, res)[id].term == w[id].term
    ensures w[id].got.Some? || x != id ==> Post(w, x, res)[id] == w[id]
  {
  }

  lemma WaitsAt(s: State, e: Event, id: nat)
    requires Enabled(s, e) && !e.Commit? && !e.StraySync? && !EndsSubmit(e, e.r, id) && id in s.ids
    requires id in s.replicas[e.r].waits
    ensures id in WaitsAfter(s, e)
    ensures var w, w' := s.replicas[e.r].waits[id], WaitsAfter(s, e)[id];
            w'.req == w.req && (w.term.Some? ==> w'.term == w.term || e.StartReturns?)
                && (w.got.Some? ==> w'.got == w.got)
  {
    if Handed(s, e).Some? { PostKeeps(s.replicas[e.r].waits, Handed(s, e).value.id, Handed(s, e).value.result, id); }
  }

  lemma KeepsWaitingHere(s: State, e: Event, s': State, id: nat, w: Wait)
    requires Enabled(s, e) && s' == Next(s, e) && !e.Commit? && !e.StraySync? && id in s.ids
    requires WaitsWith(s, e.r, id, w) && !EndsSubmit(e, e.r, id)
    ensures WaitsWith(s', e.r, id, w)
  {
    WaitsStep(s, e, s');
    WaitsAt(s, e, id);
    assert e.StartReturns? && e.id == id ==> s.replicas[e.r].waits[id].term.None?;
  }

  lemma KeepsWaiting(s: State, e: Event, s': State, r: nat, id: nat, w: Wait)
    requires Enabled(s, e) && s' == Next(s, e) && WaitsWith(s, r, id, w) && id in s.ids && !EndsSubmit(e, r, id)
    ensures WaitsWith(s', r, id, w)
  {
    SameReplicas(s, e, s');
    if !e.Commit? && !e.StraySync? && e.r == r { KeepsWaitingHere(s, e, s', id, w); }
  }

  lemma Waiters(s: State, r: nat, id: nat)
    requires Inv(s) && r < |s.replicas| && id in s.replicas[r].waits
    ensures id in s.ids
  {
    WaitingWasSubmitted(s, r, id);
  }

  lemma WaitsNext(nonces: seq<nat>, events: seq<Event>, states: seq<State>, i: nat, r: nat, id: nat, w: Wait)
    requires AlrMachine.IsRun(nonces, events, states) && i < |events| && WaitsWith(states[i], r, id, w)
    requires !EndsSubmit(events[i], r, id)
    ensures WaitsWith(states[i + 1], r, id, w)
  {
    assert id in states[i].ids by {
      A.RunKeeps(nonces, events, states, i);
      Waiters(states[i], r, id);
    }
    KeepsWaiting(states[i], events[i], states[i + 1], r, id, w);
  }

  lemma {:induction false} WaitsThrough(
      nonces: seq<nat>, events: seq<Event>, states: seq<State>, i: nat, j: nat, r: nat, id: nat, w: Wait)
    requires AlrMachine.IsRun(nonces, events, states) && i <= j < |states| && WaitsWith(states[i], r, id, w)
    requires forall k | i <= k < j :: !EndsSubmit(events[k], r, id)
    ensures WaitsWith(states[j], r, id, w)
    decreases j - i
  {
    if i < j {
      WaitsNext(nonces, events, states, i, r, id, w);
      WaitsThrough(nonces, events, states, i + 1, j, r, id, w);
    }
  }

  // ---------------------------------------------------------------- what the caller is told

  /** A word handed over to a Submit that waits for it and has heard nothing is what it has heard. */
  lemma HandedOver(s: State, e: Event, s': State)
    requires Enabled(s, e) && s' == Next(s, e) && Handed(s, e).Some?
    ensures var id, res, w := Handed(s, e).value.id, Handed(s, e).value.result, s.replicas[e.r].waits;
            id in w && w[id].got.None? ==> WaitsWith(s', e.r, id, w[id].(got := Some(res)))
  {
    WaitsStep(s, e, s');
  }

  lemma StartNoted(s: State, e: Event, s': State)
    requires Enabled(s, e) && s' == Next(s, e) && e.StartReturns? && e.isLeader
    ensures WaitsWith(s', e.r, e.id, s.replicas[e.r].waits[e.id].(term := Some(e.term)))
  {
    WaitsStep(s, e, s');
  }

  /** What the caller of a finished Submit is told, from what its Submit heard and what it sees of Raft. */
  ghost predicate Tells(s: State, s': State, r: nat, id: nat, req: Request, told: (Err, Option<Reply>)) {
    && r < |s.replicas| && s'.told == s.told + [Told(r, id, req, told, s.replicas[r].applied)]
    && (req.Put? && told.0 == OK && told.1.Some? ==>
          s'.trace == s.trace + [Return(id, InputOf(req), OutputOf(told.1.value), |s.log|)])
  }

  lemma FinishTells(s: State, e: Event, s': State, w: Wait)
    requires Enabled(s, e) && e.Finish? && s' == Next(s, e) && WaitsWith(s, e.r, e.id, w)
    requires w.got.Some? && w.term.Some?
    ensures Tells(s, s', e.r, e.id, w.req,
                  if w.got.value.Value? && e.isLeader && e.term == w.term.value
                  then (OK, Some(w.got.value.reply)) else (ErrWrongLeader, None))
  {
  }

  /**
   * Submit is complete: if Start returned with a term at event m and the reader handed something over for the id at
   * event i, to a Submit that had heard nothing, and the replica does not crash, then a Submit that returns at event j
   * tells its caller the reply to its entry, if it is leader in that term still, and ErrWrongLeader otherwise; so it
   * does when the entry was aborted.
   */
  lemma SubmitComplete(
      nonces: seq<nat>, events: seq<Event>, states: seq<State>, m: nat, i: nat, j: nat, req: Request, res: Result)
    requires AlrMachine.IsRun(nonces, events, states) && m < j < |events| && i < j
    requires events[m].StartReturns? && events[m].isLeader && events[j].Finish?
    requires events[m].r == events[j].r && events[m].id == events[j].id
    requires Enabled(states[i], events[i]) && Handed(states[i], events[i]) == Some(Word(events[j].id, res))
    requires events[i].r == events[j].r && WaitsWith(states[i], events[i].r, events[j].id, Wait(req, None, None))
    requires states[i].replicas[events[i].r].waits[events[j].id].got.None?
    requires forall k | 0 <= k < j && (m < k || i < k) :: !EndsSubmit(events[k], events[j].r, events[j].id)
    ensures Tells(states[j], states[j + 1], events[j].r, events[j].id, req,
                  if res.Value? && events[j].isLeader && events[j].term == events[m].term
                  then (OK, Some(res.reply)) else (ErrWrongLeader, None))
  {
    var r, id := events[j].r, events[j].id;
    HandedOver(states[i], events[i], states[i + 1]);
    StartNoted(states[m], events[m], states[m + 1]);
    var w, u := Wait(req, None, Some(res)), Wait(states[m].replicas[r].waits[id].req, Some(events[m].term), None);
    assert WaitsWith(states[i + 1], r, id, w) && WaitsWith(states[m + 1], r, id, u);
    WaitsThrough(nonces, events, states, i + 1, j, r, id, w);
    WaitsThrough(nonces, events, states, m + 1, j, r, id, u);
    FinishTells(states[j], events[j], states[j + 1], Wait(req, Some(events[m].term), Some(res)));
  }

  // ---------------------------------------------------------------- a reader that gets stuck

  /** Handing over leaves the reader free, unless the Submit that still waits for the id has received something. */
  lemma StuckIff(s: State, e: Event, s': State)
    requires Enabled(s, e) && s' == Next(s, e) && Handed(s, e).Some?
    ensures e.r < |s.replicas| == |s'.replicas|
    ensures var w, id := s.replicas[e.r].waits, Handed(s, e).value.id;
            s'.replicas[e.r].work == if id in w && w[id].got.Some? then Stuck else Free
  {
  }

  lemma StuckHere(s: State, e: Event, s': State)
    requires Enabled(s, e) && s' == Next(s, e) && !e.Commit? && !e.StraySync? && !e.Crash?
    requires s.replicas[e.r].work.Stuck? && |s'.replicas| == |s.replicas|
    ensures s'.replicas[e.r].work.Stuck? && s'.replicas[e.r].applied == s.replicas[e.r].applied
    ensures s'.replicas[e.r].store == s.replicas[e.r].store
  {
    if AtSubmit(e) { SubmitOnlyAt(s, e, s'); }
  }

  /** A stuck reader applies nothing more until the server restarts. */
  lemma {:induction false} StuckForGood(
      nonces: seq<nat>, events: seq<Event>, states: seq<State>, i: nat, j: nat, r: nat)
    requires AlrMachine.IsRun(nonces, events, states) && i <= j < |states| && r < |states[i].replicas|
    requires states[i].replicas[r].work.Stuck? && forall k | i <= k < j :: !(events[k].Crash? && events[k].r == r)
    ensures r < |states[j].replicas| && states[j].replicas[r].work.Stuck?
    ensures states[j].replicas[r].applied == states[i].replicas[r].applied
    ensures states[j].replicas[r].store == states[i].replicas[r].store
    decreases j
  {
    if i < j {
      StuckForGood(nonces, events, states, i, j - 1, r);
      StuckNext(nonces, events, states, j - 1, r);
    }
  }

  lemma StuckNext(nonces: seq<nat>, events: seq<Event>, states: seq<State>, i: nat, r: nat)
    requires AlrMachine.IsRun(nonces, events, states) && i < |events| && r < |states[i].replicas|
    requires states[i].replicas[r].work.Stuck? && !(events[i].Crash? && events[i].r == r)
    ensures r < |states[i + 1].replicas| && states[i + 1].replicas[r].work.Stuck?
    ensures states[i + 1].replicas[r].applied == states[i].replicas[r].applied
    ensures states[i + 1].replicas[r].store == states[i].replicas[r].store
  {
    var s, e, s' := states[i], events[i], states[i + 1];
    SameReplicas(s, e, s');
    if !e.Commit? && !e.StraySync? && e.r == r { StuckHere(s, e, s'); }
  }

  // ---------------------------------------------------------------- once

  /** No Submit has returned twice, and none that still waits has returned. */
  ghost predicate ToldOnce(s: State) {
    && (forall k, l | 0 <= k < l < |s.told| :: s.told[k].id != s.told[l].id)
    && (forall r, id, k | 0 <= r < |s.replicas| && id in s.replicas[r].waits && 0 <= k < |s.told| :: s.told[k].id != id)
  }

  lemma ToldWasSubmitted(s: State)
    requires Inv(s)
    ensures forall k | 0 <= k < |s.told| :: s.told[k].id in s.ids
  {
    forall k | 0 <= k < |s.told| ensures s.told[k].id in s.ids { assert ToldOK(s.told[k], s); }
  }

  /** Who waits after an event waited before, or was submitted by it. */
  lemma WaitersFrom(s: State, e: Event)
    requires Enabled(s, e) && !e.Commit? && !e.StraySync?
    ensures forall id | id in WaitsAfter(s, e) :: id in s.replicas[e.r].waits || id !in s.ids
    ensures e.Finish? || (e.StartReturns? && !e.isLeader) ==> e.id in s.replicas[e.r].waits && e.id !in WaitsAfter(s, e)
  {
  }

  lemma TellingOnce(s: State, e: Event, s': State)
    requires ToldOnce(s) && SubmitsOK(s) && (forall k | 0 <= k < |s.told| :: s.told[k].id in s.ids)
    requires !e.Commit? && !e.StraySync? && e.r < |s.replicas| == |s'.replicas| && Enabled(s, e)
    requires s'.replicas == s.replicas[e.r := s'.replicas[e.r]] && s'.replicas[e.r].waits == WaitsAfter(s, e)
    requires e.Finish? || (e.StartReturns? && !e.isLeader)
    requires |s'.told| == |s.told| + 1 && s'.told[..|s.told|] == s.told && s'.told[|s.told|].id == e.id
    ensures ToldOnce(s')
  {
    WaitersFrom(s, e);
    assert forall k | 0 <= k < |s.told| :: s'.told[k] == s.told[k];
    forall r, id, k | 0 <= r < |s'.replicas| && id in s'.replicas[r].waits && 0 <= k < |s'.told|
      ensures s'.told[k].id != id
    {
      if r < e.r { assert e.id !in s.replicas[r].waits; }
    }
  }

  lemma SilentOnce(s: State, e: Event, s': State)
    requires ToldOnce(s) && (forall k | 0 <= k < |s.told| :: s.told[k].id in s.ids) && s'.told == s.told
    requires !e.Commit? && !e.StraySync? && e.r < |s.replicas| == |s'.replicas| && Enabled(s, e)
    requires s'.replicas == s.replicas[e.r := s'.replicas[e.r]] && s'.replicas[e.r].waits == WaitsAfter(s, e)
    ensures ToldOnce(s')
  {
    WaitersFrom(s, e);
  }

  lemma StepToldOnce(s: State, e: Event, s': State)
    requires Inv(s) && ToldOnce(s) && Enabled(s, e) && s' == Next(s, e)
    ensures ToldOnce(s')
  {
    SameReplicas(s, e, s');
    if !e.Commit? && !e.StraySync? {
      ToldWasSubmitted(s);
      WaitsStep(s, e, s');
      if AtSubmit(e) { ToldStep(s, e, s'); }
      if e.Finish? || (e.StartReturns? && !e.isLeader) { TellingOnce(s, e, s'); } else { SilentOnce(s, e, s'); }
    }
  }

  /** Over a whole run every Submit returns at most once. */
  lemma {:induction false} SubmitReturnsOnce(nonces: seq<nat>, events: seq<Event>, states: seq<State>, i: nat)
    requires AlrMachine.IsRun(nonces, events, states) && i < |states|
    ensures ToldOnce(states[i])
  {
    if i > 0 {
      SubmitReturnsOnce(nonces, events, states, i - 1);
      A.RunKeeps(nonces, events, states, i - 1);
      StepToldOnce(states[i - 1], events[i - 1], states[i]);
    }
  }
}
