/**
 * The guarantees of almost-local reads over whole runs: what holds in every interleaving, and
 * linearizability, which holds in timely runs.
 */
module AlrTheorems {
  import opened Options
  import opened RaftTypes
  import opened KvStore
  import opened KvModel
  import opened Submits
  import opened AlrMachine
  import opened AlrInvariant
  import opened AlrSteps
  import opened AlrPromises
  import RL = ReplicatedLog

  lemma {:induction false} RunKeeps(nonces: seq<nat>, events: seq<Event>, states: seq<State>, i: nat)
    requires AlrMachine.IsRun(nonces, events, states) && i < |states|
    ensures Inv(states[i])
  {
    if i == 0 {
      InitOK(nonces);
    } else {
      RunKeeps(nonces, events, states, i - 1);
      StepKeeps(states[i - 1], events[i - 1], states[i]);
    }
  }

  // ---------------------------------------------------------------- promises

  /** Through state i, a run whose first i events are timely keeps all promises. */
  lemma {:induction false} RunKept(nonces: seq<nat>, events: seq<Event>, states: seq<State>, i: nat)
    requires AlrMachine.IsRun(nonces, events, states) && i < |states|
    requires forall k | 0 <= k < i :: Timely(states[k], events[k])
    ensures AllKept(states[i]) && Current(states[i])
  {
    if i > 0 {
      RunKept(nonces, events, states, i - 1);
      RunKeeps(nonces, events, states, i - 1);
      StepKept(states[i - 1], events[i - 1], states[i]);
      StepCurrent(states[i - 1], events[i - 1], states[i]);
    }
  }

  /** The Gets a sync was sent for are the ones it releases, throughout a run, if and only if the run is timely. */
  lemma PromisesHoldIffTimely(nonces: seq<nat>, events: seq<Event>, states: seq<State>)
    requires AlrMachine.IsRun(nonces, events, states)
    ensures AllTimely(events, states) <==> forall i | 0 <= i < |states| :: AllKept(states[i])
  {
    if AllTimely(events, states) {
      forall i | 0 <= i < |states| ensures AllKept(states[i]) { RunKept(nonces, events, states, i); }
    } else if forall i | 0 <= i < |states| :: AllKept(states[i]) {
      forall k | 0 <= k < |events| ensures Timely(states[k], events[k]) {
        RunKeeps(nonces, events, states, k);
        StepKept(states[k], events[k], states[k + 1]);
      }
    }
  }

  lemma {:induction false} RunCovered(nonces: seq<nat>, events: seq<Event>, states: seq<State>, i: nat)
    requires AlrMachine.IsRun(nonces, events, states) && i < |states|
    requires forall k | 0 <= k < i :: !ReadsEarly(states[k], events[k])
    ensures AllCovered(states[i])
  {
    if i > 0 {
      RunCovered(nonces, events, states, i - 1);
      RunKeeps(nonces, events, states, i - 1);
      StepCovered(states[i - 1], events[i - 1], states[i]);
    }
  }

  /**
   * The queue length covers all that will be subtracted, throughout a run, if and only if it is never read too early.
   */
  lemma LengthCoversIff(nonces: seq<nat>, events: seq<Event>, states: seq<State>)
    requires AlrMachine.IsRun(nonces, events, states)
    ensures (forall i | 0 <= i < |states| :: AllCovered(states[i])) <==>
            forall k | 0 <= k < |events| :: !ReadsEarly(states[k], events[k])
  {
    if forall k | 0 <= k < |events| :: !ReadsEarly(states[k], events[k]) {
      forall i | 0 <= i < |states| ensures AllCovered(states[i]) { RunCovered(nonces, events, states, i); }
    } else if forall i | 0 <= i < |states| :: AllCovered(states[i]) {
      forall k | 0 <= k < |events| ensures !ReadsEarly(states[k], events[k]) {
        RunKeeps(nonces, events, states, k);
        StepCovered(states[k], events[k], states[k + 1]);
      }
    }
  }

  /** The queue length is never negative unless it is read between the new nonce and the subtraction. */
  lemma LengthNeverNegative(nonces: seq<nat>, events: seq<Event>, states: seq<State>, i: nat, r: nat)
    requires AlrMachine.IsRun(nonces, events, states) && i < |states| && r < |states[i].replicas|
    requires forall k | 0 <= k < i :: !ReadsEarly(states[k], events[k])
    ensures states[i].replicas[r].queueLen >= 0
  {
    RunCovered(nonces, events, states, i);
  }

  /** In a timely run a release that finds the queue empty waits for a Get already counted. */
  lemma PromisedGetsCome(nonces: seq<nat>, events: seq<Event>, states: seq<State>, i: nat, r: nat)
    requires AlrMachine.IsRun(nonces, events, states) && AllTimely(events, states) && i < |states|
    requires r < |states[i].replicas|
    ensures var rep := states[i].replicas[r];
            rep.work.Draining? && rep.work.left > 0 && rep.queue == [] ==> Missing(rep, rep.work.limit)
  {
    var rep := states[i].replicas[r];
    RunKept(nonces, events, states, i);
    if rep.work.Draining? && rep.queue == [] { CountBounds(rep.arriving, rep.work.limit); }
  }

  // ---------------------------------------------------------------- the linear order

  /** An operation placed at an index of the log: a Put at its own entry, a Get at the sync entry that released it. */
  datatype LinOp = LinOp(id: nat, input: KvInput, output: KvOutput, pos: nat)

  function OpsAt(s: State, p: nat): seq<LinOp>
    requires p < |s.log|
  {
    if s.log[p].Command? && s.log[p].req.Put? then
      [LinOp(s.log[p].id, InputOf(s.log[p].req), OutputOf(Answer(StoreAt(s.log, p), s.log[p].req)), p)]
    else if p in s.batches then
      var b := s.batches[p];
      seq(|b|, j requires 0 <= j < |b| => LinOp(b[j].id, KvGet(b[j].key), OutputOf(b[j].reply), p))
    else []
  }

  /** The operations placed at the first n indices, in log order and, within a batch, in queue order. */
  function Line(s: State, n: nat): seq<LinOp>
    requires n <= |s.log|
  {
    if n == 0 then [] else Line(s, n - 1) + OpsAt(s, n - 1)
  }

  function RequestOf(input: KvInput): Request {
    match input
    case KvGet(key) => Get(key)
    case KvPut(key, value, version) => Put(key, value, version)
  }

  function RequestsOf(line: seq<LinOp>): seq<Request> {
    seq(|line|, i requires 0 <= i < |line| => RequestOf(line[i].input))
  }

  function OpsOf(line: seq<LinOp>): seq<KvOp> {
    seq(|line|, i requires 0 <= i < |line| => KvOp(line[i].input, line[i].output))
  }

  // ---------------------------------------------------------------- where operations are in the line

  lemma {:induction false} LineLength(s: State, p: nat, n: nat)
    requires p < n <= |s.log|
    ensures |Line(s, p)| + |OpsAt(s, p)| <= |Line(s, n)|
    decreases n
  {
    if p + 1 < n { LineLength(s, p, n - 1); }
  }

  lemma {:induction false} LineHas(s: State, p: nat, j: nat, n: nat)
    requires p < n <= |s.log| && j < |OpsAt(s, p)|
    ensures |Line(s, p)| + j < |Line(s, n)| && Line(s, n)[|Line(s, p)| + j] == OpsAt(s, p)[j]
    decreases n
  {
    assert Line(s, n) == Line(s, n - 1) + OpsAt(s, n - 1);
    if p + 1 < n { LineHas(s, p, j, n - 1); }
  }

  /** Every element of the line comes from some index. */
  lemma {:induction false} LineFrom(s: State, n: nat, i: nat) returns (p: nat, j: nat)
    requires n <= |s.log| && i < |Line(s, n)|
    ensures p < n && j < |OpsAt(s, p)| && i == |Line(s, p)| + j && Line(s, n)[i] == OpsAt(s, p)[j]
    ensures Line(s, n)[i].pos == p
    decreases n
  {
    if i < |Line(s, n - 1)| { p, j := LineFrom(s, n - 1, i); } else { p, j := n - 1, i - |Line(s, n - 1)|; }
  }

  /** Positions order the line. */
  lemma LineOrdered(s: State, n: nat, i: nat, k: nat)
    requires n <= |s.log| && i < |Line(s, n)| && k < |Line(s, n)| && Line(s, n)[i].pos < Line(s, n)[k].pos
    ensures i < k
  {
    var p, j := LineFrom(s, n, i);
    var q, l := LineFrom(s, n, k);
    LineLength(s, p, q);
  }

  /** What an element of the line is: the Put at its index, or an answered Get of the batch there. */
  lemma OpIs(s: State, p: nat, j: nat, op: LinOp)
    requires Inv(s) && p < |s.log| && j < |OpsAt(s, p)| && op == OpsAt(s, p)[j]
    ensures op.id in s.calls && s.calls[op.id].input == op.input && op.pos == p
            && (Current(s) ==> s.calls[op.id].at <= p)
    ensures op.input.KvPut? ==> s.log[p].Command? && s.log[p].req.Put? && s.log[p].id == op.id && j == 0
    ensures op.input.KvGet? ==> InBatch(s, p, j, op.id)
  {
    assert EntryOK(p, s.log[p], s) && SubOK(s.log[p].id, s.log[p].req, s.calls, s.syncs);
    if !s.log[p].req.Put? {
      assert BatchOK(p, s.batches[p], s.log, s.calls) && AnsweredOK(s.batches[p][j], p, s.log, s.calls);
    }
  }

  lemma SamePlace(s: State, p: nat, j: nat, q: nat, l: nat, op: LinOp, op': LinOp)
    requires Inv(s) && p < |s.log| && j < |OpsAt(s, p)| && op == OpsAt(s, p)[j]
    requires q < |s.log| && l < |OpsAt(s, q)| && op' == OpsAt(s, q)[l] && op.id == op'.id
    ensures p == q && j == l
  {
    OpIs(s, p, j, op);
    OpIs(s, q, l, op');
    assert op.input == op'.input;
  }

  lemma LineIdsDistinct(s: State, i: nat, k: nat)
    requires Inv(s) && i < |Line(s, |s.log|)| && k < |Line(s, |s.log|)|
             && Line(s, |s.log|)[i].id == Line(s, |s.log|)[k].id
    ensures i == k
  {
    var n := |s.log|;
    var p, j := LineFrom(s, n, i);
    var q, l := LineFrom(s, n, k);
    SamePlace(s, p, j, q, l, Line(s, n)[i], Line(s, n)[k]);
  }

  lemma GetPlaced(s: State, p: nat, id: nat, input: KvInput, output: KvOutput) returns (j: nat)
    requires Inv(s) && input.KvGet? && PlacedAt(s, p, id, input, output)
    ensures j < |OpsAt(s, p)| && OpsAt(s, p)[j] == LinOp(id, input, output, p)
  {
    j :| BatchHas(s, p, j, id, input.key, output);
    assert BatchOK(p, s.batches[p], s.log, s.calls);
  }

  lemma PutPlaced(s: State, p: nat, id: nat, input: KvInput, output: KvOutput)
    requires input.KvPut? && PlacedAt(s, p, id, input, output)
    ensures OpsAt(s, p) == [LinOp(id, input, output, p)]
  {
  }

  lemma Placed(s: State, p: nat, id: nat, input: KvInput, output: KvOutput) returns (j: nat)
    requires Inv(s) && PlacedAt(s, p, id, input, output)
    ensures j < |OpsAt(s, p)| && OpsAt(s, p)[j] == LinOp(id, input, output, p)
  {
    if input.KvGet? { j := GetPlaced(s, p, id, input, output); } else { PutPlaced(s, p, id, input, output); j := 0; }
  }

  lemma PlacedInLine(s: State, p: nat, j: nat, op: LinOp) returns (i: nat)
    requires p < |s.log| && j < |OpsAt(s, p)| && OpsAt(s, p)[j] == op
    ensures i < |Line(s, |s.log|)| && Line(s, |s.log|)[i] == op
  {
    LineHas(s, p, j, |s.log|);
    i := |Line(s, p)| + j;
  }

  /** A returned operation is in the line, with the output it was told, at an index the log had when it returned. */
  lemma ReturnInLine(s: State, k: nat) returns (i: nat)
    requires Inv(s) && k < |s.trace| && s.trace[k].Return?
    ensures i < |Line(s, |s.log|)| && Line(s, |s.log|)[i].pos < s.trace[k].at
    ensures var a, op := s.trace[k], Line(s, |s.log|)[i]; op == LinOp(a.id, a.input, a.output, op.pos)
  {
    var a := s.trace[k];
    assert ReturnOK(a, s) by { assert ActionOK(a, s); }
    var p: nat :| p < a.at && PlacedAt(s, p, a.id, a.input, a.output);
    var j := Placed(s, p, a.id, a.input, a.output);
    i := PlacedInLine(s, p, j, LinOp(a.id, a.input, a.output, p));
  }

  // ---------------------------------------------------------------- the line is a sequential history

  lemma TraceAppend(reqs: seq<Request>, req: Request)
    requires !req.Sync?
    ensures Trace(reqs + [req]) == Trace(reqs) + [KvOp(InputOf(req), OutputOf(Answer(Replay(reqs), req)))]
    ensures Replay(reqs + [req]) == Execute(Replay(reqs), req)
  {
    assert (reqs + [req])[..|reqs|] == reqs;
  }

  /** Gets answered from the store they are placed at extend a sequential history. */
  lemma {:induction false} GetsExtend(line: seq<LinOp>, gets: seq<LinOp>, st: Store)
    requires Trace(RequestsOf(line)) == OpsOf(line) && Replay(RequestsOf(line)) == st
    requires forall j | 0 <= j < |gets| ::
             gets[j].input.KvGet? && gets[j].output == OutputOf(Lookup(st, gets[j].input.key))
    ensures Trace(RequestsOf(line + gets)) == OpsOf(line + gets) && Replay(RequestsOf(line + gets)) == st
    decreases gets
  {
    if gets == [] {
      assert line + gets == line;
    } else {
      var n := |gets| - 1;
      GetsExtend(line, gets[..n], st);
      var l := line + gets[..n];
      assert line + gets == l + [gets[n]];
      assert RequestsOf(l + [gets[n]]) == RequestsOf(l) + [RequestOf(gets[n].input)];
      assert OpsOf(l + [gets[n]]) == OpsOf(l) + [KvOp(gets[n].input, gets[n].output)];
      TraceAppend(RequestsOf(l), RequestOf(gets[n].input));
    }
  }

  lemma PutExtends(line: seq<LinOp>, op: LinOp, st: Store)
    requires Trace(RequestsOf(line)) == OpsOf(line) && Replay(RequestsOf(line)) == st
    requires op.input.KvPut? && op.output == OutputOf(Answer(st, RequestOf(op.input)))
    ensures Trace(RequestsOf(line + [op])) == OpsOf(line + [op])
            && Replay(RequestsOf(line + [op])) == Execute(st, RequestOf(op.input))
  {
    assert RequestsOf(line + [op]) == RequestsOf(line) + [RequestOf(op.input)];
    assert OpsOf(line + [op]) == OpsOf(line) + [KvOp(op.input, op.output)];
    TraceAppend(RequestsOf(line), RequestOf(op.input));
  }

  /** The Gets of a batch were answered from the store at their place. */
  lemma BatchAnswered(s: State, p: nat, ops: seq<LinOp>, st: Store)
    requires Inv(s) && p < |s.log| && !s.log[p].req.Put? && ops == OpsAt(s, p) && st == StoreAt(s.log, p)
    ensures forall j | 0 <= j < |ops| :: ops[j].input.KvGet? && ops[j].output == OutputOf(Lookup(st, ops[j].input.key))
  {
    forall j | 0 <= j < |ops| ensures ops[j].input.KvGet? && ops[j].output == OutputOf(Lookup(st, ops[j].input.key)) {
      assert BatchOK(p, s.batches[p], s.log, s.calls) && AnsweredOK(s.batches[p][j], p, s.log, s.calls);
    }
  }

  lemma LineStep(s: State, p: nat, line: seq<LinOp>, ops: seq<LinOp>, st: Store)
    requires Inv(s) && p < |s.log| && ops == OpsAt(s, p) && st == StoreAt(s.log, p)
    requires Trace(RequestsOf(line)) == OpsOf(line) && Replay(RequestsOf(line)) == st
    ensures Trace(RequestsOf(line + ops)) == OpsOf(line + ops)
    ensures Replay(RequestsOf(line + ops)) == StoreAt(s.log, p + 1)
  {
    var cmd := s.log[p];
    assert EntryOK(p, cmd, s) && SubOK(cmd.id, cmd.req, s.calls, s.syncs);
    StoreAtStep(s.log, p);
    if cmd.req.Put? {
      PutExtends(line, ops[0], st);
    } else {
      BatchAnswered(s, p, ops, st);
      GetsExtend(line, ops, st);
    }
  }

  /** Executing the first n indices' operations one by one gives every one the answer it got, and the store there. */
  ghost predicate Sequential(s: State, n: nat)
    requires n <= |s.log|
  {
    && Trace(RequestsOf(Line(s, n))) == OpsOf(Line(s, n))
    && Replay(RequestsOf(Line(s, n))) == StoreAt(s.log, n)
  }

  lemma EmptyLine(s: State)
    ensures Sequential(s, 0)
  {
    assert s.log[..0] == [] && Requests([]) == [];
  }

  lemma SequentialStep(s: State, p: nat)
    requires Inv(s) && p < |s.log| && Sequential(s, p)
    ensures Sequential(s, p + 1)
  {
    LineStep(s, p, Line(s, p), OpsAt(s, p), StoreAt(s.log, p));
  }

  /** The line is a sequential history, and ends in the store of the log. */
  lemma {:induction false} LineIsSequential(s: State, n: nat)
    requires Inv(s) && n <= |s.log|
    ensures Sequential(s, n)
  {
    if n == 0 {
      EmptyLine(s);
    } else {
      LineIsSequential(s, n - 1);
      SequentialStep(s, n - 1);
    }
  }

  // ---------------------------------------------------------------- linearizability

  ghost predicate CalledIn(trace: seq<Action>, id: nat, input: KvInput) {
    exists k | 0 <= k < |trace| :: trace[k].Call? && trace[k].id == id && trace[k].input == input
  }

  ghost predicate Has(line: seq<LinOp>, id: nat, input: KvInput, output: KvOutput) {
    exists i | 0 <= i < |line| :: line[i].id == id && line[i].input == input && line[i].output == output
  }

  /** What returned before another was called comes before it in the line. */
  ghost predicate RespectsRealTime(trace: seq<Action>, line: seq<LinOp>) {
    forall k, l, i, j | 0 <= k < l < |trace| && trace[k].Return? && trace[l].Call? && 0 <= i < |line| && 0 <= j < |line|
      && line[i].id == trace[k].id && line[j].id == trace[l].id :: i < j
  }

  /**
   * line is a linearization of what clients saw: it holds only operations they called, each once, every
   * returned operation with the output it returned, in an order that respects real time, and executing it
   * sequentially gives exactly those outputs, which the model of src/models1/kv.go accepts key by key.
   */
  ghost predicate IsLinearization(trace: seq<Action>, line: seq<LinOp>) {
    && (forall i | 0 <= i < |line| :: CalledIn(trace, line[i].id, line[i].input))
    && (forall i, k | 0 <= i < k < |line| :: line[i].id != line[k].id)
    && (forall k | 0 <= k < |trace| && trace[k].Return? :: Has(line, trace[k].id, trace[k].input, trace[k].output))
    && RespectsRealTime(trace, line)
    && Trace(RequestsOf(line)) == OpsOf(line)
    && (forall key | key != SyncKey :: KvModel.Accepts(Project(OpsOf(line), key)))
  }

  /** Nothing is in the line that was not called. */
  lemma LineCalled(s: State, i: nat)
    requires Inv(s) && i < |Line(s, |s.log|)|
    ensures CalledIn(s.trace, Line(s, |s.log|)[i].id, Line(s, |s.log|)[i].input)
  {
    var p, j := LineFrom(s, |s.log|, i);
    var op := Line(s, |s.log|)[i];
    OpIs(s, p, j, op);
    var k :| 0 <= k < |s.trace| && s.trace[k] == Call(op.id, s.calls[op.id].input, s.calls[op.id].at);
  }

  lemma CalledBefore(s: State, l: nat, j: nat)
    requires Inv(s) && Current(s) && l < |s.trace| && s.trace[l].Call? && j < |Line(s, |s.log|)|
             && Line(s, |s.log|)[j].id == s.trace[l].id
    ensures s.trace[l].at <= Line(s, |s.log|)[j].pos
  {
    assert ActionOK(s.trace[l], s);
    var q, m := LineFrom(s, |s.log|, j);
    OpIs(s, q, m, Line(s, |s.log|)[j]);
  }

  /** An operation answered before another is called comes before it in the line. */
  lemma RealTime(s: State, k: nat, l: nat, i: nat, j: nat)
    requires Inv(s) && Current(s) && k < l < |s.trace| && s.trace[k].Return? && s.trace[l].Call?
    requires i < |Line(s, |s.log|)| && j < |Line(s, |s.log|)|
    requires Line(s, |s.log|)[i].id == s.trace[k].id && Line(s, |s.log|)[j].id == s.trace[l].id
    ensures i < j
  {
    var i' := ReturnInLine(s, k);
    LineIdsDistinct(s, i, i');
    CalledBefore(s, l, j);
    assert s.trace[k].at <= s.trace[l].at;
    LineOrdered(s, |s.log|, i, j);
  }

  lemma LineRealTime(s: State, line: seq<LinOp>)
    requires Inv(s) && Current(s) && line == Line(s, |s.log|)
    ensures RespectsRealTime(s.trace, line)
  {
    forall k, l, i, j | 0 <= k < l < |s.trace| && s.trace[k].Return? && s.trace[l].Call? && 0 <= i < |line|
        && 0 <= j < |line|
                        && line[i].id == s.trace[k].id && line[j].id == s.trace[l].id
      ensures i < j
    {
      RealTime(s, k, l, i, j);
    }
  }

  lemma LineHasReturns(s: State, line: seq<LinOp>)
    requires Inv(s) && line == Line(s, |s.log|)
    ensures forall k | 0 <= k < |s.trace| && s.trace[k].Return? ::
            Has(line, s.trace[k].id, s.trace[k].input, s.trace[k].output)
  {
    forall k | 0 <= k < |s.trace| && s.trace[k].Return?
      ensures Has(line, s.trace[k].id, s.trace[k].input, s.trace[k].output)
    {
      var i := ReturnInLine(s, k);
    }
  }

  lemma StateLinearizable(s: State)
    requires Inv(s) && Current(s)
    ensures IsLinearization(s.trace, Line(s, |s.log|))
  {
    var line := Line(s, |s.log|);
    forall i | 0 <= i < |line| ensures CalledIn(s.trace, line[i].id, line[i].input) { LineCalled(s, i); }
    forall i, k | 0 <= i < k < |line| ensures line[i].id != line[k].id {
      if line[i].id == line[k].id { LineIdsDistinct(s, i, k); }
    }
    LineHasReturns(s, line);
    LineRealTime(s, line);
    LineIsSequential(s, |s.log|);
    forall key | key != SyncKey ensures KvModel.Accepts(Project(OpsOf(line), key)) {
      StoreRefinesModel(RequestsOf(line), key);
    }
  }

  /** Linearizability: every state of every timely run is explained by one sequential order of the operations. */
  lemma Linearizable(nonces: seq<nat>, events: seq<Event>, states: seq<State>, i: nat)
    requires AlrMachine.IsRun(nonces, events, states) && AllTimely(events, states) && i < |states|
    ensures IsLinearization(states[i].trace, Line(states[i], |states[i].log|))
  {
    RunKeeps(nonces, events, states, i);
    RunKept(nonces, events, states, i);
    StateLinearizable(states[i]);
  }

  function ReplyOf(output: KvOutput): Reply { GetReply(output.value, output.version, output.err) }

  /**
   * In every run a Get returns what the log up to its sync entry produces, whichever replica answered it: the
   * number of Puts to the key that went through there and the last one's value.  In a timely run that entry was
   * committed after the Get was called.
   */
  lemma GetIsCurrent(nonces: seq<nat>, events: seq<Event>, states: seq<State>, i: nat, k: nat, l: nat) returns (p: nat)
    requires AlrMachine.IsRun(nonces, events, states) && i < |states| && k < |states[i].trace| && l < |states[i].trace|
    requires states[i].trace[k].Call? && states[i].trace[l].Return? && states[i].trace[k].id == states[i].trace[l].id
    requires states[i].trace[l].input.KvGet?
    ensures var a := states[i].trace[l];
            && p < a.at && p < |states[i].log|
            && a.output == OutputOf(Lookup(StoreAt(states[i].log, p), a.input.key))
            && TellsAll(Requests(states[i].log), a.input.key, p, ReplyOf(a.output))
            && (AllTimely(events, states) ==> states[i].trace[k].at <= p)
  {
    var s := states[i];
    RunKeeps(nonces, events, states, i);
    var a := s.trace[l];
    assert ActionOK(s.trace[k], s) && ActionOK(a, s);
    p :| p < a.at && PlacedAt(s, p, a.id, a.input, a.output);
    var j: nat :| BatchHas(s, p, j, a.id, a.input.key, a.output);
    assert BatchOK(p, s.batches[p], s.log, s.calls) && AnsweredOK(s.batches[p][j], p, s.log, s.calls);
    assert Requests(s.log)[..p] == Requests(s.log[..p]);
    GetTellsAll(Requests(s.log), a.input.key, p);
    if AllTimely(events, states) { RunKept(nonces, events, states, i); }
  }

  // ---------------------------------------------------------------- read batches

  /**
   * Read-batch conservation, in every interleaving: every Get a replica counted since it started is on its
   * way, queued or answered; Gets are answered in queue order, each one once, and clients see them answered
   * in that order; the queue length is the number of Gets waiting less those the running release will take.
   */
  lemma BatchConservation(nonces: seq<nat>, events: seq<Event>, states: seq<State>, i: nat, r: nat)
    requires AlrMachine.IsRun(nonces, events, states) && i < |states| && r < |states[i].replicas|
    ensures var rep := states[i].replicas[r];
            && multiset(rep.came) == multiset(rep.went) + multiset(IdsOf(rep.queue)) + multiset(IdsOf(rep.arriving))
            && rep.entered == rep.went + IdsOf(rep.queue)
            && rep.queueLen == |rep.arriving| + |rep.queue| - LeftOf(rep.work)
            && (forall g | g in rep.queue + rep.arriving :: g.id in rep.chans && !Returned(states[i].trace, g.id))
            && AnsweredInOrder(rep.went, states[i].trace)
    ensures forall k, l | 0 <= k < l < |states[i].trace| && states[i].trace[k].Return? && states[i].trace[l].Return? ::
              states[i].trace[k].id != states[i].trace[l].id
  {
    var s := states[i];
    RunKeeps(nonces, events, states, i);
    var rep := s.replicas[r];
    assert ReplicaOK(rep, r, s);
    forall g | g in rep.queue + rep.arriving ensures g.id in rep.chans && !Returned(s.trace, g.id) {
      assert GetOK(g, rep, s.calls);
    }
  }

  /** The panic is unreachable: the Get at the head of a queue always has its channel. */
  lemma ReleaseNeverPanics(nonces: seq<nat>, events: seq<Event>, states: seq<State>, i: nat, r: nat)
    requires AlrMachine.IsRun(nonces, events, states) && i < |states| && r < |states[i].replicas|
    requires states[i].replicas[r].work.Draining? && states[i].replicas[r].work.left > 0
             && states[i].replicas[r].queue != []
    ensures Enabled(states[i], Dequeue(r))
  {
    RunKeeps(nonces, events, states, i);
    assert ReplicaOK(states[i].replicas[r], r, states[i]);
    assert GetOK(states[i].replicas[r].queue[0], states[i].replicas[r], states[i].calls);
  }

  lemma NonceStep(s: State, e: Event, s': State, r: nat, v: nat)
    requires Enabled(s, e) && s' == Next(s, e) && r < |s.replicas| && v in s.nonces && s.replicas[r].nonce != v
    ensures r < |s'.replicas| && v in s'.nonces && s'.replicas[r].nonce != v
  {
    SameReplicas(s, e, s');
    if !e.Commit? && !e.StraySync? { NonceAt(s, e, s'); }
  }

  /** A replica keeps its nonce or draws a new one. */
  lemma NonceAt(s: State, e: Event, s': State)
    requires Enabled(s, e) && s' == Next(s, e) && !e.Commit? && !e.StraySync? && |s'.replicas| == |s.replicas|
    ensures s.nonces <= s'.nonces && (s'.replicas[e.r].nonce == s.replicas[e.r].nonce
            || s'.replicas[e.r].nonce !in s.nonces)
  {
    if AtReader(e) { ReaderNonce(s, e, s'); } else { OthersNonce(s, e, s'); }
  }

  lemma ReaderNonce(s: State, e: Event, s': State)
    requires Enabled(s, e) && s' == Next(s, e) && AtReader(e) && |s'.replicas| == |s.replicas|
    ensures s.nonces <= s'.nonces
    ensures s'.replicas[e.r].nonce == s.replicas[e.r].nonce || s'.replicas[e.r].nonce !in s.nonces
  {
  }

  lemma OthersNonce(s: State, e: Event, s': State)
    requires Enabled(s, e) && s' == Next(s, e) && !AtReader(e) && !e.Commit? && !e.StraySync?
    requires |s'.replicas| == |s.replicas|
    ensures s.nonces <= s'.nonces
    ensures s'.replicas[e.r].nonce == s.replicas[e.r].nonce || s'.replicas[e.r].nonce !in s.nonces
  {
    if AtSubmit(e) { SubmitOnlyAt(s, e, s'); }
  }

  /**
   * A nonce a replica has dropped, because its sync released, was abandoned or the replica crashed, never
   * comes back to it: no entry that carries it releases anything there, however often it is applied.
   */
  lemma {:induction false} DroppedNonceNeverReleases(
      nonces: seq<nat>, events: seq<Event>, states: seq<State>, i: nat, j: nat, r: nat, v: nat)
    requires AlrMachine.IsRun(nonces, events, states) && i <= j < |states| && r < |states[i].replicas|
    requires v in states[i].nonces && states[i].replicas[r].nonce != v
    ensures r < |states[j].replicas| && v in states[j].nonces && states[j].replicas[r].nonce != v
    ensures forall server, count :: !Releases(states[j].replicas[r], r, Sync(server, count, v))
    decreases j
  {
    if i < j {
      DroppedNonceNeverReleases(nonces, events, states, i, j - 1, r, v);
      NonceStep(states[j - 1], events[j - 1], states[j], r, v);
    }
  }

  /** A sync entry releases at most once: afterwards its nonce is gone everywhere. */
  lemma SpentReleasesNothing(nonces: seq<nat>, events: seq<Event>, states: seq<State>, i: nat, p: nat, q: nat, r: nat)
    requires AlrMachine.IsRun(nonces, events, states) && i < |states| && r < |states[i].replicas|
    requires p in states[i].batches && q < |states[i].log|
    ensures var log := states[i].log;
            p < |log| && log[p].Command? && log[q].Command?
            && (log[q].req.Sync? && log[p].req.Sync? && log[q].req.nonce == log[p].req.nonce ==>
                  !Releases(states[i].replicas[r], r, log[q].req))
  {
    var s := states[i];
    RunKeeps(nonces, events, states, i);
    assert BatchOK(p, s.batches[p], s.log, s.calls) && EntryOK(q, s.log[q], s);
  }

  /** A replica's nonce is out in the log only while its sync goroutine waits for exactly that sync. */
  lemma OneLiveSync(nonces: seq<nat>, events: seq<Event>, states: seq<State>, i: nat, p: nat, r: nat)
    requires AlrMachine.IsRun(nonces, events, states) && i < |states| && r < |states[i].replicas| && p < |states[i].log|
    requires states[i].log[p].Command? && states[i].log[p].req.Sync?
             && states[i].log[p].req.nonce == states[i].replicas[r].nonce
    ensures var rep, req := states[i].replicas[r], states[i].log[p].req;
            && req.server == r && (rep.pc.Sent? || rep.pc.Confirmed?)
            && rep.pc.nonce == rep.nonce && rep.pc.count == req.count > 0
  {
    var s := states[i];
    RunKeeps(nonces, events, states, i);
    assert EntryOK(p, s.log[p], s) && SubOK(s.log[p].id, s.log[p].req, s.calls, s.syncs)
        && ReplicaOK(s.replicas[r], r, s);
    assert LiveSync(s.replicas[r], r, s.syncs[s.replicas[r].nonce], s.calls);
  }

  /** Replica agreement: a store is the replay of what was applied, so replicas at the same index have equal stores. */
  lemma ReplicasAgree(nonces: seq<nat>, events: seq<Event>, states: seq<State>, i: nat, r: nat, q: nat)
    requires AlrMachine.IsRun(nonces, events, states) && i < |states| && r < |states[i].replicas|
             && q < |states[i].replicas|
    ensures var s := states[i];
            && s.replicas[r].applied <= |s.log| && s.replicas[r].store == StoreAt(s.log, s.replicas[r].applied)
            && (s.replicas[r].applied == s.replicas[q].applied ==> s.replicas[r].store == s.replicas[q].store)
  {
    var s := states[i];
    RunKeeps(nonces, events, states, i);
    assert ReplicaOK(s.replicas[r], r, s) && ReplicaOK(s.replicas[q], q, s);
  }

  // ---------------------------------------------------------------- Submit

  /**
   * t is sound: OK means exactly one entry with the submitted id is in the log, at p, it is the submitted
   * request, the replica had applied it, and the reply is the store's at that place; else ErrWrongLeader.
   */
  ghost predicate Sound(log: seq<Command>, t: Told, p: nat) {
    if t.result.0 == OK then
      && p < |log| && p < t.applied && log[p] == Command(t.id, t.req)
      && t.result == (OK, Some(Answer(StoreAt(log, p), t.req)))
      && forall q | 0 <= q < |log| :: log[q].Command? && (log[q].id == t.id ==> q == p)
    else t.result == (ErrWrongLeader, None)
  }

  lemma ToldSound(s: State, k: nat) returns (p: nat)
    requires Inv(s) && k < |s.told|
    ensures Sound(s.log, s.told[k], p)
  {
    var t := s.told[k];
    assert ToldOK(t, s);
    p := 0;
    if t.result.0 == OK {
      p :| EntryAt(s.log, p, t.id, t.req) && p < t.applied && t.result.1.value == Answer(StoreAt(s.log, p), t.req);
      forall q | 0 <= q < |s.log|
        ensures s.log[q].Command? && (s.log[q].id == t.id ==> q == p)
      {
        assert EntryOK(q, s.log[q], s);
      }
    }
  }

  /** Submit soundness, of every Submit at every replica of every run. */
  lemma SubmitSound(nonces: seq<nat>, events: seq<Event>, states: seq<State>, i: nat, k: nat) returns (p: nat)
    requires AlrMachine.IsRun(nonces, events, states) && i < |states| && k < |states[i].told|
    ensures Sound(states[i].log, states[i].told[k], p)
  {
    RunKeeps(nonces, events, states, i);
    p := ToldSound(states[i], k);
  }

  /**
   * KVServer.Put: if Submit returned OK the RPC is answered what the store said at the one entry with the Put's id,
   * and ErrWrongLeader otherwise.
   */
  lemma PutAnswerSound(s: State, k: nat) returns (p: nat)
    requires Inv(s) && k < |s.told| && s.told[k].req.Put?
    ensures var t := s.told[k];
            if t.result.0 == OK then
              && p < |s.log| && s.log[p] == Command(t.id, t.req)
              && PutAnswer(t.result) == Answer(StoreAt(s.log, p), t.req)
              && PutAnswer(t.result) in {PutReply(OK), PutReply(ErrVersion)}
              && forall q | 0 <= q < |s.log| :: s.log[q].Command? && (s.log[q].id == t.id ==> q == p)
            else PutAnswer(t.result) == PutReply(ErrWrongLeader)
  {
    p := ToldSound(s, k);
  }

  // ---------------------------------------------------------------- the log below

  /** How many entries the reader has received. */
  function TakenBy(rep: Replica): nat { rep.applied + if Working(rep) then 1 else 0 }

  function SharedOf(s: State): RL.Shared {
    RL.Shared(s.log, seq(|s.replicas|, r requires 0 <= r < |s.replicas| => TakenBy(s.replicas[r])))
  }

  function MoveOf(s: State, e: Event): RL.Move
    requires Enabled(s, e)
  {
    match e
    case Apply(r, _) => RL.Take(r, s.log[s.replicas[r].applied])
    case Crash(r, _) => RL.Forget(r)
    case _ => RL.Grow
  }

  lemma TakenAt(s: State, r: nat, rep': Replica, s': State)
    requires r < |s.replicas| && s'.replicas == s.replicas[r := rep']
    ensures SharedOf(s').applied == SharedOf(s).applied[r := TakenBy(rep')]
  {
  }

  /** What an event makes of the number of entries its replica has received. */
  lemma TakesOne(s: State, e: Event, s': State)
    requires Enabled(s, e) && s' == Next(s, e) && !e.Commit? && !e.StraySync?
             && (e.EndRelease? ==> s.log[s.replicas[e.r].applied].Command?)
    ensures e.r < |s.replicas| == |s'.replicas| && s'.log == s.log
    ensures TakenBy(s'.replicas[e.r]) == if e.Apply? then TakenBy(s.replicas[e.r]) + 1
            else if e.Crash? then 0 else TakenBy(s.replicas[e.r])
  {
    if AtReader(e) { ReaderTakes(s, e, s'); } else { OthersTakeNone(s, e, s'); }
  }

  lemma ApplyTakes(s: State, e: Event, s': State)
    requires Enabled(s, e) && s' == Next(s, e) && e.Apply?
    ensures |s'.replicas| == |s.replicas| && s'.log == s.log
    ensures TakenBy(s'.replicas[e.r]) == TakenBy(s.replicas[e.r]) + 1
  {
  }

  lemma ReaderTakes(s: State, e: Event, s': State)
    requires Enabled(s, e) && s' == Next(s, e) && AtReader(e)
             && (e.EndRelease? ==> s.log[s.replicas[e.r].applied].Command?)
    ensures |s'.replicas| == |s.replicas| && s'.log == s.log
    ensures TakenBy(s'.replicas[e.r]) == TakenBy(s.replicas[e.r]) + if e.Apply? then 1 else 0
  {
    if e.Apply? { ApplyTakes(s, e, s'); } else { StepsTakeNone(s, e, s'); }
  }

  lemma StepsTakeNone(s: State, e: Event, s': State)
    requires Enabled(s, e) && s' == Next(s, e) && AtReader(e) && !e.Apply?
             && (e.EndRelease? ==> s.log[s.replicas[e.r].applied].Command?)
    ensures |s'.replicas| == |s.replicas| && s'.log == s.log
    ensures TakenBy(s'.replicas[e.r]) == TakenBy(s.replicas[e.r])
  {
  }

  lemma OthersTakeNone(s: State, e: Event, s': State)
    requires Enabled(s, e) && s' == Next(s, e) && !e.Commit? && !e.StraySync? && !AtReader(e)
    ensures |s'.replicas| == |s.replicas| && s'.log == s.log
    ensures TakenBy(s'.replicas[e.r]) == if e.Crash? then 0 else TakenBy(s.replicas[e.r])
  {
    if AtSubmit(e) { SubmitTakesNone(s, e, s'); }
  }

  lemma SubmitTakesNone(s: State, e: Event, s': State)
    requires Enabled(s, e) && s' == Next(s, e) && AtSubmit(e)
    ensures |s'.replicas| == |s.replicas| && s'.log == s.log && TakenBy(s'.replicas[e.r]) == TakenBy(s.replicas[e.r])
  {
    SubmitOnlyAt(s, e, s');
  }

  lemma EventMoves(s: State, e: Event, s': State)
    requires Enabled(s, e) && s' == Next(s, e) && (e.EndRelease? ==> s.log[s.replicas[e.r].applied].Command?)
    ensures RL.Moves(SharedOf(s), SharedOf(s'), MoveOf(s, e))
  {
    SameReplicas(s, e, s');
    if !e.Commit? && !e.StraySync? {
      TakesOne(s, e, s');
      TakenAt(s, e.r, s'.replicas[e.r], s');
    }
  }

  /**
   * The service uses its log exactly as Raft provides it: it grows, replicas take from it in order, crashes start
   * over.
   */
  lemma FollowsReplicatedLog(s: State, e: Event, s': State)
    requires Inv(s) && Enabled(s, e) && s' == Next(s, e)
    ensures RL.Moves(SharedOf(s), SharedOf(s'), MoveOf(s, e))
  {
    assert e.EndRelease? ==> EntryOK(s.replicas[e.r].applied, s.log[s.replicas[e.r].applied], s);
    EventMoves(s, e, s');
  }
}
