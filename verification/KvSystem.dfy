/**
 * The whole system: key/value servers on top of Raft peers.  What Raft commits becomes the service's
 * log, what a peer delivers is received by the server beside it, Submit calls that peer's Start and
 * GetState, and a restart restarts both.
 */
module KvSystem {
  import opened Options
  import opened RaftTypes
  import opened KvStore
  import opened KvModel
  import opened Submits
  import opened AlrMachine
  import opened AlrInvariant
  import opened AlrSteps
  import P = AlrPromises
  import A = AlrTheorems
  import K = KvClerk
  import H = KvHistories
  import RL = ReplicatedLog
  import C = RaftCluster
  import RI = RaftInvariant
  import S = RaftSafety
  import RaftSafetySteps
  import L = RaftLedger
  import R = RaftTheorems

  datatype System = System(raft: C.Cluster, kv: State)

  datatype Step =
    | RaftStep(event: C.Event, nu: nat)
    | KvStep(op: Event)

  function Init(nonces: seq<nat>): System { System(C.Init(|nonces|), AlrMachine.Init(nonces)) }

  // ---------------------------------------------------------------- steps

  /** The events of the service that need nothing from Raft. */
  predicate Local(op: Event) { !op.Commit? && !op.Apply? && !op.Crash? && !op.StartReturns? }

  /** Submit asks the peer beside it for its term and whether it leads. */
  predicate Asks(c: C.Cluster, op: Event) {
    op.Finish? ==>
      && op.r < |c.servers|
      && op.term == c.servers[op.r].term && op.isLeader == (c.servers[op.r].role == Leader)
  }

  /** What Start returns to the Submit that called it with cmd at peer s. */
  function Starting(c: C.Cluster, s: nat, cmd: Command): Event
    requires s < |c.servers| && cmd.Command?
  {
    StartReturns(s, cmd.id, c.servers[s].term, c.servers[s].role == Leader)
  }

  /**
   * A Raft event happens in order; Start is called by a Submit that has not called it yet, with its
   * request; the channel to the reader has no buffer, so Raft delivers only to a reader that is free.
   */
  predicate RaftEnabled(y: System, e: C.Event, nu: nat) {
    && C.Enabled(y.raft, e) && C.InOrder(y.raft, e) && nu !in y.kv.nonces && |y.kv.replicas| == |y.raft.servers|
    && (e.ClientStart? ==>
          && AlrMachine.Enabled(y.kv, Starting(y.raft, e.s, e.cmd))
          && y.kv.replicas[e.s].waits[e.cmd.id].req == e.cmd.req)
    && (e.Deliver? ==> y.kv.replicas[e.s].work.Free?)
  }

  predicate Enabled(y: System, step: Step) {
    match step
    case KvStep(op) => Local(op) && Asks(y.raft, op) && AlrMachine.Enabled(y.kv, op)
    case RaftStep(e, nu) => RaftEnabled(y, e, nu)
  }

  /** The log grows to `log`, if it is longer. */
  function Grown(s: State, log: seq<Command>): State { if s.log <= log then s.(log := log) else s }

  function Fire(s: State, op: Event): State { if AlrMachine.Enabled(s, op) then AlrMachine.Next(s, op) else s }

  /** What the servers do when Raft makes a step after which the committed log is `log`. */
  function Follow(s: State, c: C.Cluster, e: C.Event, log: seq<Command>, nu: nat): State
    requires C.Enabled(c, e)
  {
    match e
    case Deliver(r) => Fire(s, Apply(r, nu))
    case Restart(r) => Fire(s, Crash(r, nu))
    case ClientStart(r, cmd) => Fire(Grown(s, log), Starting(c, r, cmd))
    case _ => Grown(s, log)
  }

  /** The commands Raft has committed. */
  ghost function Committed(c: C.Cluster): seq<Command> {
    if S.PointsOK(c.hist, |c.servers|) then L.Commands(L.View(c).log) else []
  }

  ghost function Next(y: System, step: Step): System
    requires Enabled(y, step)
  {
    match step
    case KvStep(op) => y.(kv := AlrMachine.Next(y.kv, op))
    case RaftStep(e, nu) =>
      var raft := C.Step(y.raft, e);
      System(raft, Follow(y.kv, y.raft, e, Committed(raft), nu))
  }

  ghost predicate Leads(y: System, step: Step, y': System) { Enabled(y, step) && y' == Next(y, step) }

  ghost predicate IsRun(nonces: seq<nat>, steps: seq<Step>, systems: seq<System>) {
    && Distinct(nonces) && |systems| == |steps| + 1 && systems[0] == Init(nonces)
    && forall i | 0 <= i < |steps| :: Leads(systems[i], steps[i], systems[i + 1])
  }

  /** Every event of a server is timely. */
  ghost predicate AllTimely(steps: seq<Step>, systems: seq<System>)
    requires |systems| == |steps| + 1
  {
    forall i | 0 <= i < |steps| && steps[i].KvStep? :: Timely(systems[i].kv, steps[i].op)
  }

  // ---------------------------------------------------------------- the two layers stay together

  /** The commands the servers submitted. */
  function Submitted(s: State): set<Command> { set id | id in s.subs :: Command(id, s.subs[id]) }

  /**
   * Both invariants hold, the servers see exactly the log and the progress Raft has, and Raft has only what they
   * submitted.
   */
  ghost predicate Together(y: System) {
    && S.Safe(y.raft) && Inv(y.kv) && R.Given(y.raft.hist, Submitted(y.kv))
    && A.SharedOf(y.kv) == L.SharedOf(L.View(y.raft))
  }

  predicate NoRepeats(log: seq<Command>) {
    && (forall i | 0 <= i < |log| :: log[i].Command?)
    && forall i, j | 0 <= i < j < |log| :: log[i].Command? && log[j].Command? ==> log[i].id != log[j].id
  }

  ghost predicate AllGiven(log: seq<Command>, given: set<Command>) { forall i | 0 <= i < |log| :: log[i] in given }

  // ---------------------------------------------------------------- the log grows

  lemma NextIsNew(s: State, log: seq<Command>, n: nat, cmd: Command)
    requires NoRepeats(log) && AllGiven(log, Submitted(s)) && n < |log| && cmd == log[n]
    ensures cmd.Command? && cmd.id in s.subs && cmd.req == s.subs[cmd.id] && !InLog(log[..n], cmd.id)
    ensures log[..n + 1] == log[..n] + [cmd]
  {
    assert cmd in Submitted(s);
  }

  lemma GrowOne(s: State, log: seq<Command>, n: nat, cmd: Command, s': State)
    requires Inv(s) && n < |log| && cmd == log[n] && s.log == log[..n] && NoRepeats(log) && AllGiven(log, Submitted(s))
    requires s' == s.(log := log[..n + 1])
    ensures Inv(s')
  {
    NextIsNew(s, log, n, cmd);
    CommitKeeps(s, cmd.id, cmd, s');
  }

  /** Committing commands the servers submitted, none of them twice, is a series of events of the service. */
  lemma {:induction false} GrowKeeps(s: State, log: seq<Command>)
    requires Inv(s) && s.log <= log && NoRepeats(log) && AllGiven(log, Submitted(s))
    ensures Inv(s.(log := log))
    decreases |log| - |s.log|
  {
    if |s.log| == |log| {
      assert s.(log := log) == s;
    } else {
      var n := |s.log|;
      var m := s.(log := log[..n + 1]);
      GrowOne(s, log, n, log[n], m);
      GrowKeeps(m, log);
    }
  }

  lemma GrownKeeps(s: State, log: seq<Command>, s': State)
    requires Inv(s) && s.log <= log && NoRepeats(log) && AllGiven(log, Submitted(s)) && s' == Grown(s, log)
    ensures Inv(s') && s' == s.(log := log) && A.SharedOf(s') == RL.Shared(log, A.SharedOf(s).applied)
  {
    GrowKeeps(s, log);
    assert A.SharedOf(s').applied == A.SharedOf(s).applied;
  }

  // ---------------------------------------------------------------- what Raft commits

  predicate DifferentIds(a: Command, b: Command) { a.Command? && b.Command? && a.id != b.id }

  /** The ledger, entry by entry: each command was given, and no id occurs twice. */
  ghost predicate LedgerOK(l: Log, given: set<Command>) {
    && (forall x | 1 <= x < |l| :: l[x].cmd in given)
    && forall x, y | 1 <= x < y < |l| :: DifferentIds(l[x].cmd, l[y].cmd)
  }

  lemma LedgerFacts(h: C.History, n: nat, l: Log, given: set<Command>)
    requires RI.HistOK(h, n) && S.PointsOK(h, n) && l == L.Ledger(h, n) && R.Given(h, given)
    ensures LedgerOK(l, given)
  {
    forall x | 1 <= x < |l| ensures l[x].cmd in given { R.LedgerGiven(h, n, l, x, given); }
    forall x, y | 1 <= x < y < |l| ensures DifferentIds(l[x].cmd, l[y].cmd) { L.LedgerIdsUnique(h, n, l, x, y); }
  }

  lemma CommandsFacts(l: Log, log: seq<Command>, given: set<Command>)
    requires LedgerOK(l, given) && log == L.Commands(l) && forall cmd | cmd in given :: cmd.Command?
    ensures AllGiven(log, given) && NoRepeats(log)
  {
    forall i, j | 0 <= i < j < |log| ensures log[i].id != log[j].id { assert DifferentIds(l[i + 1].cmd, l[j + 1].cmd); }
  }

  /** What Raft commits was given to it, each id once. */
  lemma CommittedFacts(c: C.Cluster, given: set<Command>, log: seq<Command>)
    requires S.Safe(c) && R.Given(c.hist, given) && (forall cmd | cmd in given :: cmd.Command?) && log == Committed(c)
    ensures AllGiven(log, given) && NoRepeats(log)
  {
    LedgerFacts(c.hist, |c.servers|, L.View(c).log, given);
    CommandsFacts(L.View(c).log, log, given);
  }

  // ---------------------------------------------------------------- Raft steps

  /** The move of the replicated log a Raft event makes. */
  predicate Matches(e: C.Event, m: RL.Move) {
    && (e.Deliver? ==> m.Take? && m.s == e.s)
    && (e.Restart? ==> m == RL.Forget(e.s))
    && (!e.Deliver? && !e.Restart? ==> m == RL.Grow)
  }

  lemma RaftMoves(c: C.Cluster, e: C.Event, c': C.Cluster, m: RL.Move)
    requires S.Safe(c) && C.Enabled(c, e) && C.InOrder(c, e) && c' == C.Step(c, e) && m == L.MoveOf(c, e)
    ensures S.Safe(c') && Matches(e, m) && RL.Moves(L.SharedOf(L.View(c)), L.SharedOf(L.View(c')), m)
  {
    L.StepRefines(c, e);
  }

  /** Raft has nothing but what was given to it, if a command handed to Start was. */
  lemma RaftGives(c: C.Cluster, e: C.Event, h': C.History, given: set<Command>)
    requires S.Safe(c) && C.Enabled(c, e) && h' == C.Record(c, e) && R.Given(c.hist, given)
             && (e.ClientStart? ==> e.cmd in given)
    ensures R.Given(h', given)
  {
    R.StepGiven(c, e, h', given);
    assert e.ClientStart? ==> given + {e.cmd} == given;
  }

  /** The Raft side of a Raft step. */
  lemma RaftSide(c: C.Cluster, e: C.Event, c': C.Cluster, given: set<Command>, m: RL.Move)
    requires S.Safe(c) && R.Given(c.hist, given) && C.Enabled(c, e) && C.InOrder(c, e) && c' == C.Step(c, e)
             && m == L.MoveOf(c, e)
    requires e.ClientStart? ==> e.cmd in given
    ensures S.Safe(c') && Matches(e, m) && RL.Moves(L.SharedOf(L.View(c)), L.SharedOf(L.View(c')), m)
            && R.Given(c'.hist, given)
  {
    RaftMoves(c, e, c', m);
    RaftGives(c, e, c'.hist, given);
  }

  /** An event of the service after which its requests are the same. */
  lemma FireKeeps(s: State, op: Event, s': State)
    requires Inv(s) && AlrMachine.Enabled(s, op) && s' == Fire(s, op)
    ensures Inv(s') && Grows(s, s') && RL.Moves(A.SharedOf(s), A.SharedOf(s'), A.MoveOf(s, op))
  {
    StepKeeps(s, op, s');
    A.FollowsReplicatedLog(s, op, s');
  }

  lemma DeliverKeeps(s: State, r: nat, cmd: Command, v': RL.Shared, nu: nat, s': State)
    requires Inv(s) && nu !in s.nonces && RL.Moves(A.SharedOf(s), v', RL.Take(r, cmd)) && r < |s.replicas|
             && s.replicas[r].work.Free?
    requires s' == Fire(s, Apply(r, nu))
    ensures Inv(s') && Grows(s, s') && A.SharedOf(s') == v'
  {
    ReaderHasNext(s, r, cmd, v', nu);
    FireKeeps(s, Apply(r, nu), s');
    TakesAgree(s, r, cmd, v', A.SharedOf(s'), nu);
  }

  lemma ReaderHasNext(s: State, r: nat, cmd: Command, v': RL.Shared, nu: nat)
    requires nu !in s.nonces && RL.Moves(A.SharedOf(s), v', RL.Take(r, cmd)) && r < |s.replicas|
             && s.replicas[r].work.Free?
    ensures AlrMachine.Enabled(s, Apply(r, nu)) && A.SharedOf(s).applied[r] == s.replicas[r].applied
  {
  }

  lemma TakesAgree(s: State, r: nat, cmd: Command, v': RL.Shared, w: RL.Shared, nu: nat)
    requires AlrMachine.Enabled(s, Apply(r, nu)) && RL.Moves(A.SharedOf(s), v', RL.Take(r, cmd))
    requires RL.Moves(A.SharedOf(s), w, A.MoveOf(s, Apply(r, nu)))
    ensures w == v'
  {
  }

  lemma RestartKeeps(s: State, r: nat, v': RL.Shared, nu: nat, s': State)
    requires Inv(s) && nu !in s.nonces && RL.Moves(A.SharedOf(s), v', RL.Forget(r)) && s' == Fire(s, Crash(r, nu))
    ensures Inv(s') && Grows(s, s') && A.SharedOf(s') == v'
  {
    FireKeeps(s, Crash(r, nu), s');
  }

  lemma StartKeeps(s: State, op: Event, s': State)
    requires Inv(s) && op.StartReturns? && AlrMachine.Enabled(s, op) && s' == Fire(s, op)
    ensures Inv(s') && Grows(s, s') && A.SharedOf(s') == A.SharedOf(s)
  {
    FireKeeps(s, op, s');
    SameLog(s, op, s');
  }

  lemma SameLog(s: State, op: Event, s': State)
    requires AlrMachine.Enabled(s, op) && s' == AlrMachine.Next(s, op) && !op.Commit?
    ensures s'.log == s.log
  {
  }

  lemma LogGrows(s: State, v': RL.Shared, s': State)
    requires Inv(s) && RL.Moves(A.SharedOf(s), v', RL.Grow) && NoRepeats(v'.log) && AllGiven(v'.log, Submitted(s))
             && s' == Grown(s, v'.log)
    ensures Inv(s') && s' == s.(log := v'.log) && s.log <= v'.log && A.SharedOf(s') == v'
  {
    GrownKeeps(s, v'.log, s');
  }

  /** The servers keep up with any move of the log whose commands they submitted. */
  lemma FollowKeeps(s: State, c: C.Cluster, e: C.Event, m: RL.Move, v': RL.Shared, nu: nat, s': State)
    requires Inv(s) && nu !in s.nonces && AllGiven(v'.log, Submitted(s)) && NoRepeats(v'.log) && C.Enabled(c, e)
    requires Matches(e, m) && RL.Moves(A.SharedOf(s), v', m) && s' == Follow(s, c, e, v'.log, nu)
    requires e.Deliver? ==> e.s < |s.replicas| && s.replicas[e.s].work.Free?
    requires e.ClientStart? ==> AlrMachine.Enabled(s, Starting(c, e.s, e.cmd))
    ensures Inv(s') && A.SharedOf(s') == v' && SubsGrow(s.subs, s'.subs, s.ids)
  {
    if e.Deliver? { DeliverKeeps(s, e.s, m.cmd, v', nu, s'); }
    else if e.Restart? { RestartKeeps(s, e.s, v', nu, s'); }
    else if e.ClientStart? { GrowAndReturn(s, v', Starting(c, e.s, e.cmd), s'); }
    else { LogGrows(s, v', s'); }
  }

  lemma GrowAndReturn(s: State, v': RL.Shared, op: Event, s': State)
    requires Inv(s) && op.StartReturns? && AlrMachine.Enabled(s, op) && s' == Fire(Grown(s, v'.log), op)
    requires RL.Moves(A.SharedOf(s), v', RL.Grow) && NoRepeats(v'.log) && AllGiven(v'.log, Submitted(s))
    ensures Inv(s') && A.SharedOf(s') == v' && SubsGrow(s.subs, s'.subs, s.ids)
  {
    var mid := Grown(s, v'.log);
    LogGrows(s, v', mid);
    StartKeeps(mid, op, s');
  }

  lemma GivenMore(h: C.History, s: State, s': State)
    requires R.Given(h, Submitted(s)) && SubsGrow(s.subs, s'.subs, s.ids)
    ensures R.Given(h, Submitted(s'))
  {
    assert Submitted(s) <= Submitted(s');
    forall t | t in h.reigns
      ensures R.GivenIn(h.reigns[t], Submitted(s'))
    {
      assert R.GivenIn(h.reigns[t], Submitted(s));
    }
  }

  /** The server side of a Raft step. */
  lemma KvSide(s: State, c: C.Cluster, e: C.Event, m: RL.Move, c': C.Cluster, v': RL.Shared, nu: nat, s': State)
    requires Inv(s) && nu !in s.nonces && S.Safe(c') && R.Given(c'.hist, Submitted(s)) && C.Enabled(c, e)
             && v' == L.SharedOf(L.View(c'))
    requires Matches(e, m) && RL.Moves(A.SharedOf(s), v', m) && s' == Follow(s, c, e, Committed(c'), nu)
    requires e.Deliver? ==> e.s < |s.replicas| && s.replicas[e.s].work.Free?
    requires e.ClientStart? ==> AlrMachine.Enabled(s, Starting(c, e.s, e.cmd))
    ensures Inv(s') && A.SharedOf(s') == v' && R.Given(c'.hist, Submitted(s'))
  {
    CommittedFacts(c', Submitted(s), Committed(c'));
    FollowKeeps(s, c, e, m, v', nu, s');
    GivenMore(c'.hist, s, s');
  }

  lemma StartIsGiven(s: State, r: nat, cmd: Command)
    requires Inv(s) && r < |s.replicas| && cmd.Command? && cmd.id in s.replicas[r].waits
             && s.replicas[r].waits[cmd.id].req == cmd.req
    ensures cmd in Submitted(s)
  {
    WaitingWasSubmitted(s, r, cmd.id);
  }

  lemma RaftKeeps(c: C.Cluster, s: State, e: C.Event, nu: nat, m: RL.Move, c': C.Cluster, s': State)
    requires S.Safe(c) && Inv(s) && R.Given(c.hist, Submitted(s)) && A.SharedOf(s) == L.SharedOf(L.View(c))
    requires RaftEnabled(System(c, s), e, nu) && m == L.MoveOf(c, e) && c' == C.Step(c, e)
    requires e.ClientStart? ==> e.cmd in Submitted(s)
    requires s' == Follow(s, c, e, Committed(c'), nu)
    ensures Together(System(c', s'))
  {
    RaftSide(c, e, c', Submitted(s), m);
    Rejoin(c, L.SharedOf(L.View(c)), s, e, m, c', nu, s');
  }

  lemma Rejoin(c: C.Cluster, v: RL.Shared, s: State, e: C.Event, m: RL.Move, c': C.Cluster, nu: nat, s': State)
    requires Inv(s) && nu !in s.nonces && S.Safe(c') && R.Given(c'.hist, Submitted(s)) && C.Enabled(c, e)
             && A.SharedOf(s) == v
    requires Matches(e, m) && RL.Moves(v, L.SharedOf(L.View(c')), m) && s' == Follow(s, c, e, Committed(c'), nu)
    requires e.Deliver? ==> e.s < |s.replicas| && s.replicas[e.s].work.Free?
    requires e.ClientStart? ==> AlrMachine.Enabled(s, Starting(c, e.s, e.cmd))
    ensures Together(System(c', s'))
  {
    KvSide(s, c, e, m, c', L.SharedOf(L.View(c')), nu, s');
  }

  // ---------------------------------------------------------------- all steps

  lemma KvKeeps(c: C.Cluster, s: State, op: Event, s': State)
    requires Together(System(c, s)) && Local(op) && AlrMachine.Enabled(s, op) && s' == AlrMachine.Next(s, op)
    ensures Together(System(c, s'))
  {
    FireKeeps(s, op, s');
    SameLog(s, op, s');
    GivenMore(c.hist, s, s');
  }

  lemma RaftStepTogether(y: System, e: C.Event, nu: nat, y': System)
    requires Together(y) && RaftEnabled(y, e, nu) && y' == Next(y, RaftStep(e, nu))
    ensures Together(y')
  {
    var c, s := y.raft, y.kv;
    assert y == System(c, s) && y' == System(y'.raft, y'.kv);
    CallerIsGiven(c, s, e, nu);
    RaftKeeps(c, s, e, nu, L.MoveOf(c, e), y'.raft, y'.kv);
  }

  lemma CallerIsGiven(c: C.Cluster, s: State, e: C.Event, nu: nat)
    requires Inv(s) && RaftEnabled(System(c, s), e, nu)
    ensures e.ClientStart? ==> e.cmd in Submitted(s)
  {
    if e.ClientStart? { StartIsGiven(s, e.s, e.cmd); }
  }

  lemma KvStepTogether(y: System, op: Event, y': System)
    requires Together(y) && Enabled(y, KvStep(op)) && y' == Next(y, KvStep(op))
    ensures Together(y')
  {
    assert y == System(y.raft, y.kv) && y' == System(y.raft, y'.kv);
    KvKeeps(y.raft, y.kv, op, y'.kv);
  }

  lemma StepTogether(y: System, step: Step, y': System)
    requires Together(y) && Leads(y, step, y')
    ensures Together(y')
  {
    match step
    case KvStep(op) => KvStepTogether(y, op, y');
    case RaftStep(e, nu) => RaftStepTogether(y, e, nu, y');
  }

  lemma InitTogether(nonces: seq<nat>)
    requires Distinct(nonces)
    ensures Together(Init(nonces))
  {
    RaftSafetySteps.InitSafe(|nonces|);
    InitOK(nonces);
    var y := Init(nonces);
    assert A.SharedOf(y.kv).applied == L.View(y.raft).applied;
  }

  lemma {:induction false} RunTogether(nonces: seq<nat>, steps: seq<Step>, systems: seq<System>, i: nat)
    requires IsRun(nonces, steps, systems) && i < |systems|
    ensures Together(systems[i])
  {
    if i == 0 {
      InitTogether(nonces);
    } else {
      var y, step, y' := systems[i - 1], steps[i - 1], systems[i];
      assert Leads(y, step, y');
      RunTogether(nonces, steps, systems, i - 1);
      StepTogether(y, step, y');
    }
  }

  // ---------------------------------------------------------------- promises

  lemma GrownKept(s: State, log: seq<Command>, s': State)
    requires P.AllKept(s) && P.Current(s) && s' == Grown(s, log)
    ensures P.AllKept(s') && P.Current(s')
  {
  }

  lemma StartKept(s: State, op: Event, s': State)
    requires P.AllKept(s) && P.Current(s) && op.StartReturns? && s' == Fire(s, op)
    ensures P.AllKept(s') && P.Current(s')
  {
    if AlrMachine.Enabled(s, op) {
      P.OthersUnmoved(s, op, s');
      SameReplicas(s, op, s');
      P.Conclude(s, op.r, s'.replicas[op.r], s');
      P.BatchesOnlyOpen(s, op, s');
    }
  }

  lemma FireKept(s: State, op: Event, s': State)
    requires Inv(s) && P.AllKept(s) && P.Current(s) && s' == Fire(s, op) && Timely(s, op)
    ensures P.AllKept(s') && P.Current(s')
  {
    if AlrMachine.Enabled(s, op) {
      P.StepKept(s, op, s');
      P.StepCurrent(s, op, s');
    }
  }

  /** What the servers do on account of Raft breaks no promise. */
  lemma FollowKept(s: State, c: C.Cluster, e: C.Event, log: seq<Command>, nu: nat, s': State)
    requires Inv(s) && P.AllKept(s) && P.Current(s) && C.Enabled(c, e) && s' == Follow(s, c, e, log, nu)
    ensures P.AllKept(s') && P.Current(s')
  {
    match e
    case Deliver(r) => FireKept(s, Apply(r, nu), s');
    case Restart(r) => FireKept(s, Crash(r, nu), s');
    case ClientStart(r, cmd) =>
      GrownKept(s, log, Grown(s, log));
      StartKept(Grown(s, log), Starting(c, r, cmd), s');
    case _ => GrownKept(s, log, s');
  }

  lemma StepKept(y: System, step: Step, y': System)
    requires Inv(y.kv) && P.AllKept(y.kv) && P.Current(y.kv) && Leads(y, step, y')
             && (step.KvStep? ==> Timely(y.kv, step.op))
    ensures P.AllKept(y'.kv) && P.Current(y'.kv)
  {
    match step
    case KvStep(op) => FireKept(y.kv, op, y'.kv);
    case RaftStep(e, nu) => FollowKept(y.kv, y.raft, e, Committed(y'.raft), nu, y'.kv);
  }

  lemma KeptNext(nonces: seq<nat>, steps: seq<Step>, systems: seq<System>, i: nat, y: System, y': System)
    requires IsRun(nonces, steps, systems) && AllTimely(steps, systems) && i < |steps|
    requires y == systems[i] && y' == systems[i + 1] && P.AllKept(y.kv) && P.Current(y.kv)
    ensures P.AllKept(y'.kv) && P.Current(y'.kv)
  {
    assert Inv(y.kv) by { RunTogether(nonces, steps, systems, i); }
    StepKept(y, steps[i], y');
  }

  lemma {:induction false} RunKept(nonces: seq<nat>, steps: seq<Step>, systems: seq<System>, i: nat)
    requires IsRun(nonces, steps, systems) && AllTimely(steps, systems) && i < |systems|
    ensures P.AllKept(systems[i].kv) && P.Current(systems[i].kv)
  {
    if i > 0 {
      RunKept(nonces, steps, systems, i - 1);
      KeptNext(nonces, steps, systems, i - 1, systems[i - 1], systems[i]);
    }
  }

  // ---------------------------------------------------------------- theorems

  /**
   * The whole system is linearizable: in every run of Raft peers and key/value servers, with lost, delayed and
   * repeated messages and crashes, in order on the Raft side and timely on the server side, some sequential
   * order explains everything clients were told.
   */
  lemma SystemLinearizable(nonces: seq<nat>, steps: seq<Step>, systems: seq<System>, i: nat)
    requires IsRun(nonces, steps, systems) && AllTimely(steps, systems) && i < |systems|
    ensures A.IsLinearization(systems[i].kv.trace, A.Line(systems[i].kv, |systems[i].kv.log|))
  {
    var s := systems[i].kv;
    assert Inv(s) by { RunTogether(nonces, steps, systems, i); }
    assert P.Current(s) by { RunKept(nonces, steps, systems, i); }
    A.StateLinearizable(s);
  }

  /**
   * A server's store is the replay of what it applied of the log the Raft peers committed, and it keeps up with its
   * peer.
   */
  lemma StoreIsReplay(nonces: seq<nat>, steps: seq<Step>, systems: seq<System>, i: nat, r: nat)
    requires IsRun(nonces, steps, systems) && i < |systems| && r < |systems[i].raft.servers|
    ensures var y := systems[i];
            && r < |y.kv.replicas| && y.kv.log == Committed(y.raft)
            && A.TakenBy(y.kv.replicas[r]) == y.raft.servers[r].applied
            && y.kv.replicas[r].applied <= |Committed(y.raft)|
            && y.kv.replicas[r].store == StoreAt(Committed(y.raft), y.kv.replicas[r].applied)
  {
    RunTogether(nonces, steps, systems, i);
    SeesRaft(systems[i], systems[i].kv.replicas, r);
  }

  lemma SeesRaft(y: System, reps: seq<Replica>, r: nat)
    requires Together(y) && r < |y.raft.servers| && reps == y.kv.replicas
    ensures r < |reps| && y.kv.log == Committed(y.raft) && A.TakenBy(reps[r]) == y.raft.servers[r].applied
    ensures reps[r].applied <= |y.kv.log| && reps[r].store == StoreAt(y.kv.log, reps[r].applied)
  {
    assert A.SharedOf(y.kv).applied[r] == L.View(y.raft).applied[r];
    assert ReplicaOK(reps[r], r, y.kv);
  }

  /**
   * Submit soundness in the whole system: OK means that exactly one entry of the log the Raft peers committed
   * carries the submitted id, it is the submitted request, this server had applied it and the reply is the
   * store's at that place; otherwise Submit returned ErrWrongLeader.
   */
  lemma SystemSubmitSound(nonces: seq<nat>, steps: seq<Step>, systems: seq<System>, i: nat, k: nat) returns (p: nat)
    requires IsRun(nonces, steps, systems) && i < |systems| && k < |systems[i].kv.told|
    ensures A.Sound(Committed(systems[i].raft), systems[i].kv.told[k], p)
  {
    RunTogether(nonces, steps, systems, i);
    p := A.ToldSound(systems[i].kv, k);
  }

  /**
   * The RPCs of one Clerk.Put: each made at most one server submit the Put, under its own id, and was answered as that
   * Submit ended.
   */
  ghost predicate Served(s: State, ids: seq<nat>, put: Request, script: seq<K.Outcome>) {
    && |ids| == K.Sent(script)
    && (forall a, b | 0 <= a < b < |ids| :: ids[a] != ids[b])
    && (forall a | 0 <= a < |ids| && ids[a] in s.subs :: s.subs[ids[a]] == put)
    && (forall a | 0 <= a < |ids| && (script[a] == K.Replied(OK) || script[a] == K.Replied(ErrVersion)) ::
          AnsweredBy(s, ids[a], script[a].err))
  }

  ghost predicate AnsweredBy(s: State, id: nat, err: Err) {
    exists k | 0 <= k < |s.told| :: s.told[k].id == id && PutAnswer(s.told[k].result) == PutReply(err)
  }

  lemma AnswerIsTruthful(s: State, id: nat, put: Request, err: Err)
    requires Inv(s) && put.Put? && (id in s.subs ==> s.subs[id] == put) && AnsweredBy(s, id, err)
             && err != ErrWrongLeader
    ensures K.Truthful(s.log, id, put, err)
  {
    var k :| 0 <= k < |s.told| && s.told[k].id == id && PutAnswer(s.told[k].result) == PutReply(err);
    assert ToldOK(s.told[k], s);
    var p := A.PutAnswerSound(s, k);
  }

  lemma LogIsSubmitted(s: State, ids: seq<nat>, put: Request)
    requires Inv(s) && (forall a, b | 0 <= a < b < |ids| :: ids[a] != ids[b])
    requires forall a | 0 <= a < |ids| && ids[a] in s.subs :: s.subs[ids[a]] == put
    ensures K.Submitted(s.log, ids, put)
  {
    forall p | 0 <= p < |s.log|
      ensures s.log[p].Command? && (s.log[p].id in ids ==> s.log[p].req == put)
    {
      assert EntryOK(p, s.log[p], s);
    }
  }

  /**
   * The whole system explains what a Clerk saw, so what the Clerk's results mean holds of the log the Raft peers
   * committed.
   */
  lemma SystemExplains(nonces: seq<nat>, steps: seq<Step>, systems: seq<System>, i: nat, ids: seq<nat>, put: Request,
      script: seq<K.Outcome>)
    requires IsRun(nonces, steps, systems) && i < |systems| && put.Put? && Served(systems[i].kv, ids, put, script)
    ensures systems[i].kv.log == Committed(systems[i].raft)
            && K.Explains(K.WorldOf(systems[i].kv.log, ids), put, script)
  {
    var s := systems[i].kv;
    assert Inv(s) && s.log == Committed(systems[i].raft) by { RunTogether(nonces, steps, systems, i); }
    LogIsSubmitted(s, ids, put);
    forall a | 0 <= a < |ids| && (script[a] == K.Replied(OK) || script[a] == K.Replied(ErrVersion))
      ensures K.Truthful(s.log, ids[a], put, script[a].err)
    {
      AnswerIsTruthful(s, ids[a], put, script[a].err);
    }
    K.ServiceExplains(s.log, ids, put, script);
  }

  // ---------------------------------------------------------------- Clerk histories

  lemma GrownLater(s: State, log: seq<Command>)
    ensures H.Later(s, Grown(s, log))
  {
  }

  lemma StartLater(s: State, op: Event)
    requires op.StartReturns?
    ensures H.Later(s, Fire(s, op))
  {
  }

  lemma FireLater(s: State, op: Event)
    requires Inv(s)
    ensures H.Later(s, Fire(s, op))
  {
    if AlrMachine.Enabled(s, op) { H.LaterStep(s, op, Fire(s, op)); }
  }

  lemma FollowLater(s: State, c: C.Cluster, e: C.Event, log: seq<Command>, nu: nat)
    requires Inv(s) && C.Enabled(c, e)
    ensures H.Later(s, Follow(s, c, e, log, nu))
  {
    match e
    case Deliver(r) => FireLater(s, Apply(r, nu));
    case Restart(r) => FireLater(s, Crash(r, nu));
    case ClientStart(r, cmd) =>
      var mid, op := Grown(s, log), Starting(c, r, cmd);
      GrownLater(s, log);
      StartLater(mid, op);
      H.LaterThrough(s, mid, Fire(mid, op));
    case _ => GrownLater(s, log);
  }

  lemma StepLater(y: System, step: Step, y': System)
    requires Inv(y.kv) && Leads(y, step, y')
    ensures H.Later(y.kv, y'.kv)
  {
    match step
    case KvStep(op) => FireLater(y.kv, op);
    case RaftStep(e, nu) => FollowLater(y.kv, y.raft, e, Committed(y'.raft), nu);
  }

  lemma LaterNext(nonces: seq<nat>, steps: seq<Step>, systems: seq<System>, j: nat)
    requires IsRun(nonces, steps, systems) && j < |steps|
    ensures H.Later(systems[j].kv, systems[j + 1].kv)
  {
    assert Inv(systems[j].kv) by { RunTogether(nonces, steps, systems, j); }
    StepLater(systems[j], steps[j], systems[j + 1]);
  }

  /** The states of the servers, moment by moment. */
  function Moments(systems: seq<System>): seq<State> {
    seq(|systems|, i requires 0 <= i < |systems| => systems[i].kv)
  }

  lemma MomentOK(nonces: seq<nat>, steps: seq<Step>, systems: seq<System>, i: nat)
    requires IsRun(nonces, steps, systems) && i < |systems|
    ensures Inv(systems[i].kv)
  {
    RunTogether(nonces, steps, systems, i);
  }

  lemma SystemIsChronicle(nonces: seq<nat>, steps: seq<Step>, systems: seq<System>)
    requires IsRun(nonces, steps, systems) && AllTimely(steps, systems)
    ensures H.Chronicle(Moments(systems))
  {
    var m := Moments(systems);
    forall i | 0 <= i < |m| ensures Inv(m[i]) { MomentOK(nonces, steps, systems, i); }
    assert P.Current(m[|m| - 1]) by { RunKept(nonces, steps, systems, |m| - 1); }
    assert forall k | 0 <= k < |m| - 1 :: H.Later(m[k], m[k + 1]) by { MomentsLater(nonces, steps, systems, m); }
    H.ChainIsChronicle(m);
  }

  lemma MomentsLater(nonces: seq<nat>, steps: seq<Step>, systems: seq<System>, m: seq<State>)
    requires IsRun(nonces, steps, systems) && m == Moments(systems)
    ensures forall k | 0 <= k < |m| - 1 :: H.Later(m[k], m[k + 1])
  {
    forall k | 0 <= k < |m| - 1 ensures H.Later(m[k], m[k + 1]) { LaterNext(nonces, steps, systems, k); }
  }

  /**
   * In the whole system, too, the Clerks' histories are linearizable when every ErrVersion and ErrMaybe is acceptable.
   */
  lemma SystemClerksLinearizable(nonces: seq<nat>, steps: seq<Step>, systems: seq<System>, h: seq<H.ClerkOp>)
      returns (order: seq<nat>)
    requires IsRun(nonces, steps, systems) && AllTimely(steps, systems)
    requires H.History(Moments(systems), h) && H.AllAcceptable(Moments(systems), h)
    ensures H.Linearizes(h, order)
  {
    SystemIsChronicle(nonces, steps, systems);
    order := H.AcceptableIsLinearizable(Moments(systems), h);
  }

  // ---------------------------------------------------------------- Start is never held back

  /** A Submit that has not called Start: Raft has not seen its id. */
  ghost predicate Unstarted(s: State, r: nat, id: nat) {
    r < |s.replicas| && id in s.replicas[r].waits && s.replicas[r].waits[id].term.None?
  }

  ghost predicate StartsOK(y: System) {
    && (forall id | id in y.raft.hist.started :: id in y.kv.subs)
    && (forall r: nat, id | Unstarted(y.kv, r, id) :: id !in y.raft.hist.started)
  }

  lemma WaitsSameTerms(s: State, r: nat, s': State)
    requires r < |s.replicas| == |s'.replicas| && s'.replicas == s.replicas[r := s'.replicas[r]]
    requires s'.replicas[r].waits.Keys <= s.replicas[r].waits.Keys
    requires forall id | id in s'.replicas[r].waits :: s'.replicas[r].waits[id].term == s.replicas[r].waits[id].term
    ensures forall q: nat, id | Unstarted(s', q, id) :: Unstarted(s, q, id)
  {
    forall q: nat, id | Unstarted(s', q, id) ensures Unstarted(s, q, id) {
      if q == r { assert id in s'.replicas[r].waits.Keys; }
    }
  }

  /** A reply that is posted leaves the terms of the waiting Submits alone. */
  lemma PostedTerms(w: Waits, id: nat, res: Result)
    ensures Post(w, id, res).Keys == w.Keys && forall x | x in w :: Post(w, id, res)[x].term == w[x].term
  {
  }

  ghost predicate SameTerms(w: Waits, w': Waits) {
    w'.Keys == w.Keys && forall id | id in w' :: w'[id].term == w[id].term
  }

  lemma ApplyTerms(s: State, op: Event, cmd: Command, s': State)
    requires AlrMachine.Enabled(s, op) && op.Apply? && cmd == s.log[s.replicas[op.r].applied]
    requires s' == AlrMachine.ApplyEntry(s, op.r, cmd, op.nu) && |s'.replicas| == |s.replicas|
    ensures SameTerms(s.replicas[op.r].waits, s'.replicas[op.r].waits)
  {
    if cmd.Command? {
      PostedTerms(s.replicas[op.r].waits, cmd.id, Value(Answer(s.replicas[op.r].store, cmd.req)));
    }
  }

  lemma ReplyTerms(s: State, op: Event, s': State)
    requires AlrMachine.Enabled(s, op) && s' == AlrMachine.Next(s, op) && (op.EndRelease? || op.Abort?)
    ensures |s'.replicas| == |s.replicas| && SameTerms(s.replicas[op.r].waits, s'.replicas[op.r].waits)
  {
  }

  lemma ReaderTerms(s: State, op: Event, s': State)
    requires AlrMachine.Enabled(s, op) && s' == AlrMachine.Next(s, op) && AtReader(op) && |s'.replicas| == |s.replicas|
    ensures SameTerms(s.replicas[op.r].waits, s'.replicas[op.r].waits)
  {
    match op
    case Apply(r, nu) => ApplyTerms(s, op, s.log[s.replicas[r].applied], s');
    case EndRelease(r) => ReplyTerms(s, op, s');
    case Abort(r, id) => ReplyTerms(s, op, s');
    case _ =>
  }

  lemma ReaderUnstarted(s: State, op: Event, s': State)
    requires AlrMachine.Enabled(s, op) && s' == AlrMachine.Next(s, op) && AtReader(op)
    ensures forall r: nat, id | Unstarted(s', r, id) :: Unstarted(s, r, id)
  {
    SameReplicas(s, op, s');
    ReaderTerms(s, op, s');
    WaitsSameTerms(s, op.r, s');
  }

  lemma SubmitUnstarted(s: State, op: Event, s': State)
    requires AlrMachine.Enabled(s, op) && s' == AlrMachine.Next(s, op) && AtSubmit(op)
    ensures forall r: nat, id | Unstarted(s', r, id) :: id !in s.ids || Unstarted(s, r, id)
  {
  }

  lemma RestUnstarted(s: State, op: Event, s': State)
    requires AlrMachine.Enabled(s, op) && s' == AlrMachine.Next(s, op) && !AtReader(op) && !AtSubmit(op)
    ensures forall r: nat, id | Unstarted(s', r, id) :: Unstarted(s, r, id)
  {
  }

  lemma OthersUnstarted(s: State, op: Event, s': State)
    requires AlrMachine.Enabled(s, op) && s' == AlrMachine.Next(s, op) && !AtReader(op)
    ensures forall r: nat, id | Unstarted(s', r, id) :: id !in s.ids || Unstarted(s, r, id)
  {
    if AtSubmit(op) { SubmitUnstarted(s, op, s'); } else { RestUnstarted(s, op, s'); }
  }

  lemma ReturnsStart(s: State, op: Event, s': State)
    requires ClientsOK(s) && op.StartReturns? && AlrMachine.Enabled(s, op) && s' == AlrMachine.Next(s, op)
    ensures forall r: nat, id | Unstarted(s', r, id) :: Unstarted(s, r, id) && id != op.id
  {
    forall r: nat, id | Unstarted(s', r, id) ensures Unstarted(s, r, id) && id != op.id {
      if r != op.r { assert r < op.r ==> id !in s.replicas[op.r].waits; }
    }
  }

  lemma FireStarts(c: C.Cluster, s: State, op: Event, s': State)
    requires Inv(s) && StartsOK(System(c, s)) && s' == Fire(s, op)
    ensures StartsOK(System(c, s'))
  {
    if AlrMachine.Enabled(s, op) {
      StepKeeps(s, op, s');
      if AtReader(op) { ReaderUnstarted(s, op, s'); } else { OthersUnstarted(s, op, s'); }
      forall r: nat, id | Unstarted(s', r, id) ensures id !in c.hist.started {
        assert id in s.subs ==> id in s.ids;
      }
    }
  }

  ghost predicate NewlyStarted(c: C.Cluster, e: C.Event, h': C.History) {
    forall id | id in h'.started :: id in c.hist.started || (e.ClientStart? && e.cmd.Command? && id == e.cmd.id)
  }

  lemma StartedBy(c: C.Cluster, e: C.Event, h': C.History)
    requires C.Enabled(c, e) && h' == C.Record(c, e)
    ensures NewlyStarted(c, e, h')
  {
  }

  lemma SubmitStarts(c: C.Cluster, s: State, e: C.Event, c': C.Cluster, op: Event, s': State)
    requires Inv(s) && StartsOK(System(c, s)) && e.ClientStart? && C.Enabled(c, e) && NewlyStarted(c, e, c'.hist)
             && op == Starting(c, e.s, e.cmd)
    requires AlrMachine.Enabled(s, op) && s' == Fire(s, op)
    ensures StartsOK(System(c', s'))
  {
    StepKeeps(s, op, s');
    ReturnsStart(s, op, s');
    WaitingWasSubmitted(s, e.s, e.cmd.id);
  }

  lemma QuietStarts(c: C.Cluster, c': C.Cluster, s: State, s': State)
    requires StartsOK(System(c, s)) && s'.replicas == s.replicas && s'.subs == s.subs
             && forall id | id in c'.hist.started :: id in c.hist.started
    ensures StartsOK(System(c', s'))
  {
    forall r: nat, id | Unstarted(s', r, id) ensures Unstarted(s, r, id) {}
  }

  lemma MoveStarts(c: C.Cluster, c': C.Cluster, s: State, op: Event, s': State)
    requires Inv(s) && StartsOK(System(c, s)) && s' == Fire(s, op)
             && forall id | id in c'.hist.started :: id in c.hist.started
    ensures StartsOK(System(c', s'))
  {
    QuietStarts(c, c', s, s);
    FireStarts(c', s, op, s');
  }

  lemma GrowAndStart(c: C.Cluster, s: State, e: C.Event, mid: State, op: Event, c': C.Cluster, s': State)
    requires StartsOK(System(c, s)) && e.ClientStart? && C.Enabled(c, e) && NewlyStarted(c, e, c'.hist)
             && op == Starting(c, e.s, e.cmd)
    requires mid.replicas == s.replicas && mid.subs == s.subs && Inv(mid) && AlrMachine.Enabled(mid, op)
             && s' == Fire(mid, op)
    ensures StartsOK(System(c', s'))
  {
    QuietStarts(c, c, s, mid);
    SubmitStarts(c, mid, e, c', op, s');
  }

  lemma FollowStarts(c: C.Cluster, s: State, e: C.Event, nu: nat, c': C.Cluster, log: seq<Command>, s': State)
    requires Inv(s) && StartsOK(System(c, s)) && NewlyStarted(c, e, c'.hist) && !e.ClientStart?
    requires e.Deliver? ==> s' == Fire(s, Apply(e.s, nu))
    requires e.Restart? ==> s' == Fire(s, Crash(e.s, nu))
    requires !e.Deliver? && !e.Restart? ==> s' == Grown(s, log)
    ensures StartsOK(System(c', s'))
  {
    if e.Deliver? { MoveStarts(c, c', s, Apply(e.s, nu), s'); }
    else if e.Restart? { MoveStarts(c, c', s, Crash(e.s, nu), s'); }
    else { QuietStarts(c, c', s, s'); }
  }

  lemma GrownInv(c: C.Cluster, s: State, e: C.Event, c': C.Cluster, v: RL.Shared, m: RL.Move)
    requires Inv(s) && S.Safe(c') && R.Given(c'.hist, Submitted(s)) && Matches(e, m) && e.ClientStart?
             && C.Enabled(c, e)
    requires A.SharedOf(s) == v && RL.Moves(v, L.SharedOf(L.View(c')), m)
             && AlrMachine.Enabled(s, Starting(c, e.s, e.cmd))
    ensures Inv(Grown(s, Committed(c'))) && AlrMachine.Enabled(Grown(s, Committed(c')), Starting(c, e.s, e.cmd))
  {
    CommittedFacts(c', Submitted(s), Committed(c'));
    LogGrows(s, L.SharedOf(L.View(c')), Grown(s, Committed(c')));
  }

  lemma RaftStarts(c: C.Cluster, s: State, e: C.Event, nu: nat, m: RL.Move, c': C.Cluster, s': State)
    requires Together(System(c, s)) && StartsOK(System(c, s)) && RaftEnabled(System(c, s), e, nu)
             && m == L.MoveOf(c, e) && c' == C.Step(c, e)
    requires s' == Follow(s, c, e, Committed(c'), nu)
    ensures StartsOK(System(c', s'))
  {
    StartedBy(c, e, c'.hist);
    if e.ClientStart? {
      StartStarts(c, s, e, nu, m, c', s');
    } else {
      FollowStarts(c, s, e, nu, c', Committed(c'), s');
    }
  }

  lemma StartStarts(c: C.Cluster, s: State, e: C.Event, nu: nat, m: RL.Move, c': C.Cluster, s': State)
    requires Together(System(c, s)) && StartsOK(System(c, s)) && RaftEnabled(System(c, s), e, nu)
    requires e.ClientStart? && m == L.MoveOf(c, e) && c' == C.Step(c, e) && NewlyStarted(c, e, c'.hist)
    requires s' == Follow(s, c, e, Committed(c'), nu)
    ensures StartsOK(System(c', s'))
  {
    StartIsGiven(s, e.s, e.cmd);
    RaftSide(c, e, c', Submitted(s), m);
    GrownInv(c, s, e, c', L.SharedOf(L.View(c)), m);
    GrowAndStart(c, s, e, Grown(s, Committed(c')), Starting(c, e.s, e.cmd), c', s');
  }

  lemma StepStarts(y: System, step: Step, y': System)
    requires Together(y) && StartsOK(y) && Leads(y, step, y')
    ensures StartsOK(y')
  {
    assert y == System(y.raft, y.kv) && y' == System(y'.raft, y'.kv);
    match step
    case KvStep(op) => FireStarts(y.raft, y.kv, op, y'.kv);
    case RaftStep(e, nu) => RaftStarts(y.raft, y.kv, e, nu, L.MoveOf(y.raft, e), y'.raft, y'.kv);
  }

  lemma StartsNext(nonces: seq<nat>, steps: seq<Step>, systems: seq<System>, i: nat, y: System, y': System)
    requires IsRun(nonces, steps, systems) && i < |steps| && y == systems[i] && y' == systems[i + 1] && StartsOK(y)
    ensures StartsOK(y')
  {
    RunTogether(nonces, steps, systems, i);
    StepStarts(y, steps[i], y');
  }

  lemma {:induction false} RunStarts(nonces: seq<nat>, steps: seq<Step>, systems: seq<System>, i: nat)
    requires IsRun(nonces, steps, systems) && i < |systems|
    ensures StartsOK(systems[i])
  {
    if i > 0 {
      RunStarts(nonces, steps, systems, i - 1);
      StartsNext(nonces, steps, systems, i - 1, systems[i - 1], systems[i]);
    }
  }

  /** Raft's demand for new command ids holds no Submit back: its id is one Raft has never seen. */
  lemma StartIsNeverHeldBack(nonces: seq<nat>, steps: seq<Step>, systems: seq<System>, i: nat, r: nat, id: nat)
    requires IsRun(nonces, steps, systems) && i < |systems| && r < |systems[i].raft.servers|
             && Unstarted(systems[i].kv, r, id)
    ensures C.Enabled(systems[i].raft, C.ClientStart(r, Command(id, systems[i].kv.replicas[r].waits[id].req)))
  {
    RunStarts(nonces, steps, systems, i);
  }
}
