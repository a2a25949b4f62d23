/**
 * What each critical section of src/raft does to the peer that runs it, as a function of
 * that peer's state.  Class RaftServer proves that the in-place code computes these.
 */
module RaftHandlers {
  import opened RaftTypes

  // ---------------------------------------------------------------- persistence, roles

  function Persist(sv: Server): Server {
    sv.(disk := Durable(sv.term, sv.vote, sv.log))
  }

  function Boot(d: Durable): Server {
    Server(d.term, d.vote, d.log, Follower, 0, 0, 0, [], [], [], {}, d)
  }

  function StepDown(sv: Server, term: nat): Server {
    Persist(sv.(role := Follower, term := term, vote := NoVote))
  }

  // ---------------------------------------------------------------- elections

  predicate UpToDate(candIndex: int, candTerm: nat, log: Log) {
    if candTerm != LastTerm(log) then candTerm > LastTerm(log) else candIndex >= LastIndex(log)
  }

  function OnTimeout(sv: Server, me: nat): Server {
    Persist(sv.(term := sv.term + 1, role := Candidate, vote := VotedFor(me), voters := {me}))
  }

  function Ballots(sv: Server, me: nat): VoteArgs {
    VoteArgs(sv.term, me, LastIndex(sv.log), LastTerm(sv.log))
  }

  predicate Grants(sv: Server, a: VoteArgs) {
    && a.term >= sv.term
    && (a.term > sv.term || sv.vote == NoVote || sv.vote == VotedFor(a.cand))
    && UpToDate(a.lastIndex, a.lastTerm, sv.log)
  }

  function OnVoteReq(sv: Server, a: VoteArgs): Server {
    if a.term < sv.term then sv
    else
      var s1 := if a.term > sv.term then StepDown(sv, a.term) else sv;
      if Grants(sv, a) then Persist(s1.(vote := VotedFor(a.cand))) else s1
  }

  /** The reply's term is read before the receiver moves to the request's term. */
  function VoteAnswer(sv: Server, a: VoteArgs): VoteReply {
    VoteReply(sv.term, Grants(sv, a))
  }

  function OnVoteRep(sv: Server, me: nat, n: nat, voter: nat, a: VoteArgs, r: VoteReply): Server {
    if sv.term != a.term || sv.role != Candidate then sv
    else if r.term > sv.term then StepDown(sv, r.term)
    else if !r.granted then sv
    else
      var s1 := sv.(voters := sv.voters + {voter});
      if |s1.voters| > n / 2 then BecomeLeader(s1, me, n) else s1
  }

  predicate Wins(sv: Server, n: nat, voter: nat, a: VoteArgs, r: VoteReply) {
    && sv.term == a.term && sv.role == Candidate && r.term <= sv.term && r.granted
    && |sv.voters + {voter}| > n / 2
  }

  function BecomeLeader(sv: Server, me: nat, n: nat): Server {
    sv.(role := Leader, leaderId := me,
        next := seq(n, _ => |sv.log|),
        acks := seq(n, i => if i == me then LastIndex(sv.log) else -1))
  }

  // ---------------------------------------------------------------- replication, leader side

  function Suffix(sv: Server, me: nat, nextIndex: nat): AppendArgs {
    var prev := nextIndex - 1;
    AppendArgs(sv.term, me, prev,
               if 0 <= prev < |sv.log| then sv.log[prev].term else 0,
               if nextIndex <= LastIndex(sv.log) then sv.log[nextIndex..] else [],
               sv.commit)
  }

  function Broadcast(sv: Server, me: nat): set<Msg> {
    if sv.role == Leader
    then set p | 0 <= p < |sv.next| && p != me :: AppendReq(p, Suffix(sv, me, sv.next[p]))
    else {}
  }

  function OnStart(sv: Server, me: nat, cmd: Command): Server {
    if sv.role != Leader then sv
    else
      var log := sv.log + [Entry(sv.term, cmd)];
      Persist(sv.(log := log,
                  acks := if me < |sv.acks| then sv.acks[me := LastIndex(log)] else sv.acks,
                  next := if me < |sv.next| then sv.next[me := |log|] else sv.next))
  }

  function FirstIndexFrom(log: Log, term: int, i: nat): Index
    decreases |log| - i
  {
    if i >= |log| then -1 else if log[i].term == term then i else FirstIndexFrom(log, term, i + 1)
  }

  function FirstIndexOfTerm(log: Log, term: int): Index { FirstIndexFrom(log, term, 0) }

  /** The nextIndex a leader with this log picks after a failed AppendEntries. */
  function BackUp(log: Log, r: AppendReply): nat {
    if r.conflictTerm == -1 then r.conflictIndex
    else
      var idx := FirstIndexOfTerm(log, r.conflictTerm);
      if idx == -1 then r.conflictIndex else idx
  }

  /** Peers other than `me` among the first k whose acknowledged index reaches N. */
  function CountAcks(acks: seq<Index>, me: nat, N: int, k: nat): nat
    requires k <= |acks|
  {
    if k == 0 then 0
    else CountAcks(acks, me, N, k - 1) + if k - 1 != me && acks[k - 1] >= N then 1 else 0
  }

  predicate Committable(sv: Server, me: nat, N: int) {
    && 0 <= N < |sv.log|
    && sv.log[N].term == sv.term
    && 1 + CountAcks(sv.acks, me, N, |sv.acks|) > |sv.acks| / 2
  }

  /** The largest committable index in commit+1..N, or the present commit index. */
  function CommitFrom(sv: Server, me: nat, N: int): int
    decreases N - sv.commit
  {
    if N <= sv.commit then sv.commit
    else if Committable(sv, me, N) then N
    else CommitFrom(sv, me, N - 1)
  }

  function Acknowledge(sv: Server, me: nat, peer: nat, a: AppendArgs): Server
    requires peer < |sv.acks| && peer < |sv.next|
  {
    var k: Index := Max(sv.acks[peer], a.End());
    var s1 := sv.(acks := sv.acks[peer := k], next := sv.next[peer := k + 1]);
    s1.(commit := CommitFrom(s1, me, LastIndex(s1.log)))
  }

  function OnAppendRep(sv: Server, me: nat, peer: nat, a: AppendArgs, r: AppendReply): Server {
    if sv.role != Leader || a.term != sv.term then sv
    else if r.term > sv.term then StepDown(sv, r.term)
    else if !(peer < |sv.acks| && peer < |sv.next|) then sv
    else if r.success then Acknowledge(sv, me, peer, a)
    else sv.(next := sv.next[peer := BackUp(sv.log, r)])
  }

  predicate Retries(sv: Server, a: AppendArgs, r: AppendReply) {
    sv.role == Leader && a.term == sv.term && r.term <= sv.term && !r.success
  }

  function Retry(sv: Server, me: nat, peer: nat, a: AppendArgs, r: AppendReply): set<Msg> {
    if Retries(sv, a, r) then {AppendReq(peer, Suffix(sv, me, BackUp(sv.log, r)))} else {}
  }

  // ---------------------------------------------------------------- replication, follower side

  /** Term and role changes AppendEntries makes before it looks at the log. */
  function Heed(sv: Server, a: AppendArgs): Server {
    var s1 := sv.(leaderId := a.leader);
    if a.term > sv.term || sv.role == Candidate then StepDown(s1, a.term) else s1
  }

  predicate Fits(log: Log, a: AppendArgs) {
    a.prev < |log| && (a.prev >= 0 ==> log[a.prev].term == a.prevTerm)
  }

  predicate Accepts(sv: Server, a: AppendArgs) {
    a.term >= sv.term && Fits(sv.log, a)
  }

  /** First index of the run of entries with log[i]'s term that ends at i. */
  function RunStart(log: Log, i: nat): (k: nat)
    requires i < |log|
    ensures k <= i
  {
    if i > 0 && log[i - 1].term == log[i].term then RunStart(log, i - 1) else i
  }

  /** Unconditional truncation after prev, persisted only when new entries follow. */
  function Splice(sv: Server, a: AppendArgs): Server
    requires a.prev < |sv.log|
  {
    var s1 := sv.(log := sv.log[..a.prev + 1]);
    if |a.entries| > 0 then Persist(s1.(log := s1.log + a.entries)) else s1
  }

  function Learn(sv: Server, commit: int): Server {
    if commit > sv.commit then sv.(commit := Min(commit, LastIndex(sv.log))) else sv
  }

  function OnAppend(sv: Server, a: AppendArgs): Server {
    if a.term < sv.term then sv
    else if !Fits(sv.log, a) then Heed(sv, a)
    else Learn(Splice(Heed(sv, a), a), a.commit)
  }

  function AppendAnswer(sv: Server, a: AppendArgs): AppendReply {
    if a.term < sv.term then AppendReply(sv.term, false, -1, 0)
    else if a.prev >= |sv.log| then AppendReply(sv.term, false, -1, |sv.log|)
    else if !Fits(sv.log, a) then
      AppendReply(sv.term, false, sv.log[a.prev].term, RunStart(sv.log, a.prev))
    else AppendReply(a.term, true, -1, 0)
  }

  // ---------------------------------------------------------------- applier

  function OnTake(sv: Server): Server {
    if sv.batch == [] && sv.commit > sv.applied && sv.commit < |sv.log|
    then sv.(batch := sv.log[sv.applied + 1..sv.commit + 1]) else sv
  }

  function OnDeliver(sv: Server): Server {
    if sv.batch == [] then sv else sv.(applied := sv.applied + 1, batch := sv.batch[1..])
  }
}
