/**
 * The Raft struct and its critical sections as they update it in place.  Every method is proved to
 * do what RaftHandlers says; those functions are what the cluster machine steps with.
 */
module RaftServer {
  import opened RaftTypes
  import H = RaftHandlers

  datatype Saved = Nothing | Bytes(state: Durable)

  function VoteOf(votedFor: Index): Vote { if votedFor == -1 then NoVote else VotedFor(votedFor) }

  function CommandsFrom(log: Log, i: nat): seq<Command>
    requires i <= |log|
    decreases |log| - i
  {
    if i == |log| then [] else [log[i].cmd] + CommandsFrom(log, i + 1)
  }

  /** Truncating at i loses nothing without report: every command is kept or aborted, in order. */
  lemma {:induction false} KeptOrAborted(log: Log, i: nat)
    requires i <= |log|
    ensures |CommandsFrom(log, i)| == |log| - i
    ensures forall k | 0 <= k < |log| - i :: CommandsFrom(log, i)[k] == log[i + k].cmd
    ensures CommandsFrom(log[..i], 0) + CommandsFrom(log, i) == CommandsFrom(log, 0)
    decreases |log| - i
  {
    if i < |log| {
      KeptOrAborted(log, i + 1);
      CommandsExtend(log, 0, i);
    } else {
      assert log[..i] == log;
    }
  }

  lemma CommandsExtend(log: Log, i: nat, j: nat)
    requires i <= j < |log|
    ensures CommandsFrom(log[..j], i) + [log[j].cmd] == CommandsFrom(log[..j + 1], i)
    decreases j - i
  {
    if i < j {
      CommandsExtend(log, i + 1, j);
      assert CommandsFrom(log[..j], i) == [log[i].cmd] + CommandsFrom(log[..j], i + 1);
    } else {
      assert CommandsFrom(log[..j + 1], i) == [log[i].cmd] + CommandsFrom(log[..j + 1], i + 1);
    }
  }

  class Raft {
    const peers: nat
    const me: nat
    var persister: Durable

    var currentTerm: nat
    var votedFor: Index
    var log: Log

    var commitIndex: int
    var lastApplied: nat
    var batch: seq<Entry>

    var nextIndex: seq<nat>
    var matchIndex: seq<Index>

    var state: Role
    var leaderId: nat

    // The vote counter of the running election, and the peers it counted.
    var votes: nat
    ghost var counted: set<nat>

    ghost predicate Valid()
      reads this
    {
      && me < peers && votes == |counted|
      && (state == Leader ==> |nextIndex| == peers && |matchIndex| == peers)
    }

    ghost function View(): Server
      reads this
    {
      Server(currentTerm, VoteOf(votedFor), log, state, leaderId, commitIndex, lastApplied, batch,
             nextIndex, matchIndex, counted, persister)
    }

    /** Make and readPersist: volatile fields start over, the rest comes from the persister if it holds anything. */
    constructor (peers: nat, me: nat, saved: Saved)
      requires me < peers
      ensures this.peers == peers && this.me == me && Valid()
      ensures View() == H.Boot(if saved.Bytes? then saved.state else Blank)
    {
      this.peers, this.me := peers, me;
      persister := if saved.Bytes? then saved.state else Blank;
      currentTerm, votedFor, log := 0, -1, [Sentinel];
      commitIndex, lastApplied, batch := 0, 0, [];
      nextIndex, matchIndex := [], [];
      state, leaderId, votes, counted := Follower, 0, 0, {};
      new;
      if saved.Bytes? {
        currentTerm := saved.state.term;
        votedFor := match saved.state.vote case NoVote => -1 case VotedFor(id) => id;
        log := saved.state.log;
      }
    }

    method Persist()
      modifies this`persister
      ensures View() == H.Persist(old(View()))
    {
      persister := Durable(currentTerm, VoteOf(votedFor), log);
    }

    method BecomeFollower(term: nat)
      requires Valid()
      modifies this
      ensures Valid() && View() == H.StepDown(old(View()), term)
    {
      state := Follower;
      currentTerm := term;
      votedFor := -1;
      Persist();
    }

    // ---------------------------------------------------------------- elections

    /** isLogUpToDate: later last term, or the same last term and a log at least as long. */
    method IsLogUpToDate(candidateIndex: int, candidateTerm: nat) returns (ok: bool)
      ensures ok == H.UpToDate(candidateIndex, candidateTerm, log)
    {
      var lastIndex := |log| - 1;
      var lastTerm := 0;
      if lastIndex >= 0 { lastTerm := log[lastIndex].term; }
      if candidateTerm != lastTerm { return candidateTerm > lastTerm; }
      return candidateIndex >= lastIndex;
    }

    method StartElection() returns (args: VoteArgs)
      requires Valid()
      modifies this
      ensures Valid() && View() == H.OnTimeout(old(View()), me) && args == H.Ballots(View(), me) && votes == 1
    {
      currentTerm := currentTerm + 1;
      state := Candidate;
      votedFor := me;
      Persist();
      var lastLogIndex := |log| - 1;
      var lastLogTerm := 0;
      if lastLogIndex >= 0 { lastLogTerm := log[lastLogIndex].term; }
      votes, counted := 1, {me};
      args := VoteArgs(currentTerm, me, lastLogIndex, lastLogTerm);
    }

    method RequestVote(args: VoteArgs) returns (reply: VoteReply)
      requires Valid()
      modifies this
      ensures Valid() && View() == H.OnVoteReq(old(View()), args) && reply == H.VoteAnswer(old(View()), args)
    {
      reply := VoteReply(currentTerm, false);
      if args.term < currentTerm { return; }
      if args.term > currentTerm { BecomeFollower(args.term); }
      var upToDate := IsLogUpToDate(args.lastIndex, args.lastTerm);
      if (votedFor == -1 || votedFor == args.cand) && upToDate {
        reply := reply.(granted := true);
        votedFor := args.cand;
        Persist();
      }
    }

    /** The goroutine that handles one peer's answer; it runs once per peer and election. */
    method CountVote(voter: nat, args: VoteArgs, reply: VoteReply) returns (sends: set<Msg>)
      requires Valid()
      requires args.term == currentTerm && state == Candidate ==> voter !in counted
      modifies this
      ensures Valid() && View() == H.OnVoteRep(old(View()), me, peers, voter, args, reply)
      ensures sends == if H.Wins(old(View()), peers, voter, args, reply) then H.Broadcast(View(), me) else {}
    {
      sends := {};
      if currentTerm != args.term || state != Candidate { return; }
      if reply.term > currentTerm {
        BecomeFollower(reply.term);
        return;
      }
      if reply.granted {
        votes, counted := votes + 1, counted + {voter};
        if votes > peers / 2 && state == Candidate { sends := BecomeLeader(); }
      }
    }

    method BecomeLeader() returns (sends: set<Msg>)
      requires Valid()
      modifies this
      ensures Valid() && View() == H.BecomeLeader(old(View()), me, peers) && sends == H.Broadcast(View(), me)
    {
      state := Leader;
      leaderId := me;
      var n := peers;
      var next, acks: seq<Index> := seq(n, _ => 0), seq(n, _ => 0);
      var last := |log|;
      var i := 0;
      while i < n
        invariant 0 <= i <= n && |next| == n && |acks| == n
        invariant forall k | 0 <= k < i :: next[k] == last && acks[k] == -1
      {
        next := next[i := last];
        acks := acks[i := -1];
        i := i + 1;
      }
      acks := acks[me := LastIndex(log)];
      next := next[me := last];
      nextIndex, matchIndex := next, acks;
      assert nextIndex == H.BecomeLeader(old(View()), me, peers).next;
      assert matchIndex == H.BecomeLeader(old(View()), me, peers).acks;
      sends := BroadcastAppendEntries();
    }

    // ---------------------------------------------------------------- replication, leader side

    /** The arguments both broadcastAppendEntries and a retry build for one peer. */
    method SuffixFrom(nextIdx: nat) returns (args: AppendArgs)
      ensures args == H.Suffix(View(), me, nextIdx)
    {
      var prevIdx: Index := nextIdx - 1;
      var prevTerm := 0;
      if prevIdx >= 0 && prevIdx < |log| { prevTerm := log[prevIdx].term; }
      var entries := [];
      if nextIdx <= |log| - 1 { entries := log[nextIdx..]; }
      args := AppendArgs(currentTerm, me, prevIdx, prevTerm, entries, commitIndex);
    }

    method BroadcastAppendEntries() returns (sends: set<Msg>)
      requires Valid()
      ensures sends == H.Broadcast(View(), me)
    {
      sends := {};
      if state != Leader { return; }
      var i := 0;
      while i < peers
        invariant 0 <= i <= peers
        invariant sends == set p | 0 <= p < i && p != me :: AppendReq(p, H.Suffix(View(), me, nextIndex[p]))
      {
        if i != me {
          var args := SuffixFrom(nextIndex[i]);
          sends := sends + {AppendReq(i, args)};
        }
        i := i + 1;
      }
    }

    method Start(command: Command) returns (index: int, term: nat, isLeader: bool, sends: set<Msg>)
      requires Valid()
      modifies this
      ensures Valid() && View() == H.OnStart(old(View()), me, command) && sends == H.Broadcast(View(), me)
      ensures isLeader == (old(state) == Leader) && term == old(currentTerm)
      ensures if isLeader then index == old(|log|) && log == old(log) + [Entry(term, command)] else index == -1
    {
      if state != Leader { return -1, currentTerm, false, {}; }
      term := currentTerm;
      index := |log|;
      log := log + [Entry(term, command)];
      matchIndex := matchIndex[me := index];
      nextIndex := nextIndex[me := index + 1];
      Persist();
      sends := BroadcastAppendEntries();
      isLeader := true;
    }

    method FirstIndexOfTerm(term: int) returns (idx: Index)
      ensures idx == H.FirstIndexOfTerm(log, term)
    {
      var i := 0;
      while i < |log|
        invariant 0 <= i <= |log|
        invariant H.FirstIndexFrom(log, term, 0) == H.FirstIndexFrom(log, term, i)
      {
        if log[i].term == term { return i; }
        i := i + 1;
      }
      return -1;
    }

    /** advanceCommitIndex: walk down from the end of the log to the first index a majority holds. */
    method AdvanceCommitIndex()
      requires Valid() && state == Leader
      modifies this`commitIndex
      ensures View() == old(View()).(commit := H.CommitFrom(old(View()), me, LastIndex(log)))
    {
      var N := |log| - 1;
      while N > commitIndex
        invariant commitIndex == old(commitIndex) && N < |log|
        invariant H.CommitFrom(View(), me, LastIndex(log)) == H.CommitFrom(View(), me, N)
        decreases N - commitIndex
      {
        if N >= 0 && log[N].term == currentTerm {
          var count := 1;
          var i := 0;
          while i < peers
            invariant 0 <= i <= peers && count == 1 + H.CountAcks(matchIndex, me, N, i)
          {
            if i != me && matchIndex[i] >= N { count := count + 1; }
            i := i + 1;
          }
          if count > peers / 2 {
            commitIndex := N;
            return;
          }
        }
        N := N - 1;
      }
    }

    /** The peer holds what was sent. */
    method RecordSuccess(server: nat, args: AppendArgs)
      requires Valid() && state == Leader && server < peers
      modifies this`matchIndex, this`nextIndex, this`commitIndex
      ensures Valid() && View() == H.Acknowledge(old(View()), me, server, args)
    {
      var matched := args.prev + |args.entries|;
      matchIndex := matchIndex[server := Max(matchIndex[server], matched)];
      nextIndex := nextIndex[server := matchIndex[server] + 1];
      AdvanceCommitIndex();
    }

    /** The peer's log conflicts: back up as it says. */
    method BackUpTo(server: nat, reply: AppendReply)
      requires Valid() && state == Leader && server < peers
      modifies this`nextIndex
      ensures Valid() && nextIndex == old(nextIndex)[server := H.BackUp(log, reply)]
    {
      if reply.conflictTerm != -1 {
        var idx := FirstIndexOfTerm(reply.conflictTerm);
        if idx == -1 {
          nextIndex := nextIndex[server := reply.conflictIndex];
        } else {
          nextIndex := nextIndex[server := idx];
        }
      } else {
        nextIndex := nextIndex[server := Max(0, reply.conflictIndex)];
      }
    }

    /** replicateTo after the call returned: record the acknowledgement, or back up and retry. */
    method ReplicateReply(server: nat, args: AppendArgs, reply: AppendReply) returns (sends: set<Msg>)
      requires Valid() && server < peers
      modifies this
      ensures Valid() && View() == H.OnAppendRep(old(View()), me, server, args, reply)
      ensures sends == H.Retry(old(View()), me, server, args, reply)
    {
      sends := {};
      if state != Leader || args.term != currentTerm { return; }
      if reply.term > currentTerm {
        BecomeFollower(reply.term);
        return;
      }
      if reply.success {
        RecordSuccess(server, args);
      } else {
        BackUpTo(server, reply);
        var newArgs := SuffixFrom(nextIndex[server]);
        sends := {AppendReq(server, newArgs)};
      }
    }

    // ---------------------------------------------------------------- replication, follower side

    /** The scan for the first index of the conflicting term. */
    method ConflictStart(prev: nat) returns (index: nat)
      requires prev < |log|
      ensures index == H.RunStart(log, prev)
    {
      var conflictTerm := log[prev].term;
      var i: int := prev;
      while i >= 0 && log[i].term == conflictTerm
        invariant -1 <= i <= prev
        invariant forall k | i < k <= prev :: log[k].term == conflictTerm
        invariant i < prev ==> H.RunStart(log, prev) == H.RunStart(log, i + 1)
      {
        i := i - 1;
      }
      index := i + 1;
    }

    method AppendEntries(args: AppendArgs) returns (reply: AppendReply, aborted: seq<Command>)
      requires Valid()
      modifies this
      ensures Valid() && View() == H.OnAppend(old(View()), args) && reply == H.AppendAnswer(old(View()), args)
      ensures aborted == if H.Accepts(old(View()), args) then CommandsFrom(old(log), args.prev + 1) else []
    {
      reply, aborted := AppendReply(currentTerm, false, -1, 0), [];
      if args.term < currentTerm { return; }
      leaderId := args.leader;
      if args.term > currentTerm { BecomeFollower(args.term); }
      if state == Candidate { BecomeFollower(args.term); }
      if args.prev > |log| - 1 {
        reply := reply.(conflictIndex := |log|);
        return;
      }
      if args.prev >= 0 {
        if log[args.prev].term != args.prevTerm {
          var first := ConflictStart(args.prev);
          reply := reply.(conflictTerm := log[args.prev].term, conflictIndex := first);
          return;
        }
      }
      aborted := Accept(args);
      reply := reply.(success := true, term := currentTerm);
    }

    /** The log matches up to PrevLogIndex: take over the leader's suffix and its commit index. */
    method Accept(args: AppendArgs) returns (aborted: seq<Command>)
      requires Valid() && args.prev < |log|
      modifies this
      ensures Valid() && View() == H.Learn(H.Splice(old(View()), args), args.commit)
      ensures aborted == CommandsFrom(old(log), args.prev + 1)
    {
      aborted := Truncate(args.prev + 1);
      if |args.entries| > 0 {
        log := log + args.entries;
        Persist();
      }
      if args.commit > commitIndex { commitIndex := Min(args.commit, |log| - 1); }
    }

    /** Drop everything from insertIdx on, reporting each dropped command as aborted. */
    method Truncate(insertIdx: nat) returns (aborted: seq<Command>)
      requires insertIdx <= |log|
      modifies this`log
      ensures log == old(log)[..insertIdx] && aborted == CommandsFrom(old(log), insertIdx)
    {
      aborted := [];
      if insertIdx < |log| {
        var i := insertIdx;
        while i < |log|
          invariant log == old(log) && insertIdx <= i <= |log|
          invariant aborted == CommandsFrom(log[..i], insertIdx)
        {
          aborted := aborted + [log[i].cmd];
          CommandsExtend(log, insertIdx, i);
          i := i + 1;
        }
        assert log[..|log|] == log;
        log := log[..insertIdx];
      } else {
        assert log[..insertIdx] == log;
      }
    }

    // ---------------------------------------------------------------- applier

    /** The applier's first half: copy what is committed and not yet applied. */
    method TakeBatch()
      requires Valid()
      modifies this`batch
      ensures Valid() && View() == H.OnTake(old(View()))
    {
      if batch == [] && commitIndex > lastApplied {
        var start, end := lastApplied + 1, commitIndex;
        if end >= start && start >= 0 && end < |log| { batch := log[start..end + 1]; }
      }
    }

    /** Its second half: hand over one entry and advance lastApplied to its index. */
    method DeliverNext() returns (index: nat, command: Command)
      requires Valid() && batch != []
      modifies this`batch, this`lastApplied
      ensures Valid() && View() == H.OnDeliver(old(View()))
      ensures index == old(lastApplied) + 1 == lastApplied && command == old(batch)[0].cmd
    {
      index, command := lastApplied + 1, batch[0].cmd;
      lastApplied, batch := index, batch[1..];
    }
  }
}
