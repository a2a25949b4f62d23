/** Data of one Raft peer and of the messages peers exchange (src/raft/structs.go). */
module RaftTypes {

  /** A client request as it travels through the log (src/kvraft1/server.go, type Op). */
  datatype Request =
    | Get(key: string)
    | Put(key: string, value: string, version: nat)
    | Sync(server: nat, count: nat, nonce: nat)

  /** An rsm.Op: a request tagged with the id its submitter waits on; the sentinel carries none. */
  datatype Command = NoCommand | Command(id: nat, req: Request)

  datatype Entry = Entry(term: nat, cmd: Command)
  type Log = seq<Entry>

  const Sentinel := Entry(0, NoCommand)

  datatype Role = Follower | Candidate | Leader

  /** `NoVote` is the source's votedFor == -1. */
  datatype Vote = NoVote | VotedFor(id: nat)

  /** What persist() writes and readPersist() restores. */
  datatype Durable = Durable(term: nat, vote: Vote, log: Log)

  /** What a peer starts with when nothing was saved. */
  const Blank := Durable(0, NoVote, [Sentinel])

  /** An index that may be -1 ("nothing replicated yet", "before the sentinel"). */
  type Index = i: int | -1 <= i witness 0

  /**
   * The fields of the Raft struct.  `voters` is the set of peers counted by the `votes`
   * counter of the running election, `batch` the entries the applier has copied out of
   * the log and not yet delivered, `disk` the persister's content.
   */
  datatype Server = Server(
    term: nat, vote: Vote, log: Log,
    role: Role, leaderId: nat,
    commit: int, applied: nat, batch: seq<Entry>,
    next: seq<nat>, acks: seq<Index>,
    voters: set<nat>,
    disk: Durable)

  datatype VoteArgs = VoteArgs(term: nat, cand: nat, lastIndex: int, lastTerm: nat)
  datatype VoteReply = VoteReply(term: nat, granted: bool)

  datatype AppendArgs = AppendArgs(
    term: nat, leader: nat, prev: Index, prevTerm: nat, entries: seq<Entry>, commit: int)
  {
    /** The last index the receiver holds if it accepts: PrevLogIndex + len(Entries). */
    function End(): Index { prev + |entries| }
  }

  datatype AppendReply = AppendReply(term: nat, success: bool, conflictTerm: int, conflictIndex: nat)

  /** Replies carry the arguments they answer: the sending goroutine still holds them. */
  datatype Msg =
    | VoteReq(vargs: VoteArgs)
    | VoteRep(voter: nat, vargs: VoteArgs, vreply: VoteReply)
    | AppendReq(dest: nat, args: AppendArgs)
    | AppendRep(dest: nat, args: AppendArgs, reply: AppendReply)

  function Min(a: int, b: int): int { if a < b then a else b }
  function Max(a: int, b: int): int { if a > b then a else b }

  function LastIndex(log: Log): int { |log| - 1 }
  function LastTerm(log: Log): nat { if |log| > 0 then log[|log| - 1].term else 0 }
}
