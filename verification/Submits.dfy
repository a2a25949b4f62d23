/** The waiting Submits of one RSM (src/kvraft1/rsm/rsm.go): its opChs map and what happens on those channels. */
module Submits {
  import opened Options
  import opened RaftTypes
  import opened KvStore

  /** What the reader sends on a channel. */
  datatype Result = Aborted | Value(reply: Reply)

  /** A running Submit: its request, the term Start returned, and what came over its channel. */
  datatype Wait = Wait(req: Request, term: Option<nat>, got: Option<Result>)

  type Waits = map<nat, Wait>

  /** The reader can hand over to id: nobody waits for it, or its Submit has not received anything yet. */
  predicate CanPost(waits: Waits, id: nat) { id in waits ==> waits[id].got.None? }

  function Post(waits: Waits, id: nat, r: Result): Waits {
    if id in waits && CanPost(waits, id) then waits[id := waits[id].(got := Some(r))] else waits
  }

  /** Start returned: Submit gives up at once or waits on its channel. */
  function Begun(waits: Waits, id: nat, term: nat, isLeader: bool): Waits
    requires id in waits
  {
    if isLeader then waits[id := waits[id].(term := Some(term))] else waits - {id}
  }

  /** What Submit returns when it received r, started in termBefore and now sees (termAfter, isLeader). */
  function Conclude(r: Result, termBefore: nat, termAfter: nat, isLeader: bool): (Err, Option<Reply>) {
    if r.Value? && isLeader && termBefore == termAfter then (OK, Some(r.reply)) else (ErrWrongLeader, None)
  }

  /** KVServer.Put: what the RPC is answered when Submit returned this. */
  function PutAnswer(result: (Err, Option<Reply>)): Reply {
    if result.0 == OK && result.1.Some? then result.1.value else PutReply(ErrWrongLeader)
  }
}
