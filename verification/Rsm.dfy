/**
 * The replicated state machine of src/kvraft1/rsm/rsm.go: Submit hands a command to Raft and waits on
 * a channel, the reader goroutine applies what Raft delivers and wakes the waiting Submit.  The machine
 * of AlrMachine steps with the same functions of Submits.
 */
module Rsm {
  import opened Options
  import opened RaftTypes
  import opened KvStore
  import opened Submits
  import KvServer

  class RSM {
    const sm: KvServer.KVServer
    var opChs: Waits

    constructor (sm: KvServer.KVServer)
      ensures this.sm == sm && opChs == map[]
    {
      this.sm := sm;
      opChs := map[];
    }

    /** Submit up to calling Start; id is freshly drawn. */
    method Register(id: nat, req: Request)
      requires id !in opChs
      modifies this
      ensures opChs == old(opChs)[id := Wait(req, None, None)]
    {
      opChs := opChs[id := Wait(req, None, None)];
    }

    /** Start returned: either Submit gives up at once or it waits on its channel. */
    method Started(id: nat, term: nat, isLeader: bool) returns (result: Option<Err>)
      requires id in opChs
      modifies this
      ensures opChs == Begun(old(opChs), id, term, isLeader)
      ensures result == if isLeader then None else Some(ErrWrongLeader)
    {
      if !isLeader {
        opChs := opChs - {id};
        return Some(ErrWrongLeader);
      }
      opChs := opChs[id := opChs[id].(term := Some(term))];
      return None;
    }

    /** The reader on a valid command; false if it got stuck in DoOp or on the channel. */
    method ReadCommand(cmd: Command, nu: nat) returns (live: bool)
      requires cmd.Command?
      modifies this, sm
      ensures sm.View() == KvServer.Perform(old(sm.View()), sm.me, cmd.req, nu).1
      ensures live <==> KvServer.Perform(old(sm.View()), sm.me, cmd.req, nu).0.Replied? && CanPost(old(opChs), cmd.id)
      ensures opChs == if live then Post(old(opChs), cmd.id,
              Value(KvServer.Perform(old(sm.View()), sm.me, cmd.req, nu).0.reply)) else old(opChs)
    {
      var done := sm.DoOp(cmd.req, nu);
      if !done.Replied? { return false; }
      if cmd.id in opChs {
        if opChs[cmd.id].got.Some? { return false; }
        opChs := opChs[cmd.id := opChs[cmd.id].(got := Some(Value(done.reply)))];
      }
      return true;
    }

    /** The reader on an aborted command. */
    method ReadAborted(id: nat) returns (live: bool)
      modifies this
      ensures live <==> CanPost(old(opChs), id)
      ensures opChs == if live then Post(old(opChs), id, Aborted) else old(opChs)
    {
      if id in opChs {
        if opChs[id].got.Some? { return false; }
        opChs := opChs[id := opChs[id].(got := Some(Aborted))];
      }
      return true;
    }

    /** Submit after its channel delivered. */
    method Finish(id: nat, termAfter: nat, isLeader: bool) returns (err: Err, reply: Option<Reply>)
      requires id in opChs && opChs[id].term.Some? && opChs[id].got.Some?
      modifies this
      ensures opChs == old(opChs) - {id}
      ensures (err, reply) == Conclude(old(opChs)[id].got.value, old(opChs)[id].term.value, termAfter, isLeader)
    {
      var w := opChs[id];
      opChs := opChs - {id};
      if w.got.value == Aborted { return ErrWrongLeader, None; }
      if isLeader && w.term.value == termAfter { return OK, Some(w.got.value.reply); }
      return ErrWrongLeader, None;
    }
  }
}
