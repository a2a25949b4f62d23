/**
 * The interface between Raft and the key/value service: one log of commands that only grows, and
 * replicas that take its commands in order and start over after a crash.
 */
module ReplicatedLog {
  import opened RaftTypes

  /** The committed commands, and how many of them each replica has taken in its present lifetime. */
  datatype Shared = Shared(log: seq<Command>, applied: seq<nat>)

  datatype Move = Grow | Take(s: nat, cmd: Command) | Forget(s: nat)

  predicate Moves(v: Shared, v': Shared, m: Move) {
    match m
    case Grow => v.log <= v'.log && v'.applied == v.applied
    case Take(s, cmd) =>
      && s < |v.applied| && v.applied[s] < |v.log| && cmd == v.log[v.applied[s]]
      && v' == v.(applied := v.applied[s := v.applied[s] + 1])
    case Forget(s) => s < |v.applied| && v' == v.(applied := v.applied[s := 0])
  }

  /** What replica s has taken after move m, when it had taken `took` before. */
  function After(took: seq<Command>, m: Move, s: nat): seq<Command> {
    match m
    case Take(r, cmd) => if r == s then took + [cmd] else took
    case Forget(r) => if r == s then [] else took
    case Grow => took
  }

  /** What replica s took since its last restart, as a list of moves reports it. */
  function Taken(moves: seq<Move>, s: nat): seq<Command> {
    if moves == [] then [] else After(Taken(moves[..|moves| - 1], s), moves[|moves| - 1], s)
  }

  ghost predicate Path(views: seq<Shared>, moves: seq<Move>) {
    && |views| == |moves| + 1 && (forall i | 0 <= i < |views[0].applied| :: views[0].applied[i] == 0)
    && forall i | 0 <= i < |moves| :: Moves(views[i], views[i + 1], moves[i])
  }

  /** One move keeps what a replica took equal to the front of the log. */
  lemma MoveTakes(v: Shared, v': Shared, m: Move, s: nat, took: seq<Command>)
    requires Moves(v, v', m) && s < |v.applied| && v.applied[s] <= |v.log| && took == v.log[..v.applied[s]]
    ensures s < |v'.applied| && v'.applied[s] <= |v'.log| && After(took, m, s) == v'.log[..v'.applied[s]]
  {
  }

  /** Since its last restart a replica took exactly the first commands of the log, in order, without gap or repeat. */
  lemma {:induction false} TakenIsPrefix(views: seq<Shared>, moves: seq<Move>, s: nat)
    requires Path(views, moves) && s < |views[0].applied|
    ensures var v := views[|moves|];
            s < |v.applied| && v.applied[s] <= |v.log| && Taken(moves, s) == v.log[..v.applied[s]]
    decreases |moves|
  {
    if moves != [] {
      var n := |moves| - 1;
      PathPrefix(views, moves);
      TakenIsPrefix(views[..n + 1], moves[..n], s);
      MoveTakes(views[n], views[n + 1], moves[n], s, Taken(moves[..n], s));
    }
  }

  lemma PathPrefix(views: seq<Shared>, moves: seq<Move>)
    requires Path(views, moves) && moves != []
    ensures Path(views[..|moves|], moves[..|moves| - 1])
  {
  }
}
