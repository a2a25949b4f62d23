/**
 * Clerk.Put of src/kvraft1/client.go: the retry loop, and what each of its results says about the
 * log.  The network and the servers are a script of RPC outcomes.
 */
module KvClerk {
  import opened Options
  import opened RaftTypes
  import opened KvStore
  import AM = AlrMachine

  /** How one RPC ended: the call failed, was answered, or took more than ten seconds. */
  datatype Outcome = Failed | Replied(err: Err) | TimedOut

  /** Does the Clerk stop after this outcome? */
  predicate Decides(o: Outcome) { o.TimedOut? || o == Replied(OK) || o == Replied(ErrVersion) }

  /** The number of RPCs the Clerk sends when they end as scripted: up to and including the first that decides. */
  function Sent(script: seq<Outcome>): (k: nat)
    ensures k <= |script|
    ensures forall i | 0 <= i < k - 1 :: !Decides(script[i])
    ensures k < |script| ==> k > 0 && Decides(script[k - 1])
  {
    if script == [] then 0
    else if Decides(script[0]) then 1
    else
      var rest := Sent(script[1..]);
      assert forall i | 0 <= i < rest :: script[1..][i] == script[i + 1];
      1 + rest
  }

  lemma {:induction false} SentIs(script: seq<Outcome>, k: nat)
    requires k < |script| && Decides(script[k]) && forall i | 0 <= i < k :: !Decides(script[i])
    ensures Sent(script) == k + 1
  {
    if k > 0 {
      assert !Decides(script[0]);
      assert forall i | 0 <= i < |script| - 1 :: script[1..][i] == script[i + 1];
      SentIs(script[1..], k - 1);
    }
  }

  lemma {:induction false} SentAll(script: seq<Outcome>)
    requires forall i | 0 <= i < |script| :: !Decides(script[i])
    ensures Sent(script) == |script|
  {
    if script != [] { SentAll(script[1..]); }
  }

  /** What the Clerk, with n servers, tells its caller; None while it is still retrying. */
  function Verdict(script: seq<Outcome>, n: nat): Option<Err> {
    var k := Sent(script);
    if n == 0 || k == 0 || !Decides(script[k - 1]) then None
    else match script[k - 1]
      case Replied(OK) => Some(OK)
      case Replied(_) => Some(if k <= n then ErrVersion else ErrMaybe)
      case _ => Some(ErrMaybe)
  }

  /** The k-th outcome is the first time-out, OK or refusal. */
  predicate DecidesAt(script: seq<Outcome>, k: nat) {
    && k < |script| && (script[k].TimedOut? || script[k] == Replied(OK) || script[k] == Replied(ErrVersion))
    && forall i | 0 <= i < k ::
         !script[i].TimedOut? && script[i] != Replied(OK) && script[i] != Replied(ErrVersion)
  }

  lemma FirstDecision(script: seq<Outcome>) returns (k: nat)
    ensures k <= |script| && Sent(script) == if k < |script| then k + 1 else k
    ensures if k < |script| then DecidesAt(script, k) else forall i | 0 <= i < |script| :: !Decides(script[i])
  {
    k := Sent(script);
    if k > 0 && Decides(script[k - 1]) { k := k - 1; }
  }

  lemma SettledAt(script: seq<Outcome>, k: nat, n: nat)
    requires n > 0 && DecidesAt(script, k)
    ensures Sent(script) == k + 1
    ensures Verdict(script, n) == Some(if script[k] == Replied(OK) then OK
                                       else if script[k] == Replied(ErrVersion) && k < n then ErrVersion else ErrMaybe)
  {
    SentIs(script, k);
  }

  /**
   * The result, from the script alone: whatever decides first, a refusal is reported as ErrVersion within the first
   * pass over the servers and as ErrMaybe in any later one, and a time-out always as ErrMaybe.
   */
  lemma VerdictIs(script: seq<Outcome>, n: nat)
    requires n > 0
    ensures Verdict(script, n) == Some(OK) <==> exists k: nat :: DecidesAt(script, k) && script[k] == Replied(OK)
    ensures Verdict(script, n) == Some(ErrVersion) <==>
            exists k: nat :: k < n && DecidesAt(script, k) && script[k] == Replied(ErrVersion)
    ensures Verdict(script, n) == Some(ErrMaybe) <==>
            exists k: nat ::
                DecidesAt(script, k) && (script[k].TimedOut? || (n <= k && script[k] == Replied(ErrVersion)))
    ensures Verdict(script, n) == None <==> forall k: nat :: !DecidesAt(script, k)
  {
    var k := FirstDecision(script);
    assert forall l: nat | DecidesAt(script, l) :: l == k;
    if k < |script| { assert DecidesAt(script, k); } else { assert forall l: nat :: !DecidesAt(script, l); }
  }

  function ToFront(servers: seq<string>, idx: nat): (r: seq<string>)
    requires idx < |servers|
    ensures idx == 0 ==> r == servers
  {
    [servers[idx]] + servers[..idx] + servers[idx + 1..]
  }

  function ToBack(servers: seq<string>, idx: nat): (r: seq<string>)
    requires idx < |servers|
    ensures idx == |servers| - 1 ==> r == servers
  {
    servers[..idx] + servers[idx + 1..] + [servers[idx]]
  }

  /** The server comes first; no server is lost or gained, and the others keep their order. */
  lemma ToFrontIs(servers: seq<string>, idx: nat)
    requires idx < |servers|
    ensures var r := ToFront(servers, idx);
            && multiset(r) == multiset(servers) && |r| == |servers| && r[0] == servers[idx]
            && forall i | 0 <= i < |servers| && i != idx :: r[if i < idx then i + 1 else i] == servers[i]
  {
    assert servers == servers[..idx] + [servers[idx]] + servers[idx + 1..];
  }

  /** The server comes last; no server is lost or gained, and the others keep their order. */
  lemma ToBackIs(servers: seq<string>, idx: nat)
    requires idx < |servers|
    ensures var r := ToBack(servers, idx);
            && multiset(r) == multiset(servers) && |r| == |servers| && r[|r| - 1] == servers[idx]
            && forall i | 0 <= i < |servers| && i != idx :: r[if i < idx then i else i - 1] == servers[i]
  {
    assert servers == servers[..idx] + [servers[idx]] + servers[idx + 1..];
  }

  /** Which of n servers RPC k goes to: the next one after RPC k - 1, around and around. */
  function Turn(k: nat, n: nat): (i: nat)
    requires n > 0
    ensures i < n && (k < n ==> i == k)
  {
    if k == 0 || Turn(k - 1, n) + 1 == n then 0 else Turn(k - 1, n) + 1
  }

  class Clerk {
    var servers: seq<string>

    constructor (servers: seq<string>)
      ensures this.servers == servers
    {
      this.servers := servers;
    }

    /**
     * Put: passes over a copy of the server list until an RPC decides.  The nested loops send the
     * script's RPCs one after the other; `tried` is the place in its pass of the last one.
     */
    method Put(script: seq<Outcome>) returns (result: Option<Err>, tried: nat)
      modifies this
      ensures result == Verdict(script, old(|servers|))
      ensures result.None? ==> servers == old(servers)
      ensures result.Some? ==>
                && old(|servers|) > 0 && tried == Turn(Sent(script) - 1, old(|servers|))
                && servers == if result.value == ErrMaybe && script[Sent(script) - 1].TimedOut?
                      then ToBack(old(servers), tried)
                              else ToFront(old(servers), tried)
    {
      var firstAttempt := true;
      var sent := 0;
      tried := 0;
      var n := |servers|;
      if n == 0 { return None, 0; }
      while sent < |script|
        invariant sent <= |script| && servers == old(servers)
        invariant firstAttempt <==> sent == 0
        invariant sent == |script| || (Turn(sent, n) == 0 && (sent == 0 || sent >= n))
        invariant forall i | 0 <= i < sent :: !Decides(script[i])
      {
        var copy := servers;
        var idx := 0;
        ghost var base := sent;
        while idx < |copy| && sent < |script|
          invariant 0 <= idx <= n && sent == base + idx && sent <= |script|
          invariant servers == old(servers) && (firstAttempt <==> base == 0)
          invariant Turn(sent, n) == if idx == n then 0 else idx
          invariant forall i | 0 <= i < sent :: !Decides(script[i])
        {
          var o := script[sent];
          if Decides(o) { SettledAt(script, sent, n); }
          match o {
            case Replied(err) =>
              if err == OK || err == ErrVersion { MoveServerToFront(copy, idx); }
              if err == OK {
                return Some(OK), idx;
              } else if err == ErrVersion {
                if firstAttempt { return Some(ErrVersion), idx; } else { return Some(ErrMaybe), idx; }
              }
            case TimedOut =>
              MoveServerToBack(copy, idx);
              return Some(ErrMaybe), idx;
            case Failed =>
          }
          sent, idx := sent + 1, idx + 1;
        }
        firstAttempt := false;
      }
      SentAll(script);
      return None, tried;
    }

    method MoveServerToFront(copy: seq<string>, idx: nat)
      requires idx < |copy|
      modifies this
      ensures servers == if idx == 0 then old(servers) else ToFront(copy, idx)
    {
      if idx == 0 { return; }
      var srv := copy[idx];
      servers := copy[..idx] + copy[idx + 1..];
      servers := [srv] + servers;
    }

    method MoveServerToBack(copy: seq<string>, idx: nat)
      requires idx < |copy|
      modifies this
      ensures servers == if idx == |copy| - 1 then old(servers) else ToBack(copy, idx)
    {
      if idx == |copy| - 1 { return; }
      var srv := copy[idx];
      servers := copy[..idx] + copy[idx + 1..];
      servers := servers + [srv];
    }
  }

  // ---------------------------------------------------------------- what the results mean

  /**
   * A way the service may have treated the RPCs: the requests in the log, and where the copy of the
   * Put that RPC k submitted went, if it was committed at all.
   */
  datatype World = World(log: seq<Request>, places: seq<Option<nat>>)

  ghost predicate PlacedAt(w: World, k: nat, p: nat) { k < |w.places| && w.places[k] == Some(p) }

  /**
   * Each RPC that was sent put at most one entry into the log, and an answer OK or ErrVersion is what the
   * store said at that entry; a failed, late or ErrWrongLeader answer says nothing.
   */
  ghost predicate Explains(w: World, put: Request, script: seq<Outcome>) {
    && |w.places| == Sent(script)
    && (forall k: nat, p: nat | PlacedAt(w, k, p) :: p < |w.log| && w.log[p] == put)
    && (forall k: nat, l: nat, p: nat | PlacedAt(w, k, p) && PlacedAt(w, l, p) :: k == l)
    && (forall k | 0 <= k < Sent(script) && (script[k] == Replied(OK) || script[k] == Replied(ErrVersion)) ::
          Said(w, put, k, script[k].err))
  }

  ghost predicate Said(w: World, put: Request, k: nat, err: Err)
    requires k < |w.places|
  {
    w.places[k].Some? && w.places[k].value < |w.log| && Answer(Replay(w.log[..w.places[k].value]), put) == PutReply(err)
  }

  // Where such worlds come from: a log in which no id occurs twice, as Raft provides it, and RPCs each of
  // which made some server submit the Put under an id of its own.

  ghost predicate Submitted(log: seq<Command>, ids: seq<nat>, put: Request) {
    && (forall i, j | 0 <= i < j < |ids| :: ids[i] != ids[j])
    && (forall p | 0 <= p < |log| :: log[p].Command? && (log[p].id in ids ==> log[p].req == put))
    && (forall p, q | 0 <= p < q < |log| :: log[p].Command? && log[q].Command? ==> log[p].id != log[q].id)
  }

  /**
   * An RPC answered OK or ErrVersion got the store's answer at its entry, as AlrTheorems.PutAnswerSound says of any
   * server.
   */
  ghost predicate Truthful(log: seq<Command>, id: nat, put: Request, err: Err) {
    exists p: nat :: p < |log| && log[p] == Command(id, put) && Answer(AM.StoreAt(log, p), put) == PutReply(err)
  }

  ghost function PlaceOf(log: seq<Command>, id: nat): (p: Option<nat>)
    ensures p.Some? ==> p.value < |log| && log[p.value].Command? && log[p.value].id == id
    ensures p.None? ==> forall q | 0 <= q < |log| :: log[q].Command? ==> log[q].id != id
  {
    if exists q: nat :: q < |log| && log[q].Command? && log[q].id == id
    then var q: nat :| q < |log| && log[q].Command? && log[q].id == id; Some(q)
    else None
  }

  ghost function WorldOf(log: seq<Command>, ids: seq<nat>): World {
    World(AM.Requests(log), seq(|ids|, k requires 0 <= k < |ids| => PlaceOf(log, ids[k])))
  }

  lemma TruthfulIsSaid(log: seq<Command>, ids: seq<nat>, put: Request, k: nat, err: Err)
    requires Submitted(log, ids, put) && k < |ids| && Truthful(log, ids[k], put, err)
    ensures Said(WorldOf(log, ids), put, k, err)
  {
    var p: nat :| p < |log| && log[p] == Command(ids[k], put) && Answer(AM.StoreAt(log, p), put) == PutReply(err);
    assert PlaceOf(log, ids[k]) == Some(p);
    assert AM.Requests(log)[..p] == AM.Requests(log[..p]);
  }

  /** The service explains what the Clerk saw: one entry per RPC at most, and truthful answers. */
  lemma ServiceExplains(log: seq<Command>, ids: seq<nat>, put: Request, script: seq<Outcome>)
    requires Submitted(log, ids, put) && |ids| == Sent(script)
    requires forall k | 0 <= k < Sent(script) && (script[k] == Replied(OK) || script[k] == Replied(ErrVersion)) ::
               Truthful(log, ids[k], put, script[k].err)
    ensures Explains(WorldOf(log, ids), put, script)
  {
    var w := WorldOf(log, ids);
    forall k | 0 <= k < Sent(script) && (script[k] == Replied(OK) || script[k] == Replied(ErrVersion))
      ensures Said(w, put, k, script[k].err)
    {
      TruthfulIsSaid(log, ids, put, k, script[k].err);
    }
  }

  /** The copy RPC k submitted changed the store. */
  ghost predicate CopyTookEffect(w: World, key: string, k: nat) {
    k < |w.places| && w.places[k].Some? && w.places[k].value < |w.log| && Effective(w.log, w.places[k].value, key)
  }

  ghost predicate TookEffect(w: World, key: string) { exists k: nat :: CopyTookEffect(w, key, k) }

  /** Of all copies of one Put at most one takes effect, whatever the Clerk was told. */
  lemma CopiesTakeEffectOnce(w: World, put: Request, script: seq<Outcome>, k: nat, l: nat)
    requires put.Put? && Explains(w, put, script) && CopyTookEffect(w, put.key, k) && CopyTookEffect(w, put.key, l)
    ensures k == l
  {
    var p, q := w.places[k].value, w.places[l].value;
    assert PlacedAt(w, k, p) && PlacedAt(w, l, q);
    if p < q { EffectiveOnce(w.log, put.key, p, q); }
    if q < p { EffectiveOnce(w.log, put.key, q, p); }
  }

  /** OK: exactly one Put of this key and version ever takes effect, and it is a copy of ours. */
  lemma OkMeansPerformedOnce(w: World, put: Request, script: seq<Outcome>, n: nat) returns (p: nat)
    requires put.Put? && put.key != SyncKey && Explains(w, put, script) && Verdict(script, n) == Some(OK)
    ensures p < |w.log| && w.log[p] == put && Some(p) in w.places && Effective(w.log, p, put.key)
            && TookEffect(w, put.key)
    ensures forall q | 0 <= q < |w.log| && Effective(w.log, q, put.key) && w.log[q].version == put.version :: q == p
  {
    var k := Sent(script) - 1;
    assert Said(w, put, k, OK);
    p := w.places[k].value;
    assert PlacedAt(w, k, p) && CopyTookEffect(w, put.key, k);
    forall q | 0 <= q < |w.log| && Effective(w.log, q, put.key) && w.log[q].version == put.version ensures q == p {
      if q < p { EffectiveOnce(w.log, put.key, q, p); }
      if p < q { EffectiveOnce(w.log, put.key, p, q); }
    }
  }

  /** No matter how the service treated the RPCs, no copy of the Put took effect. */
  ghost predicate SurelyNotPerformed(put: Request, script: seq<Outcome>)
    requires put.Put?
  {
    forall w | Explains(w, put, script) :: !TookEffect(w, put.key)
  }

  /** n Puts that bring a fresh key to version n. */
  function Ladder(key: string, n: nat): seq<Request> {
    if n == 0 then [] else Ladder(key, n - 1) + [Put(key, "", n - 1)]
  }

  lemma {:induction false} LadderReaches(key: string, n: nat)
    requires key != SyncKey
    ensures |Ladder(key, n)| == n && VersionOf(Replay(Ladder(key, n)), key) == n
    ensures n == 0 <==> key !in Replay(Ladder(key, n)).versions
  {
    if n > 0 {
      LadderReaches(key, n - 1);
      var l := Ladder(key, n);
      assert l[..|l| - 1] == Ladder(key, n - 1) && l[|l| - 1] == Put(key, "", n - 1);
      assert Replay(l) == Write(Replay(Ladder(key, n - 1)), key, "");
    }
  }

  /** The log of a world where the first RPC's Put went through and RPC k's copy came too late. */
  function Twice(put: Request): seq<Request>
    requires put.Put?
  {
    Ladder(put.key, put.version) + [put, put]
  }

  lemma TwiceAnswers(put: Request)
    requires put.Put? && put.key != SyncKey
    ensures var log, v := Twice(put), put.version;
            |log| == v + 2 && log[v] == put && log[v + 1] == put
            && Effective(log, v, put.key) && Answer(Replay(log[..v + 1]), put) == PutReply(ErrVersion)
  {
    var log, v := Twice(put), put.version;
    LadderReaches(put.key, v);
    assert log[..v] == Ladder(put.key, v);
    ReplayStep(log, v);
  }

  lemma LatePerformed(put: Request, script: seq<Outcome>) returns (w: World)
    requires put.Put? && put.key != SyncKey && Sent(script) > 1 && script[Sent(script) - 1] == Replied(ErrVersion)
    ensures Explains(w, put, script) && TookEffect(w, put.key)
  {
    var k, v := Sent(script) - 1, put.version;
    TwiceAnswers(put);
    w := World(Twice(put), seq(k + 1, i => if i == 0 then Some(v) else if i == k then Some(v + 1) else None));
    assert CopyTookEffect(w, put.key, 0);
    assert Said(w, put, k, ErrVersion) && forall i | 0 <= i < k :: !Decides(script[i]);
  }

  /**
   * ErrVersion: the Put was surely not performed if and only if the very first RPC brought the answer.
   * The Clerk returns ErrVersion for every RPC of its first pass, so on later ones the promise is void.
   */
  lemma ErrVersionMeansNotPerformedIff(put: Request, script: seq<Outcome>, n: nat)
    requires put.Put? && put.key != SyncKey && Verdict(script, n) == Some(ErrVersion)
    ensures SurelyNotPerformed(put, script) <==> Sent(script) == 1
  {
    if Sent(script) == 1 {
      forall w | Explains(w, put, script) ensures !TookEffect(w, put.key) {
        assert Said(w, put, 0, ErrVersion);
        assert CopyTookEffect(w, put.key, 0) ==>
            Answer(Replay(w.log[..w.places[0].value]), w.log[w.places[0].value]) == PutReply(OK);
        assert w.places[0].Some? && PlacedAt(w, 0, w.places[0].value);
      }
    } else {
      var w := LatePerformed(put, script);
    }
  }

  lemma NeverPlaced(put: Request, script: seq<Outcome>) returns (w: World)
    requires put.Put? && Sent(script) > 0 && script[Sent(script) - 1].TimedOut?
    ensures Explains(w, put, script) && !TookEffect(w, put.key)
  {
    w := World([], seq(Sent(script), _ => None));
    assert forall i | 0 <= i < Sent(script) :: script[i].TimedOut? || !Decides(script[i]);
  }

  lemma TimedOutPerformed(put: Request, script: seq<Outcome>) returns (w: World)
    requires put.Put? && put.key != SyncKey && Sent(script) > 0 && script[Sent(script) - 1].TimedOut?
    ensures Explains(w, put, script) && TookEffect(w, put.key)
  {
    var k, v := Sent(script) - 1, put.version;
    TwiceAnswers(put);
    w := World(Twice(put), seq(k + 1, i => if i == k then Some(v) else None));
    assert CopyTookEffect(w, put.key, k);
    assert forall i | 0 <= i < Sent(script) :: script[i].TimedOut? || !Decides(script[i]);
  }

  /** Somebody else's Put came first, so the only committed copy of ours is refused. */
  lemma OvertakenBy(put: Request, script: seq<Outcome>) returns (w: World)
    requires put.Put? && put.key != SyncKey && Sent(script) > 0 && script[Sent(script) - 1] == Replied(ErrVersion)
    ensures Explains(w, put, script) && !TookEffect(w, put.key)
  {
    var k, v := Sent(script) - 1, put.version;
    TwiceAnswers(put);
    w := World(Twice(put), seq(k + 1, i => if i == k then Some(v + 1) else None));
    assert Said(w, put, k, ErrVersion) && forall i | 0 <= i < k :: !Decides(script[i]);
  }

  /** ErrMaybe is never evasive: the Clerk cannot know, because some explanations performed the Put and some did not. */
  lemma ErrMaybeIsUndecided(put: Request, script: seq<Outcome>, n: nat) returns (did: World, didNot: World)
    requires put.Put? && put.key != SyncKey && Verdict(script, n) == Some(ErrMaybe)
    ensures Explains(did, put, script) && TookEffect(did, put.key)
    ensures Explains(didNot, put, script) && !TookEffect(didNot, put.key)
  {
    if script[Sent(script) - 1].TimedOut? {
      did := TimedOutPerformed(put, script);
      didNot := NeverPlaced(put, script);
    } else {
      did := LatePerformed(put, script);
      didNot := OvertakenBy(put, script);
    }
  }

  /** A Put to the reserved key is always answered OK and never changes anything. */
  lemma SyncKeyIsInert(w: World, put: Request, script: seq<Outcome>, n: nat)
    requires put.Put? && put.key == SyncKey && Explains(w, put, script)
    ensures !TookEffect(w, put.key) && Verdict(script, n) != Some(ErrVersion)
  {
    var k := Sent(script);
    assert k > 0 && script[k - 1] == Replied(ErrVersion) ==> Said(w, put, k - 1, ErrVersion);
  }
}
