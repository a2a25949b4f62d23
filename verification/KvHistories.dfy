/**
 * Histories of Clerk operations.  A Clerk.Put is several RPCs, any of which may enter the log, late or never;
 * the model of src/models1/kv.go judges what the Clerks returned.  An operation has a place in the log that
 * explains its result exactly when the result is acceptable, and with all results acceptable the model accepts
 * the history of every timely run.
 */
module KvHistories {
  import opened Options
  import opened RaftTypes
  import opened KvStore
  import opened KvModel
  import opened AlrMachine
  import opened AlrInvariant
  import opened AlrSteps
  import opened AlrPromises
  import A = AlrTheorems
  import K = KvClerk

  /** A Clerk operation: what was asked and returned, at which moments, and the ids of its RPCs. */
  datatype ClerkOp = ClerkOp(input: KvInput, output: KvOutput, begin: nat, end: nat, ids: seq<nat>)

  // ---------------------------------------------------------------- moments

  /** s' comes after s: history grew, and what was called meanwhile was called on a log at least as long. */
  ghost predicate Later(s: State, s': State) {
    && Grows(s, s')
    && (forall id | id in s'.calls && id !in s.calls :: s'.calls[id].at >= |s.log|)
  }

  lemma LaterStep(s: State, e: Event, s': State)
    requires Inv(s) && AlrMachine.Enabled(s, e) && s' == AlrMachine.Next(s, e)
    ensures Later(s, s')
  {
    StepKeeps(s, e, s');
    CallsNow(s, e, s');
  }

  lemma CallsNow(s: State, e: Event, s': State)
    requires AlrMachine.Enabled(s, e) && s' == AlrMachine.Next(s, e)
    ensures forall id | id in s'.calls && id !in s.calls :: s'.calls[id].at == |s.log|
  {
  }

  lemma LaterThrough(a: State, b: State, c: State)
    requires Later(a, b) && Later(b, c)
    ensures Later(a, c)
  {
    forall p | p in a.batches ensures p in c.batches && a.batches[p] <= c.batches[p] {
      assert a.batches[p] <= b.batches[p] <= c.batches[p];
    }
  }

  /** The states a service goes through, the last one with all promises kept. */
  ghost predicate Chronicle(m: seq<State>) {
    && m != [] && (forall i | 0 <= i < |m| :: Inv(m[i])) && Current(m[|m| - 1])
    && (forall i, j | 0 <= i <= j < |m| :: Later(m[i], m[j]))
  }

  lemma {:induction false} ChainIsLater(m: seq<State>, i: nat, j: nat)
    requires i <= j < |m| && forall k | 0 <= k < |m| - 1 :: Later(m[k], m[k + 1])
    ensures Later(m[i], m[j])
    decreases j
  {
    if i < j {
      ChainIsLater(m, i, j - 1);
      assert Later(m[j - 1], m[j - 1 + 1]);
      LaterThrough(m[i], m[j - 1], m[j]);
    }
  }

  /** A chain of states that keep the invariant, the last one with all promises kept. */
  lemma ChainIsChronicle(m: seq<State>)
    requires m != [] && (forall i | 0 <= i < |m| :: Inv(m[i])) && Current(m[|m| - 1])
    requires forall k | 0 <= k < |m| - 1 :: Later(m[k], m[k + 1])
    ensures Chronicle(m)
  {
    forall i, j | 0 <= i <= j < |m| ensures Later(m[i], m[j]) { ChainIsLater(m, i, j); }
  }

  lemma RunIsChronicle(nonces: seq<nat>, events: seq<Event>, states: seq<State>)
    requires AlrMachine.IsRun(nonces, events, states) && AllTimely(events, states)
    ensures Chronicle(states)
  {
    forall i | 0 <= i < |states| ensures Inv(states[i]) { A.RunKeeps(nonces, events, states, i); }
    A.RunKept(nonces, events, states, |states| - 1);
    forall k | 0 <= k < |states| - 1 ensures Later(states[k], states[k + 1]) {
      LaterStep(states[k], events[k], states[k + 1]);
    }
    ChainIsChronicle(states);
  }

  function Final(m: seq<State>): State
    requires m != []
  {
    m[|m| - 1]
  }

  // ---------------------------------------------------------------- histories

  /** An RPC of the operation was answered this before it ended. */
  ghost predicate AnsweredWith(trace: seq<Action>, ids: seq<nat>, output: KvOutput) {
    exists k | 0 <= k < |trace| :: trace[k].Return? && trace[k].id in ids && trace[k].output == output
  }

  function PutOutput(err: Err): KvOutput { KvOutput("", 0, err) }

  /**
   * The operation went as a Clerk conducts it: its RPCs, as far as they reach a server, were called after it
   * began; a Get, and a Put that returned OK or ErrVersion, return what one of them was answered.
   */
  ghost predicate Conducted(m: seq<State>, o: ClerkOp)
    requires m != []
  {
    && o.begin <= o.end < |m|
    && (forall id | id in o.ids ::
          id !in m[o.begin].calls && (id in Final(m).calls ==> Final(m).calls[id].input == o.input))
    && match o.input
       case KvGet(_) => AnsweredWith(m[o.end].trace, o.ids, o.output)
       case KvPut(key, _, _) =>
         && key != SyncKey && (exists err :: o.output == PutOutput(err))
         && (o.output.err == ErrMaybe
             || ((o.output.err == OK || o.output.err == ErrVersion) && AnsweredWith(m[o.end].trace, o.ids, o.output)))
  }

  /** The history of all Clerks: no RPC belongs to two operations, and every Put in the log to one. */
  ghost predicate History(m: seq<State>, h: seq<ClerkOp>)
    requires m != []
  {
    && (forall x | 0 <= x < |h| :: Conducted(m, h[x]))
    && (forall x, y, id | 0 <= x < y < |h| && id in h[x].ids :: id !in h[y].ids)
    && (forall p | 0 <= p < |Final(m).log| && Final(m).log[p].Command? && Final(m).log[p].req.Put? ::
          exists x :: 0 <= x < |h| && Final(m).log[p].id in h[x].ids && h[x].input.KvPut?)
  }

  // ---------------------------------------------------------------- linearizations

  ghost predicate IsOrder(n: nat, order: seq<nat>) {
    && |order| == n && (forall i | 0 <= i < n :: order[i] < n) && (forall x: nat | x < n :: x in order)
    && (forall i, j | 0 <= i < j < n :: order[i] != order[j])
  }

  ghost function OpsIn(h: seq<ClerkOp>, order: seq<nat>): seq<KvOp>
    requires forall i | 0 <= i < |order| :: order[i] < |h|
  {
    seq(|order|, i requires 0 <= i < |order| => KvOp(h[order[i]].input, h[order[i]].output))
  }

  /** An order of all operations that respects real time and that the model accepts, key by key. */
  ghost predicate Linearizes(h: seq<ClerkOp>, order: seq<nat>) {
    && IsOrder(|h|, order)
    && (forall i, j | 0 <= i < j < |order| :: !(h[order[j]].end < h[order[i]].begin))
    && (forall key | key != SyncKey :: Accepts(Project(OpsIn(h, order), key)))
  }

  // ---------------------------------------------------------------- places

  /** The entry at p is a Put that changed the store. */
  predicate EffectiveAt(log: seq<Command>, p: nat) {
    && p < |log| && log[p].Command? && log[p].req.Put? && log[p].req.key != SyncKey
    && Matches(StoreAt(log, p), log[p].req.key, log[p].req.version)
  }

  /** A copy of the operation took effect at p. */
  predicate TookEffectAt(log: seq<Command>, o: ClerkOp, p: nat) { EffectiveAt(log, p) && log[p].id in o.ids }

  ghost predicate NeverTookEffect(log: seq<Command>, o: ClerkOp) { forall p: nat :: !TookEffectAt(log, o, p) }

  function VersionAt(log: seq<Command>, q: nat, key: string): nat
    requires q <= |log|
  {
    VersionOf(StoreAt(log, q), key)
  }

  /** Where an operation is placed: it is the effective entry p, or it looks at the store after q entries. */
  datatype Place = Takes(p: nat) | Looks(q: nat)

  /** The place explains the operation, which lasted while the log grew from lo to hi entries. */
  ghost predicate Fits(log: seq<Command>, o: ClerkOp, place: Place, lo: nat, hi: nat) {
    match place
    case Takes(p) =>
      && o.input.KvPut? && (o.output.err == OK || o.output.err == ErrMaybe)
      && lo <= p < hi && TookEffectAt(log, o, p) && log[p].req == PutRequest(o.input)
    case Looks(q) =>
      && lo <= q <= hi && q <= |log|
      && match o.input
         case KvGet(key) => o.output.value == KeyState(StoreAt(log, q), key).value
         case KvPut(key, _, version) =>
           && (o.output.err == ErrVersion || o.output.err == ErrMaybe)
           && NeverTookEffect(log, o) && VersionAt(log, q, key) != version
  }

  ghost predicate Explained(m: seq<State>, o: ClerkOp, place: Place)
    requires m != [] && o.begin < |m| && o.end < |m|
  {
    Fits(Final(m).log, o, place, |m[o.begin].log|, |m[o.end].log|)
  }

  function Rank(place: Place): nat {
    match place
    case Takes(p) => 2 * p + 1
    case Looks(q) => 2 * q
  }

  // ---------------------------------------------------------------- sorting

  datatype Key = Key(rank: nat, begin: nat)

  predicate Leq(a: Key, b: Key) { a.rank < b.rank || (a.rank == b.rank && a.begin <= b.begin) }

  lemma {:induction false} SortedOrder(keys: seq<Key>) returns (order: seq<nat>)
    ensures IsOrder(|keys|, order) && forall i, j | 0 <= i < j < |order| :: Leq(keys[order[i]], keys[order[j]])
    decreases |keys|
  {
    if keys == [] {
      order := [];
    } else {
      var n := |keys| - 1;
      var o := SortedOrder(keys[..n]);
      var i := 0;
      while i < n && Leq(keys[o[i]], keys[n])
        invariant 0 <= i <= n && forall t | 0 <= t < i :: Leq(keys[o[t]], keys[n])
      {
        i := i + 1;
      }
      order := o[..i] + [n] + o[i..];
      InsertedOrder(keys, o, i, order);
    }
  }

  lemma InsertedAt(o: seq<nat>, i: nat, order: seq<nat>)
    requires i <= |o| && order == o[..i] + [|o|] + o[i..]
    ensures |order| == |o| + 1
    ensures forall t | 0 <= t <= |o| :: order[t] == if t < i then o[t] else if t == i then |o| else o[t - 1]
  {
  }

  lemma InsertedHits(o: seq<nat>, i: nat, order: seq<nat>)
    requires IsOrder(|o|, o) && i <= |o| && order == o[..i] + [|o|] + o[i..]
    ensures IsOrder(|o| + 1, order)
  {
    InsertedAt(o, i, order);
    forall x: nat | x < |o| + 1 ensures x in order {
      if x < |o| {
        assert x in o;
        var s :| 0 <= s < |o| && o[s] == x;
        assert order[if s < i then s else s + 1] == x;
      } else {
        assert order[i] == x;
      }
    }
  }

  lemma InsertedOrder(keys: seq<Key>, o: seq<nat>, i: nat, order: seq<nat>)
    requires |keys| == |o| + 1 && IsOrder(|o|, o) && i <= |o| && order == o[..i] + [|o|] + o[i..]
    requires forall s, t | 0 <= s < t < |o| :: Leq(keys[..|o|][o[s]], keys[..|o|][o[t]])
    requires forall t | 0 <= t < i :: Leq(keys[o[t]], keys[|o|])
    requires i < |o| ==> !Leq(keys[o[i]], keys[|o|])
    ensures IsOrder(|keys|, order) && forall s, t | 0 <= s < t < |order| :: Leq(keys[order[s]], keys[order[t]])
  {
    InsertedHits(o, i, order);
    InsertedAt(o, i, order);
    forall s, t | 0 <= s < t < |order| ensures Leq(keys[order[s]], keys[order[t]]) {
      if s == i { BehindNew(keys, o, i, t - 1); }
    }
  }

  /** Where the new key goes, all that come after are not smaller. */
  lemma BehindNew(keys: seq<Key>, o: seq<nat>, i: nat, t: nat)
    requires |keys| == |o| + 1 && IsOrder(|o|, o) && i <= t < |o| && !Leq(keys[o[i]], keys[|o|])
    requires forall s, t | 0 <= s < t < |o| :: Leq(keys[..|o|][o[s]], keys[..|o|][o[t]])
    ensures Leq(keys[|o|], keys[o[t]])
  {
    if i < t { assert Leq(keys[..|o|][o[i]], keys[..|o|][o[t]]); }
  }

  // ---------------------------------------------------------------- the log between places

  predicate Commands(log: seq<Command>) { forall p | 0 <= p < |log| :: log[p].Command? }

  /** Between effective entries nothing changes. */
  lemma {:induction false} StableBetween(log: seq<Command>, key: string, a: nat, b: nat)
    requires Commands(log) && a <= b <= |log| && key != SyncKey && forall p: nat | a <= p < b :: !EffectiveAt(log, p)
    ensures KeyState(StoreAt(log, b), key) == KeyState(StoreAt(log, a), key)
    decreases b - a
  {
    if a < b {
      StableBetween(log, key, a, b - 1);
      assert !EffectiveAt(log, b - 1);
      StoreAtStep(log, b - 1);
    }
  }

  lemma StoreConsistent(log: seq<Command>, q: nat)
    requires q <= |log|
    ensures Consistent(StoreAt(log, q))
  {
    ReplayConsistent(Requests(log[..q]));
  }

  function OpOf(o: ClerkOp): KvOp { KvOp(o.input, o.output) }

  /** The model makes of an effective entry what the store makes of it. */
  lemma TakeStep(log: seq<Command>, o: ClerkOp, p: nat, key: string)
    requires Commands(log) && key != SyncKey && EffectiveAt(log, p) && o.input.KvPut?
             && log[p].req == PutRequest(o.input)
    requires o.output.err == OK || o.output.err == ErrMaybe
    ensures o.input.key == key ==>
              Step(KeyState(StoreAt(log, p), key), OpOf(o)) == (true, KeyState(StoreAt(log, p + 1), key))
    ensures o.input.key != key ==> KeyState(StoreAt(log, p + 1), key) == KeyState(StoreAt(log, p), key)
  {
    StoreConsistent(log, p);
    StoreAtStep(log, p);
  }

  lemma LookStep(log: seq<Command>, o: ClerkOp, q: nat, lo: nat, hi: nat)
    requires Fits(log, o, Looks(q), lo, hi)
    ensures Step(KeyState(StoreAt(log, q), o.input.key), OpOf(o)) == (true, KeyState(StoreAt(log, q), o.input.key))
  {
    StoreConsistent(log, q);
  }

  lemma EffectiveIs(log: seq<Command>, p: nat)
    requires EffectiveAt(log, p)
    ensures Effective(Requests(log), p, log[p].req.key) && Requests(log)[p] == log[p].req
  {
    assert Requests(log)[..p] == Requests(log[..p]);
  }

  /** A Put takes effect at one place at most. */
  lemma EffectUnique(log: seq<Command>, p: nat, q: nat)
    requires EffectiveAt(log, p) && EffectiveAt(log, q)
    requires log[p].req.key == log[q].req.key && log[p].req.version == log[q].req.version
    ensures p == q
  {
    EffectiveIs(log, p);
    EffectiveIs(log, q);
    if p < q { EffectiveOnce(Requests(log), log[p].req.key, p, q); }
    if q < p { EffectiveOnce(Requests(log), log[p].req.key, q, p); }
  }

  // ---------------------------------------------------------------- operations in order of their places

  ghost predicate Sits(log: seq<Command>, o: ClerkOp, place: Place) {
    exists lo: nat, hi: nat :: hi <= |log| && Fits(log, o, place, lo, hi)
  }

  /** Every operation fits its place, no two take the same entry, and every effective entry is taken. */
  ghost predicate Arranged(log: seq<Command>, h: seq<ClerkOp>, places: seq<Place>) {
    && Commands(log) && |places| == |h|
    && (forall x | 0 <= x < |h| :: Sits(log, h[x], places[x]))
    && (forall x, y | 0 <= x < y < |h| && places[x].Takes? :: places[x] != places[y])
    && (forall p: nat | EffectiveAt(log, p) :: exists x :: 0 <= x < |h| && places[x] == Takes(p))
  }

  ghost predicate Ascending(places: seq<Place>, order: seq<nat>) {
    && IsOrder(|places|, order)
    && forall i, j | 0 <= i < j < |order| :: Rank(places[order[i]]) <= Rank(places[order[j]])
  }

  /** How many entries lie before the place, and how many up to its end. */
  function Before(place: Place): nat { if place.Takes? then place.p else place.q }

  function Behind(place: Place): nat { if place.Takes? then place.p + 1 else place.q }

  lemma BehindFits(log: seq<Command>, h: seq<ClerkOp>, places: seq<Place>, x: nat)
    requires Arranged(log, h, places) && x < |h|
    ensures Before(places[x]) <= Behind(places[x]) <= |log|
  {
    var lo: nat, hi: nat :| hi <= |log| && Fits(log, h[x], places[x], lo, hi);
  }

  function Cursor(places: seq<Place>, order: seq<nat>, n: nat): nat
    requires n <= |order| && forall i | 0 <= i < |order| :: order[i] < |places|
  {
    if n == 0 then 0 else Behind(places[order[n - 1]])
  }

  /** Seen from the n-th operation, every other lies on one side. */
  lemma Sides(places: seq<Place>, order: seq<nat>, n: nat, x: nat)
    requires Ascending(places, order) && n < |order| && x < |places|
    ensures (n > 0 && Rank(places[x]) <= Rank(places[order[n - 1]])) || Rank(places[order[n]]) <= Rank(places[x])
  {
    assert x in order;
    var i :| 0 <= i < |order| && order[i] == x;
    if i < n - 1 { assert Rank(places[order[i]]) <= Rank(places[order[n - 1]]); }
    else if i > n { assert Rank(places[order[n]]) <= Rank(places[order[i]]); }
  }

  /** No effective entry lies between the places of consecutive operations. */
  lemma NothingBetween(log: seq<Command>, h: seq<ClerkOp>, places: seq<Place>, order: seq<nat>, n: nat, p: nat)
    requires Arranged(log, h, places) && Ascending(places, order) && n < |order|
    requires Cursor(places, order, n) <= p < Before(places[order[n]])
    ensures !EffectiveAt(log, p)
  {
    if EffectiveAt(log, p) {
      var x :| 0 <= x < |h| && places[x] == Takes(p);
      Sides(places, order, n, x);
    }
  }

  lemma CursorBefore(log: seq<Command>, h: seq<ClerkOp>, places: seq<Place>, order: seq<nat>, n: nat)
    requires Arranged(log, h, places) && Ascending(places, order) && n < |order|
    ensures Cursor(places, order, n) <= Before(places[order[n]]) <= |log|
  {
    BehindFits(log, h, places, order[n]);
    if n > 0 {
      var x, y := order[n - 1], order[n];
      assert Rank(places[x]) <= Rank(places[y]);
      assert places[x].Takes? ==> places[x] != places[y] by {
        if x < y { assert places[x].Takes? ==> places[x] != places[y]; }
        else { assert places[y].Takes? ==> places[y] != places[x]; }
      }
    }
  }

  /** Executing one more operation on the model keeps it in step with the store. */
  lemma OneMore(log: seq<Command>, o: ClerkOp, place: Place, key: string, st: KvState)
    requires Commands(log) && key != SyncKey && Behind(place) <= |log|
             && st == KeyState(StoreAt(log, Before(place)), key)
    requires Sits(log, o, place)
    ensures o.input.key == key ==> Step(st, OpOf(o)) == (true, KeyState(StoreAt(log, Behind(place)), key))
    ensures o.input.key != key ==> KeyState(StoreAt(log, Behind(place)), key) == st
  {
    var lo: nat, hi: nat :| hi <= |log| && Fits(log, o, place, lo, hi);
    if place.Takes? { TakeStep(log, o, place.p, key); }
    else if o.input.key == key { LookStep(log, o, place.q, lo, hi); }
  }

  /** The model has accepted the first n operations and is in step with the store. */
  ghost predicate Reached(
      log: seq<Command>, h: seq<ClerkOp>, places: seq<Place>, order: seq<nat>, key: string, n: nat)
    requires Ascending(places, order) && |places| == |h| && n <= |order|
  {
    && Cursor(places, order, n) <= |log| && Accepts(Project(OpsIn(h, order)[..n], key))
    && StateAfter(Project(OpsIn(h, order)[..n], key)) == KeyState(StoreAt(log, Cursor(places, order, n)), key)
  }

  lemma SameTillNext(log: seq<Command>, h: seq<ClerkOp>, places: seq<Place>, order: seq<nat>, key: string, k: nat)
    requires Arranged(log, h, places) && Ascending(places, order) && k < |order| && key != SyncKey
    ensures Cursor(places, order, k) <= Before(places[order[k]]) <= |log|
    ensures KeyState(StoreAt(log, Before(places[order[k]])), key) == KeyState(StoreAt(log, Cursor(places, order, k)),
            key)
  {
    CursorBefore(log, h, places, order, k);
    var a, b := Cursor(places, order, k), Before(places[order[k]]);
    forall p: nat | a <= p < b ensures !EffectiveAt(log, p) { NothingBetween(log, h, places, order, k, p); }
    StableBetween(log, key, a, b);
  }

  lemma NextAccepted(log: seq<Command>, h: seq<ClerkOp>, places: seq<Place>, order: seq<nat>, key: string, k: nat)
    requires Arranged(log, h, places) && Ascending(places, order) && k < |order| && key != SyncKey
    requires Reached(log, h, places, order, key, k)
    ensures Reached(log, h, places, order, key, k + 1)
  {
    var o, place := h[order[k]], places[order[k]];
    SameTillNext(log, h, places, order, key, k);
    BehindFits(log, h, places, order[k]);
    OneMore(log, o, place, key, KeyState(StoreAt(log, Before(place)), key));
    ProjectMore(OpsIn(h, order), k, key, OpOf(o));
  }

  lemma {:induction false} OrderAccepted(
      log: seq<Command>, h: seq<ClerkOp>, places: seq<Place>, order: seq<nat>, key: string, n: nat)
    requires Arranged(log, h, places) && Ascending(places, order) && n <= |order| && key != SyncKey
    ensures Reached(log, h, places, order, key, n)
  {
    if n == 0 {
      assert log[..0] == [] && Requests([]) == [];
    } else {
      OrderAccepted(log, h, places, order, key, n - 1);
      NextAccepted(log, h, places, order, key, n - 1);
    }
  }

  lemma ProjectMore(ops: seq<KvOp>, k: nat, key: string, op: KvOp)
    requires k < |ops| && ops[k] == op
    ensures op.input.key != key ==> Project(ops[..k + 1], key) == Project(ops[..k], key)
    ensures op.input.key == key ==>
              && Accepts(Project(ops[..k + 1], key))
                 == (Accepts(Project(ops[..k], key)) && Step(StateAfter(Project(ops[..k], key)), op).0)
              && StateAfter(Project(ops[..k + 1], key)) == Step(StateAfter(Project(ops[..k], key)), op).1
  {
    ProjectStep(ops, k, key);
    var p := Project(ops[..k], key);
    assert (p + [op])[..|p|] == p;
  }

  // ---------------------------------------------------------------- every explained history has an order

  /** An entry of an operation's Put is that Put, and came after the operation began. */
  lemma CopyIs(m: seq<State>, o: ClerkOp, p: nat)
    requires Chronicle(m) && Conducted(m, o) && o.input.KvPut? && p < |Final(m).log|
    requires Final(m).log[p].Command? && Final(m).log[p].req.Put? && Final(m).log[p].id in o.ids
    ensures Final(m).log[p].req == PutRequest(o.input) && |m[o.begin].log| <= p
  {
    var s, cmd := Final(m), Final(m).log[p];
    assert EntryOK(p, cmd, s) && SubOK(cmd.id, cmd.req, s.calls, s.syncs);
    assert Later(m[o.begin], s);
  }

  lemma LogIsCommands(s: State)
    requires Inv(s)
    ensures Commands(s.log)
  {
    forall p | 0 <= p < |s.log| ensures s.log[p].Command? { assert EntryOK(p, s.log[p], s); }
  }

  ghost predicate AllExplained(m: seq<State>, h: seq<ClerkOp>, places: seq<Place>)
    requires m != []
  {
    && |places| == |h|
    && forall x | 0 <= x < |h| :: h[x].begin < |m| && h[x].end < |m| && Explained(m, h[x], places[x])
  }

  lemma EffectIsTaken(m: seq<State>, h: seq<ClerkOp>, places: seq<Place>, p: nat) returns (x: nat)
    requires Chronicle(m) && History(m, h) && AllExplained(m, h, places) && EffectiveAt(Final(m).log, p)
    ensures x < |h| && places[x] == Takes(p)
  {
    var log := Final(m).log;
    x :| 0 <= x < |h| && log[p].id in h[x].ids && h[x].input.KvPut?;
    assert Explained(m, h[x], places[x]) && TookEffectAt(log, h[x], p);
    CopyIs(m, h[x], p);
    EffectUnique(log, p, places[x].p);
  }

  lemma PlacesArranged(m: seq<State>, h: seq<ClerkOp>, places: seq<Place>)
    requires Chronicle(m) && History(m, h) && AllExplained(m, h, places)
    ensures Arranged(Final(m).log, h, places)
  {
    var log := Final(m).log;
    LogIsCommands(Final(m));
    forall x | 0 <= x < |h| ensures Sits(log, h[x], places[x]) {
      assert Later(m[h[x].end], Final(m)) && Explained(m, h[x], places[x]);
      assert |m[h[x].end].log| <= |log| && Fits(log, h[x], places[x], |m[h[x].begin].log|, |m[h[x].end].log|);
    }
    forall x, y | 0 <= x < y < |h| && places[x].Takes? ensures places[x] != places[y] {
      assert Explained(m, h[x], places[x]) && Explained(m, h[y], places[y]);
    }
    forall p: nat | EffectiveAt(log, p) ensures exists x :: 0 <= x < |h| && places[x] == Takes(p) {
      var x := EffectIsTaken(m, h, places, p);
    }
  }

  lemma EndsBeforeRanksBefore(m: seq<State>, h: seq<ClerkOp>, places: seq<Place>, x: nat, y: nat)
    requires Chronicle(m) && AllExplained(m, h, places) && x < |h| && y < |h| && h[y].end < h[x].begin
    ensures Rank(places[y]) <= Rank(places[x])
  {
    assert Explained(m, h[x], places[x]) && Explained(m, h[y], places[y]) && Later(m[h[y].end], m[h[x].begin]);
  }

  function KeyOf(o: ClerkOp, place: Place): Key { Key(Rank(place), o.begin) }

  lemma SortedByPlace(h: seq<ClerkOp>, places: seq<Place>) returns (order: seq<nat>)
    requires |places| == |h|
    ensures Ascending(places, order)
    ensures forall i, j | 0 <= i < j < |order| ::
              Leq(KeyOf(h[order[i]], places[order[i]]), KeyOf(h[order[j]], places[order[j]]))
  {
    var keys := seq(|h|, x requires 0 <= x < |h| && x < |places| => KeyOf(h[x], places[x]));
    order := SortedOrder(keys);
    forall i, j | 0 <= i < j < |order|
      ensures Leq(KeyOf(h[order[i]], places[order[i]]), KeyOf(h[order[j]], places[order[j]]))
    {
      assert Leq(keys[order[i]], keys[order[j]]);
    }
  }

  lemma AllAccepted(log: seq<Command>, h: seq<ClerkOp>, places: seq<Place>, order: seq<nat>)
    requires Arranged(log, h, places) && Ascending(places, order)
    ensures forall key | key != SyncKey :: Accepts(Project(OpsIn(h, order), key))
  {
    forall key | key != SyncKey ensures Accepts(Project(OpsIn(h, order), key)) {
      OrderAccepted(log, h, places, order, key, |order|);
      assert OpsIn(h, order)[..|order|] == OpsIn(h, order);
    }
  }

  lemma ExplainedIsLinearizable(m: seq<State>, h: seq<ClerkOp>, places: seq<Place>) returns (order: seq<nat>)
    requires Chronicle(m) && History(m, h) && AllExplained(m, h, places)
    ensures Linearizes(h, order)
  {
    order := SortedByPlace(h, places);
    assert Arranged(Final(m).log, h, places) by { PlacesArranged(m, h, places); }
    AllAccepted(Final(m).log, h, places, order);
    forall i, j | 0 <= i < j < |order| ensures !(h[order[j]].end < h[order[i]].begin) {
      InTime(m, h, places, order[i], order[j]);
    }
  }

  lemma InTime(m: seq<State>, h: seq<ClerkOp>, places: seq<Place>, x: nat, y: nat)
    requires Chronicle(m) && History(m, h) && AllExplained(m, h, places) && x < |h| && y < |h|
    requires Leq(KeyOf(h[x], places[x]), KeyOf(h[y], places[y]))
    ensures !(h[y].end < h[x].begin)
  {
    assert Conducted(m, h[y]);
    if h[y].end < h[x].begin { EndsBeforeRanksBefore(m, h, places, x, y); }
  }

  // ---------------------------------------------------------------- what a conducted operation left in the log

  predicate UniqueIds(log: seq<Command>) {
    forall p, q | 0 <= p < q < |log| :: log[p].Command? && log[q].Command? ==> log[p].id != log[q].id
  }

  /** A copy of the Put was refused while the log grew from lo to hi entries. */
  ghost predicate RefusedIn(log: seq<Command>, o: ClerkOp, lo: nat, hi: nat)
    requires o.input.KvPut? && hi <= |log|
  {
    exists p: nat :: RefusedAt(log, o, p) && lo <= p < hi
  }

  ghost predicate RefusedAt(log: seq<Command>, o: ClerkOp, p: nat)
    requires o.input.KvPut?
  {
    && p < |log| && log[p].Command? && log[p].id in o.ids
    && !EffectiveAt(log, p) && VersionAt(log, p, o.input.key) != o.input.version
  }

  ghost predicate ReadIn(log: seq<Command>, o: ClerkOp, lo: nat, hi: nat)
    requires o.input.KvGet? && hi <= |log|
  {
    exists q: nat :: lo <= q < hi && o.output.value == KeyState(StoreAt(log, q), o.input.key).value
  }

  /** The copies of a Put in the log are that Put, and came after the operation began. */
  ghost predicate CopiesOK(log: seq<Command>, o: ClerkOp, lo: nat)
    requires o.input.KvPut?
  {
    forall p: nat | p < |log| && log[p].Command? && log[p].req.Put? && log[p].id in o.ids ::
      log[p].req == PutRequest(o.input) && lo <= p
  }

  /** What is in the log of an operation that lasted while it grew from lo to hi entries. */
  ghost predicate Grounded(log: seq<Command>, o: ClerkOp, lo: nat, hi: nat) {
    && lo <= hi <= |log| && UniqueIds(log)
    && match o.input
       case KvGet(_) => ReadIn(log, o, lo, hi)
       case KvPut(_, _, _) =>
         && CopiesOK(log, o, lo)
         && (o.output.err == OK || o.output.err == ErrVersion || o.output.err == ErrMaybe)
         && (o.output.err == OK ==> exists p: nat :: p < hi && TookEffectAt(log, o, p))
         && (o.output.err == ErrVersion ==> RefusedIn(log, o, lo, hi))
  }

  /** An answered RPC of the operation is placed in the final log, before the operation ended. */
  lemma AnswerPlaced(m: seq<State>, o: ClerkOp, output: KvOutput) returns (p: nat, id: nat)
    requires Chronicle(m) && Conducted(m, o) && AnsweredWith(m[o.end].trace, o.ids, output)
    ensures id in o.ids && p < |m[o.end].log| && PlacedAt(Final(m), p, id, o.input, output)
    ensures id in Final(m).calls
  {
    var s, s' := m[o.end], Final(m);
    var k :| 0 <= k < |s.trace| && s.trace[k].Return? && s.trace[k].id in o.ids && s.trace[k].output == output;
    var a := s.trace[k];
    assert ActionOK(a, s) && ReturnOK(a, s) && Later(s, s');
    p :| p < a.at && PlacedAt(s, p, a.id, a.input, a.output);
    id := a.id;
    PlacedGrows(p, a.id, a.input, a.output, s, s');
  }

  /** The value a Get was given is that of the store at its place, which came after the Get was called. */
  lemma GetAt(s: State, p: nat, id: nat, key: string, output: KvOutput, lo: nat)
    requires Inv(s) && Current(s) && PlacedAt(s, p, id, KvGet(key), output) && id in s.calls && lo <= s.calls[id].at
    ensures lo <= p < |s.log| && output.value == KeyState(StoreAt(s.log, p), key).value
  {
    var j: nat :| BatchHas(s, p, j, id, key, output);
    assert BatchOK(p, s.batches[p], s.log, s.calls) && AnsweredOK(s.batches[p][j], p, s.log, s.calls);
  }

  lemma GetGrounded(m: seq<State>, o: ClerkOp, lo: nat, hi: nat)
    requires Chronicle(m) && Conducted(m, o) && o.input.KvGet? && lo == |m[o.begin].log|
             && hi == |m[o.end].log| <= |Final(m).log|
    ensures ReadIn(Final(m).log, o, lo, hi)
  {
    var p, id := AnswerPlaced(m, o, o.output);
    assert Later(m[o.begin], Final(m));
    GetAt(Final(m), p, id, o.input.key, o.output, lo);
  }

  /** What the answer to a Put says about its entry. */
  lemma PutAt(s: State, p: nat, id: nat, input: KvInput, err: Err)
    requires input.KvPut? && input.key != SyncKey && PlacedAt(s, p, id, input, PutOutput(err))
    ensures p < |s.log| && s.log[p] == Command(id, PutRequest(input))
    ensures err == OK ==> EffectiveAt(s.log, p)
    ensures err == ErrVersion ==> !EffectiveAt(s.log, p) && VersionAt(s.log, p, input.key) != input.version
  {
  }

  lemma PutAnswered(m: seq<State>, o: ClerkOp, err: Err, lo: nat) returns (p: nat)
    requires Chronicle(m) && Conducted(m, o) && o.input.KvPut? && lo == |m[o.begin].log|
    requires AnsweredWith(m[o.end].trace, o.ids, PutOutput(err))
    ensures lo <= p < |m[o.end].log| && p < |Final(m).log|
    ensures err == OK ==> TookEffectAt(Final(m).log, o, p)
    ensures err == ErrVersion ==> RefusedAt(Final(m).log, o, p)
  {
    var id;
    p, id := AnswerPlaced(m, o, PutOutput(err));
    PutAt(Final(m), p, id, o.input, err);
    CopyIs(m, o, p);
  }

  lemma CopiesGrounded(m: seq<State>, o: ClerkOp)
    requires Chronicle(m) && Conducted(m, o) && o.input.KvPut?
    ensures CopiesOK(Final(m).log, o, |m[o.begin].log|)
  {
    var log := Final(m).log;
    forall p: nat | p < |log| && log[p].Command? && log[p].req.Put? && log[p].id in o.ids
      ensures log[p].req == PutRequest(o.input) && |m[o.begin].log| <= p
    {
      CopyIs(m, o, p);
    }
  }

  lemma ConductedIsGrounded(m: seq<State>, o: ClerkOp, log: seq<Command>, lo: nat, hi: nat)
    requires Chronicle(m) && Conducted(m, o) && log == Final(m).log && lo == |m[o.begin].log| && hi == |m[o.end].log|
    ensures Grounded(log, o, lo, hi)
  {
    assert lo <= hi <= |log| by { assert Later(m[o.begin], m[o.end]) && Later(m[o.end], Final(m)); }
    assert UniqueIds(log) by { assert LogOK(Final(m)); }
    if o.input.KvGet? {
      GetGrounded(m, o, lo, hi);
    } else {
      CopiesGrounded(m, o);
      if o.output.err == OK || o.output.err == ErrVersion { var p := PutAnswered(m, o, o.output.err, lo); }
    }
  }

  // ---------------------------------------------------------------- which results are acceptable

  /**
   * What it takes for the model to accept a result: nothing for a Get and for OK; for ErrVersion that no copy of
   * the Put ever takes effect; for ErrMaybe that a copy takes effect before the Clerk returns, or none ever does
   * and the key had another version at some moment while the Clerk was at it.
   */
  ghost predicate Acceptable(log: seq<Command>, o: ClerkOp, lo: nat, hi: nat) {
    o.input.KvPut? && o.output.err != OK ==>
      || (NeverTookEffect(log, o) && (o.output.err == ErrVersion || HadOtherVersion(log, o.input, lo, hi)))
      || (o.output.err == ErrMaybe && TookEffectBefore(log, o, hi))
  }

  ghost predicate TookEffectBefore(log: seq<Command>, o: ClerkOp, hi: nat) {
    exists p: nat :: p < hi && TookEffectAt(log, o, p)
  }

  ghost predicate HadOtherVersion(log: seq<Command>, input: KvInput, lo: nat, hi: nat)
    requires input.KvPut?
  {
    exists q: nat :: lo <= q <= hi && q <= |log| && VersionAt(log, q, input.key) != input.version
  }

  lemma AcceptableFits(log: seq<Command>, o: ClerkOp, lo: nat, hi: nat) returns (place: Place)
    requires Grounded(log, o, lo, hi) && Acceptable(log, o, lo, hi)
    ensures Fits(log, o, place, lo, hi)
  {
    if o.input.KvGet? {
      var q: nat :| lo <= q < hi && o.output.value == KeyState(StoreAt(log, q), o.input.key).value;
      place := Looks(q);
    } else if o.output.err != OK && NeverTookEffect(log, o) {
      place := RefusalFits(log, o, lo, hi);
    } else {
      var p: nat :| p < hi && TookEffectAt(log, o, p);
      place := Takes(p);
    }
  }

  lemma RefusalFits(log: seq<Command>, o: ClerkOp, lo: nat, hi: nat) returns (place: Place)
    requires Grounded(log, o, lo, hi) && o.input.KvPut? && o.output.err != OK && NeverTookEffect(log, o)
    requires o.output.err == ErrVersion || HadOtherVersion(log, o.input, lo, hi)
    ensures Fits(log, o, place, lo, hi)
  {
    if o.output.err == ErrVersion {
      var p: nat :| RefusedAt(log, o, p) && lo <= p < hi;
      place := Looks(p);
    } else {
      var q: nat :| lo <= q <= hi && q <= |log| && VersionAt(log, q, o.input.key) != o.input.version;
      place := Looks(q);
    }
  }

  /** A result has a place in the log that explains it if and only if it is acceptable. */
  lemma ExplainedIffAcceptable(m: seq<State>, o: ClerkOp)
    requires Chronicle(m) && Conducted(m, o)
    ensures (exists place :: Explained(m, o, place)) <==>
            Acceptable(Final(m).log, o, |m[o.begin].log|, |m[o.end].log|)
  {
    var log, lo, hi := Final(m).log, |m[o.begin].log|, |m[o.end].log|;
    ConductedIsGrounded(m, o, log, lo, hi);
    if Acceptable(log, o, lo, hi) {
      var place := AcceptableFits(log, o, lo, hi);
      assert Explained(m, o, place);
    }
    if exists place :: Explained(m, o, place) {
      var place :| Explained(m, o, place);
      FitsIsAcceptable(log, o, place, lo, hi);
    }
  }

  lemma FitsIsAcceptable(log: seq<Command>, o: ClerkOp, place: Place, lo: nat, hi: nat)
    requires Fits(log, o, place, lo, hi)
    ensures Acceptable(log, o, lo, hi)
  {
  }

  /** ErrVersion from a Put that sent a single RPC is always acceptable. */
  lemma FirstRefusalIsAcceptable(log: seq<Command>, o: ClerkOp, lo: nat, hi: nat)
    requires Grounded(log, o, lo, hi) && o.input.KvPut? && o.output.err == ErrVersion && |o.ids| == 1
    ensures Acceptable(log, o, lo, hi)
  {
    var p: nat :| RefusedAt(log, o, p) && lo <= p < hi;
    forall q: nat ensures !TookEffectAt(log, o, q) {}
  }

  /** ErrMaybe after a refused retry is acceptable if and only if no copy takes effect after the Clerk returned. */
  lemma RetriedIsAcceptableIff(log: seq<Command>, o: ClerkOp, lo: nat, hi: nat)
    requires Grounded(log, o, lo, hi) && o.input.KvPut? && o.output.err == ErrMaybe && RefusedIn(log, o, lo, hi)
    ensures Acceptable(log, o, lo, hi) <==> forall p: nat | TookEffectAt(log, o, p) :: p < hi
  {
    var r: nat :| RefusedAt(log, o, r) && lo <= r < hi;
    assert HadOtherVersion(log, o.input, lo, hi);
    if TookEffectBefore(log, o, hi) {
      var q: nat :| q < hi && TookEffectAt(log, o, q);
      forall p: nat | TookEffectAt(log, o, p) ensures p < hi { EffectUnique(log, p, q); }
    }
  }

  // ---------------------------------------------------------------- what Clerk.Put's retries came to

  /**
   * The operation is a Clerk.Put among n servers whose RPCs ended as scripted: it sent the RPCs that Put sends,
   * those answered OK or ErrVersion were told so by a server, and it returned what Put returns.
   */
  ghost predicate Ran(m: seq<State>, o: ClerkOp, script: seq<K.Outcome>, n: nat)
    requires m != []
  {
    && o.input.KvPut? && o.input.key != SyncKey && o.begin <= o.end < |m| && |o.ids| == K.Sent(script)
    && K.Verdict(script, n) == Some(o.output.err) && o.output == PutOutput(o.output.err)
    && (forall id | id in o.ids ::
          id !in m[o.begin].calls && (id in Final(m).calls ==> Final(m).calls[id].input == o.input))
    && (forall k | 0 <= k < |o.ids| && (script[k] == K.Replied(OK) || script[k] == K.Replied(ErrVersion)) ::
          AnsweredWith(m[o.end].trace, [o.ids[k]], PutOutput(script[k].err)))
  }

  lemma RanAnswered(m: seq<State>, o: ClerkOp, script: seq<K.Outcome>, n: nat, k: nat)
    requires m != [] && Ran(m, o, script, n) && k < |o.ids|
    requires script[k] == K.Replied(OK) || script[k] == K.Replied(ErrVersion)
    ensures AnsweredWith(m[o.end].trace, o.ids, PutOutput(script[k].err))
  {
    var trace, one := m[o.end].trace, [o.ids[k]];
    var i :| 0 <= i < |trace| && trace[i].Return? && trace[i].id in one && trace[i].output == PutOutput(script[k].err);
    assert trace[i].id == one[0] && trace[i].id in o.ids;
  }

  lemma RanIsConducted(m: seq<State>, o: ClerkOp, script: seq<K.Outcome>, n: nat)
    requires m != [] && Ran(m, o, script, n)
    ensures Conducted(m, o)
  {
    K.VerdictIs(script, n);
    var k := K.FirstDecision(script);
    if o.output.err != ErrMaybe { RanAnswered(m, o, script, n, k); }
  }

  lemma RanRefused(m: seq<State>, o: ClerkOp, script: seq<K.Outcome>, n: nat, k: nat, lo: nat, hi: nat)
    requires Chronicle(m) && Ran(m, o, script, n) && k < |o.ids| && script[k] == K.Replied(ErrVersion)
    requires lo == |m[o.begin].log| && hi == |m[o.end].log| <= |Final(m).log|
    ensures RefusedIn(Final(m).log, o, lo, hi)
  {
    RanIsConducted(m, o, script, n);
    RanAnswered(m, o, script, n, k);
    var p := PutAnswered(m, o, ErrVersion, lo);
  }

  /**
   * When what a Clerk.Put returns is acceptable, by the RPC that decided it: OK always, and the refusal of the very
   * first RPC; a later refusal in the first pass if no copy ever takes effect; one in a later pass if no copy takes
   * effect after the return; a time-out if a copy takes effect before it, or none does and the key had another version.
   */
  lemma PutIsAcceptableIff(
      m: seq<State>, o: ClerkOp, script: seq<K.Outcome>, n: nat, k: nat, log: seq<Command>, lo: nat, hi: nat)
    requires Chronicle(m) && Ran(m, o, script, n) && K.DecidesAt(script, k)
    requires log == Final(m).log && lo == |m[o.begin].log| && hi == |m[o.end].log|
    ensures Acceptable(log, o, lo, hi) <==>
              || script[k] == K.Replied(OK)
              || (script[k] == K.Replied(ErrVersion) && k == 0)
              || (script[k] == K.Replied(ErrVersion) && k < n && NeverTookEffect(log, o))
              || (script[k] == K.Replied(ErrVersion) && n <= k && forall p: nat | TookEffectAt(log, o, p) :: p < hi)
              || (script[k].TimedOut? &&
                  (TookEffectBefore(log, o, hi) || (NeverTookEffect(log, o) && HadOtherVersion(log, o.input, lo, hi))))
  {
    RanIsConducted(m, o, script, n);
    ConductedIsGrounded(m, o, log, lo, hi);
    var d := K.FirstDecision(script);
    assert d == k && n > 0;
    K.VerdictIs(script, n);
    if script[k] == K.Replied(ErrVersion) {
      RanRefused(m, o, script, n, k, lo, hi);
      if k == 0 { FirstRefusalIsAcceptable(log, o, lo, hi); }
      if n <= k { RetriedIsAcceptableIff(log, o, lo, hi); }
    }
  }

  // ---------------------------------------------------------------- Clerk histories are linearizable

  ghost predicate AllAcceptable(m: seq<State>, h: seq<ClerkOp>)
    requires m != []
  {
    forall x | 0 <= x < |h| ::
      && h[x].begin < |m| && h[x].end < |m|
      && Acceptable(Final(m).log, h[x], |m[h[x].begin].log|, |m[h[x].end].log|)
  }

  ghost function Choose(m: seq<State>, o: ClerkOp): (place: Place)
    requires m != [] && o.begin < |m| && o.end < |m| && exists place :: Explained(m, o, place)
    ensures Explained(m, o, place)
  {
    var place :| Explained(m, o, place);
    place
  }

  lemma HasPlace(m: seq<State>, h: seq<ClerkOp>, x: nat)
    requires Chronicle(m) && History(m, h) && AllAcceptable(m, h) && x < |h|
    ensures h[x].begin < |m| && h[x].end < |m| && exists place :: Explained(m, h[x], place)
  {
    assert Conducted(m, h[x]);
    ExplainedIffAcceptable(m, h[x]);
  }

  /** All results acceptable: the history of all Clerks is linearizable, ErrMaybe included. */
  lemma AcceptableIsLinearizable(m: seq<State>, h: seq<ClerkOp>) returns (order: seq<nat>)
    requires Chronicle(m) && History(m, h) && AllAcceptable(m, h)
    ensures Linearizes(h, order)
  {
    forall x | 0 <= x < |h|
      ensures h[x].begin < |m| && h[x].end < |m| && exists place :: Explained(m, h[x], place)
    {
      HasPlace(m, h, x);
    }
    var places := seq(|h|, x requires 0 <= x < |h| => Choose(m, h[x]));
    order := ExplainedIsLinearizable(m, h, places);
  }

  /** Clerk histories of timely runs are linearizable when every ErrVersion and ErrMaybe in them is acceptable. */
  lemma ClerksLinearizable(nonces: seq<nat>, events: seq<Event>, states: seq<State>, h: seq<ClerkOp>)
      returns (order: seq<nat>)
    requires AlrMachine.IsRun(nonces, events, states) && AllTimely(events, states)
    requires History(states, h) && AllAcceptable(states, h)
    ensures Linearizes(h, order)
  {
    RunIsChronicle(nonces, events, states);
    order := AcceptableIsLinearizable(states, h);
  }
}
