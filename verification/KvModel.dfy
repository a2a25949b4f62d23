/**
 * The sequential specification of src/models1/kv.go and its relation to the replicated store: what
 * DoOp computes for one key along any log is what the model computes for that key alone.
 */
module KvModel {
  import opened RaftTypes
  import opened KvStore

  datatype KvInput = KvGet(key: string) | KvPut(key: string, value: string, version: nat)
  datatype KvOutput = KvOutput(value: string, version: nat, err: Err)
  datatype KvState = KvState(value: string, version: nat)

  /** An operation of a history: what was asked and what was answered. */
  datatype KvOp = KvOp(input: KvInput, output: KvOutput)

  const InitState := KvState("", 0)

  function Step(st: KvState, op: KvOp): (bool, KvState) {
    match op.input
    case KvGet(_) => (op.output.value == st.value, st)
    case KvPut(_, value, version) =>
      if st.version == version
      then (op.output.err == OK || op.output.err == ErrMaybe, KvState(value, st.version + 1))
      else (op.output.err == ErrVersion || op.output.err == ErrMaybe, st)
  }

  /** Does the model accept the operations, all on one key, in this order? */
  predicate Accepts(ops: seq<KvOp>) {
    if ops == [] then true
    else Accepts(ops[..|ops| - 1]) && Step(StateAfter(ops[..|ops| - 1]), ops[|ops| - 1]).0
  }

  function StateAfter(ops: seq<KvOp>): KvState {
    if ops == [] then InitState else Step(StateAfter(ops[..|ops| - 1]), ops[|ops| - 1]).1
  }

  // ---------------------------------------------------------------- Partition

  /** The operations on one key, in order. */
  function Project(ops: seq<KvOp>, key: string): seq<KvOp> {
    if ops == [] then []
    else
      var rest := Project(ops[..|ops| - 1], key);
      if ops[|ops| - 1].input.key == key then rest + [ops[|ops| - 1]] else rest
  }

  function KeysOf(ops: seq<KvOp>): set<string> { set i | 0 <= i < |ops| :: ops[i].input.key }

  lemma ProjectStep(ops: seq<KvOp>, i: nat, key: string)
    requires i < |ops|
    ensures Project(ops[..i + 1], key) == Project(ops[..i], key) + (if ops[i].input.key == key then [ops[i]] else [])
  {
    assert ops[..i + 1][..i] == ops[..i];
  }

  /** The first loop: each key's operations, in their order, and nothing else. */
  method GroupByKey(history: seq<KvOp>) returns (m: map<string, seq<KvOp>>)
    ensures m.Keys == KeysOf(history)
    ensures forall k | k in m :: m[k] == Project(history, k)
  {
    m := map[];
    var i := 0;
    while i < |history|
      invariant 0 <= i <= |history|
      invariant m.Keys == KeysOf(history[..i])
      invariant forall k | k in m :: m[k] == Project(history[..i], k)
      invariant forall k: string | k !in m :: Project(history[..i], k) == []
    {
      var v := history[i];
      var key := v.input.key;
      m := m[key := (if key in m then m[key] else []) + [v]];
      forall k: string
        ensures Project(history[..i + 1], k) == Project(history[..i], k) + (if key == k then [v] else [])
      {
        ProjectStep(history, i, k);
      }
      KeysStep(history, i);
      i := i + 1;
    }
    assert history[..|history|] == history;
  }

  /** Every key once, in ascending order. */
  ghost predicate SortedSet(keys: seq<string>, s: set<string>) {
    && (forall i, j | 0 <= i < j < |keys| :: keys[i] != keys[j] && AtMost(keys[i], keys[j]))
    && (set i | 0 <= i < |keys| :: keys[i]) == s
  }

  /** The second loop and the sort after it. */
  method SortKeys(all: set<string>) returns (sorted: seq<string>)
    ensures SortedSet(sorted, all)
  {
    sorted := [];
    var rest := all;
    ghost var done: set<string> := {};
    while rest != {}
      invariant rest !! done && rest + done == all && SortedSet(sorted, done)
      decreases |rest|
    {
      var k :| k in rest;
      InsertSorts(sorted, k, done);
      sorted := Insert(sorted, k);
      rest, done := rest - {k}, done + {k};
    }
  }

  /**
   * A history split by key: one list for each key, in ascending order of the keys, with that key's operations in
   * order.
   */
  method Partition(history: seq<KvOp>) returns (parts: seq<seq<KvOp>>, keys: seq<string>)
    ensures SortedSet(keys, KeysOf(history)) && |parts| == |keys|
    ensures forall i | 0 <= i < |keys| :: parts[i] == Project(history, keys[i])
  {
    var m := GroupByKey(history);
    var sorted := SortKeys(m.Keys);
    parts, keys := [], sorted;
    var i := 0;
    while i < |sorted|
      invariant 0 <= i <= |sorted| && |parts| == i && keys == sorted && SortedSet(sorted, m.Keys)
      invariant forall j | 0 <= j < i :: parts[j] == Project(history, sorted[j])
    {
      assert sorted[i] in m.Keys;
      parts := parts + [m[sorted[i]]];
      i := i + 1;
    }
  }

  /** Strings in order of their characters, which for UTF-8 is the byte order of sort.Strings. */
  predicate AtMost(a: string, b: string) {
    if a == [] then true else if b == [] then false
    else if a[0] != b[0] then a[0] < b[0] else AtMost(a[1..], b[1..])
  }

  lemma {:induction false} AtMostTotal(a: string, b: string)
    ensures AtMost(a, b) || AtMost(b, a)
  {
    if a != [] && b != [] { AtMostTotal(a[1..], b[1..]); }
  }

  lemma {:induction false} AtMostTransitive(a: string, b: string, c: string)
    requires AtMost(a, b) && AtMost(b, c)
    ensures AtMost(a, c)
  {
    if a != [] && b != [] && c != [] && a[0] == b[0] == c[0] { AtMostTransitive(a[1..], b[1..], c[1..]); }
  }

  function Insert(keys: seq<string>, k: string): seq<string> {
    if keys == [] then [k] else if AtMost(k, keys[0]) then [k] + keys else [keys[0]] + Insert(keys[1..], k)
  }

  lemma {:induction false} InsertHas(keys: seq<string>, k: string, i: nat)
    requires i < |Insert(keys, k)|
    ensures Insert(keys, k)[i] == k || Insert(keys, k)[i] in keys
    ensures k in Insert(keys, k) && forall x | x in keys :: x in Insert(keys, k)
    decreases |keys|
  {
    if keys != [] && !AtMost(k, keys[0]) {
      InsertHas(keys[1..], k, if i > 0 then i - 1 else 0);
      assert forall x | x in keys :: x == keys[0] || x in keys[1..];
      assert Insert(keys, k) == [keys[0]] + Insert(keys[1..], k);
    }
  }

  lemma {:induction false} InsertOrders(keys: seq<string>, k: string, i: nat, j: nat)
    requires (forall x, y | 0 <= x < y < |keys| :: keys[x] != keys[y] && AtMost(keys[x], keys[y])) && k !in keys
    requires i < j < |Insert(keys, k)|
    ensures Insert(keys, k)[i] != Insert(keys, k)[j] && AtMost(Insert(keys, k)[i], Insert(keys, k)[j])
    decreases |keys|
  {
    if keys != [] {
      if AtMost(k, keys[0]) {
        if i == 0 && j > 1 { AtMostTransitive(k, keys[0], keys[j - 1]); }
      } else {
        AtMostTotal(k, keys[0]);
        if i > 0 {
          InsertOrders(keys[1..], k, i - 1, j - 1);
        } else {
          InsertHas(keys[1..], k, j - 1);
        }
      }
    }
  }

  lemma InsertSorts(keys: seq<string>, k: string, s: set<string>)
    requires SortedSet(keys, s) && k !in s
    ensures SortedSet(Insert(keys, k), s + {k})
  {
    var r := Insert(keys, k);
    assert k !in keys;
    forall i, j | 0 <= i < j < |r| ensures r[i] != r[j] && AtMost(r[i], r[j]) { InsertOrders(keys, k, i, j); }
    forall x | x in s + {k} ensures x in r {
      InsertHas(keys, k, 0);
      if x in s { var i :| 0 <= i < |keys| && keys[i] == x; }
    }
    forall i | 0 <= i < |r| ensures r[i] in s + {k} { InsertHas(keys, k, i); }
  }

  lemma KeysStep(ops: seq<KvOp>, i: nat)
    requires i < |ops|
    ensures KeysOf(ops[..i + 1]) == KeysOf(ops[..i]) + {ops[i].input.key}
  {
    forall k | k in KeysOf(ops[..i + 1]) ensures k in KeysOf(ops[..i]) + {ops[i].input.key} {
      var j :| 0 <= j < i + 1 && ops[..i + 1][j].input.key == k;
      if j < i { assert ops[..i][j] == ops[j]; }
    }
    forall k | k in KeysOf(ops[..i]) ensures k in KeysOf(ops[..i + 1]) {
      var j :| 0 <= j < i && ops[..i][j].input.key == k;
      assert ops[..i + 1][j] == ops[j];
    }
    assert ops[..i + 1][i] == ops[i];
  }

  // ---------------------------------------------------------------- the store refines the model

  /** One key of the store, as the model sees it. */
  function KeyState(st: Store, key: string): KvState {
    if key in st.kv then KvState(st.kv[key], VersionOf(st, key)) else InitState
  }

  function InputOf(req: Request): KvInput
    requires !req.Sync?
  {
    match req
    case Get(key) => KvGet(key)
    case Put(key, value, version) => KvPut(key, value, version)
  }

  function OutputOf(r: Reply): KvOutput {
    match r
    case GetReply(value, version, err) => KvOutput(value, version, err)
    case PutReply(err) => KvOutput("", 0, err)
  }

  /** The history a store produces along a sequence of requests: every request with the answer it gets in its place. */
  function Trace(reqs: seq<Request>): seq<KvOp> {
    if reqs == [] then []
    else
      var n := |reqs| - 1;
      var rest := Trace(reqs[..n]);
      if reqs[n].Sync? then rest else rest + [KvOp(InputOf(reqs[n]), OutputOf(Answer(Replay(reqs[..n]), reqs[n])))]
  }

  /** One request: the model accepts the store's answer and stays in step with the store. */
  lemma StepAgrees(st: Store, req: Request, key: string)
    requires Consistent(st) && key != SyncKey
    ensures req.Sync? || InputOf(req).key != key ==> KeyState(Execute(st, req), key) == KeyState(st, key)
    ensures !req.Sync? && InputOf(req).key == key ==>
              Step(KeyState(st, key), KvOp(InputOf(req), OutputOf(Answer(st, req)))) == (true,
                  KeyState(Execute(st, req), key))
  {
  }

  /**
   * For every log and every key but the sync key, store and model agree on value and version, and the model accepts
   * every answer.
   */
  lemma {:induction false} StoreRefinesModel(reqs: seq<Request>, key: string)
    requires key != SyncKey
    ensures Accepts(Project(Trace(reqs), key))
    ensures StateAfter(Project(Trace(reqs), key)) == KeyState(Replay(reqs), key)
  {
    if reqs != [] {
      var n := |reqs| - 1;
      StoreRefinesModel(reqs[..n], key);
      ReplayConsistent(reqs[..n]);
      StepAgrees(Replay(reqs[..n]), reqs[n], key);
      if !reqs[n].Sync? {
        var before, op := Trace(reqs[..n]), KvOp(InputOf(reqs[n]), OutputOf(Answer(Replay(reqs[..n]), reqs[n])));
        assert (before + [op])[..|before|] == before;
        var p := Project(before, key);
        assert (p + [op])[..|p|] == p;
      }
    }
  }
}
