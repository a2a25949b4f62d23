/**
 * The versioned key/value state machine of src/kvraft1/server.go (DoOp without the read queue) and
 * its replay along a log.
 */
module KvStore {
  import opened RaftTypes

  datatype Err = OK | ErrNoKey | ErrVersion | ErrMaybe | ErrWrongLeader

  datatype Reply = GetReply(value: string, version: nat, err: Err) | PutReply(err: Err)

  /** The two maps kv and versions. */
  datatype Store = Store(kv: map<string, string>, versions: map<string, nat>)

  const Empty := Store(map[], map[])

  const SyncKey := "sync"

  function Lookup(st: Store, key: string): Reply {
    if key in st.kv then GetReply(st.kv[key], if key in st.versions then st.versions[key] else 0, OK)
    else GetReply("", 0, ErrNoKey)
  }

  /** Does a Put that expects this version go through? */
  predicate Matches(st: Store, key: string, version: nat) {
    if key in st.versions then version == st.versions[key] else version == 0
  }

  function Write(st: Store, key: string, value: string): Store {
    Store(st.kv[key := value], st.versions[key := if key in st.versions then st.versions[key] + 1 else 1])
  }

  function Execute(st: Store, req: Request): Store {
    match req
    case Put(key, value, version) => if key != SyncKey && Matches(st, key, version) then Write(st, key, value) else st
    case _ => st
  }

  function Answer(st: Store, req: Request): Reply {
    match req
    case Get(key) => Lookup(st, key)
    case Put(key, _, version) => PutReply(if key == SyncKey || Matches(st, key, version) then OK else ErrVersion)
    case Sync(_, _, _) => PutReply(OK)
  }

  /** The store after the whole log. */
  function Replay(log: seq<Request>): Store {
    if log == [] then Empty else Execute(Replay(log[..|log| - 1]), log[|log| - 1])
  }

  lemma ReplayStep(log: seq<Request>, i: nat)
    requires i < |log|
    ensures Replay(log[..i + 1]) == Execute(Replay(log[..i]), log[i])
  {
    assert log[..i + 1][..i] == log[..i];
  }

  /** The two maps always have the same keys, and a stored version is at least 1. */
  ghost predicate Consistent(st: Store) {
    st.kv.Keys == st.versions.Keys && forall k | k in st.versions :: st.versions[k] >= 1
  }

  lemma {:induction false} ReplayConsistent(log: seq<Request>)
    ensures Consistent(Replay(log))
  {
    if log != [] { ReplayConsistent(log[..|log| - 1]); }
  }

  // ---------------------------------------------------------------- effective Puts

  /** log[i] is a Put to key that changed the store. */
  predicate Effective(log: seq<Request>, i: nat, key: string)
    requires i < |log|
  {
    log[i].Put? && log[i].key == key && key != SyncKey && Matches(Replay(log[..i]), key, log[i].version)
  }

  function VersionOf(st: Store, key: string): nat { if key in st.versions then st.versions[key] else 0 }

  function CountEffective(log: seq<Request>, key: string, n: nat): nat
    requires n <= |log|
  {
    if n == 0 then 0 else CountEffective(log, key, n - 1) + if Effective(log, n - 1, key) then 1 else 0
  }

  /** A key's version is the number of Puts to it that went through. */
  lemma {:induction false} VersionCounts(log: seq<Request>, key: string, n: nat)
    requires n <= |log|
    ensures VersionOf(Replay(log[..n]), key) == CountEffective(log, key, n)
  {
    if n > 0 {
      VersionCounts(log, key, n - 1);
      ReplayStep(log, n - 1);
    }
  }

  lemma {:induction false} CountGrows(log: seq<Request>, key: string, i: nat, j: nat)
    requires i <= j <= |log|
    ensures CountEffective(log, key, i) <= CountEffective(log, key, j)
    decreases j
  {
    if i < j { CountGrows(log, key, i, j - 1); }
  }

  /** The version a successful Put asked for is the number of successful Puts before it, so it never comes up twice. */
  lemma EffectiveOnce(log: seq<Request>, key: string, i: nat, j: nat)
    requires i < j < |log| && Effective(log, i, key) && Effective(log, j, key)
    ensures log[i].version == CountEffective(log, key, i) && log[i].version < log[j].version
  {
    VersionCounts(log, key, i);
    VersionCounts(log, key, j);
    CountGrows(log, key, i + 1, j);
  }

  // ---------------------------------------------------------------- what a Get tells

  /** The last Put to key among the first n entries that went through. */
  ghost predicate LastWrite(log: seq<Request>, key: string, n: nat, i: nat) {
    i < n <= |log| && Effective(log, i, key) && forall j | i < j < n :: !Effective(log, j, key)
  }

  /**
   * Asked after the first n entries, a Get tells how many Puts to the key went through and the value of the last
   * of them, or that there is no such key.
   */
  ghost predicate TellsAll(log: seq<Request>, key: string, n: nat, r: Reply)
    requires n <= |log|
  {
    && r.GetReply? && r.version == CountEffective(log, key, n)
    && if r.version > 0 then r.err == OK && exists i: nat :: LastWrite(log, key, n, i) && log[i].value == r.value
       else r.err == ErrNoKey && r.value == ""
  }

  lemma {:induction false} ValueIsLast(log: seq<Request>, key: string, n: nat) returns (i: nat)
    requires n <= |log| && key in Replay(log[..n]).kv
    ensures LastWrite(log, key, n, i) && log[i].value == Replay(log[..n]).kv[key]
  {
    assert n > 0;
    ReplayStep(log, n - 1);
    i := n - 1;
    if !Effective(log, n - 1, key) {
      assert Replay(log[..n]).kv[key] == Replay(log[..n - 1]).kv[key];
      i := ValueIsLast(log, key, n - 1);
    }
  }

  lemma GetTellsAll(log: seq<Request>, key: string, n: nat)
    requires n <= |log|
    ensures TellsAll(log, key, n, Lookup(Replay(log[..n]), key))
  {
    VersionCounts(log, key, n);
    ReplayConsistent(log[..n]);
    var st := Replay(log[..n]);
    assert key in st.kv <==> key in st.versions.Keys;
    if key in st.kv { var i := ValueIsLast(log, key, n); }
  }

  /** Of all Puts exactly those with the version a Get returns go through, and the next Get sees them. */
  lemma PutAfterGet(st: Store, key: string, value: string, version: nat)
    requires Consistent(st) && key != SyncKey
    ensures var put := Put(key, value, version);
            if version == Lookup(st, key).version
            then Answer(st, put) == PutReply(OK) && Lookup(Execute(st, put), key) == GetReply(value, version + 1, OK)
            else Answer(st, put) == PutReply(ErrVersion) && Execute(st, put) == st
  {
    assert key in st.kv <==> key in st.versions.Keys;
  }

  lemma {:induction false} CountStays(log: seq<Request>, key: string, i: nat, j: nat)
    requires i <= j <= |log|
    ensures CountEffective(log, key, i) == CountEffective(log, key, j) <==>
            forall k | i <= k < j :: !Effective(log, k, key)
    decreases j
  {
    if i < j {
      CountStays(log, key, i, j - 1);
      CountGrows(log, key, i, j - 1);
    }
  }

  /**
   * A Put with the version a Get returned at index p goes through at a later index q if and only if no other Put to
   * the key went through in between.
   */
  lemma UnlessOvertaken(log: seq<Request>, key: string, p: nat, q: nat)
    requires p <= q < |log| && log[q].Put? && log[q].key == key != SyncKey
    requires log[q].version == Lookup(Replay(log[..p]), key).version
    ensures Effective(log, q, key) <==> forall k | p <= k < q :: !Effective(log, k, key)
  {
    GetTellsAll(log, key, p);
    VersionCounts(log, key, q);
    CountStays(log, key, p, q);
  }
}
