/** The in-process cache of PATCH answers, kept small by eviction, against the unbounded log of everything ever
    stored. */
module PatchCache {
  import opened Types

  type Delay = d: real | 0.0 <= d witness 0.0

  const TTL: real := 60.0

  datatype Response = Response(id: SubscriberId, name: string, endpoint: string, active: bool, createdAt: int)

  datatype Entry = Entry(at: real, result: Response)
  type Cache = map<string, Entry>

  predicate Live(e: Entry, now: real) { now - e.at < TTL }

  function Cached(cache: Cache, key: string, now: real): Option<Response> {
    if key in cache && Live(cache[key], now) then Some(cache[key].result) else None
  }

  /** A write first drops every entry that has reached its age. */
  function Evicted(cache: Cache, now: real): Cache {
    map k | k in cache && Live(cache[k], now) :: cache[k]
  }

  function Stored(cache: Cache, key: string, result: Response, now: real): Cache {
    Evicted(cache, now)[key := Entry(now, result)]
  }

  // ----- The unbounded log

  datatype Write = Write(key: string, entry: Entry)

  function Latest(log: seq<Write>, key: string): Option<Entry> {
    if log == [] then None else
    var last := log[|log| - 1];
    if last.key == key then Some(last.entry) else Latest(log[..|log| - 1], key)
  }

  function Recalled(log: seq<Write>, key: string, now: real): Option<Response> {
    var latest := Latest(log, key);
    if latest.Some? && Live(latest.value, now) then Some(latest.value.result) else None
  }

  /** The cache holds the latest write of each of its keys, and lacks only what has reached its age. */
  ghost predicate Agrees(cache: Cache, log: seq<Write>, now: real) {
    && (forall k :: k in cache ==> Latest(log, k) == Some(cache[k]))
    && (forall k :: k !in cache && Latest(log, k).Some? ==> !Live(Latest(log, k).value, now))
  }

  lemma LatestOfAppend(log: seq<Write>, w: Write)
    ensures forall k :: Latest(log + [w], k) == if k == w.key then Some(w.entry) else Latest(log, k)
  {
    assert (log + [w])[..|log|] == log;
  }

  lemma AgreesLater(cache: Cache, log: seq<Write>, now: real, d: Delay)
    requires Agrees(cache, log, now)
    ensures Agrees(cache, log, now + d)
  {
  }

  lemma EvictionDeletes(cache: Cache, stale: set<string>, now: real)
    requires stale == set k | k in cache && now - cache[k].at >= TTL
    ensures cache - stale == Evicted(cache, now)
  {
  }

  lemma AnswersAgree(cache: Cache, log: seq<Write>, key: string, now: real)
    requires Agrees(cache, log, now)
    ensures Cached(cache, key, now) == Recalled(log, key, now)
  {
  }

  lemma StoreAgrees(cache: Cache, log: seq<Write>, key: string, result: Response, now: real)
    requires Agrees(cache, log, now)
    ensures Agrees(Stored(cache, key, result, now), log + [Write(key, Entry(now, result))], now)
  {
    LatestOfAppend(log, Write(key, Entry(now, result)));
  }

  // ----- Any sequence of cache operations

  datatype Op = Wait(d: Delay) | Lookup(key: string) | Store(key: string, result: Response)

  function CacheAnswers(cache: Cache, now: real, ops: seq<Op>): seq<Option<Response>>
    decreases |ops|
  {
    if ops == [] then [] else
    match ops[0]
    case Wait(d) => CacheAnswers(cache, now + d, ops[1..])
    case Lookup(key) => [Cached(cache, key, now)] + CacheAnswers(cache, now, ops[1..])
    case Store(key, result) => CacheAnswers(Stored(cache, key, result, now), now, ops[1..])
  }

  function LogAnswers(log: seq<Write>, now: real, ops: seq<Op>): seq<Option<Response>>
    decreases |ops|
  {
    if ops == [] then [] else
    match ops[0]
    case Wait(d) => LogAnswers(log, now + d, ops[1..])
    case Lookup(key) => [Recalled(log, key, now)] + LogAnswers(log, now, ops[1..])
    case Store(key, result) => LogAnswers(log + [Write(key, Entry(now, result))], now, ops[1..])
  }

  lemma {:induction false} AgreeingAnswers(cache: Cache, log: seq<Write>, now: real, ops: seq<Op>)
    requires Agrees(cache, log, now)
    ensures CacheAnswers(cache, now, ops) == LogAnswers(log, now, ops)
    decreases |ops|
  {
    if ops != [] {
      match ops[0]
      case Wait(d) => AgreeingAnswers(cache, log, now + d, ops[1..]);
      case Lookup(key) => AgreeingAnswers(cache, log, now, ops[1..]);
      case Store(key, result) =>
        StoreAgrees(cache, log, key, result, now);
        AgreeingAnswers(Stored(cache, key, result, now), log + [Write(key, Entry(now, result))], now, ops[1..]);
    }
  }

  /** Eviction cannot be observed: from the empty cache, any sequence of waits, lookups and writes by any number of
      requests is answered as an unbounded log would answer it. */
  lemma CacheRefinesLog(start: real, ops: seq<Op>)
    ensures CacheAnswers(map[], start, ops) == LogAnswers([], start, ops)
  {
    AgreeingAnswers(map[], [], start, ops);
  }

  /** Right after a write the cache holds exactly the keys last written less than the TTL ago. */
  lemma StoreLeavesOnlyYoung(cache: Cache, log: seq<Write>, key: string, result: Response, now: real)
    requires Agrees(cache, log, now)
    ensures var cache', log' := Stored(cache, key, result, now), log + [Write(key, Entry(now, result))];
      forall k :: k in cache' <==> Latest(log', k).Some? && Live(Latest(log', k).value, now)
  {
    StoreAgrees(cache, log, key, result, now);
    LatestOfAppend(log, Write(key, Entry(now, result)));
  }

  /** The latest write of a key is one of the log, and none of that key comes after it. */
  lemma {:induction false} LatestIsLast(log: seq<Write>, i: nat)
    requires i < |log|
    ensures exists j :: i <= j < |log| && IsLatest(log, log[i].key, j)
    decreases |log|
  {
    var n := |log| - 1;
    if log[n].key == log[i].key {
      assert IsLatest(log, log[i].key, n);
    } else {
      LatestIsLast(log[..n], i);
      var j :| i <= j < n && IsLatest(log[..n], log[i].key, j);
      assert IsLatest(log, log[i].key, j);
    }
  }

  ghost predicate IsLatest(log: seq<Write>, key: string, j: nat) {
    && j < |log| && log[j].key == key && Latest(log, key) == Some(log[j].entry)
    && forall k :: j < k < |log| ==> log[k].key != key
  }

  lemma {:induction false} NoneWritten(log: seq<Write>, key: string)
    requires forall i :: 0 <= i < |log| ==> log[i].key != key
    ensures Latest(log, key) == None
    decreases |log|
  {
    if log != [] { NoneWritten(log[..|log| - 1], key); }
  }

  /** An answer is recalled for less than sixty seconds after it was stored, unless another is stored under its key. */
  lemma AnswersLiveSixtySeconds(log: seq<Write>, key: string, now: real)
    ensures Recalled(log, key, now).Some? <==> exists j: nat :: IsLatest(log, key, j) && now - log[j].entry.at < 60.0
    ensures forall j: nat :: IsLatest(log, key, j) && now - log[j].entry.at < 60.0 ==>
      Recalled(log, key, now) == Some(log[j].entry.result)
  {
    if Recalled(log, key, now).Some? {
      if forall i :: 0 <= i < |log| ==> log[i].key != key { NoneWritten(log, key); }
      var i :| 0 <= i < |log| && log[i].key == key;
      LatestIsLast(log, i);
    }
  }
}
