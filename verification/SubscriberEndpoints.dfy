/** The subscriber endpoints as code over the table and the cache. As in the worker and the consumer, `trace` records
    every event since `start`, and at an await point any number of events of other requests may happen. */
module SubscriberEndpoints {
  import opened Types
  import opened PatchCache
  import opened Subscribers
  import opened SubscriberTheorems

  predicate IsOf(e: Event, r: RequestId) {
    match e
    case Wait(_) => false
    case Create(_, _, _, _) => false
    case _ => e.r == r
  }

  /** The steps of one request within a trace. */
  ghost function ByRequest(es: seq<Event>, r: RequestId): seq<Event> {
    if es == [] then [] else
    ByRequest(es[..|es| - 1], r) + if IsOf(es[|es| - 1], r) then [es[|es| - 1]] else []
  }

  lemma TraceAppend(es: seq<Event>, e: Event)
    ensures forall r :: ByRequest(es + [e], r) == ByRequest(es, r) + if IsOf(e, r) then [e] else []
  {
    assert (es + [e])[..|es|] == es;
  }

  /** How a PATCH can go: answered from the cache, not found, or applied. */
  ghost predicate IsPatchScript(steps: seq<Event>, r: RequestId, q: Request, at: int) {
    || steps == [Arrive(r, q)]
    || steps == [Arrive(r, q), Select(r)]
    || steps == [Arrive(r, q), Select(r), Commit(r, at), Refresh(r), Finish(r)]
  }

  class Endpoints {
    var clock: real
    var cache: Cache
    var table: Table
    ghost const start: Api
    ghost var world: Api
    ghost var trace: seq<Event>

    ghost predicate Logged()
      reads this`world, this`trace
    {
      Sound(start) && IsRun(start, trace) && world == After(start, trace)
    }

    ghost predicate Valid()
      reads this
    {
      Logged() && clock == world.clock && cache == world.cache && table == world.table
    }

    constructor (now: real)
      ensures Valid() && start == Fresh(now) && trace == []
    {
      clock, cache, table := now, map[], map[];
      start := Fresh(now);
      world := Fresh(now);
      trace := [];
      new;
      FreshIsSound(now);
    }

    ghost method Log(e: Event)
      requires Logged() && CanStep(world, e)
      modifies this`world, this`trace
      ensures Logged() && trace == old(trace) + [e] && world == Step(old(world), e)
      ensures forall r :: ByRequest(trace, r) == ByRequest(old(trace), r) + if IsOf(e, r) then [e] else []
    {
      hide CanStep, Step, Sound;
      RunOfOne(world, e);
      RunsCompose(start, trace, [e]);
      TraceAppend(trace, e);
      world := Step(world, e);
      trace := trace + [e];
    }

    /** An await point of request r: any number of events of everything else may happen here. Callers know no more than
        the contract. */
    method Await(ghost r: RequestId)
      requires Valid()
      modifies this
      ensures Valid() && old(trace) <= trace && ByRequest(trace, r) == ByRequest(old(trace), r)
      ensures Known(world, r) <==> Known(old(world), r)
      ensures r in world.flights <==> r in old(world).flights
      ensures r in world.flights ==> world.flights[r] == old(world).flights[r]
      ensures old(clock) <= clock && old(table).Keys <= table.Keys
      ensures forall id :: IsDeleted(old(table), id) ==> IsDeleted(table, id)
    {
    }

    lemma WorldIsSound()
      requires Valid()
      ensures Sound(world)
    {
      SoundRun(start, trace);
    }

    /** Request r is in progress and has reached `stage`. */
    ghost predicate At(r: RequestId, q: Request, stage: Stage)
      reads this
    {
      r in world.flights && world.flights[r].request == q && world.flights[r].stage == stage
    }

    lemma RowIsThere(r: RequestId, q: Request, stage: Stage)
      requires Valid() && At(r, q, stage) && !stage.Started?
      ensures q.id in table && r !in world.replies && !q.Fetch?
    {
      WorldIsSound();
      assert FlightOk(world, r);
    }

    method GetCachedPatch(key: string) returns (r: Option<Response>)
      requires Valid()
      ensures r == Cached(cache, key, clock) && r == Recalled(world.log, key, world.clock)
      ensures r == if key in cache && clock - cache[key].at < 60.0 then Some(cache[key].result) else None
    {
      WorldIsSound();
      AnswersAgree(cache, world.log, key, clock);
      if key in cache && clock - cache[key].at < TTL { return Some(cache[key].result); }
      return None;
    }

    /** Deletes the stale entries one by one, then writes. */
    method CachePatchResult(key: string, result: Response)
      modifies this`cache
      ensures cache == Stored(old(cache), key, result, clock)
      ensures key in cache && cache[key] == Entry(clock, result)
      ensures forall k :: k in cache && k != key ==> k in old(cache) && cache[k] == old(cache)[k]
      ensures forall k :: k in old(cache) && k != key ==> (k in cache <==> clock - old(cache)[k].at < 60.0)
    {
      var now := clock;
      var stale := set k | k in cache && now - cache[k].at >= TTL;
      ghost var all := stale;
      while stale != {}
        invariant stale <= all && all == set k | k in old(cache) && now - old(cache)[k].at >= TTL
        invariant cache == old(cache) - (all - stale)
        decreases stale
      {
        var k :| k in stale;
        cache, stale := cache - {k}, stale - {k};
      }
      EvictionDeletes(old(cache), all, now);
      cache := cache[key := Entry(now, result)];
    }

    /** The look-up that begins a PATCH: a live answer is given at once. */
    method LookUp(r: RequestId, q: Request) returns (cached: Option<Response>)
      requires Valid() && q.Update? && !Known(world, r)
      modifies this
      ensures Valid() && trace == old(trace) + [Arrive(r, q)] && table == old(table) && cache == old(cache)
      ensures ByRequest(trace, r) == ByRequest(old(trace), r) + [Arrive(r, q)]
      ensures cached == if HasKey(q) then Recalled(old(world).log, q.key.value, old(world).clock) else None
      ensures q.key == None || q.key == Some("") ==> cached == None
      ensures if cached.Some? then r in world.replies && world.replies[r] == Ok(cached.value) else At(r, q, Started)
    {
      hide Sound, IsRun, After;
      cached := None;
      if q.key.Some? && q.key.value != "" { cached := GetCachedPatch(q.key.value); }
      Log(Arrive(r, q));
    }

    /** None is the 404 answer. */
    method GetOr404(r: RequestId, q: Request) returns (row: Option<Row>)
      requires Valid() && At(r, q, Started) && !q.Fetch?
      modifies this
      ensures Valid() && old(trace) <= trace && ByRequest(trace, r) == ByRequest(old(trace), r) + [Select(r)]
      ensures row.Some? <==> q.id in table && table[q.id].deletedAt == None
      ensures match row
        case Some(read) => At(r, q, HasRead(read)) && table[q.id] == read
        case None => r in world.replies && world.replies[r] == NotFound
    {
      hide Sound, IsRun, After;
      Await(r);
      row := None;
      if q.id in table && table[q.id].deletedAt.None? { row := Some(table[q.id]); }
      Log(Select(r));
    }

    /** The UPDATE of a PATCH: the columns given another value than the one read, over the row as it is now. */
    method CommitUpdate(r: RequestId, q: Request, read: Row, at: int)
      requires Valid() && At(r, q, HasRead(read)) && q.Update?
      modifies this
      ensures Valid() && trace == old(trace) + [Commit(r, at)] && At(r, q, Committed) && r in world.applied
      ensures ByRequest(trace, r) == ByRequest(old(trace), r) + [Commit(r, at)]
      ensures q.id in old(table) && table == old(table)[q.id := Written(old(table)[q.id], read, q.change, at)]
      ensures table[q.id].active ==
        if q.change.active.Some? && q.change.active.value != read.active then q.change.active.value else old(table)[q.id].active
      ensures table[q.id].endpoint ==
        if q.change.endpoint.Some? && q.change.endpoint.value != read.endpoint then q.change.endpoint.value else old(table)[q.id].endpoint
      ensures table[q.id].updatedAt == at && table[q.id].deletedAt == old(table)[q.id].deletedAt
      ensures table[q.id].name == old(table)[q.id].name && table[q.id].createdAt == old(table)[q.id].createdAt
      ensures forall id :: id in table && id != q.id ==> id in old(table) && table[id] == old(table)[id]
    {
      RowIsThere(r, q, HasRead(read));
      hide Sound, IsRun, After;
      var now := table[q.id];
      var change := q.change;
      if change.endpoint.Some? && change.endpoint.value != read.endpoint { now := now.(endpoint := change.endpoint.value); }
      if change.active.Some? && change.active.value != read.active { now := now.(active := change.active.value); }
      table := table[q.id := now.(updatedAt := at)];
      Log(Commit(r, at));
    }

    method RefreshRow(r: RequestId, q: Request) returns (result: Response)
      requires Valid() && At(r, q, Committed)
      modifies this
      ensures Valid() && old(trace) <= trace && ByRequest(trace, r) == ByRequest(old(trace), r) + [Refresh(r)]
      ensures At(r, q, Refreshed(result)) && q.id in table
      ensures result.id == q.id && result.name == table[q.id].name && result.endpoint == table[q.id].endpoint
      ensures result.active == table[q.id].active && result.createdAt == table[q.id].createdAt
    {
      hide Sound, IsRun, After;
      Await(r);
      RowIsThere(r, q, Committed);
      result := ResponseOf(q.id, table[q.id]);
      Log(Refresh(r));
    }

    /** Stores the answer under the key, if there is one, and gives it. */
    method FinishUpdate(r: RequestId, q: Request, result: Response)
      requires Valid() && At(r, q, Refreshed(result)) && q.Update?
      modifies this
      ensures Valid() && trace == old(trace) + [Finish(r)] && table == old(table)
      ensures ByRequest(trace, r) == ByRequest(old(trace), r) + [Finish(r)]
      ensures r in world.replies && world.replies[r] == Ok(result)
      ensures cache == if HasKey(q) then Stored(old(cache), q.key.value, result, clock) else old(cache)
      ensures q.key == None || q.key == Some("") ==> cache == old(cache)
      ensures q.key.Some? && q.key.value != "" ==> q.key.value in cache && cache[q.key.value] == Entry(clock, result)
    {
      hide Sound, IsRun, After;
      if q.key.Some? && q.key.value != "" { CachePatchResult(q.key.value, result); }
      Log(Finish(r));
    }

    /** The second half of a PATCH whose row was found: commit, read back, store, answer. */
    method ApplyUpdate(r: RequestId, q: Request, read: Row, at: int) returns (result: Response)
      requires Valid() && At(r, q, HasRead(read)) && q.Update?
      modifies this
      ensures Valid() && old(trace) <= trace && r in world.replies && world.replies[r] == Ok(result)
      ensures ByRequest(trace, r) == ByRequest(old(trace), r) + [Commit(r, at), Refresh(r), Finish(r)]
    {
      hide Logged, ByRequest, Recalled, IsDeleted, Stored, Written, HasKey;
      ghost var before := ByRequest(trace, r);
      Await(r);
      CommitUpdate(r, q, read, at);
      result := RefreshRow(r, q);
      Await(r);
      FinishUpdate(r, q, result);
      assert before + [Commit(r, at)] + [Refresh(r)] + [Finish(r)] == before + [Commit(r, at), Refresh(r), Finish(r)];
    }

    /** PATCH: the cached answer, 404, or the change committed, read back, stored under the key and answered. Between
        its steps any other request may go on. */
    method UpdateSubscriber(r: RequestId, q: Request, at: int) returns (reply: Reply, ghost steps: seq<Event>)
      requires Valid() && q.Update? && !Known(world, r)
      modifies this
      ensures Valid() && old(trace) <= trace && r in world.replies && world.replies[r] == reply
      ensures IsPatchScript(steps, r, q, at) && ByRequest(trace, r) == ByRequest(old(trace), r) + steps
      ensures |steps| == 1 <==> HasKey(q) && Recalled(old(world).log, q.key.value, old(world).clock).Some?
      ensures |steps| == 1 ==> reply == Ok(Recalled(old(world).log, q.key.value, old(world).clock).value)
      ensures |steps| == 2 <==> reply == NotFound
      ensures q.key == None || q.key == Some("") ==> |steps| > 1
    {
      hide Logged, ByRequest, Recalled, IsDeleted, Stored, Written;
      ghost var before := ByRequest(trace, r);
      var cached := LookUp(r, q);
      steps := [Arrive(r, q)];
      if cached.Some? { return Ok(cached.value), steps; }
      var found := GetOr404(r, q);
      steps := steps + [Select(r)];
      assert before + [Arrive(r, q)] + [Select(r)] == before + steps;
      if found.None? { return NotFound, steps; }
      var result := ApplyUpdate(r, q, found.value, at);
      assert before + steps + [Commit(r, at), Refresh(r), Finish(r)] == before + (steps + [Commit(r, at), Refresh(r), Finish(r)]);
      steps := steps + [Commit(r, at), Refresh(r), Finish(r)];
      return Ok(result), steps;
    }

    ghost method Begin(r: RequestId, q: Request)
      requires Logged() && !HasKey(q) && !Known(world, r)
      modifies this`world, this`trace
      ensures Logged() && trace == old(trace) + [Arrive(r, q)]
      ensures ByRequest(trace, r) == ByRequest(old(trace), r) + [Arrive(r, q)]
      ensures world.clock == old(world).clock && world.cache == old(world).cache && world.table == old(world).table
      ensures r in world.flights && world.flights[r].request == q && world.flights[r].stage == Started
    {
      hide Sound, IsRun, After;
      Log(Arrive(r, q));
    }

    /** GET: the row as it is at the SELECT, or 404 when it is missing or deleted. */
    method GetSubscriber(r: RequestId, id: SubscriberId) returns (reply: Reply)
      requires Valid() && !Known(world, r)
      modifies this
      ensures Valid() && old(trace) <= trace && r in world.replies && world.replies[r] == reply
      ensures ByRequest(trace, r) == ByRequest(old(trace), r) + [Arrive(r, Fetch(id)), Select(r)]
      ensures if id in table && table[id].deletedAt == None
              then reply == Ok(Response(id, table[id].name, table[id].endpoint, table[id].active, table[id].createdAt))
              else reply == NotFound
    {
      hide Sound, IsRun, After;
      ghost var before := ByRequest(trace, r);
      Begin(r, Fetch(id));
      Await(r);
      reply := NotFound;
      if id in table && table[id].deletedAt.None? { reply := Ok(ResponseOf(id, table[id])); }
      Log(Select(r));
      assert before + [Arrive(r, Fetch(id))] + [Select(r)] == before + [Arrive(r, Fetch(id)), Select(r)];
    }

    /** The UPDATE of a DELETE. */
    method CommitRemove(r: RequestId, q: Request, read: Row, at: int)
      requires Valid() && At(r, q, HasRead(read)) && q.Remove?
      modifies this
      ensures Valid() && trace == old(trace) + [Commit(r, at)] && r in world.replies && world.replies[r] == NoContent
      ensures ByRequest(trace, r) == ByRequest(old(trace), r) + [Commit(r, at)]
      ensures q.id in old(table) && table == old(table)[q.id := Removed(old(table)[q.id], read, at)]
      ensures table[q.id].deletedAt == Some(at) && table[q.id].updatedAt == at
      ensures table[q.id].active == (old(table)[q.id].active && !read.active)
      ensures table[q.id].name == old(table)[q.id].name && table[q.id].endpoint == old(table)[q.id].endpoint
      ensures forall id :: id in table && id != q.id ==> id in old(table) && table[id] == old(table)[id]
    {
      RowIsThere(r, q, HasRead(read));
      hide Sound, IsRun, After;
      var now := table[q.id];
      if read.active { now := now.(active := false); }
      table := table[q.id := now.(deletedAt := Some(at), updatedAt := at)];
      Log(Commit(r, at));
    }

    /** DELETE: 404, or the row marked deleted. */
    method DeleteSubscriber(r: RequestId, id: SubscriberId, at: int) returns (reply: Reply)
      requires Valid() && !Known(world, r)
      modifies this
      ensures Valid() && old(trace) <= trace && r in world.replies && world.replies[r] == reply
      ensures reply == NotFound || (reply == NoContent && IsDeleted(table, id))
      ensures ByRequest(trace, r) == ByRequest(old(trace), r) +
        if reply == NotFound then [Arrive(r, Remove(id)), Select(r)] else [Arrive(r, Remove(id)), Select(r), Commit(r, at)]
    {
      hide Logged, ByRequest, Removed;
      var q := Remove(id);
      ghost var before := ByRequest(trace, r);
      Begin(r, q);
      var found := GetOr404(r, q);
      assert before + [Arrive(r, q)] + [Select(r)] == before + [Arrive(r, q), Select(r)];
      if found.None? { return NotFound; }
      Await(r);
      CommitRemove(r, q, found.value, at);
      assert before + [Arrive(r, q)] + [Select(r)] + [Commit(r, at)] == before + [Arrive(r, q), Select(r), Commit(r, at)];
      return NoContent;
    }

    method CreateSubscriber(id: SubscriberId, name: string, endpoint: string, at: int) returns (response: Response)
      requires Valid() && id !in table
      modifies this
      ensures Valid() && trace == old(trace) + [Create(id, name, endpoint, at)]
      ensures id in table && table[id] == Row(name, endpoint, true, at, at, None) && table - {id} == old(table)
      ensures response == Response(id, name, endpoint, true, at)
    {
      hide Sound, IsRun, After;
      var row := Row(name, endpoint, true, at, at, None);
      table := table[id := row];
      Log(Create(id, name, endpoint, at));
      response := ResponseOf(id, row);
    }
  }
}
