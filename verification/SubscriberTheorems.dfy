/** What the subscriber endpoints promise in every interleaving of requests. */
module SubscriberTheorems {
  import opened Types
  import opened PatchCache
  import opened Subscribers

  // ----- The invariant

  /** Every stored answer younger than the TTL was stored after the request looked its key up. */
  ghost predicate MissedOk(s: Api, f: Flight) {
    && f.seen <= |s.log|
    && (HasKey(f.request) ==>
          forall i :: 0 <= i < f.seen && s.log[i].key == f.request.key.value ==> s.clock - s.log[i].entry.at >= TTL)
  }

  ghost predicate FlightOk(s: Api, r: RequestId)
    requires r in s.flights
  {
    var f := s.flights[r];
    && r !in s.replies && r !in s.dropped
    && MissedOk(s, f)
    && (!f.stage.Started? ==> f.request.id in s.table && !f.request.Fetch?)
    && (f.stage.Committed? || f.stage.Refreshed? ==> f.request.Update?)
    && (r in s.applied <==> f.stage.Committed? || f.stage.Refreshed?)
  }

  ghost predicate Flights(s: Api) { forall r :: r in s.flights ==> FlightOk(s, r) }

  /** Requests end once. */
  ghost predicate Ended(s: Api) {
    && s.replies.Keys !! s.dropped
    && (forall r :: r in s.applied ==> Known(s, r))
    && (forall i :: 0 <= i < |s.marks| ==> s.marks[i].author in s.replies)
  }

  /** Of two answers stored under one key, the later is at least the TTL younger, or its request had looked the key up
      before the earlier was stored. */
  ghost predicate Apart(log: seq<Write>, marks: seq<Mark>)
    requires |log| == |marks|
  {
    forall i, j :: 0 <= i < j < |log| && log[i].key == log[j].key ==>
      marks[j].seen <= i || log[j].entry.at - log[i].entry.at >= TTL
  }

  ghost predicate Logged(s: Api) {
    && |s.marks| == |s.log| && Apart(s.log, s.marks)
    && (forall i :: 0 <= i < |s.log| ==> s.log[i].entry.at <= s.clock)
    && (forall i, j :: 0 <= i <= j < |s.log| ==> s.log[i].entry.at <= s.log[j].entry.at)
  }

  ghost predicate Sound(s: Api) {
    Agrees(s.cache, s.log, s.clock) && Flights(s) && Ended(s) && Logged(s)
  }

  // ----- Preservation

  /** A look-up that misses has no young answer before it. */
  lemma MissIsOld(s: Api, key: string, i: nat)
    requires Sound(s) && Recalled(s.log, key, s.clock).None? && i < |s.log| && s.log[i].key == key
    ensures s.clock - s.log[i].entry.at >= TTL
  {
    LatestIsLast(s.log, i);
    var j :| i <= j < |s.log| && IsLatest(s.log, key, j);
    assert s.log[i].entry.at <= s.log[j].entry.at;
  }

  lemma ArriveSound(s: Api, r: RequestId, q: Request)
    requires Sound(s) && CanStep(s, Arrive(r, q))
    ensures Sound(AfterArrive(s, r, q))
  {
    var s' := AfterArrive(s, r, q);
    if HasKey(q) { AnswersAgree(s.cache, s.log, q.key.value, s.clock); }
    forall x | x in s'.flights ensures FlightOk(s', x) {
      if x in s.flights { assert FlightOk(s, x); }
      if x == r && HasKey(q) {
        forall i | 0 <= i < |s.log| && s.log[i].key == q.key.value ensures s.clock - s.log[i].entry.at >= TTL {
          MissIsOld(s, q.key.value, i);
        }
      }
    }
  }

  lemma FinishLogged(s: Api, r: RequestId)
    requires Logged(s) && CanStep(s, Finish(r)) && MissedOk(s, s.flights[r])
    ensures Logged(AfterFinish(s, r))
  {
    var s', f := AfterFinish(s, r), s.flights[r];
    if HasKey(f.request) {
      forall i | 0 <= i < |s.log| && s.log[i].key == f.request.key.value
        ensures f.seen <= i || s.clock - s.log[i].entry.at >= TTL
      {
      }
    }
  }

  lemma FinishSound(s: Api, r: RequestId)
    requires Sound(s) && CanStep(s, Finish(r))
    ensures Sound(AfterFinish(s, r))
  {
    var s', f := AfterFinish(s, r), s.flights[r];
    assert FlightOk(s, r);
    if HasKey(f.request) { StoreAgrees(s.cache, s.log, f.request.key.value, f.stage.result, s.clock); }
    FinishLogged(s, r);
    assert !HasKey(f.request) ==> s'.log == s.log && s'.marks == s.marks;
    hide Agrees, Apart;
    forall x | x in s'.flights ensures FlightOk(s', x) {
      assert FlightOk(s, x);
      assert forall i :: 0 <= i < s.flights[x].seen ==> s'.log[i] == s.log[i];
    }
  }

  lemma QuietFlights(s: Api, e: Event)
    requires Flights(s) && Ended(s) && CanStep(s, e) && !e.Arrive? && !e.Finish?
    ensures Flights(Step(s, e))
  {
    var s' := Step(s, e);
    forall x | x in s'.flights ensures FlightOk(s', x) { assert FlightOk(s, x); }
  }

  lemma QuietEnded(s: Api, e: Event)
    requires Flights(s) && Ended(s) && CanStep(s, e) && !e.Arrive? && !e.Finish?
    ensures Ended(Step(s, e))
  {
    hide MissedOk;
    assert e.Select? || e.Commit? || e.Refresh? || e.Drop? ==> FlightOk(s, e.r);
  }

  lemma QuietLogged(s: Api, e: Event)
    requires Agrees(s.cache, s.log, s.clock) && Logged(s) && CanStep(s, e) && !e.Arrive? && !e.Finish?
    ensures var s' := Step(s, e); Agrees(s'.cache, s'.log, s'.clock) && Logged(s')
  {
    hide Apart;
    if e.Wait? { AgreesLater(s.cache, s.log, s.clock, e.d); }
    hide Agrees;
  }

  lemma QuietSound(s: Api, e: Event)
    requires Sound(s) && CanStep(s, e) && !e.Arrive? && !e.Finish?
    ensures Sound(Step(s, e))
  {
    hide Agrees, Flights, Ended, Logged, CanStep, Step;
    QuietFlights(s, e);
    QuietEnded(s, e);
    QuietLogged(s, e);
  }

  lemma SoundStep(s: Api, e: Event)
    requires Sound(s) && CanStep(s, e)
    ensures Sound(Step(s, e))
  {
    hide Sound;
    match e
    case Arrive(r, q) => ArriveSound(s, r, q);
    case Finish(r) => FinishSound(s, r);
    case _ => QuietSound(s, e);
  }

  lemma {:induction false} SoundRun(s: Api, es: seq<Event>)
    requires Sound(s) && IsRun(s, es)
    ensures Sound(After(s, es))
    decreases |es|
  {
    hide Sound, CanStep, Step;
    if es != [] {
      SoundStep(s, es[0]);
      SoundRun(Step(s, es[0]), es[1..]);
    }
  }

  lemma FreshIsSound(start: real)
    ensures Sound(Fresh(start))
  {
  }

  // ----- One key

  /** Every interleaving: two answers stored under one key are at least the TTL apart, unless the requests overlapped,
      the later one having looked the key up before the earlier one stored its answer. */
  lemma KeysAreAppliedOncePerWindow(start: real, es: seq<Event>, i: nat, j: nat)
    requires IsRun(Fresh(start), es)
    requires i < j < |After(Fresh(start), es).log| && After(Fresh(start), es).log[i].key == After(Fresh(start), es).log[j].key
    ensures var s := After(Fresh(start), es);
      |s.marks| == |s.log| && (s.marks[j].seen <= i || s.log[j].entry.at - s.log[i].entry.at >= TTL)
  {
    FreshIsSound(start);
    SoundRun(Fresh(start), es);
  }

  /** What has ended stays as it ended. */
  lemma EndedStep(s: Api, e: Event, r: RequestId)
    requires Sound(s) && CanStep(s, e) && Known(s, r) && r !in s.flights
    ensures var s' := Step(s, e);
      && Known(s', r) && r !in s'.flights && (r in s'.applied <==> r in s.applied)
      && (r in s'.replies <==> r in s.replies) && (r in s.replies ==> s'.replies[r] == s.replies[r])
  {
    hide Agrees, Logged, FlightOk;
  }

  lemma {:induction false} EndedRun(s: Api, es: seq<Event>, r: RequestId)
    requires Sound(s) && IsRun(s, es) && Known(s, r) && r !in s.flights
    ensures var t := After(s, es);
      && Known(t, r) && r !in t.flights && (r in t.applied <==> r in s.applied)
      && (r in t.replies <==> r in s.replies) && (r in s.replies ==> t.replies[r] == s.replies[r])
    decreases |es|
  {
    hide Sound, CanStep, Step;
    if es != [] {
      EndedStep(s, es[0], r);
      SoundStep(s, es[0]);
      EndedRun(Step(s, es[0]), es[1..], r);
    }
  }

  ghost predicate HasWrite(log: seq<Write>, key: string) { exists i :: 0 <= i < |log| && log[i].key == key }

  /** A PATCH on its way, or at its end: answered, it was applied exactly if its row was found, and with a key its answer
      has been stored. */
  ghost predicate Patching(s: Api, r: RequestId, q: Request) {
    && q.Update? && Known(s, r)
    && (r in s.flights ==> s.flights[r].request == q)
    && (r in s.replies ==>
          && (r in s.applied <==> s.replies[r] != NotFound)
          && (r in s.applied && HasKey(q) ==> HasWrite(s.log, q.key.value)))
  }

  lemma PatchingStep(s: Api, e: Event, r: RequestId, q: Request)
    requires Sound(s) && CanStep(s, e) && Patching(s, r, q)
    ensures Patching(Step(s, e), r, q)
  {
    hide Agrees, Logged, MissedOk;
    var s' := Step(s, e);
    if r in s.flights { assert FlightOk(s, r); }
    if HasKey(q) && HasWrite(s.log, q.key.value) {
      var i :| 0 <= i < |s.log| && s.log[i].key == q.key.value;
      assert s'.log[i] == s.log[i];
    }
    if e == Finish(r) && HasKey(q) { assert s'.log[|s.log|].key == q.key.value; }
  }

  lemma {:induction false} PatchingRun(s: Api, es: seq<Event>, r: RequestId, q: Request)
    requires Sound(s) && IsRun(s, es) && Patching(s, r, q)
    ensures Patching(After(s, es), r, q)
    decreases |es|
  {
    hide Sound, CanStep, Step, Patching;
    if es != [] {
      PatchingStep(s, es[0], r, q);
      SoundStep(s, es[0]);
      PatchingRun(Step(s, es[0]), es[1..], r, q);
    }
  }

  /** A PATCH that arrives: with a live answer it is answered with that and never applied, otherwise it is on its way. */
  lemma Arrival(s: Api, r: RequestId, q: Request)
    requires Sound(s) && CanStep(s, Arrive(r, q)) && HasKey(q)
    ensures var s', recalled := Step(s, Arrive(r, q)), Recalled(s.log, q.key.value, s.clock);
      && Sound(s') && s'.table == s.table && s'.log == s.log && r !in s'.applied
      && (recalled.Some? ==> r in s'.replies && r !in s'.flights && s'.replies[r] == Ok(recalled.value))
      && (recalled.None? ==> r in s'.flights && Patching(s', r, q))
  {
    SoundStep(s, Arrive(r, q));
    AnswersAgree(s.cache, s.log, q.key.value, s.clock);
  }

  /** When a keyed PATCH is applied, in every interleaving: once it is answered, it has been applied if and only if no
      answer younger than the TTL was stored under its key when it looked the key up and its row was found. With such
      an answer it has got that answer instead. */
  lemma KeyedPatchIsAppliedIff(start: real, es: seq<Event>, r: RequestId, q: Request, fs: seq<Event>)
    requires IsRun(Fresh(start), es) && HasKey(q) && CanStep(After(Fresh(start), es), Arrive(r, q))
    requires IsRun(Step(After(Fresh(start), es), Arrive(r, q)), fs)
    requires r in After(Step(After(Fresh(start), es), Arrive(r, q)), fs).replies
    ensures var s := After(Fresh(start), es);
      var t, recalled := After(Step(s, Arrive(r, q)), fs), Recalled(s.log, q.key.value, s.clock);
      && (r in t.applied <==> recalled.None? && t.replies[r] != NotFound)
      && (recalled.Some? ==> t.replies[r] == Ok(recalled.value))
  {
    hide Sound, CanStep, Step, Patching;
    FreshIsSound(start);
    SoundRun(Fresh(start), es);
    var s := After(Fresh(start), es);
    Arrival(s, r, q);
    Followed(s, r, q, fs);
  }

  lemma Followed(s: Api, r: RequestId, q: Request, fs: seq<Event>)
    requires Sound(s) && CanStep(s, Arrive(r, q)) && HasKey(q) && IsRun(Step(s, Arrive(r, q)), fs)
    ensures var t, recalled := After(Step(s, Arrive(r, q)), fs), Recalled(s.log, q.key.value, s.clock);
      && (r in t.replies ==> (r in t.applied <==> recalled.None? && t.replies[r] != NotFound))
      && (recalled.Some? ==> r in t.replies && r !in t.applied && t.replies[r] == Ok(recalled.value))
      && (recalled.None? ==> Patching(t, r, q))
  {
    hide Sound, CanStep, Step;
    Arrival(s, r, q);
    if Recalled(s.log, q.key.value, s.clock).Some? {
      EndedRun(Step(s, Arrive(r, q)), fs, r);
    } else {
      PatchingRun(Step(s, Arrive(r, q)), fs, r, q);
    }
  }

  /** A repeat within the TTL: once an answer is stored under a key, every PATCH with that key that arrives less than the
      TTL later is answered, with the latest answer stored under it, and is never applied, whatever came between and
      whatever comes after. */
  lemma RepeatedPatchIsAnsweredOnce(start: real, es: seq<Event>, i: nat, r: RequestId, q: Request, fs: seq<Event>)
    requires IsRun(Fresh(start), es) && HasKey(q) && CanStep(After(Fresh(start), es), Arrive(r, q))
    requires var s := After(Fresh(start), es);
      i < |s.log| && s.log[i].key == q.key.value && s.clock - s.log[i].entry.at < TTL
    requires IsRun(Step(After(Fresh(start), es), Arrive(r, q)), fs)
    ensures var s := After(Fresh(start), es);
      var t := After(Step(s, Arrive(r, q)), fs);
      && Step(s, Arrive(r, q)).table == s.table
      && r in t.replies && r !in t.applied
      && Latest(s.log, q.key.value).Some? && t.replies[r] == Ok(Latest(s.log, q.key.value).value.result)
      && ((forall j :: i < j < |s.log| ==> s.log[j].key != q.key.value) ==> t.replies[r] == Ok(s.log[i].entry.result))
  {
    FreshIsSound(start);
    SoundRun(Fresh(start), es);
    var s := After(Fresh(start), es);
    LatestIsLast(s.log, i);
    var j :| i <= j < |s.log| && IsLatest(s.log, q.key.value, j);
    assert s.log[i].entry.at <= s.log[j].entry.at;
    hide CanStep, Step, Sound, IsRun, After;
    Arrival(s, r, q);
    Followed(s, r, q, fs);
  }

  // ----- Two requests with one key

  predicate UsesKey(e: Event, key: string) { e.Arrive? && HasKey(e.request) && e.request.key.value == key }

  ghost predicate NoneUses(es: seq<Event>, key: string) { forall i :: 0 <= i < |es| ==> !UsesKey(es[i], key) }

  /** Only `rs` have used the key. */
  ghost predicate OnlyThese(s: Api, key: string, rs: set<RequestId>) {
    && |s.marks| == |s.log|
    && (forall r :: r in s.flights && HasKey(s.flights[r].request) && s.flights[r].request.key.value == key ==> r in rs)
    && (forall i :: 0 <= i < |s.log| && s.log[i].key == key ==> s.marks[i].author in rs)
  }

  lemma OnlyTheseStep(s: Api, e: Event, key: string, rs: set<RequestId>)
    requires CanStep(s, e) && OnlyThese(s, key, rs) && (UsesKey(e, key) ==> e.r in rs)
    ensures OnlyThese(Step(s, e), key, rs)
  {
  }

  lemma {:induction false} OnlyTheseRun(s: Api, es: seq<Event>, key: string, rs: set<RequestId>)
    requires IsRun(s, es) && OnlyThese(s, key, rs) && NoneUses(es, key)
    ensures OnlyThese(After(s, es), key, rs)
    decreases |es|
  {
    hide CanStep, Step, OnlyThese;
    if es != [] {
      OnlyTheseStep(s, es[0], key, rs);
      OnlyTheseRun(Step(s, es[0]), es[1..], key, rs);
    }
  }

  /** While the one request that used the key is unanswered, nothing is stored under it. */
  lemma NothingStored(s: Api, key: string, r: RequestId)
    requires Sound(s) && OnlyThese(s, key, {r}) && r !in s.replies
    ensures Latest(s.log, key) == None
  {
    forall i | 0 <= i < |s.log| ensures s.log[i].key != key { assert s.marks[i].author in s.replies; }
    NoneWritten(s.log, key);
  }

  lemma StoredIsLatest(log: seq<Write>, key: string)
    requires HasWrite(log, key)
    ensures Latest(log, key).Some?
  {
    var i :| 0 <= i < |log| && log[i].key == key;
    LatestIsLast(log, i);
  }

  /** The state at the second request's look-up, when nobody but the first has used the key. */
  lemma SecondLooksUp(s: Api, r: RequestId, q: Request, fs: seq<Event>)
    requires Sound(s) && HasKey(q) && OnlyThese(s, q.key.value, {}) && CanStep(s, Arrive(r, q))
    requires IsRun(Step(s, Arrive(r, q)), fs) && NoneUses(fs, q.key.value)
    ensures var t := After(Step(s, Arrive(r, q)), fs);
      && Sound(t) && OnlyThese(t, q.key.value, {r}) && Patching(t, r, q)
      && Recalled(s.log, q.key.value, s.clock).None?
      && (r !in t.replies ==> Latest(t.log, q.key.value).None?)
      && (r in t.replies && r in t.applied ==> Latest(t.log, q.key.value).Some?)
  {
    assert Latest(s.log, q.key.value) == None by {
      hide Sound;
      NoneWritten(s.log, q.key.value);
    }
    OnlyTheseStep(s, Arrive(r, q), q.key.value, {r});
    hide Sound, CanStep, Step, OnlyThese;
    Arrival(s, r, q);
    var s' := Step(s, Arrive(r, q));
    SoundRun(s', fs);
    PatchingRun(s', fs, r, q);
    OnlyTheseRun(s', fs, q.key.value, {r});
    var t := After(s', fs);
    if r !in t.replies { NothingStored(t, q.key.value, r); }
    if r in t.replies && r in t.applied { StoredIsLatest(t.log, q.key.value); }
  }

  /** Exactly when two PATCHes with one key are both applied, nobody else using the key and both rows being found: when
      the second looked the key up before the first had stored its answer, or had to look it up the TTL later. */
  lemma BothAppliedIff(start: real, es: seq<Event>, r: RequestId, q: Request, fs: seq<Event>,
                       r': RequestId, q': Request, gs: seq<Event>)
    requires HasKey(q) && HasKey(q') && q.key == q'.key
    requires IsRun(Fresh(start), es) && NoneUses(es, q.key.value) && CanStep(After(Fresh(start), es), Arrive(r, q))
    requires IsRun(Step(After(Fresh(start), es), Arrive(r, q)), fs) && NoneUses(fs, q.key.value)
    requires CanStep(After(Step(After(Fresh(start), es), Arrive(r, q)), fs), Arrive(r', q'))
    requires IsRun(Step(After(Step(After(Fresh(start), es), Arrive(r, q)), fs), Arrive(r', q')), gs)
    requires var t := After(Step(After(Step(After(Fresh(start), es), Arrive(r, q)), fs), Arrive(r', q')), gs);
      r in t.replies && t.replies[r] != NotFound && r' in t.replies && t.replies[r'] != NotFound
    ensures var m := After(Step(After(Fresh(start), es), Arrive(r, q)), fs);
      var t, latest := After(Step(m, Arrive(r', q')), gs), Latest(m.log, q.key.value);
      && (r in m.flights <==> latest.None?)
      && (r in t.applied && r' in t.applied <==> r in m.flights || m.clock - latest.value.at >= TTL)
  {
    var key := q.key.value;
    FreshIsSound(start);
    SoundRun(Fresh(start), es);
    var s := After(Fresh(start), es);
    OnlyTheseRun(Fresh(start), es, key, {});
    hide Sound, CanStep, Step, OnlyThese, IsRun, After, NoneUses;
    SecondLooksUp(s, r, q, fs);
    var m := After(Step(s, Arrive(r, q)), fs);
    Arrival(m, r', q');
    Followed(m, r', q', gs);
    FirstEnds(m, r, q, r', q', gs);
  }

  /** What the first has come to when the second looks up, it has come to at the end, if it had ended by then. */
  lemma FirstEnds(m: Api, r: RequestId, q: Request, r': RequestId, q': Request, gs: seq<Event>)
    requires Sound(m) && Patching(m, r, q) && CanStep(m, Arrive(r', q')) && IsRun(Step(m, Arrive(r', q')), gs)
    requires var t := After(Step(m, Arrive(r', q')), gs); r in t.replies && t.replies[r] != NotFound
    ensures r in After(Step(m, Arrive(r', q')), gs).applied
    ensures r in m.flights <==> r !in m.replies
    ensures r !in m.flights ==> r in m.applied
  {
    PatchingStep(m, Arrive(r', q'), r, q);
    SoundStep(m, Arrive(r', q'));
    PatchingRun(Step(m, Arrive(r', q')), gs, r, q);
    assert r in m.flights ==> FlightOk(m, r);
    if r !in m.flights {
      EndedStep(m, Arrive(r', q'), r);
      EndedRun(Step(m, Arrive(r', q')), gs, r);
    }
  }

  // ----- What a PATCH changes

  /** The row as the request wants it. */
  function Wanted(row: Row, change: Change, at: int): Row {
    Row(row.name, if change.endpoint.Some? then change.endpoint.value else row.endpoint,
        if change.active.Some? then change.active.value else row.active, row.createdAt, at, row.deletedAt)
  }

  /** A commit of the row of `id` by another request, while r has read the row and has not read it back. */
  predicate Disturbs(s: Api, e: Event, r: RequestId, id: SubscriberId) {
    && e.Commit? && e.r != r && e.r in s.flights && s.flights[e.r].request.id == id
    && r in s.flights && (s.flights[r].stage.HasRead? || s.flights[r].stage.Committed?)
  }

  ghost predicate IsUndisturbed(s: Api, es: seq<Event>, r: RequestId, id: SubscriberId)
    decreases |es|
  {
    es == [] || (CanStep(s, es[0]) && !Disturbs(s, es[0], r, id) && IsUndisturbed(Step(s, es[0]), es[1..], r, id))
  }

  /** Request r has read `row`; whatever it goes on to write, read back and answer is the row it read with its change. */
  ghost predicate Undisturbed(s: Api, r: RequestId, q: Request, row: Row) {
    && q.Update? && Known(s, r) && q.id in s.table
    && (r in s.flights ==>
          && r !in s.replies && s.flights[r].request == q
          && match s.flights[r].stage
             case Started => false
             case HasRead(read) => read == row && s.table[q.id] == row
             case Committed => r in s.applied && exists at :: s.table[q.id] == Wanted(row, q.change, at)
             case Refreshed(result) => r in s.applied && result == Given(q, row))
    && (r in s.replies ==> r in s.applied && s.replies[r] == Ok(Given(q, row)))
  }

  /** The answer: id, name and creation time as read, endpoint and activity as requested, or as read if not. */
  function Given(q: Request, row: Row): Response
    requires q.Update?
  {
    Response(q.id, row.name, if q.change.endpoint.Some? then q.change.endpoint.value else row.endpoint,
             if q.change.active.Some? then q.change.active.value else row.active, row.createdAt)
  }

  lemma UndisturbedByOther(s: Api, e: Event, r: RequestId, q: Request, row: Row)
    requires CanStep(s, e) && Undisturbed(s, r, q, row) && !Disturbs(s, e, r, q.id)
    requires e.Wait? || e.Create? || e.r != r
    ensures Undisturbed(Step(s, e), r, q, row)
  {
  }

  lemma UndisturbedOwn(s: Api, e: Event, r: RequestId, q: Request, row: Row)
    requires CanStep(s, e) && Undisturbed(s, r, q, row)
    requires !e.Wait? && !e.Create? && e.r == r
    ensures Undisturbed(Step(s, e), r, q, row)
  {
    if e.Commit? {
      assert Step(s, e).table[q.id] == Wanted(row, q.change, e.at);
    }
  }

  lemma {:induction false} UndisturbedRun(s: Api, es: seq<Event>, r: RequestId, q: Request, row: Row)
    requires IsUndisturbed(s, es, r, q.id) && Undisturbed(s, r, q, row)
    ensures IsRun(s, es) && Undisturbed(After(s, es), r, q, row)
    decreases |es|
  {
    hide CanStep, Step, Undisturbed, Disturbs;
    if es != [] {
      var e := es[0];
      if e.Wait? || e.Create? || e.r != r {
        UndisturbedByOther(s, e, r, q, row);
      } else {
        UndisturbedOwn(s, e, r, q, row);
      }
      UndisturbedRun(Step(s, e), es[1..], r, q, row);
    }
  }

  /** What an applied PATCH does. From the SELECT that finds its row on, if no other request commits that row before the
      PATCH has read it back, then right after its commit the row is the one it read with the requested endpoint and
      activity and the new update time, and whenever it is answered it has been applied, and the answer has these and
      the name, id and creation time that were read. */
  lemma PatchDoesWhatItSays(start: real, es: seq<Event>, r: RequestId, fs: seq<Event>, at: int)
    requires IsRun(Fresh(start), es) && CanStep(After(Fresh(start), es), Select(r))
    requires var s := After(Fresh(start), es);
      var q := s.flights[r].request;
      q.Update? && q.id in s.table && s.table[q.id].deletedAt == None
    requires IsUndisturbed(Step(After(Fresh(start), es), Select(r)), fs, r, After(Fresh(start), es).flights[r].request.id)
    ensures var s := After(Fresh(start), es);
      var q := s.flights[r].request;
      var row, s' := s.table[q.id], Step(s, Select(r));
      && IsRun(s', fs)
      && var t := After(s', fs);
         && (CanStep(t, Commit(r, at)) ==>
               && q.id in Step(t, Commit(r, at)).table
               && var row' := Step(t, Commit(r, at)).table[q.id];
                  && row'.endpoint == (if q.change.endpoint.Some? then q.change.endpoint.value else row.endpoint)
                  && row'.active == (if q.change.active.Some? then q.change.active.value else row.active)
                  && row'.name == row.name && row'.createdAt == row.createdAt && row'.deletedAt == None && row'.updatedAt == at)
         && (r in t.replies ==>
               && r in t.applied && t.replies[r].Ok?
               && var response := t.replies[r].response;
                  && response.id == q.id && response.name == row.name && response.createdAt == row.createdAt
                  && response.endpoint == (if q.change.endpoint.Some? then q.change.endpoint.value else row.endpoint)
                  && response.active == (if q.change.active.Some? then q.change.active.value else row.active))
  {
    FreshIsSound(start);
    SoundRun(Fresh(start), es);
    var s := After(Fresh(start), es);
    var q := s.flights[r].request;
    var row := s.table[q.id];
    assert FlightOk(s, r);
    assert Undisturbed(Step(s, Select(r)), r, q, row);
    UndisturbedRun(Step(s, Select(r)), fs, r, q, row);
  }

  /** Without a key, or with an empty one, a PATCH is never answered from the cache: answered, it has been applied if and
      only if its row was found. */
  lemma UnkeyedPatchIsAppliedIff(start: real, es: seq<Event>, r: RequestId, q: Request, fs: seq<Event>)
    requires IsRun(Fresh(start), es) && q.Update? && (q.key == None || q.key == Some(""))
    requires CanStep(After(Fresh(start), es), Arrive(r, q)) && IsRun(Step(After(Fresh(start), es), Arrive(r, q)), fs)
    requires r in After(Step(After(Fresh(start), es), Arrive(r, q)), fs).replies
    ensures var t := After(Step(After(Fresh(start), es), Arrive(r, q)), fs);
      r in t.applied <==> t.replies[r] != NotFound
  {
    FreshIsSound(start);
    SoundRun(Fresh(start), es);
    var s := After(Fresh(start), es);
    SoundStep(s, Arrive(r, q));
    assert Patching(Step(s, Arrive(r, q)), r, q);
    PatchingRun(Step(s, Arrive(r, q)), fs, r, q);
  }

  // ----- Deletion

  /** A request that has read the row of `id` and has yet to write it. */
  ghost predicate Holds(s: Api, r: RequestId, id: SubscriberId) {
    r in s.flights && s.flights[r].stage.HasRead? && s.flights[r].request.id == id
  }

  lemma DeletedStep(s: Api, e: Event, id: SubscriberId)
    requires CanStep(s, e) && IsDeleted(s.table, id)
    ensures IsDeleted(Step(s, e).table, id)
    ensures (forall r :: !Holds(s, r, id)) ==> Step(s, e).table[id] == s.table[id] && forall r :: !Holds(Step(s, e), r, id)
  {
    var s' := Step(s, e);
    if forall r :: !Holds(s, r, id) {
      forall r ensures !Holds(s', r, id) { assert !Holds(s, r, id); }
      assert e.Commit? ==> !Holds(s, e.r, id);
    }
  }

  /** A deletion is never undone, in any interleaving. */
  lemma {:induction false} DeletedForEver(s: Api, es: seq<Event>, id: SubscriberId)
    requires IsRun(s, es) && IsDeleted(s.table, id)
    ensures IsDeleted(After(s, es).table, id)
    ensures (forall r :: !Holds(s, r, id)) ==> After(s, es).table[id] == s.table[id]
    decreases |es|
  {
    hide CanStep, Step, IsDeleted, Holds;
    if es != [] {
      DeletedStep(s, es[0], id);
      DeletedForEver(Step(s, es[0]), es[1..], id);
    } else {
      assert id in s.table by { DeletedIsThere(s.table, id); }
    }
  }

  lemma DeletedIsThere(table: Table, id: SubscriberId)
    requires IsDeleted(table, id)
    ensures id in table
  {
  }

  /** Exactly when a deleted row can still be written: when a request had read it before the deletion committed and has
      not written it yet. */
  lemma DeletedRowIsWrittenIff(start: real, es: seq<Event>, id: SubscriberId)
    requires IsRun(Fresh(start), es) && IsDeleted(After(Fresh(start), es).table, id)
    ensures var s := After(Fresh(start), es);
      (exists fs :: IsRun(s, fs) && id in After(s, fs).table && After(s, fs).table[id] != s.table[id]) <==>
        exists r :: Holds(s, r, id)
  {
    FreshIsSound(start);
    SoundRun(Fresh(start), es);
    var s := After(Fresh(start), es);
    if r :| Holds(s, r, id) {
      var e := Commit(r, s.table[id].updatedAt + 1);
      assert FlightOk(s, r);
      RunOfOne(s, e);
      assert After(s, [e]).table[id].updatedAt != s.table[id].updatedAt;
    }
    if fs :| IsRun(s, fs) && id in After(s, fs).table && After(s, fs).table[id] != s.table[id] {
      DeletedForEver(s, fs, id);
    }
  }

  /** A request for a deleted subscriber that got no cached answer gets no other. */
  ghost predicate Missing(s: Api, r: RequestId, id: SubscriberId) {
    && IsDeleted(s.table, id) && Known(s, r)
    && (r in s.flights ==> s.flights[r].request.id == id && s.flights[r].stage.Started?)
    && (r in s.replies ==> s.replies[r] == NotFound)
  }

  lemma MissingStep(s: Api, e: Event, r: RequestId, id: SubscriberId)
    requires CanStep(s, e) && Missing(s, r, id) && !(r in s.flights && r in s.replies)
    ensures Missing(Step(s, e), r, id)
  {
  }

  lemma {:induction false} MissingRun(s: Api, es: seq<Event>, r: RequestId, id: SubscriberId)
    requires Sound(s) && IsRun(s, es) && Missing(s, r, id)
    ensures Missing(After(s, es), r, id)
    decreases |es|
  {
    assert r in s.flights ==> FlightOk(s, r);
    hide Sound, CanStep, Step, Missing;
    if es != [] {
      MissingStep(s, es[0], r, id);
      SoundStep(s, es[0]);
      MissingRun(Step(s, es[0]), es[1..], r, id);
    }
  }

  /** A request that arrives after the deletion is answered with 404, except a PATCH whose key has a live answer: the
      answer to an earlier PATCH outlives the deletion for up to the TTL. */
  lemma DeletedAnswers(start: real, es: seq<Event>, r: RequestId, q: Request, fs: seq<Event>)
    requires IsRun(Fresh(start), es) && IsDeleted(After(Fresh(start), es).table, q.id)
    requires CanStep(After(Fresh(start), es), Arrive(r, q)) && IsRun(Step(After(Fresh(start), es), Arrive(r, q)), fs)
    requires r in After(Step(After(Fresh(start), es), Arrive(r, q)), fs).replies
    ensures var s := After(Fresh(start), es);
      After(Step(s, Arrive(r, q)), fs).replies[r] != NotFound <==>
        HasKey(q) && Recalled(s.log, q.key.value, s.clock).Some?
  {
    FreshIsSound(start);
    SoundRun(Fresh(start), es);
    var s := After(Fresh(start), es);
    if HasKey(q) && Recalled(s.log, q.key.value, s.clock).Some? {
      Followed(s, r, q, fs);
    } else {
      if HasKey(q) { AnswersAgree(s.cache, s.log, q.key.value, s.clock); }
      SoundStep(s, Arrive(r, q));
      assert Missing(Step(s, Arrive(r, q)), r, q.id);
      MissingRun(Step(s, Arrive(r, q)), fs, r, q.id);
    }
  }

  // ----- Memory

  /** At the end of any run, right after an answer is stored, the cache holds exactly the keys last written less than the
      TTL ago. */
  lemma WriteLeavesOnlyYoung(start: real, es: seq<Event>, r: RequestId)
    requires IsRun(Fresh(start), es) && CanStep(After(Fresh(start), es), Finish(r))
    requires HasKey(After(Fresh(start), es).flights[r].request)
    ensures var s := Step(After(Fresh(start), es), Finish(r));
      forall k :: k in s.cache <==> Latest(s.log, k).Some? && Live(Latest(s.log, k).value, s.clock)
  {
    FreshIsSound(start);
    SoundRun(Fresh(start), es);
    var s := After(Fresh(start), es);
    var f := s.flights[r];
    StoreLeavesOnlyYoung(s.cache, s.log, f.request.key.value, f.stage.result, s.clock);
  }

  // ----- What the rest of the system sees of the table

  function Registry(table: Table): Types.Subscribers {
    map id | id in table :: Subscriber(table[id].active, table[id].deletedAt.Some?)
  }

  /** The writes an event makes to the registry. A DELETE that read the row inactive leaves is_active as it finds it. */
  function RegistryWrites(s: Api, e: Event): seq<SubscriberEvent>
    requires CanStep(s, e)
  {
    match e
    case Create(id, _, _, _) => [Register(id)]
    case Commit(r, _) => CommitWrites(s.table[s.flights[r].request.id], s.flights[r])
    case _ => []
  }

  function CommitWrites(now: Row, f: Flight): seq<SubscriberEvent>
    requires f.stage.HasRead?
  {
    match f.request
    case Fetch(_) => []
    case Update(id, change, _) => [Patch(id, Some(NewActive(now, f.stage.row, change)))]
    case Remove(id) => [Delete(id)] + if now.active && !f.stage.row.active then [Patch(id, Some(true))] else []
  }

  /** The registry goes from `subs` to `subs'` by these writes. */
  ghost predicate Writes(subs: Types.Subscribers, es: seq<SubscriberEvent>, subs': Types.Subscribers)
    decreases |es|
  {
    if es == [] then subs == subs' else CanChange(subs, es[0]) && Writes(Types.Change(subs, es[0]), es[1..], subs')
  }

  lemma StepWrites(s: Api, e: Event)
    requires CanStep(s, e)
    ensures Writes(Registry(s.table), RegistryWrites(s, e), Registry(Step(s, e).table))
  {
    var subs, subs', ws := Registry(s.table), Registry(Step(s, e).table), RegistryWrites(s, e);
    if ws == [] {
      assert subs == subs';
    } else if |ws| == 1 {
      assert Types.Change(subs, ws[0]) == subs';
      assert ws[1..] == [];
    } else {
      assert ws[1..] == [ws[1]] && ws[1..][1..] == [];
      assert Types.Change(Types.Change(subs, ws[0]), ws[1]) == subs';
    }
  }

  lemma {:induction false} WritesCompose(a: Types.Subscribers, es: seq<SubscriberEvent>, b: Types.Subscribers, fs: seq<SubscriberEvent>,
                                         d: Types.Subscribers)
    requires Writes(a, es, b) && Writes(b, fs, d)
    ensures Writes(a, es + fs, d)
    decreases |es|
  {
    if es == [] {
      assert es + fs == fs;
    } else {
      assert (es + fs)[1..] == es[1..] + fs;
      WritesCompose(Types.Change(a, es[0]), es[1..], b, fs, d);
    }
  }

  function RunWrites(s: Api, es: seq<Event>): seq<SubscriberEvent>
    requires IsRun(s, es)
    decreases |es|
  {
    if es == [] then [] else RegistryWrites(s, es[0]) + RunWrites(Step(s, es[0]), es[1..])
  }

  /** What any interleaving of requests does to the registry is a sequence of the writes that the two pipeline machines
      allow, the late PATCH of a deleted subscriber among them. */
  lemma {:induction false} RequestsAreRegistryWrites(s: Api, es: seq<Event>)
    requires IsRun(s, es)
    ensures Writes(Registry(s.table), RunWrites(s, es), Registry(After(s, es).table))
    decreases |es|
  {
    hide CanStep, Step, RegistryWrites, Registry;
    if es != [] {
      var t := Step(s, es[0]);
      StepWrites(s, es[0]);
      RequestsAreRegistryWrites(t, es[1..]);
      WritesCompose(Registry(s.table), RegistryWrites(s, es[0]), Registry(t.table), RunWrites(t, es[1..]), Registry(After(t, es[1..]).table));
    }
  }
}
