/** The subscriber endpoints of one API process as a state machine: the subscribers table, the PATCH cache and the
    requests in progress. A request gives way to others at each of its awaits: between the key look-up and the SELECT,
    between the SELECT and the commit, before the refresh, and before the answer is stored. */
module Subscribers {
  import opened Types
  import opened PatchCache

  type RequestId = nat

  datatype Row = Row(name: string, endpoint: string, active: bool, createdAt: int, updatedAt: int, deletedAt: Option<int>)
  type Table = map<SubscriberId, Row>

  function ResponseOf(id: SubscriberId, row: Row): Response {
    Response(id, row.name, row.endpoint, row.active, row.createdAt)
  }

  /** `_get_or_404`: deleted subscribers count as missing. */
  predicate Found(table: Table, id: SubscriberId) { id in table && table[id].deletedAt.None? }

  predicate IsDeleted(table: Table, id: SubscriberId) { id in table && table[id].deletedAt.Some? }

  datatype Change = Change(endpoint: Option<string>, active: Option<bool>)

  datatype Request =
    | Fetch(id: SubscriberId)
    | Update(id: SubscriberId, change: Change, key: Option<string>)
    | Remove(id: SubscriberId)

  datatype Reply = Ok(response: Response) | NoContent | NotFound

  /** How far a request is: past its look-up, holding the row it read, committed, or refreshed. */
  datatype Stage = Started | HasRead(row: Row) | Committed | Refreshed(result: Response)

  /** `seen` is how many answers had been stored when the request looked its key up. It is history. */
  datatype Flight = Flight(request: Request, seen: nat, stage: Stage)

  /** The request that stored an answer, and how many had been stored at its look-up. */
  datatype Mark = Mark(author: RequestId, seen: nat)

  /** The monotonic clock, the cache, the table, the requests in progress and the answers given. The rest is history:
      the answers stored and by whom, the PATCHes whose commit was made, and the requests that were abandoned. */
  datatype Api = Api(
    clock: real,
    cache: Cache,
    table: Table,
    flights: map<RequestId, Flight>,
    replies: map<RequestId, Reply>,
    log: seq<Write>,
    marks: seq<Mark>,
    applied: set<RequestId>,
    dropped: set<RequestId>)

  function Fresh(start: real): Api { Api(start, map[], map[], map[], map[], [], [], {}, {}) }

  /** `Drop` is an exception, a lost database connection or a client that goes away: the request gives no answer. */
  datatype Event =
    | Wait(d: Delay)
    | Create(id: SubscriberId, name: string, endpoint: string, at: int)
    | Arrive(r: RequestId, request: Request)
    | Select(r: RequestId)
    | Commit(r: RequestId, at: int)
    | Refresh(r: RequestId)
    | Finish(r: RequestId)
    | Drop(r: RequestId)

  /** An empty header counts as none. */
  predicate HasKey(q: Request) { q.Update? && q.key.Some? && q.key.value != "" }

  predicate Known(s: Api, r: RequestId) { r in s.flights || r in s.replies || r in s.dropped }

  predicate CanStep(s: Api, e: Event) {
    match e
    case Wait(_) => true
    case Create(id, _, _, _) => id !in s.table
    case Arrive(r, _) => !Known(s, r)
    case Select(r) => r in s.flights && s.flights[r].stage.Started?
    case Commit(r, _) => r in s.flights && s.flights[r].stage.HasRead? && s.flights[r].request.id in s.table
    case Refresh(r) => r in s.flights && s.flights[r].stage.Committed? && s.flights[r].request.id in s.table
    case Finish(r) => r in s.flights && s.flights[r].stage.Refreshed?
    case Drop(r) => r in s.flights
  }

  // ----- What each event does

  /** The cached answer of a PATCH with a key; it is given at once. */
  function Hit(s: Api, q: Request): Option<Response> {
    if HasKey(q) then Cached(s.cache, q.key.value, s.clock) else None
  }

  function AfterArrive(s: Api, r: RequestId, q: Request): Api {
    s.(flights := FlightsArrived(s, r, q), replies := RepliesArrived(s, r, q))
  }

  function FlightsArrived(s: Api, r: RequestId, q: Request): map<RequestId, Flight> {
    if Hit(s, q).Some? then s.flights else s.flights[r := Flight(q, |s.log|, Started)]
  }

  function RepliesArrived(s: Api, r: RequestId, q: Request): map<RequestId, Reply> {
    if Hit(s, q).Some? then s.replies[r := Ok(Hit(s, q).value)] else s.replies
  }

  /** A row that is found and is to be written is kept as read; everything else is answered here. */
  predicate GoesOn(s: Api, q: Request) { Found(s.table, q.id) && !q.Fetch? }

  function SelectReply(s: Api, q: Request): Reply {
    if Found(s.table, q.id) then Ok(ResponseOf(q.id, s.table[q.id])) else NotFound
  }

  function AfterSelect(s: Api, r: RequestId): Api
    requires r in s.flights
  {
    s.(flights := FlightsSelected(s, r), replies := RepliesSelected(s, r))
  }

  function FlightsSelected(s: Api, r: RequestId): map<RequestId, Flight>
    requires r in s.flights
  {
    var f := s.flights[r];
    if GoesOn(s, f.request) then s.flights[r := f.(stage := HasRead(s.table[f.request.id]))] else s.flights - {r}
  }

  function RepliesSelected(s: Api, r: RequestId): map<RequestId, Reply>
    requires r in s.flights
  {
    var f := s.flights[r];
    if GoesOn(s, f.request) then s.replies else s.replies[r := SelectReply(s, f.request)]
  }

  /** The ORM writes a column only if the request gave it a value other than the one read; the row may have changed,
      or been deleted, since. */
  function Written(now: Row, read: Row, change: Change, at: int): Row {
    now.(endpoint := NewEndpoint(now, read, change), active := NewActive(now, read, change), updatedAt := at)
  }

  function NewEndpoint(now: Row, read: Row, change: Change): string {
    if change.endpoint.Some? && change.endpoint.value != read.endpoint then change.endpoint.value else now.endpoint
  }

  predicate NewActive(now: Row, read: Row, change: Change) {
    if change.active.Some? && change.active.value != read.active then change.active.value else now.active
  }

  function Removed(now: Row, read: Row, at: int): Row {
    now.(deletedAt := Some(at), active := now.active && !read.active, updatedAt := at)
  }

  function RowCommitted(now: Row, read: Row, q: Request, at: int): Row {
    match q
    case Fetch(_) => now
    case Update(_, change, _) => Written(now, read, change, at)
    case Remove(_) => Removed(now, read, at)
  }

  function AfterCommit(s: Api, r: RequestId, at: int): Api
    requires r in s.flights && s.flights[r].stage.HasRead? && s.flights[r].request.id in s.table
  {
    var f := s.flights[r];
    s.(table := s.table[f.request.id := RowCommitted(s.table[f.request.id], f.stage.row, f.request, at)],
       flights := FlightsCommitted(s, r), replies := RepliesCommitted(s, r), applied := AppliedCommitted(s, r))
  }

  /** A DELETE is answered by its commit; a PATCH goes on. */
  function FlightsCommitted(s: Api, r: RequestId): map<RequestId, Flight>
    requires r in s.flights
  {
    if s.flights[r].request.Remove? then s.flights - {r} else s.flights[r := s.flights[r].(stage := Committed)]
  }

  function RepliesCommitted(s: Api, r: RequestId): map<RequestId, Reply>
    requires r in s.flights
  {
    if s.flights[r].request.Remove? then s.replies[r := NoContent] else s.replies
  }

  function AppliedCommitted(s: Api, r: RequestId): set<RequestId>
    requires r in s.flights
  {
    if s.flights[r].request.Update? then s.applied + {r} else s.applied
  }

  function AfterRefresh(s: Api, r: RequestId): Api
    requires r in s.flights && s.flights[r].request.id in s.table
  {
    var f := s.flights[r];
    s.(flights := s.flights[r := f.(stage := Refreshed(ResponseOf(f.request.id, s.table[f.request.id])))])
  }

  /** With a key the answer is stored, and then given. */
  function AfterFinish(s: Api, r: RequestId): Api
    requires r in s.flights && s.flights[r].stage.Refreshed?
  {
    var f := s.flights[r];
    s.(flights := s.flights - {r}, replies := s.replies[r := Ok(f.stage.result)],
       cache := CacheFinished(s, f), log := s.log + WritesOf(s, f), marks := s.marks + MarksOf(r, f))
  }

  function CacheFinished(s: Api, f: Flight): Cache
    requires f.stage.Refreshed?
  {
    if HasKey(f.request) then Stored(s.cache, f.request.key.value, f.stage.result, s.clock) else s.cache
  }

  function WritesOf(s: Api, f: Flight): seq<Write>
    requires f.stage.Refreshed?
  {
    if HasKey(f.request) then [Write(f.request.key.value, Entry(s.clock, f.stage.result))] else []
  }

  function MarksOf(r: RequestId, f: Flight): seq<Mark> {
    if HasKey(f.request) then [Mark(r, f.seen)] else []
  }

  function Step(s: Api, e: Event): Api
    requires CanStep(s, e)
  {
    match e
    case Wait(d) => s.(clock := s.clock + d)
    case Create(id, name, endpoint, at) => s.(table := s.table[id := Row(name, endpoint, true, at, at, None)])
    case Arrive(r, q) => AfterArrive(s, r, q)
    case Select(r) => AfterSelect(s, r)
    case Commit(r, at) => AfterCommit(s, r, at)
    case Refresh(r) => AfterRefresh(s, r)
    case Finish(r) => AfterFinish(s, r)
    case Drop(r) => s.(flights := s.flights - {r}, dropped := s.dropped + {r})
  }

  // ----- Runs

  predicate IsRun(s: Api, es: seq<Event>)
    decreases |es|
  {
    es == [] || (CanStep(s, es[0]) && IsRun(Step(s, es[0]), es[1..]))
  }

  function After(s: Api, es: seq<Event>): Api
    requires IsRun(s, es)
    decreases |es|
  {
    if es == [] then s else After(Step(s, es[0]), es[1..])
  }

  lemma {:induction false} RunsCompose(s: Api, es: seq<Event>, fs: seq<Event>)
    requires IsRun(s, es) && IsRun(After(s, es), fs)
    ensures IsRun(s, es + fs) && After(s, es + fs) == After(After(s, es), fs)
    decreases |es|
  {
    hide CanStep, Step;
    if es == [] {
      assert es + fs == fs;
    } else {
      assert (es + fs)[1..] == es[1..] + fs;
      RunsCompose(Step(s, es[0]), es[1..], fs);
    }
  }

  lemma RunOfOne(s: Api, e: Event)
    requires CanStep(s, e)
    ensures IsRun(s, [e]) && After(s, [e]) == Step(s, e)
  {
    hide CanStep, Step;
    assert [e][1..] == [];
  }
}
