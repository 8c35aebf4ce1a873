/** The delivery_attempts table and everything that writes to it, as one state machine.
    An event is one committed statement, one clock reading or one HTTP exchange; events of
    different processes interleave freely. A process can crash between any two events. */
module Delivery {
  import opened Types

  type WorkerId = nat

  /** delivery_max_attempts, the LIMIT of the claim, the stale threshold and the backoff bounds.
      Times are in milliseconds. */
  datatype Config = Config(maxAttempts: nat, batchSize: nat, staleAfter: nat, baseDelay: nat, maxDelay: nat)

  /** The defaults of app/config.py, and the LIMIT written in the claim. */
  const DEFAULTS := Config(10, 50, 600_000, 1_000, 300_000)

  datatype Status = Pending | InFlight | Delivered | Failed | Dead

  datatype Note =
    | StaleInFlight
    | SubscriberGone
    | Text(text: string)
    | HttpStatus(code: Option<int>)

  datatype Row = Row(status: Status, attemptCount: nat, nextAttemptAt: int, updatedAt: int,
                     lastHttpStatus: Option<int>, lastError: Option<Note>)

  predicate Waiting(status: Status) { status.Pending? || status.Failed? }
  predicate Open(status: Status) { Waiting(status) || status.InFlight? }

  /** The result of one POST: a response, or a timeout or transport error. */
  datatype Outcome = Response(code: int, body: string) | NoResponse(error: string)

  predicate Success(o: Outcome) { o.Response? && 200 <= o.code < 300 }

  function CodeOf(o: Outcome): Option<int> {
    if o.Response? then Some(o.code) else None
  }

  /** `result.error or f"HTTP {code}"`: the first 500 characters of the body, or the exception text;
      an empty text falls back to the code. */
  function NoteOf(o: Outcome): Option<Note> {
    if Success(o) then None else
    var text := if o.Response? then (if |o.body| > 500 then o.body[..500] else o.body) else o.error;
    Some(if text == "" then HttpStatus(CodeOf(o)) else Text(text))
  }

  function Power2(n: nat): nat { if n == 0 then 1 else 2 * Power2(n - 1) }

  function BackoffCap(c: Config, attempt: nat): nat {
    var raw := c.baseDelay * Power2(attempt);
    if raw < c.maxDelay then raw else c.maxDelay
  }

  // ----- What each writer does to a row

  function NewRow(now: int): Row { Row(Pending, 0, now, now, None, None) }

  function Created(ids: set<RowId>, now: int): map<RowId, Row> { map id | id in ids :: NewRow(now) }

  function ClaimedRow(row: Row, now: int): Row { row.(status := InFlight, updatedAt := now) }

  function ResetRow(row: Row, now: int): Row {
    row.(status := Failed, lastError := Some(StaleInFlight), nextAttemptAt := now, updatedAt := now)
  }

  function GoneRow(row: Row, now: int): Row {
    row.(status := Dead, lastError := Some(SubscriberGone), updatedAt := now)
  }

  function RetriedRow(row: Row, now: int): Row {
    row.(status := Pending, nextAttemptAt := now, lastError := None, updatedAt := now)
  }

  /** The unconditional outcome write: every column comes from the worker's own snapshot. */
  function SettledRow(c: Config, count: nat, o: Outcome, at: int, delay: nat): Row {
    var n := count + 1;
    if Success(o) then Row(Delivered, n, at, at, CodeOf(o), None)
    else if n >= c.maxAttempts then Row(Dead, n, at, at, CodeOf(o), NoteOf(o))
    else Row(Failed, n, at + delay, at, CodeOf(o), NoteOf(o))
  }

  // ----- Worker-local state

  /** A claimed attempt as the worker remembers it; `load` is where its payload stands in State.loads. */
  datatype Snapshot = Snapshot(id: RowId, count: nat, load: nat)

  /** How far `_deliver_attempt` has got with the first attempt of the batch. */
  datatype Phase = Ready | Gone | Cleared | Posting | Posted(outcome: Outcome, at: int)

  datatype Worker =
    | Idle
    | Polling(now: int)
    | Locked(now: int, todo: seq<Snapshot>)
    | Loaded(now: int, todo: seq<Snapshot>)
    | Delivering(now: int, startedAt: int, todo: seq<Snapshot>, phase: Phase)

  function Todo(wk: Worker): seq<Snapshot> {
    if wk.Idle? || wk.Polling? then [] else wk.todo
  }

  predicate InTodo(todo: seq<Snapshot>, id: RowId) {
    exists i :: 0 <= i < |todo| && todo[i].id == id
  }

  // ----- Global state

  /** History variables of a row. No guard reads them. */
  datatype History = History(posts: nat, claims: nat, resets: nat, retries: nat, recorded: nat,
                             goneDeaths: nat, got2xx: bool, seenGone: bool)

  const NO_HISTORY := History(0, 0, 0, 0, 0, 0, false, false)

  datatype Load = Load(id: RowId, body: Payload)

  /** `retrying` holds the rows that retry requests have read but not yet written.
      The last six fields are history: payloads loaded by claims in order, the loads POSTed, rows
      settled, POSTs begun per subscriber, and the clock reading of the newest stale reset. */
  datatype State = State(
    clock: int,
    subs: Subscribers,
    rows: map<RowId, Row>,
    locks: map<RowId, WorkerId>,
    workers: map<WorkerId, Worker>,
    retrying: multiset<RowId>,
    hist: map<RowId, History>,
    loads: seq<Load>,
    sent: seq<nat>,
    settled: nat,
    postsTo: map<SubscriberId, nat>,
    lastReset: int)

  function WorkerOf(s: State, w: WorkerId): Worker {
    if w in s.workers then s.workers[w] else Idle
  }

  function HistoryOf(s: State, id: RowId): History {
    if id in s.hist then s.hist[id] else NO_HISTORY
  }

  function PostsTo(s: State, sub: SubscriberId): nat {
    if sub in s.postsTo then s.postsTo[sub] else 0
  }

  /** An empty database, no process running. */
  predicate Initial(s: State) {
    && s.subs == map[] && s.rows == map[] && s.locks == map[] && s.workers == map[] && s.retrying == multiset{}
    && s.hist == map[] && s.loads == [] && s.sent == [] && s.settled == 0 && s.postsTo == map[]
    && s.lastReset == s.clock
  }

  /** One step of a worker process; `Crash` also covers an exception that abandons the batch. */
  datatype Action =
    | StartBatch
    | SelectRows(picked: seq<RowId>)
    | LoadBodies(bodies: seq<Payload>)
    | CommitClaim
    | Refetch
    | MarkGone
    | SendPost
    | Receive(outcome: Outcome)
    | Record(delay: nat)
    | Crash

  /** `Retry` is a retry request whose read and write happen together; the other two take them apart. */
  datatype Event =
    | Work(w: WorkerId, action: Action)
    | Tick(d: nat)
    | ChangeSubscriber(change: SubscriberEvent)
    | Create(ids: set<RowId>)
    | ResetStale(readAt: int)
    | Retry(id: RowId)
    | RetryRead(id: RowId)
    | RetryWrite(id: RowId)

  /** The rows SELECT ... FOR UPDATE SKIP LOCKED may return for a worker that read the clock at `now`. */
  predicate Eligible(s: State, now: int, id: RowId) {
    && id in s.rows
    && Waiting(s.rows[id].status)
    && s.rows[id].nextAttemptAt <= now
    && id !in s.locks
  }

  predicate Busy(s: State, w: WorkerId) {
    WorkerOf(s, w).Delivering? && |WorkerOf(s, w).todo| > 0
  }

  function Head(s: State, w: WorkerId): Snapshot
    requires Busy(s, w)
  {
    WorkerOf(s, w).todo[0]
  }

  predicate CanSelect(c: Config, s: State, now: int, picked: seq<RowId>) {
    && |picked| <= c.batchSize
    && NoDuplicates(picked)
    && forall i :: 0 <= i < |picked| ==> Eligible(s, now, picked[i])
  }

  predicate CanAct(c: Config, s: State, w: WorkerId, a: Action) {
    var wk := WorkerOf(s, w);
    match a
    case StartBatch => wk.Idle?
    case SelectRows(picked) => wk.Polling? && CanSelect(c, s, wk.now, picked)
    case LoadBodies(bodies) => wk.Locked? && |bodies| == |wk.todo|
    case CommitClaim => wk.Loaded?
    case Refetch => Busy(s, w) && wk.phase.Ready?
    case MarkGone => Busy(s, w) && wk.phase.Gone? && Unlocked(s, Head(s, w).id)
    case SendPost => Busy(s, w) && wk.phase.Cleared?
    case Receive(_) => Busy(s, w) && wk.phase.Posting?
    case Record(delay) =>
      && Busy(s, w) && wk.phase.Posted? && Unlocked(s, Head(s, w).id)
      && delay <= BackoffCap(c, Head(s, w).count + 1)
    case Crash => w in s.workers
  }

  predicate CanHappen(s: State, e: Event)
    requires !e.Work?
  {
    match e
    case Tick(_) => true
    case ChangeSubscriber(change) => CanChange(s.subs, change)
    case Create(ids) => ids !! s.rows.Keys
    case ResetStale(readAt) => readAt <= s.clock
    case Retry(id) => Unlocked(s, id) && Retryable(s.rows[id].status)
    case RetryRead(id) => id in s.rows && Retryable(s.rows[id].status)
    case RetryWrite(id) => id in s.retrying && Unlocked(s, id)
  }

  predicate Enabled(c: Config, s: State, e: Event) {
    if e.Work? then CanAct(c, s, e.w, e.action) else CanHappen(s, e)
  }

  predicate Retryable(status: Status) { status.Dead? || status.Failed? }

  /** A write waits for the row lock. Rows are never removed. */
  predicate Unlocked(s: State, id: RowId) { id in s.rows && id !in s.locks }

  /** Leaves the batch, or moves on to its next attempt. */
  function Next(wk: Worker, clock: int): Worker
    requires wk.Delivering? && |wk.todo| > 0
  {
    if |wk.todo| == 1 then Idle else Delivering(wk.now, clock, wk.todo[1..], Ready)
  }

  function Release(locks: map<RowId, WorkerId>, w: WorkerId): map<RowId, WorkerId> {
    map id | id in locks && locks[id] != w :: locks[id]
  }

  predicate IsStale(c: Config, row: Row, readAt: int) {
    row.status.InFlight? && row.updatedAt < readAt - c.staleAfter
  }

  function StaleReset(c: Config, rows: map<RowId, Row>, readAt: int, now: int): map<RowId, Row> {
    map id | id in rows :: if IsStale(c, rows[id], readAt) then ResetRow(rows[id], now) else rows[id]
  }

  function ClaimRows(rows: map<RowId, Row>, todo: seq<Snapshot>, now: int): map<RowId, Row> {
    map id | id in rows :: if InTodo(todo, id) then ClaimedRow(rows[id], now) else rows[id]
  }

  /** What every step keeps: rows stay, the clock does not go back, counters and flags only grow. */
  ghost predicate Grows(s: State, s': State) {
    && s.rows.Keys <= s'.rows.Keys
    && s.clock <= s'.clock
    && forall id :: id in s.rows ==> HistoryGrows(HistoryOf(s, id), HistoryOf(s', id))
  }

  ghost predicate HistoryGrows(h: History, h': History) {
    h.posts <= h'.posts && h.retries <= h'.retries && (h.got2xx ==> h'.got2xx) && (h.seenGone ==> h'.seenGone)
  }

  /** What a step of one worker leaves alone. */
  ghost predicate Local(s: State, s': State, w: WorkerId) {
    && w in s'.workers
    && s'.workers == s.workers[w := s'.workers[w]]
    && s'.rows.Keys == s.rows.Keys
    && s'.clock == s.clock && s'.subs == s.subs && s'.retrying == s.retrying && s'.lastReset == s.lastReset
    && Grows(s, s')
  }

  function SetWorker(s: State, w: WorkerId, wk: Worker): (s': State)
    ensures Local(s, s', w)
  {
    s.(workers := s.workers[w := wk])
  }

  function Snapshots(rows: map<RowId, Row>, picked: seq<RowId>): (todo: seq<Snapshot>)
    requires forall i :: 0 <= i < |picked| ==> picked[i] in rows
    ensures |todo| == |picked|
    ensures forall i :: 0 <= i < |picked| ==> todo[i] == Snapshot(picked[i], rows[picked[i]].attemptCount, 0)
  {
    if picked == [] then [] else
    [Snapshot(picked[0], rows[picked[0]].attemptCount, 0)] + Snapshots(rows, picked[1..])
  }

  function Numbered(todo: seq<Snapshot>, base: nat): (r: seq<Snapshot>)
    ensures |r| == |todo|
    ensures forall i :: 0 <= i < |todo| ==> r[i] == todo[i].(load := base + i)
  {
    if todo == [] then [] else [todo[0].(load := base)] + Numbered(todo[1..], base + 1)
  }

  function LoadsFor(todo: seq<Snapshot>, bodies: seq<Payload>): (r: seq<Load>)
    requires |todo| == |bodies|
    ensures |r| == |todo|
    ensures forall i :: 0 <= i < |todo| ==> r[i] == Load(todo[i].id, bodies[i])
  {
    if todo == [] then [] else [Load(todo[0].id, bodies[0])] + LoadsFor(todo[1..], bodies[1..])
  }

  function Acquire(locks: map<RowId, WorkerId>, picked: seq<RowId>, w: WorkerId): map<RowId, WorkerId> {
    locks + map id | id in picked :: w
  }

  /** With nothing selected the batch is over. */
  function Selected(s: State, now: int, picked: seq<RowId>): Worker
    requires forall i :: 0 <= i < |picked| ==> picked[i] in s.rows
  {
    if picked == [] then Idle else Locked(now, Snapshots(s.rows, picked))
  }

  function AfterSelect(s: State, w: WorkerId, picked: seq<RowId>): (s': State)
    requires WorkerOf(s, w).Polling?
    requires forall i :: 0 <= i < |picked| ==> picked[i] in s.rows
    ensures Local(s, s', w)
  {
    SetWorker(s, w, Selected(s, WorkerOf(s, w).now, picked)).(locks := Acquire(s.locks, picked, w))
  }

  function AfterLoad(s: State, w: WorkerId, bodies: seq<Payload>): (s': State)
    requires WorkerOf(s, w).Locked? && |bodies| == |WorkerOf(s, w).todo|
    ensures Local(s, s', w)
  {
    var wk := WorkerOf(s, w);
    SetWorker(s, w, Loaded(wk.now, Numbered(wk.todo, |s.loads|))).(loads := s.loads + LoadsFor(wk.todo, bodies))
  }

  function AfterCommit(s: State, w: WorkerId): (s': State)
    requires WorkerOf(s, w).Loaded?
    ensures Local(s, s', w)
  {
    var wk := WorkerOf(s, w);
    SetWorker(s, w, Delivering(wk.now, s.clock, wk.todo, Ready)).(
      rows := ClaimRows(s.rows, wk.todo, wk.now),
      locks := Release(s.locks, w),
      hist := CountClaims(s, wk.todo))
  }

  function CountClaims(s: State, todo: seq<Snapshot>): map<RowId, History> {
    map id | id in s.hist.Keys + s.rows.Keys ::
      var h := HistoryOf(s, id);
      if InTodo(todo, id) then h.(claims := h.claims + 1) else h
  }

  function AfterRefetch(s: State, w: WorkerId): (s': State)
    requires Busy(s, w)
    ensures Local(s, s', w)
  {
    SetWorker(s, w, WorkerOf(s, w).(phase := Refetched(s.subs, Head(s, w).id))).(hist := NoteGone(s, Head(s, w).id))
  }

  function Refetched(subs: Subscribers, id: RowId): Phase { if Receives(subs, id.subscriber) then Cleared else Gone }

  function NoteGone(s: State, id: RowId): map<RowId, History> {
    if Receives(s.subs, id.subscriber) then s.hist else s.hist[id := HistoryOf(s, id).(seenGone := true)]
  }

  function AfterGone(s: State, w: WorkerId): (s': State)
    requires Busy(s, w) && Unlocked(s, Head(s, w).id)
    ensures Local(s, s', w)
  {
    var id := Head(s, w).id;
    var h := HistoryOf(s, id);
    SetWorker(s, w, Next(WorkerOf(s, w), s.clock)).(
      rows := s.rows[id := GoneRow(s.rows[id], s.clock)],
      hist := s.hist[id := h.(goneDeaths := h.goneDeaths + 1)],
      settled := s.settled + 1)
  }

  function AfterSend(s: State, w: WorkerId): (s': State)
    requires Busy(s, w)
    ensures Local(s, s', w)
  {
    var id := Head(s, w).id;
    var h := HistoryOf(s, id);
    SetWorker(s, w, WorkerOf(s, w).(phase := Posting)).(
      hist := s.hist[id := h.(posts := h.posts + 1)],
      sent := s.sent + [Head(s, w).load],
      postsTo := s.postsTo[id.subscriber := PostsTo(s, id.subscriber) + 1])
  }

  function AfterReceive(s: State, w: WorkerId, o: Outcome): (s': State)
    requires Busy(s, w)
    ensures Local(s, s', w)
  {
    var id := Head(s, w).id;
    var h := HistoryOf(s, id);
    SetWorker(s, w, WorkerOf(s, w).(phase := Posted(o, s.clock))).(
      hist := s.hist[id := h.(got2xx := h.got2xx || Success(o))])
  }

  function AfterRecord(c: Config, s: State, w: WorkerId, delay: nat): (s': State)
    requires Busy(s, w) && WorkerOf(s, w).phase.Posted? && Unlocked(s, Head(s, w).id)
    ensures Local(s, s', w)
  {
    var wk := WorkerOf(s, w);
    var id := Head(s, w).id;
    var h := HistoryOf(s, id);
    SetWorker(s, w, Next(wk, s.clock)).(
      rows := s.rows[id := SettledRow(c, Head(s, w).count, wk.phase.outcome, wk.phase.at, delay)],
      hist := s.hist[id := h.(recorded := h.recorded + 1)],
      settled := s.settled + 1)
  }

  function AfterReset(c: Config, s: State, readAt: int): State {
    s.(rows := StaleReset(c, s.rows, readAt, s.clock),
       hist := CountResets(c, s, readAt),
       lastReset := Later(readAt, s.lastReset))
  }

  function CountResets(c: Config, s: State, readAt: int): map<RowId, History> {
    map id | id in s.hist.Keys + s.rows.Keys ::
      var h := HistoryOf(s, id);
      if id in s.rows && IsStale(c, s.rows[id], readAt) then h.(resets := h.resets + 1) else h
  }

  function Later(x: int, y: int): int { if x > y then x else y }

  function AfterRetry(s: State, id: RowId): State
    requires id in s.rows
  {
    var h := HistoryOf(s, id);
    s.(rows := s.rows[id := RetriedRow(s.rows[id], s.clock)],
       hist := s.hist[id := h.(retries := h.retries + 1)])
  }

  function Act(c: Config, s: State, w: WorkerId, a: Action): (s': State)
    requires CanAct(c, s, w, a)
    ensures Local(s, s', w)
  {
    match a
    case StartBatch => SetWorker(s, w, Polling(s.clock))
    case SelectRows(picked) =>
      assert forall i :: 0 <= i < |picked| ==> Eligible(s, WorkerOf(s, w).now, picked[i]);
      AfterSelect(s, w, picked)
    case LoadBodies(bodies) => AfterLoad(s, w, bodies)
    case CommitClaim => AfterCommit(s, w)
    case Refetch => AfterRefetch(s, w)
    case MarkGone => AfterGone(s, w)
    case SendPost => AfterSend(s, w)
    case Receive(o) => AfterReceive(s, w, o)
    case Record(delay) => AfterRecord(c, s, w, delay)
    case Crash => SetWorker(s, w, Idle).(locks := Release(s.locks, w))
  }

  function Happen(c: Config, s: State, e: Event): State
    requires !e.Work? && CanHappen(s, e)
  {
    match e
    case Tick(d) => s.(clock := s.clock + d)
    case ChangeSubscriber(change) => s.(subs := Change(s.subs, change))
    case Create(ids) => s.(rows := s.rows + Created(ids, s.clock))
    case ResetStale(readAt) => AfterReset(c, s, readAt)
    case Retry(id) => AfterRetry(s, id)
    case RetryRead(id) => s.(retrying := s.retrying + multiset{id})
    case RetryWrite(id) => AfterRetry(s, id).(retrying := s.retrying - multiset{id})
  }

  function Apply(c: Config, s: State, e: Event): State
    requires Enabled(c, s, e)
  {
    if e.Work? then Act(c, s, e.w, e.action) else Happen(c, s, e)
  }

  // ----- When each step of a worker is possible, and what it does

  lemma StartBatchIs(c: Config, s: State, w: WorkerId)
    requires WorkerOf(s, w).Idle?
    ensures CanAct(c, s, w, StartBatch) && Act(c, s, w, StartBatch) == SetWorker(s, w, Polling(s.clock))
  {
  }

  lemma SelectRowsIs(c: Config, s: State, w: WorkerId, picked: seq<RowId>)
    requires WorkerOf(s, w).Polling? && CanSelect(c, s, WorkerOf(s, w).now, picked)
    ensures CanAct(c, s, w, SelectRows(picked))
    ensures forall i :: 0 <= i < |picked| ==> picked[i] in s.rows
    ensures Act(c, s, w, SelectRows(picked)) == AfterSelect(s, w, picked)
  {
    forall i | 0 <= i < |picked| ensures picked[i] in s.rows {
      assert Eligible(s, WorkerOf(s, w).now, picked[i]);
    }
  }

  lemma LoadBodiesIs(c: Config, s: State, w: WorkerId, bodies: seq<Payload>)
    requires WorkerOf(s, w).Locked? && |bodies| == |WorkerOf(s, w).todo|
    ensures CanAct(c, s, w, LoadBodies(bodies)) && Act(c, s, w, LoadBodies(bodies)) == AfterLoad(s, w, bodies)
  {
  }

  lemma CommitClaimIs(c: Config, s: State, w: WorkerId)
    requires WorkerOf(s, w).Loaded?
    ensures CanAct(c, s, w, CommitClaim) && Act(c, s, w, CommitClaim) == AfterCommit(s, w)
  {
  }

  lemma RefetchIs(c: Config, s: State, w: WorkerId)
    requires Busy(s, w) && WorkerOf(s, w).phase.Ready?
    ensures CanAct(c, s, w, Refetch) && Act(c, s, w, Refetch) == AfterRefetch(s, w)
  {
  }

  lemma MarkGoneIs(c: Config, s: State, w: WorkerId)
    requires Busy(s, w) && WorkerOf(s, w).phase.Gone? && Unlocked(s, Head(s, w).id)
    ensures CanAct(c, s, w, MarkGone) && Act(c, s, w, MarkGone) == AfterGone(s, w)
  {
  }

  lemma SendPostIs(c: Config, s: State, w: WorkerId)
    requires Busy(s, w) && WorkerOf(s, w).phase.Cleared?
    ensures CanAct(c, s, w, SendPost) && Act(c, s, w, SendPost) == AfterSend(s, w)
  {
  }

  lemma ReceiveIs(c: Config, s: State, w: WorkerId, o: Outcome)
    requires Busy(s, w) && WorkerOf(s, w).phase.Posting?
    ensures CanAct(c, s, w, Receive(o)) && Act(c, s, w, Receive(o)) == AfterReceive(s, w, o)
  {
  }

  lemma RecordIs(c: Config, s: State, w: WorkerId, delay: nat)
    requires Busy(s, w) && WorkerOf(s, w).phase.Posted? && Unlocked(s, Head(s, w).id)
    requires delay <= BackoffCap(c, Head(s, w).count + 1)
    ensures CanAct(c, s, w, Record(delay)) && Act(c, s, w, Record(delay)) == AfterRecord(c, s, w, delay)
  {
  }

  lemma CrashIs(c: Config, s: State, w: WorkerId)
    requires w in s.workers
    ensures CanAct(c, s, w, Crash) && Act(c, s, w, Crash) == SetWorker(s, w, Idle).(locks := Release(s.locks, w))
  {
  }

  // ----- Runs

  /** `es` can happen one after the other from `s`. */
  predicate IsRun(c: Config, s: State, es: seq<Event>)
    decreases |es|
  {
    es == [] || (Enabled(c, s, es[0]) && IsRun(c, Apply(c, s, es[0]), es[1..]))
  }

  function After(c: Config, s: State, es: seq<Event>): State
    requires IsRun(c, s, es)
    decreases |es|
  {
    if es == [] then s else After(c, Apply(c, s, es[0]), es[1..])
  }

  lemma {:induction false} RunsCompose(c: Config, s: State, es: seq<Event>, fs: seq<Event>)
    requires IsRun(c, s, es) && IsRun(c, After(c, s, es), fs)
    ensures IsRun(c, s, es + fs)
    ensures After(c, s, es + fs) == After(c, After(c, s, es), fs)
    decreases |es|
  {
    if es == [] {
      assert es + fs == fs;
    } else {
      assert (es + fs)[1..] == es[1..] + fs;
      RunsCompose(c, Apply(c, s, es[0]), es[1..], fs);
    }
  }

  lemma RunPrepends(c: Config, s: State, e: Event, es: seq<Event>)
    requires Enabled(c, s, e) && IsRun(c, Apply(c, s, e), es)
    ensures IsRun(c, s, [e] + es) && After(c, s, [e] + es) == After(c, Apply(c, s, e), es)
  {
    assert ([e] + es)[1..] == es;
  }

  lemma RunOfOne(c: Config, s: State, e: Event)
    requires Enabled(c, s, e)
    ensures IsRun(c, s, [e]) && After(c, s, [e]) == Apply(c, s, e)
  {
    assert [e][1..] == [];
  }
}
