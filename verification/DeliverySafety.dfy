/** What holds of the delivery machine in every interleaving: workers that are late, stale resets
    that hit live workers, crashes anywhere, and manual retries whose read and write are far apart. */
module DeliverySafety {
  import opened Types
  import opened Delivery

  // ----- The invariant, row by row and worker by worker

  /** The promises about one stored row. */
  ghost predicate RowOk(c: Config, clock: int, row: Row, h: History) {
    && row.attemptCount <= h.posts
    && row.attemptCount <= c.maxAttempts + h.retries
    && (Open(row.status) ==> row.attemptCount <= c.maxAttempts - 1 + h.retries)
    && (row.status.Delivered? ==> h.got2xx && row.lastHttpStatus.Some? && 200 <= row.lastHttpStatus.value < 300)
    && (row.status.Dead? ==> if row.lastError == Some(SubscriberGone) then h.seenGone else h.posts >= c.maxAttempts)
    && (Waiting(row.status) ==> row.nextAttemptAt <= clock + c.maxDelay)
  }

  /** A worker's snapshot may be old, but never ahead of the row's history. */
  ghost predicate SnapshotOk(c: Config, s: State, x: Snapshot) {
    && x.id in s.rows
    && x.count <= HistoryOf(s, x.id).posts
    && x.count <= c.maxAttempts - 1 + HistoryOf(s, x.id).retries
  }

  ghost predicate HoldsLock(s: State, w: WorkerId, now: int, x: Snapshot) {
    && x.id in s.locks && s.locks[x.id] == w
    && x.id in s.rows
    && Waiting(s.rows[x.id].status) && s.rows[x.id].nextAttemptAt <= now
    && s.rows[x.id].attemptCount == x.count
  }

  ghost predicate PhaseOk(s: State, head: Snapshot, phase: Phase) {
    var h := HistoryOf(s, head.id);
    match phase
    case Ready => true
    case Cleared => true
    case Gone => h.seenGone
    case Posting => head.count + 1 <= h.posts
    case Posted(o, at) => head.count + 1 <= h.posts && at <= s.clock && (Success(o) ==> h.got2xx)
  }

  ghost predicate DistinctIds(todo: seq<Snapshot>) {
    forall i, j :: 0 <= i < j < |todo| ==> todo[i].id != todo[j].id
  }

  ghost predicate WorkerOk(c: Config, s: State, w: WorkerId, wk: Worker) {
    && DistinctIds(Todo(wk))
    && (forall i :: 0 <= i < |Todo(wk)| ==> SnapshotOk(c, s, Todo(wk)[i]))
    && |Todo(wk)| <= c.batchSize
    && (!wk.Idle? ==> wk.now <= s.clock)
    && (wk.Locked? || wk.Loaded? ==> wk.todo != [] && forall i :: 0 <= i < |wk.todo| ==> HoldsLock(s, w, wk.now, wk.todo[i]))
    && (wk.Delivering? ==> wk.todo != [] && wk.startedAt <= s.clock && PhaseOk(s, wk.todo[0], wk.phase))
  }

  /** A row lock belongs to a worker that has selected the row and not yet committed its claim. */
  ghost predicate LockOk(s: State, id: RowId, w: WorkerId) {
    var wk := WorkerOf(s, w);
    (wk.Locked? || wk.Loaded?) && InTodo(wk.todo, id)
  }

  ghost predicate Rows(c: Config, s: State) {
    forall id :: id in s.rows ==> RowOk(c, s.clock, s.rows[id], HistoryOf(s, id))
  }

  ghost predicate Workers(c: Config, s: State) {
    forall w :: w in s.workers ==> WorkerOk(c, s, w, s.workers[w])
  }

  ghost predicate Locks(s: State) {
    forall id :: id in s.locks ==> LockOk(s, id, s.locks[id])
  }

  /** History and retries concern stored rows only. */
  ghost predicate Fresh(s: State) {
    && s.hist.Keys <= s.rows.Keys
    && (forall id :: id in s.retrying ==> id in s.rows)
    && s.lastReset <= s.clock
  }

  ghost predicate Safe(c: Config, s: State) {
    Rows(c, s) && Workers(c, s) && Locks(s) && Fresh(s)
  }

  // ----- Preservation

  lemma HappenGrows(c: Config, s: State, e: Event)
    requires !e.Work? && CanHappen(s, e)
    ensures Grows(s, Happen(c, s, e)) && Happen(c, s, e).workers == s.workers
  {
  }

  /** A row lock protects its row from every other worker: no column changes. */
  lemma LockProtects(c: Config, s: State, v: WorkerId, a: Action, w: WorkerId, now: int, x: Snapshot)
    requires CanAct(c, s, v, a) && v != w && ActorOk(c, s, v)
    requires HoldsLock(s, w, now, x)
    ensures HoldsLock(Act(c, s, v, a), w, now, x) && Act(c, s, v, a).rows[x.id] == s.rows[x.id]
  {
    match a
    case CommitClaim =>
      var todo := s.workers[v].todo;
      forall i | 0 <= i < |todo| ensures todo[i].id != x.id {
        assert HoldsLock(s, v, s.workers[v].now, todo[i]);
      }
    case SelectRows(picked) =>
      forall i | 0 <= i < |picked| ensures picked[i] != x.id {
        assert Eligible(s, WorkerOf(s, v).now, picked[i]);
      }
    case _ =>
  }

  /** ... and from the stale reset, the creation of rows and the retries. */
  lemma LockOutlasts(c: Config, s: State, e: Event, w: WorkerId, now: int, x: Snapshot)
    requires !e.Work? && CanHappen(s, e)
    requires HoldsLock(s, w, now, x)
    ensures HoldsLock(Happen(c, s, e), w, now, x) && Happen(c, s, e).rows[x.id] == s.rows[x.id]
  {
  }

  /** What a step may assume about the worker it moves. */
  ghost predicate ActorOk(c: Config, s: State, w: WorkerId) {
    w in s.workers ==> WorkerOk(c, s, w, s.workers[w])
  }

  function NowOf(wk: Worker): int { if wk.Idle? then 0 else wk.now }

  /** A worker that does not move, and keeps its locks, stays consistent. */
  lemma WorkerKept(c: Config, s: State, s': State, w: WorkerId, wk: Worker)
    requires WorkerOk(c, s, w, wk) && Grows(s, s')
    requires forall i :: 0 <= i < |Todo(wk)| && HoldsLock(s, w, NowOf(wk), Todo(wk)[i]) ==> HoldsLock(s', w, NowOf(wk), Todo(wk)[i])
    ensures WorkerOk(c, s', w, wk)
  {
    forall i | 0 <= i < |Todo(wk)|
      ensures SnapshotOk(c, s', Todo(wk)[i])
    {
      assert SnapshotOk(c, s, Todo(wk)[i]);
    }
    if wk.Delivering? {
      assert SnapshotOk(c, s, Todo(wk)[0]);
    }
  }

  lemma BystanderOk(c: Config, s: State, e: Event, w: WorkerId)
    requires Enabled(c, s, e) && !(e.Work? && e.w == w)
    requires e.Work? ==> ActorOk(c, s, e.w)
    requires w in s.workers && WorkerOk(c, s, w, s.workers[w])
    ensures WorkerOk(c, Apply(c, s, e), w, s.workers[w])
  {
    var s', wk := Apply(c, s, e), s.workers[w];
    if !e.Work? { HappenGrows(c, s, e); }
    forall i | 0 <= i < |Todo(wk)| && HoldsLock(s, w, NowOf(wk), Todo(wk)[i])
      ensures HoldsLock(s', w, NowOf(wk), Todo(wk)[i])
    {
      if e.Work? {
        LockProtects(c, s, e.w, e.action, w, NowOf(wk), Todo(wk)[i]);
      } else {
        LockOutlasts(c, s, e, w, NowOf(wk), Todo(wk)[i]);
      }
    }
    WorkerKept(c, s, s', w, wk);
  }

  lemma SelectingOk(c: Config, s: State, w: WorkerId, picked: seq<RowId>)
    requires CanAct(c, s, w, SelectRows(picked)) && ActorOk(c, s, w) && Rows(c, s)
    ensures ActorOk(c, Act(c, s, w, SelectRows(picked)), w)
  {
    var s' := Act(c, s, w, SelectRows(picked));
    var wk := s'.workers[w];
    forall i | 0 <= i < |Todo(wk)|
      ensures SnapshotOk(c, s', Todo(wk)[i]) && HoldsLock(s', w, wk.now, Todo(wk)[i])
    {
      assert Eligible(s, wk.now, picked[i]);
      assert RowOk(c, s.clock, s.rows[picked[i]], HistoryOf(s, picked[i]));
    }
  }

  lemma LoadingOk(c: Config, s: State, w: WorkerId, bodies: seq<Payload>)
    requires CanAct(c, s, w, LoadBodies(bodies)) && ActorOk(c, s, w)
    ensures ActorOk(c, Act(c, s, w, LoadBodies(bodies)), w)
  {
    var s' := Act(c, s, w, LoadBodies(bodies));
    var wk := s'.workers[w];
    forall i | 0 <= i < |wk.todo|
      ensures SnapshotOk(c, s', wk.todo[i]) && HoldsLock(s', w, wk.now, wk.todo[i])
    {
      assert SnapshotOk(c, s, s.workers[w].todo[i]) && HoldsLock(s, w, wk.now, s.workers[w].todo[i]);
    }
  }

  lemma CommittingOk(c: Config, s: State, w: WorkerId)
    requires CanAct(c, s, w, CommitClaim) && ActorOk(c, s, w)
    ensures ActorOk(c, Act(c, s, w, CommitClaim), w)
  {
    var s' := Act(c, s, w, CommitClaim);
    forall i | 0 <= i < |Todo(s'.workers[w])| ensures SnapshotOk(c, s', Todo(s'.workers[w])[i]) {
      assert SnapshotOk(c, s, Todo(s.workers[w])[i]);
    }
  }

  lemma PhaseMoved(c: Config, s: State, w: WorkerId, a: Action)
    requires CanAct(c, s, w, a) && ActorOk(c, s, w)
    requires a.Refetch? || a.SendPost? || a.Receive?
    ensures ActorOk(c, Act(c, s, w, a), w)
  {
    var s' := Act(c, s, w, a);
    forall i | 0 <= i < |Todo(s'.workers[w])| ensures SnapshotOk(c, s', Todo(s'.workers[w])[i]) {
      assert SnapshotOk(c, s, Todo(s.workers[w])[i]);
    }
  }

  lemma FinishingOk(c: Config, s: State, w: WorkerId, a: Action)
    requires CanAct(c, s, w, a) && ActorOk(c, s, w)
    requires a.StartBatch? || a.MarkGone? || a.Record? || a.Crash?
    ensures ActorOk(c, Act(c, s, w, a), w)
  {
    var s' := Act(c, s, w, a);
    forall i | 0 <= i < |Todo(s'.workers[w])| ensures SnapshotOk(c, s', Todo(s'.workers[w])[i]) {
      assert SnapshotOk(c, s, s.workers[w].todo[i + 1]);
    }
  }

  lemma WorkersStep(c: Config, s: State, e: Event)
    requires Workers(c, s) && Rows(c, s) && Enabled(c, s, e)
    ensures Workers(c, Apply(c, s, e))
  {
    hide WorkerOk, CanAct, CanHappen, RowOk, Act, Happen, Grows;
    var s' := Apply(c, s, e);
    if !e.Work? { HappenGrows(c, s, e); }
    forall w | w in s'.workers ensures WorkerOk(c, s', w, s'.workers[w]) {
      if !(e.Work? && e.w == w) {
        BystanderOk(c, s, e, w);
      } else {
        var act := e.action;
        match act
        case SelectRows(picked) => SelectingOk(c, s, w, picked);
        case LoadBodies(bodies) => LoadingOk(c, s, w, bodies);
        case CommitClaim => CommittingOk(c, s, w);
        case Refetch => PhaseMoved(c, s, w, act);
        case SendPost => PhaseMoved(c, s, w, act);
        case Receive(_) => PhaseMoved(c, s, w, act);
        case _ => FinishingOk(c, s, w, act);
      }
    }
  }

  lemma LockSelected(c: Config, s: State, w: WorkerId, picked: seq<RowId>, id: RowId)
    requires CanAct(c, s, w, SelectRows(picked)) && id in Act(c, s, w, SelectRows(picked)).locks
    requires id in s.locks ==> LockOk(s, id, s.locks[id])
    ensures LockOk(Act(c, s, w, SelectRows(picked)), id, Act(c, s, w, SelectRows(picked)).locks[id])
  {
    if id in picked {
      var i :| 0 <= i < |picked| && picked[i] == id;
      assert WorkerOf(Act(c, s, w, SelectRows(picked)), w).todo[i].id == id;
    }
  }

  lemma LockActed(c: Config, s: State, w: WorkerId, a: Action, id: RowId)
    requires CanAct(c, s, w, a) && id in Act(c, s, w, a).locks && !a.SelectRows?
    requires id in s.locks && LockOk(s, id, s.locks[id])
    ensures LockOk(Act(c, s, w, a), id, Act(c, s, w, a).locks[id])
  {
    hide HistoryOf, ClaimRows, SettledRow;
    if a.LoadBodies? && s.locks[id] == w {
      var i :| 0 <= i < |WorkerOf(s, w).todo| && WorkerOf(s, w).todo[i].id == id;
      assert WorkerOf(Act(c, s, w, a), w).todo[i].id == id;
    }
  }

  lemma LocksStep(c: Config, s: State, e: Event)
    requires Locks(s) && Enabled(c, s, e)
    ensures Locks(Apply(c, s, e))
  {
    hide CanAct, Act, LockOk;
    var s' := Apply(c, s, e);
    forall id | id in s'.locks ensures LockOk(s', id, s'.locks[id]) {
      if e.Work? && e.action.SelectRows? {
        LockSelected(c, s, e.w, e.action.picked, id);
      } else if e.Work? {
        OnlySelectLocks(c, s, e.w, e.action);
        LockActed(c, s, e.w, e.action, id);
      } else {
        LockHappened(c, s, e, id);
      }
    }
  }

  lemma OnlySelectLocks(c: Config, s: State, w: WorkerId, a: Action)
    requires CanAct(c, s, w, a) && !a.SelectRows?
    ensures Act(c, s, w, a).locks.Keys <= s.locks.Keys
  {
    hide HistoryOf, ClaimRows, SettledRow;
  }

  lemma LockHappened(c: Config, s: State, e: Event, id: RowId)
    requires !e.Work? && CanHappen(s, e) && id in Happen(c, s, e).locks
    requires id in s.locks ==> LockOk(s, id, s.locks[id])
    ensures LockOk(Happen(c, s, e), id, Happen(c, s, e).locks[id])
  {
  }

  lemma RowRecorded(c: Config, s: State, w: WorkerId, delay: nat, id: RowId)
    requires CanAct(c, s, w, Record(delay)) && ActorOk(c, s, w)
    requires id in s.rows && RowOk(c, s.clock, s.rows[id], HistoryOf(s, id))
    ensures RowOk(c, s.clock, Act(c, s, w, Record(delay)).rows[id], HistoryOf(Act(c, s, w, Record(delay)), id))
  {
    assert SnapshotOk(c, s, Todo(s.workers[w])[0]);
  }

  lemma RowClaimed(c: Config, s: State, w: WorkerId, id: RowId)
    requires CanAct(c, s, w, CommitClaim) && ActorOk(c, s, w)
    requires id in s.rows && RowOk(c, s.clock, s.rows[id], HistoryOf(s, id))
    ensures RowOk(c, s.clock, Act(c, s, w, CommitClaim).rows[id], HistoryOf(Act(c, s, w, CommitClaim), id))
  {
    var todo := s.workers[w].todo;
    if InTodo(todo, id) {
      var i :| 0 <= i < |todo| && todo[i].id == id;
      assert HoldsLock(s, w, s.workers[w].now, todo[i]);
    }
  }

  lemma RowActed(c: Config, s: State, w: WorkerId, a: Action, id: RowId)
    requires CanAct(c, s, w, a) && ActorOk(c, s, w) && !a.Record? && !a.CommitClaim?
    requires id in s.rows && RowOk(c, s.clock, s.rows[id], HistoryOf(s, id))
    ensures RowOk(c, s.clock, Act(c, s, w, a).rows[id], HistoryOf(Act(c, s, w, a), id))
  {
    hide Grows;
  }

  lemma RowHappened(c: Config, s: State, e: Event, id: RowId)
    requires c.maxAttempts >= 1 && !e.Work? && CanHappen(s, e)
    requires id in Happen(c, s, e).rows
    requires id in s.rows ==> RowOk(c, s.clock, s.rows[id], HistoryOf(s, id))
    requires id !in s.rows ==> HistoryOf(s, id) == NO_HISTORY
    ensures RowOk(c, Happen(c, s, e).clock, Happen(c, s, e).rows[id], HistoryOf(Happen(c, s, e), id))
  {
  }

  lemma FreshActed(c: Config, s: State, w: WorkerId, a: Action)
    requires CanAct(c, s, w, a) && Fresh(s) && ActorOk(c, s, w)
    ensures Fresh(Act(c, s, w, a))
    ensures Act(c, s, w, a).rows.Keys == s.rows.Keys && Act(c, s, w, a).clock == s.clock
  {
    hide SettledRow, Release, Grows;
    assert Busy(s, w) ==> SnapshotOk(c, s, Todo(s.workers[w])[0]);
  }

  lemma FreshHappened(c: Config, s: State, e: Event)
    requires !e.Work? && CanHappen(s, e) && Fresh(s)
    ensures Fresh(Happen(c, s, e))
  {
  }

  lemma RowsStep(c: Config, s: State, e: Event)
    requires c.maxAttempts >= 1 && Rows(c, s) && Workers(c, s) && Fresh(s) && Enabled(c, s, e)
    ensures Rows(c, Apply(c, s, e)) && Fresh(Apply(c, s, e))
  {
    hide CanAct, Act, CanHappen, Happen, RowOk, WorkerOk;
    var s' := Apply(c, s, e);
    if e.Work? { FreshActed(c, s, e.w, e.action); } else { FreshHappened(c, s, e); }
    forall id | id in s'.rows ensures RowOk(c, s'.clock, s'.rows[id], HistoryOf(s', id)) {
      if e.Work? {
        match e.action
        case Record(delay) => RowRecorded(c, s, e.w, delay, id);
        case CommitClaim => RowClaimed(c, s, e.w, id);
        case _ => RowActed(c, s, e.w, e.action, id);
      } else {
        RowHappened(c, s, e, id);
      }
    }
  }

  lemma SafeStep(c: Config, s: State, e: Event)
    requires c.maxAttempts >= 1
    requires Safe(c, s) && Enabled(c, s, e)
    ensures Safe(c, Apply(c, s, e))
  {
    hide CanAct, Act, CanHappen, Happen, Rows, Workers, Locks;
    RowsStep(c, s, e);
    WorkersStep(c, s, e);
    LocksStep(c, s, e);
  }

  lemma {:induction false} SafeRun(c: Config, s: State, es: seq<Event>)
    requires c.maxAttempts >= 1
    requires Safe(c, s) && IsRun(c, s, es)
    ensures Safe(c, After(c, s, es))
    decreases |es|
  {
    if es != [] {
      SafeStep(c, s, es[0]);
      SafeRun(c, Apply(c, s, es[0]), es[1..]);
    }
  }

  lemma SafeInitially(c: Config, s: State)
    requires Initial(s)
    ensures Safe(c, s)
  {
  }

  // ----- The theorems

  /** No row is given up early or marked falsely, in any interleaving. The count stored for a row never
      exceeds the POSTs begun for it, nor the limit plus the manual retries; delivered means a 2xx came
      back and was stored; dead means the subscriber was seen unavailable, or the limit was spent. */
  lemma NeverGivenUpEarlyNorMarkedFalsely(c: Config, s0: State, es: seq<Event>, id: RowId)
    requires c.maxAttempts >= 1 && Initial(s0) && IsRun(c, s0, es)
    requires id in After(c, s0, es).rows
    ensures var row, h := After(c, s0, es).rows[id], HistoryOf(After(c, s0, es), id);
      && row.attemptCount <= h.posts
      && row.attemptCount <= c.maxAttempts + h.retries
      && (Open(row.status) ==> row.attemptCount <= c.maxAttempts - 1 + h.retries)
      && (row.status.Delivered? ==> h.got2xx && row.lastHttpStatus.Some? && 200 <= row.lastHttpStatus.value < 300)
      && (row.status.Dead? && row.lastError == Some(SubscriberGone) ==> h.seenGone)
      && (row.status.Dead? && row.lastError != Some(SubscriberGone) ==> h.posts >= c.maxAttempts)
  {
    SafeInitially(c, s0);
    SafeRun(c, s0, es);
    assert RowOk(c, After(c, s0, es).clock, After(c, s0, es).rows[id], HistoryOf(After(c, s0, es), id));
  }

  /** A worker between its SELECT ... SKIP LOCKED and the commit of its claim. */
  predicate Selecting(wk: Worker) { wk.Locked? || wk.Loaded? }

  /** Two workers between their SELECT ... SKIP LOCKED and their commit never hold the same row; neither
      takes more than the limit; every row they hold is waiting and due; and when one commits, it changes
      no row outside its own claim. */
  lemma ClaimsAreDisjoint(c: Config, s0: State, es: seq<Event>, v: WorkerId, w: WorkerId)
    requires c.maxAttempts >= 1 && Initial(s0) && IsRun(c, s0, es) && v != w
    requires Selecting(WorkerOf(After(c, s0, es), v)) && Selecting(WorkerOf(After(c, s0, es), w))
    ensures var s := After(c, s0, es);
      var mine, theirs := WorkerOf(s, v), WorkerOf(s, w);
      && |mine.todo| <= c.batchSize && DistinctIds(mine.todo)
      && (forall i :: 0 <= i < |mine.todo| ==>
        var id := mine.todo[i].id;
        && !InTodo(theirs.todo, id)
        && id in s.rows && Waiting(s.rows[id].status) && s.rows[id].nextAttemptAt <= mine.now)
      && (theirs.Loaded? ==>
        && Enabled(c, s, Work(w, CommitClaim))
        && forall id :: id in s.rows && !InTodo(theirs.todo, id) ==>
             id in Apply(c, s, Work(w, CommitClaim)).rows && Apply(c, s, Work(w, CommitClaim)).rows[id] == s.rows[id])
  {
    hide Act, CanAct, Rows, Locks;
    var s := After(c, s0, es);
    SafeInitially(c, s0);
    SafeRun(c, s0, es);
    var mine, theirs := s.workers[v], s.workers[w];
    assert WorkerOk(c, s, v, mine) && WorkerOk(c, s, w, theirs);
    forall i | 0 <= i < |mine.todo|
      ensures HoldsLock(s, v, mine.now, mine.todo[i]) && !InTodo(theirs.todo, mine.todo[i].id)
    {
      forall j | 0 <= j < |theirs.todo| ensures theirs.todo[j].id != mine.todo[i].id {
        assert HoldsLock(s, w, theirs.now, theirs.todo[j]);
      }
    }
    if theirs.Loaded? {
      CommitIsPossible(c, s, w);
      forall id | id in s.rows && !InTodo(theirs.todo, id)
        ensures id in Apply(c, s, Work(w, CommitClaim)).rows && Apply(c, s, Work(w, CommitClaim)).rows[id] == s.rows[id]
      {
        OnlyItsBatch(c, s, w, CommitClaim, id);
      }
    }
  }

  lemma CommitIsPossible(c: Config, s: State, w: WorkerId)
    requires WorkerOf(s, w).Loaded?
    ensures CanAct(c, s, w, CommitClaim)
  {
  }

  /** A worker writes only the rows of its own batch. */
  lemma OnlyItsBatch(c: Config, s: State, w: WorkerId, a: Action, id: RowId)
    requires CanAct(c, s, w, a) && id in s.rows && !InTodo(Todo(WorkerOf(s, w)), id)
    ensures Act(c, s, w, a).rows[id] == s.rows[id] && HistoryOf(Act(c, s, w, a), id) == HistoryOf(s, id)
  {
    hide Grows, SettledRow, CanSelect;
  }
}
