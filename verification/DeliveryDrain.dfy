/** Work left in the delivery table, on timely runs without manual retries. */
module DeliveryDrain {
  import opened Types
  import opened Delivery
  import opened DeliverySafety
  import opened DeliveryOwnership

  /** Attempts a row may still make. */
  function Left(c: Config, row: Row): nat {
    if Open(row.status) && row.attemptCount < c.maxAttempts then c.maxAttempts - row.attemptCount else 0
  }

  ghost function Potential(c: Config, rows: map<RowId, Row>): nat
    decreases |rows|
  {
    if rows == map[] then 0 else
    var id :| id in rows;
    Left(c, rows[id]) + Potential(c, rows - {id})
  }

  lemma {:induction false} Extract(c: Config, rows: map<RowId, Row>, id: RowId)
    requires id in rows
    ensures Potential(c, rows) == Left(c, rows[id]) + Potential(c, rows - {id})
    decreases |rows|
  {
    var first :| first in rows && Potential(c, rows) == Left(c, rows[first]) + Potential(c, rows - {first});
    if first != id {
      Extract(c, rows - {first}, id);
      Extract(c, rows - {id}, first);
      assert rows - {first} - {id} == rows - {id} - {first};
    }
  }

  lemma {:induction false} SamePotential(c: Config, rows: map<RowId, Row>, rows': map<RowId, Row>)
    requires rows.Keys == rows'.Keys
    requires forall id :: id in rows ==> Left(c, rows[id]) == Left(c, rows'[id])
    ensures Potential(c, rows) == Potential(c, rows')
    decreases |rows|
  {
    if rows == map[] {
      assert rows' == map[];
    } else {
      var id :| id in rows;
      Extract(c, rows, id);
      Extract(c, rows', id);
      SamePotential(c, rows - {id}, rows' - {id});
    }
  }

  /** Attempts that n new rows bring. */
  function Budget(c: Config, n: int): int { n * c.maxAttempts }

  function RowCount(rows: map<RowId, Row>): nat { |rows| }

  lemma BudgetAdds(c: Config, m: int, n: int)
    ensures Budget(c, m + n) == Budget(c, m) + Budget(c, n)
    ensures Budget(c, 0) == 0 && Budget(c, 1) == c.maxAttempts
  {
    assert (m + n) * c.maxAttempts == m * c.maxAttempts + n * c.maxAttempts;
  }

  lemma OneRowCreated(c: Config, rows: map<RowId, Row>, id: RowId, now: int)
    requires id !in rows
    ensures Potential(c, rows[id := NewRow(now)]) == Potential(c, rows) + c.maxAttempts
    ensures RowCount(rows[id := NewRow(now)]) == RowCount(rows) + 1
  {
    Extract(c, rows[id := NewRow(now)], id);
    assert rows[id := NewRow(now)] - {id} == rows;
  }

  lemma {:induction false} CreatedPotential(c: Config, rows: map<RowId, Row>, ids: set<RowId>, now: int)
    requires ids !! rows.Keys
    ensures RowCount(rows + Created(ids, now)) == RowCount(rows) + |ids|
    ensures Potential(c, rows + Created(ids, now)) == Potential(c, rows) + Budget(c, |ids|)
    decreases |ids|
  {
    hide Potential, NewRow, Budget, RowCount;
    BudgetAdds(c, 0, 0);
    if ids == {} {
      assert rows + Created(ids, now) == rows;
    } else {
      var id :| id in ids;
      var fewer := ids - {id};
      CreatedPotential(c, rows, fewer, now);
      OneRowCreated(c, rows + Created(fewer, now), id, now);
      assert rows + Created(ids, now) == (rows + Created(fewer, now))[id := NewRow(now)];
      assert |ids| == |fewer| + 1;
      BudgetAdds(c, |fewer|, 1);
    }
  }

  lemma OneRowChanges(c: Config, rows: map<RowId, Row>, id: RowId, row: Row)
    requires id in rows
    ensures Potential(c, rows[id := row]) + Left(c, rows[id]) == Potential(c, rows) + Left(c, row)
  {
    Extract(c, rows, id);
    Extract(c, rows[id := row], id);
    assert rows[id := row] - {id} == rows - {id};
  }

  predicate NoRetry(e: Event) { !e.Retry? && !e.RetryRead? && !e.RetryWrite? }
  predicate Settles(a: Action) { a.MarkGone? || a.Record? }

  ghost predicate Unretried(s: State) {
    forall id :: id in s.rows ==> HistoryOf(s, id).retries == 0
  }

  /** Without retries no open row has used up its attempts. */
  lemma OpenRowsHaveAttemptsLeft(c: Config, s: State, id: RowId)
    requires Safe(c, s) && Unretried(s) && id in s.rows && Open(s.rows[id].status)
    ensures Left(c, s.rows[id]) == c.maxAttempts - s.rows[id].attemptCount > 0
  {
    assert RowOk(c, s.clock, s.rows[id], HistoryOf(s, id));
  }

  /** The head of a live batch: its row still has the count the worker remembers, and an attempt left. */
  lemma HeadHasAttemptsLeft(c: Config, b: Bounds, s: State, w: WorkerId)
    requires Owned(c, b, s) && Unretried(s) && Busy(s, w)
    ensures var x := Head(s, w);
      x.id in s.rows && Left(c, s.rows[x.id]) == c.maxAttempts - x.count > 0
  {
    hide Exclusive, Ledger;
    var wk := s.workers[w];
    assert OwnerOk(c, b, s, wk);
    assert OwnsRow(s, wk.now, wk.todo[0]);
    OpenRowsHaveAttemptsLeft(c, s, wk.todo[0].id);
  }

  lemma SettledHead(c: Config, s: State, w: WorkerId, a: Action)
    requires CanAct(c, s, w, a) && Settles(a)
    ensures Busy(s, w) && Head(s, w).id in s.rows && Act(c, s, w, a).settled == s.settled + 1
    ensures var x := Head(s, w);
      && x.id in Act(c, s, w, a).rows && Act(c, s, w, a).rows == s.rows[x.id := Act(c, s, w, a).rows[x.id]]
      && (x.count < c.maxAttempts ==> Left(c, Act(c, s, w, a).rows[x.id]) < c.maxAttempts - x.count)
  {
    hide Grows;
  }

  lemma SettlingLowersIt(c: Config, b: Bounds, s: State, w: WorkerId, a: Action)
    requires Owned(c, b, s) && Unretried(s) && CanAct(c, s, w, a) && Settles(a)
    ensures Potential(c, Act(c, s, w, a).rows) < Potential(c, s.rows)
    ensures Act(c, s, w, a).settled == s.settled + 1
  {
    hide Act, CanAct, Owned, Unretried, Left, Grows;
    SettledHead(c, s, w, a);
    HeadHasAttemptsLeft(c, b, s, w);
    var id := Head(s, w).id;
    OneRowChanges(c, s.rows, id, Act(c, s, w, a).rows[id]);
  }

  lemma OtherActionsKeepIt(c: Config, b: Bounds, s: State, w: WorkerId, a: Action)
    requires CanAct(c, s, w, a) && !Settles(a) && ActorOk(c, s, w)
    ensures Potential(c, Act(c, s, w, a).rows) == Potential(c, s.rows)
    ensures Act(c, s, w, a).settled == s.settled
  {
    hide Grows, CanSelect;
    if a.CommitClaim? {
      var todo := s.workers[w].todo;
      forall id | id in s.rows ensures Left(c, s.rows[id]) == Left(c, Act(c, s, w, a).rows[id]) {
        if InTodo(todo, id) {
          var i :| 0 <= i < |todo| && todo[i].id == id;
          assert HoldsLock(s, w, s.workers[w].now, todo[i]);
        }
      }
      SamePotential(c, s.rows, Act(c, s, w, a).rows);
    }
  }

  lemma ResetKeepsIt(c: Config, rows: map<RowId, Row>, readAt: int, now: int)
    ensures Potential(c, StaleReset(c, rows, readAt, now)) == Potential(c, rows)
    ensures RowCount(StaleReset(c, rows, readAt, now)) == RowCount(rows)
  {
    var rows' := StaleReset(c, rows, readAt, now);
    SamePotential(c, rows, rows');
    assert rows.Keys == rows'.Keys && |rows| == |rows.Keys| && |rows'| == |rows'.Keys|;
  }

  lemma HappeningsKeepIt(c: Config, s: State, e: Event)
    requires !e.Work? && CanHappen(s, e) && NoRetry(e)
    ensures RowCount(Happen(c, s, e).rows) >= RowCount(s.rows)
    ensures Potential(c, Happen(c, s, e).rows) == Potential(c, s.rows) + Budget(c, RowCount(Happen(c, s, e).rows) - RowCount(s.rows))
    ensures Happen(c, s, e).settled == s.settled
  {
    hide StaleReset, Potential, NewRow, Budget, RowCount;
    BudgetAdds(c, 0, 0);
    match e
    case Create(ids) =>
      CreatedPotential(c, s.rows, ids, s.clock);
      assert Happen(c, s, e).rows == s.rows + Created(ids, s.clock);
    case ResetStale(readAt) => ResetKeepsIt(c, s.rows, readAt, s.clock);
    case _ =>
  }

  lemma WorkersDoNotRetry(c: Config, s: State, w: WorkerId, a: Action, id: RowId)
    requires CanAct(c, s, w, a)
    ensures HistoryOf(Act(c, s, w, a), id).retries == HistoryOf(s, id).retries
  {
    hide Grows, SettledRow, CanSelect, ClaimRows, Release;
  }

  lemma UnretriedStep(c: Config, s: State, e: Event)
    requires Fresh(s) && Unretried(s) && Enabled(c, s, e) && NoRetry(e)
    ensures Unretried(Apply(c, s, e))
  {
    hide Act, CanAct, Grows, IsStale;
    if e.Work? {
      forall id | id in Apply(c, s, e).rows ensures HistoryOf(Apply(c, s, e), id).retries == 0 {
        WorkersDoNotRetry(c, s, e.w, e.action, id);
      }
    }
  }

  /** What is left plus what is settled never grows, except by the rows created. */
  lemma DrainStep(c: Config, b: Bounds, s: State, e: Event)
    requires Owned(c, b, s) && Unretried(s) && Enabled(c, s, e) && NoRetry(e)
    ensures var s' := Apply(c, s, e);
      && RowCount(s'.rows) >= RowCount(s.rows)
      && s'.settled == s.settled + (if e.Work? && Settles(e.action) then 1 else 0)
      && Potential(c, s'.rows) + s'.settled <= Potential(c, s.rows) + s.settled + Budget(c, RowCount(s'.rows) - RowCount(s.rows))
  {
    hide Act, CanAct, Happen, CanHappen, Potential, Budget, Owners, Exclusive, Ledger, Rows, Locks, WorkerOk;
    BudgetAdds(c, 0, 0);
    if !e.Work? {
      HappeningsKeepIt(c, s, e);
    } else {
      SameKeysSameCount(s.rows, Apply(c, s, e).rows);
      if Settles(e.action) { SettlingLowersIt(c, b, s, e.w, e.action); } else { OtherActionsKeepIt(c, b, s, e.w, e.action); }
    }
  }

  lemma SameKeysSameCount(rows: map<RowId, Row>, rows': map<RowId, Row>)
    requires rows.Keys == rows'.Keys
    ensures RowCount(rows) == RowCount(rows')
  {
    assert |rows| == |rows.Keys| && |rows'| == |rows'.Keys|;
  }

  /** A timely run without manual retries. */
  ghost predicate IsDrainingRun(c: Config, b: Bounds, s: State, es: seq<Event>) {
    IsTimelyRun(c, b, s, es) && forall i :: 0 <= i < |es| ==> NoRetry(es[i])
  }

  lemma {:induction false} DrainRun(c: Config, b: Bounds, s: State, es: seq<Event>)
    requires FitsWindow(c, b) && Owned(c, b, s) && Unretried(s) && IsDrainingRun(c, b, s, es) && IsRun(c, s, es)
    ensures var t := After(c, s, es);
      && Unretried(t) && RowCount(t.rows) >= RowCount(s.rows) && t.settled >= s.settled
      && Potential(c, t.rows) + t.settled <= Potential(c, s.rows) + s.settled + Budget(c, RowCount(t.rows) - RowCount(s.rows))
    decreases |es|
  {
    hide Enabled, Apply, Owned, OnTime, Unretried, Potential, Budget, RowCount, NoRetry;
    BudgetAdds(c, 0, 0);
    if es != [] {
      var m := Apply(c, s, es[0]);
      ForgetOwned(c, b, s);
      DrainStep(c, b, s, es[0]);
      UnretriedStep(c, s, es[0]);
      OwnedStep(c, b, s, es[0]);
      DrainRun(c, b, m, es[1..]);
      BudgetAdds(c, RowCount(m.rows) - RowCount(s.rows), RowCount(After(c, s, es).rows) - RowCount(m.rows));
    }
  }

  lemma ForgetOwned(c: Config, b: Bounds, s: State)
    requires Owned(c, b, s)
    ensures Safe(c, s) && Fresh(s)
  {
  }

  // ----- One worker's batches

  function Live(wk: Worker): nat { if wk.Delivering? then |wk.todo| else 0 }

  /** The rows worker w claims along a run. */
  ghost function ClaimedBy(c: Config, s: State, es: seq<Event>, w: WorkerId): nat
    requires IsRun(c, s, es)
    decreases |es|
  {
    if es == [] then 0 else
    (if es[0] == Work(w, CommitClaim) then |WorkerOf(s, w).todo| else 0) + ClaimedBy(c, Apply(c, s, es[0]), es[1..], w)
  }

  lemma LiveActed(c: Config, s: State, w: WorkerId, a: Action)
    requires CanAct(c, s, w, a) && !a.Crash?
    ensures Live(Act(c, s, w, a).workers[w]) + (if Settles(a) then 1 else 0)
         == Live(WorkerOf(s, w)) + (if a.CommitClaim? then |WorkerOf(s, w).todo| else 0)
  {
    hide Grows, HistoryOf, ClaimRows, SettledRow, CanSelect;
  }

  lemma LiveStep(c: Config, s: State, e: Event, w: WorkerId)
    requires Enabled(c, s, e) && e != Work(w, Crash)
    ensures Live(WorkerOf(Apply(c, s, e), w)) + (if e.Work? && e.w == w && Settles(e.action) then 1 else 0)
         == Live(WorkerOf(s, w)) + (if e == Work(w, CommitClaim) then |WorkerOf(s, w).todo| else 0)
  {
    hide Act, CanAct, Grows, Happen;
    if !e.Work? { HappenGrows(c, s, e); }
    if e.Work? && e.w == w { LiveActed(c, s, w, e.action); }
  }

  lemma {:induction false} SettledByBatches(c: Config, b: Bounds, s: State, es: seq<Event>, w: WorkerId)
    requires FitsWindow(c, b) && Owned(c, b, s) && Unretried(s) && IsDrainingRun(c, b, s, es) && IsRun(c, s, es)
    requires Work(w, Crash) !in es
    ensures var t := After(c, s, es);
      t.settled - s.settled >= ClaimedBy(c, s, es, w) + Live(WorkerOf(s, w)) - Live(WorkerOf(t, w))
    decreases |es|
  {
    hide Enabled, Apply, Owned, OnTime, Unretried, Potential, Budget, RowCount, NoRetry;
    if es != [] {
      ForgetOwned(c, b, s);
      DrainStep(c, b, s, es[0]);
      LiveStep(c, s, es[0], w);
      UnretriedStep(c, s, es[0]);
      OwnedStep(c, b, s, es[0]);
      SettledByBatches(c, b, Apply(c, s, es[0]), es[1..], w);
    }
  }

  // ----- The theorems

  lemma NothingLeftInitially(c: Config, s: State)
    requires Initial(s)
    ensures Unretried(s) && Potential(c, s.rows) == 0 && RowCount(s.rows) == 0 && s.settled == 0
  {
  }

  lemma DrainReached(c: Config, b: Bounds, s0: State, es: seq<Event>)
    requires Reached(c, b, s0, es) && IsDrainingRun(c, b, s0, es) && IsRun(c, s0, es)
    ensures var t := After(c, s0, es);
      && Owned(c, b, t) && Safe(c, t) && Unretried(t)
      && Potential(c, t.rows) + t.settled <= Budget(c, RowCount(t.rows))
  {
    hide Enabled, Apply, Owned, OnTime, Unretried, Potential, Budget, RowCount, NoRetry, Initial;
    NothingLeftInitially(c, s0);
    OwnedInitially(c, b, s0);
    DrainRun(c, b, s0, es);
    OwnedRun(c, b, s0, es);
    ForgetOwned(c, b, After(c, s0, es));
  }

  /** Over N rows, at most N * max_attempts attempts are ever settled, however many stale resets happen;
      and every open row still has an attempt left. */
  lemma SettledAttemptsAreBounded(c: Config, b: Bounds, s0: State, es: seq<Event>)
    requires Reached(c, b, s0, es) && IsDrainingRun(c, b, s0, es) && IsRun(c, s0, es)
    ensures var t := After(c, s0, es);
      && Potential(c, t.rows) + t.settled <= |t.rows| * c.maxAttempts
      && forall id :: id in t.rows && Open(t.rows[id].status) ==> t.rows[id].attemptCount < c.maxAttempts
  {
    hide Enabled, Apply, Owned, OnTime, Unretried, Potential, NoRetry, Initial, Safe;
    DrainReached(c, b, s0, es);
    var t := After(c, s0, es);
    forall id | id in t.rows && Open(t.rows[id].status) ensures t.rows[id].attemptCount < c.maxAttempts {
      OpenRowsHaveAttemptsLeft(c, t, id);
    }
  }

  /** Between two moments at which worker w has no batch, and with no row created and no crash of w, the work
      left drops by at least the sizes of the batches w claimed, whatever the other processes do. */
  lemma BatchesLowerTheWorkLeft(c: Config, b: Bounds, s0: State, es: seq<Event>, fs: seq<Event>, w: WorkerId)
    requires Reached(c, b, s0, es) && IsDrainingRun(c, b, s0, es) && IsRun(c, s0, es)
    requires IsDrainingRun(c, b, After(c, s0, es), fs) && IsRun(c, After(c, s0, es), fs)
    requires Work(w, Crash) !in fs
    requires WorkerOf(After(c, s0, es), w).Idle? && WorkerOf(After(c, After(c, s0, es), fs), w).Idle?
    requires |After(c, After(c, s0, es), fs).rows| == |After(c, s0, es).rows|
    ensures var s := After(c, s0, es);
      Potential(c, After(c, s, fs).rows) + ClaimedBy(c, s, fs, w) <= Potential(c, s.rows)
  {
    hide Enabled, Apply, Owned, OnTime, Unretried, Potential, NoRetry, Initial, Safe, Budget;
    var s := After(c, s0, es);
    DrainReached(c, b, s0, es);
    DrainRun(c, b, s, fs);
    SettledByBatches(c, b, s, fs, w);
    BudgetAdds(c, 0, 0);
  }
}
