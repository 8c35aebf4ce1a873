/** The worker and the retry endpoint as code over the stored tables. The ghost field `trace` records every
    event since `start`; Valid() says the tables are what the state machine makes of that trace, so whatever is
    proved of the machine's runs holds of this code, with any interference at its await points. */
module DeliveryWorker {
  import opened Types
  import opened Delivery
  import opened DeliverySafety

  /** The steps of one worker within a trace. */
  ghost function ByWorker(es: seq<Event>, w: WorkerId): seq<Action> {
    if es == [] then [] else
    var last := es[|es| - 1];
    ByWorker(es[..|es| - 1], w) + if last.Work? && last.w == w then [last.action] else []
  }

  lemma ByWorkerAppend(es: seq<Event>, e: Event, w: WorkerId)
    ensures ByWorker(es + [e], w) == ByWorker(es, w) + if e.Work? && e.w == w then [e.action] else []
  {
    assert (es + [e])[..|es|] == es;
  }

  /** What one attempt of a batch comes to: death without a POST, or exactly one POST and its outcome. */
  ghost predicate OneAttempt(steps: seq<Action>) {
    || steps == [Refetch, MarkGone]
    || (|steps| == 4 && steps[0].Refetch? && steps[1].SendPost? && steps[2].Receive? && steps[3].Record?)
  }

  function Flatten(parts: seq<seq<Action>>): seq<Action> {
    if parts == [] then [] else Flatten(parts[..|parts| - 1]) + parts[|parts| - 1]
  }

  datatype RetryReply = NotFound | Conflict(status: Status) | Accepted(row: Row)

  class Database {
    const c: Config
    var clock: int
    var subs: Subscribers
    var rows: map<RowId, Row>
    var locks: map<RowId, WorkerId>
    ghost const start: State
    ghost var world: State
    ghost var trace: seq<Event>

    ghost predicate Logged()
      reads this`world, this`trace
    {
      && c.maxAttempts >= 1 && Safe(c, start)
      && IsRun(c, start, trace) && world == After(c, start, trace)
    }

    ghost predicate Valid()
      reads this
    {
      && Logged()
      && clock == world.clock && subs == world.subs && rows == world.rows && locks == world.locks
    }

    constructor (c: Config, now: int)
      requires c.maxAttempts >= 1
      ensures Valid() && this.c == c && Initial(start) && trace == [] && rows == map[]
    {
      this.c := c;
      clock, subs, rows, locks := now, map[], map[], map[];
      start := State(now, map[], map[], map[], map[], multiset{}, map[], [], [], 0, map[], now);
      world := State(now, map[], map[], map[], map[], multiset{}, map[], [], [], 0, map[], now);
      trace := [];
      new;
      SafeInitially(c, start);
    }

    ghost method Log(e: Event)
      requires Logged() && Enabled(c, world, e)
      modifies this`world, this`trace
      ensures Logged() && trace == old(trace) + [e] && world == Apply(c, old(world), e)
      ensures forall w :: ByWorker(trace, w) == ByWorker(old(trace), w) + if e.Work? && e.w == w then [e.action] else []
    {
      RunOfOne(c, world, e);
      RunsCompose(c, start, trace, [e]);
      forall w ensures ByWorker(trace + [e], w) == ByWorker(trace, w) + if e.Work? && e.w == w then [e.action] else [] {
        ByWorkerAppend(trace, e, w);
      }
      world := Apply(c, world, e);
      trace := trace + [e];
    }

    /** Logs a step of worker w. */
    ghost method Step(w: WorkerId, a: Action)
      requires Logged() && CanAct(c, world, w, a)
      modifies this`world, this`trace
      ensures Logged() && trace == old(trace) + [Work(w, a)] && world == Act(c, old(world), w, a)
      ensures ByWorker(trace, w) == ByWorker(old(trace), w) + [a]
    {
      hide Act, CanAct, Logged;
      Log(Work(w, a));
    }

    /** An await point: any number of events of everything else may happen here. `me` is the worker that
        waits, if the caller is one. Callers know no more than the contract. */
    method Await(ghost me: Option<WorkerId>)
      requires Valid()
      modifies this
      ensures Valid() && old(trace) <= trace && old(clock) <= clock
      ensures me.Some? ==> ByWorker(trace, me.value) == ByWorker(old(trace), me.value)
      ensures me.Some? ==> WorkerOf(world, me.value) == WorkerOf(old(world), me.value)
      ensures old(rows).Keys <= rows.Keys
      ensures old(world).retrying <= world.retrying
    {
    }

    lemma HolderIsSelecting(id: RowId)
      requires Valid() && id in locks
      ensures locks[id] in world.workers && (WorkerOf(world, locks[id]).Locked? || WorkerOf(world, locks[id]).Loaded?)
    {
      SafeRun(c, start, trace);
      assert LockOk(world, id, locks[id]);
    }

    /** A statement that writes `id` waits for the row lock. One way for the wait to end is that the holder dies. */
    method AwaitLock(ghost me: Option<WorkerId>, id: RowId)
      requires Valid() && id in rows
      requires me.Some? ==> !WorkerOf(world, me.value).Locked? && !WorkerOf(world, me.value).Loaded?
      modifies this
      ensures Valid() && old(trace) <= trace && old(clock) <= clock
      ensures me.Some? ==> ByWorker(trace, me.value) == ByWorker(old(trace), me.value)
      ensures me.Some? ==> WorkerOf(world, me.value) == WorkerOf(old(world), me.value)
      ensures old(rows).Keys <= rows.Keys && id !in locks
      ensures old(world).retrying <= world.retrying
    {
      hide Act, CanAct, Logged, Grows, HistoryOf;
      Await(me);
      if id in locks {
        var holder := locks[id];
        HolderIsSelecting(id);
        CrashIs(c, world, holder);
        locks := Release(locks, holder);
        Log(Work(holder, Crash));
      }
    }

    /** The UPDATE of the stale reset: every row in flight since before the cutoff fails and is due at once; every other
        row stays as it is. */
    method WriteReset(readAt: int)
      requires Valid() && readAt <= clock
      modifies this
      ensures Valid() && trace == old(trace) + [ResetStale(readAt)] && clock == old(clock) && rows.Keys == old(rows).Keys
      ensures forall id :: id in rows ==>
        var row := old(rows)[id];
        if row.status == InFlight && row.updatedAt < readAt - c.staleAfter
        then rows[id] == row.(status := Failed, lastError := Some(StaleInFlight), nextAttemptAt := clock, updatedAt := clock)
        else rows[id] == row
    {
      hide Act, CanAct, Logged, Grows, HistoryOf;
      var cutoff := readAt - c.staleAfter;
      rows := map id | id in rows ::
        if rows[id].status.InFlight? && rows[id].updatedAt < cutoff
        then rows[id].(status := Failed, lastError := Some(StaleInFlight), nextAttemptAt := clock, updatedAt := clock)
        else rows[id];
      Log(ResetStale(readAt));
    }

    /** Resets every row whose claim is older than the stale window, and nothing else. */
    method ResetStaleInFlight()
      requires Valid()
      modifies this
      ensures Valid() && old(trace) <= trace
      ensures trace != [] && trace[|trace| - 1] == ResetStale(old(clock))
      ensures forall id :: id in rows && rows[id].status.InFlight? ==> rows[id].updatedAt >= old(clock) - c.staleAfter
    {
      var readAt := clock;
      Await(None);
      WriteReset(readAt);
    }

    /** SELECT ... WHERE waiting AND due FOR UPDATE SKIP LOCKED LIMIT: as many eligible rows as the limit allows. */
    method SelectForUpdate(now: int) returns (picked: seq<RowId>)
      requires Valid()
      ensures CanSelect(c, world, now, picked) && |picked| <= c.batchSize && NoDuplicates(picked)
      ensures forall i :: 0 <= i < |picked| ==>
        && picked[i] in rows && picked[i] !in locks && rows[picked[i]].nextAttemptAt <= now
        && (rows[picked[i]].status == Pending || rows[picked[i]].status == Failed)
      ensures |picked| == c.batchSize || forall id ::
        (id in rows && id !in locks && rows[id].nextAttemptAt <= now && (rows[id].status == Pending || rows[id].status == Failed))
        ==> id in picked
    {
      var due := set id | id in rows && Waiting(rows[id].status) && rows[id].nextAttemptAt <= now && id !in locks;
      picked := [];
      ghost var all := due;
      while |picked| < c.batchSize && due != {}
        invariant CanSelect(c, world, now, picked)
        invariant forall id :: id in all <==> id in due || id in picked
        invariant forall i :: 0 <= i < |picked| ==> picked[i] !in due
        decreases due
      {
        var id :| id in due;
        picked, due := picked + [id], due - {id};
      }
    }

    /** Full jitter: any delay up to the capped power. */
    method BackoffSeconds(attempt: nat) returns (delay: nat)
      ensures delay <= c.maxDelay && delay <= c.baseDelay * Power2(attempt)
    {
      var cap := c.baseDelay * Power2(attempt);
      if c.maxDelay < cap { cap := c.maxDelay; }
      delay :| delay <= cap;
    }

    /** What an outcome makes of the row: delivered on any 2xx, otherwise dead at the limit, otherwise failed and due
        again after the backoff. The error kept is the first 500 characters of the body, or what the transport said, or
        the code where there is no text. */
    method Decide(count: nat, outcome: Outcome, now: int) returns (row: Row, delay: nat)
      ensures row == SettledRow(c, count, outcome, now, delay) && delay <= BackoffCap(c, count + 1)
      ensures row.attemptCount == count + 1 && row.updatedAt == now
      ensures row.status == Delivered <==> outcome.Response? && 200 <= outcome.code <= 299
      ensures row.status == Dead <==> !(outcome.Response? && 200 <= outcome.code <= 299) && count + 1 >= c.maxAttempts
      ensures row.status == Failed <==> !(outcome.Response? && 200 <= outcome.code <= 299) && count + 1 < c.maxAttempts
      ensures row.nextAttemptAt == if row.status == Failed then now + delay else now
      ensures delay <= c.maxDelay && delay <= c.baseDelay * Power2(count + 1)
      ensures row.lastHttpStatus == if outcome.Response? then Some(outcome.code) else None
      ensures row.lastError == if row.status == Delivered then None else Some(
        if outcome.Response? && outcome.body != "" then Text(if |outcome.body| > 500 then outcome.body[..500] else outcome.body)
        else if outcome.NoResponse? && outcome.error != "" then Text(outcome.error)
        else HttpStatus(if outcome.Response? then Some(outcome.code) else None))
    {
      var newCount := count + 1;
      var newStatus, nextAttemptAt := Failed, now;
      delay := 0;
      if outcome.Response? && 200 <= outcome.code < 300 {
        newStatus := Delivered;
      } else if newCount >= c.maxAttempts {
        newStatus := Dead;
      } else {
        delay := BackoffSeconds(newCount);
        nextAttemptAt := now + delay;
      }
      row := Row(newStatus, newCount, nextAttemptAt, now, CodeOf(outcome), NoteOf(outcome));
    }

    /** The POST; whatever the receiver answers. */
    method Deliver() returns (outcome: Outcome)
    {
      outcome :| true;
    }

    lemma HeadIsStored(w: WorkerId)
      requires Valid() && Busy(world, w)
      ensures Head(world, w).id in rows
    {
      SafeRun(c, start, trace);
      assert WorkerOk(c, world, w, world.workers[w]);
      assert SnapshotOk(c, world, world.workers[w].todo[0]);
    }

    /** Row `id`, remembered with `count` attempts, is first in worker w's batch and has reached `phase`. */
    ghost predicate Handling(w: WorkerId, id: RowId, count: nat, phase: Phase)
      reads this
    {
      Busy(world, w) && Head(world, w).id == id && Head(world, w).count == count && WorkerOf(world, w).phase == phase
    }

    /** Worker w has moved past the first attempt of `before`. */
    ghost predicate MovedOn(w: WorkerId, before: Worker)
      reads this
      requires before.Delivering? && |before.todo| > 0
    {
      var wk := WorkerOf(world, w);
      if |before.todo| == 1 then wk.Idle? else
      wk.Delivering? && wk.todo == before.todo[1..] && wk.phase.Ready?
    }

    /** Reads the subscriber again, as it is now. */
    method RefetchSubscriber(w: WorkerId, id: RowId, count: nat) returns (available: bool)
      requires Valid() && Handling(w, id, count, Ready)
      modifies this
      ensures Valid() && old(trace) <= trace && ByWorker(trace, w) == ByWorker(old(trace), w) + [Refetch]
      ensures Handling(w, id, count, if available then Cleared else Gone)
      ensures WorkerOf(world, w).todo == WorkerOf(old(world), w).todo
      ensures available <==> id.subscriber in subs && subs[id.subscriber].active && !subs[id.subscriber].deleted
    {
      hide Grows, HistoryOf, Act, CanAct, Logged, Apply, Enabled;
      Await(Some(w));
      var sub := id.subscriber;
      available := sub in subs && subs[sub].active && !subs[sub].deleted;
      RefetchIs(c, world, w);
      Step(w, Refetch);
    }

    /** The UPDATE for a subscriber that is unavailable: status and error, no other column and no other row. */
    method WriteDead(w: WorkerId, id: RowId, count: nat)
      requires Valid() && Handling(w, id, count, Gone) && id in rows && id !in locks
      modifies this
      ensures Valid() && old(trace) <= trace && ByWorker(trace, w) == ByWorker(old(trace), w) + [MarkGone]
      ensures MovedOn(w, WorkerOf(old(world), w)) && clock == old(clock)
      ensures rows == old(rows)[id := old(rows)[id].(status := Dead, lastError := Some(SubscriberGone), updatedAt := clock)]
    {
      hide Grows, HistoryOf, Act, CanAct, Logged, Apply, Enabled;
      rows := rows[id := rows[id].(status := Dead, lastError := Some(SubscriberGone), updatedAt := clock)];
      MarkGoneIs(c, world, w);
      Step(w, MarkGone);
    }

    method MarkDead(w: WorkerId, id: RowId, count: nat)
      requires Valid() && Handling(w, id, count, Gone)
      modifies this
      ensures Valid() && old(trace) <= trace && ByWorker(trace, w) == ByWorker(old(trace), w) + [MarkGone]
      ensures MovedOn(w, WorkerOf(old(world), w))
      ensures id in rows && rows[id].status.Dead? && rows[id].lastError == Some(SubscriberGone)
    {
      hide Grows, HistoryOf, Act, CanAct, Logged, Apply, Enabled;
      HeadIsStored(w);
      AwaitLock(Some(w), id);
      WriteDead(w, id, count);
    }

    /** POSTs once, outside any lock, and notes when the answer came. */
    method Post(w: WorkerId, id: RowId, count: nat) returns (outcome: Outcome, now: int)
      requires Valid() && Handling(w, id, count, Cleared)
      modifies this
      ensures Valid() && old(trace) <= trace
      ensures ByWorker(trace, w) == ByWorker(old(trace), w) + [SendPost, Receive(outcome)]
      ensures Handling(w, id, count, Posted(outcome, now)) && WorkerOf(world, w).todo == WorkerOf(old(world), w).todo
    {
      hide Grows, HistoryOf, Act, CanAct, Logged, Apply, Enabled;
      SendPostIs(c, world, w);
      Step(w, SendPost);
      Await(Some(w));
      outcome := Deliver();
      now := clock;
      ReceiveIs(c, world, w, outcome);
      Step(w, Receive(outcome));
      assert ByWorker(trace, w) == ByWorker(old(trace), w) + [SendPost] + [Receive(outcome)];
    }

    /** Writes the outcome over the row, whatever the row has become meanwhile. */
    method RecordOutcome(w: WorkerId, id: RowId, count: nat, outcome: Outcome, now: int) returns (delay: nat)
      requires Valid() && Handling(w, id, count, Posted(outcome, now))
      modifies this
      ensures Valid() && old(trace) <= trace && ByWorker(trace, w) == ByWorker(old(trace), w) + [Record(delay)]
      ensures MovedOn(w, WorkerOf(old(world), w))
      ensures id in rows && rows[id] == SettledRow(c, count, outcome, now, delay)
      ensures rows[id].attemptCount == count + 1 && rows[id].updatedAt == now
      ensures rows[id].status == Delivered <==> outcome.Response? && 200 <= outcome.code <= 299
      ensures rows[id].status == Dead <==> !(outcome.Response? && 200 <= outcome.code <= 299) && count + 1 >= c.maxAttempts
      ensures rows[id].status == Failed <==> !(outcome.Response? && 200 <= outcome.code <= 299) && count + 1 < c.maxAttempts
      ensures rows[id].lastHttpStatus == if outcome.Response? then Some(outcome.code) else None
    {
      hide Grows, HistoryOf, Act, CanAct, Logged, Apply, Enabled, SettledRow, BackoffCap, Power2;
      var row;
      row, delay := Decide(count, outcome, now);
      HeadIsStored(w);
      AwaitLock(Some(w), id);
      rows := rows[id := row];
      RecordIs(c, world, w, delay);
      Step(w, Record(delay));
    }

    /** Delivers the first attempt of worker w's batch and moves on to the next: either it marks the row dead
        without a POST, or it POSTs once and records the outcome under the count it remembers plus one. */
    method DeliverAttempt(w: WorkerId, id: RowId, count: nat) returns (ghost steps: seq<Action>)
      requires Valid() && Handling(w, id, count, Ready)
      modifies this
      ensures Valid() && old(trace) <= trace
      ensures OneAttempt(steps) && ByWorker(trace, w) == ByWorker(old(trace), w) + steps
      ensures MovedOn(w, WorkerOf(old(world), w))
      ensures id in rows
      ensures steps[1].MarkGone? ==> rows[id].status.Dead? && rows[id].lastError == Some(SubscriberGone)
      ensures !steps[1].MarkGone? ==>
        && rows[id] == SettledRow(c, count, steps[2].outcome, rows[id].updatedAt, steps[3].delay)
        && rows[id].attemptCount == count + 1
        && (rows[id].status == Delivered <==> steps[2].outcome.Response? && 200 <= steps[2].outcome.code <= 299)
    {
      hide Grows, HistoryOf, Logged, SettledRow;
      var available := RefetchSubscriber(w, id, count);
      if !available {
        MarkDead(w, id, count);
        steps := [Refetch, MarkGone];
        assert ByWorker(trace, w) == ByWorker(old(trace), w) + [Refetch] + [MarkGone];
        return;
      }
      var outcome, now := Post(w, id, count);
      var delay := RecordOutcome(w, id, count, outcome, now);
      steps := [Refetch, SendPost, Receive(outcome), Record(delay)];
      assert ByWorker(trace, w) == ByWorker(old(trace), w) + [Refetch] + [SendPost, Receive(outcome)] + [Record(delay)];
    }

    /** Reads the clock for a new batch. */
    method BeginBatch(w: WorkerId) returns (now: int)
      requires Valid() && WorkerOf(world, w).Idle?
      modifies this
      ensures Valid() && old(trace) <= trace && ByWorker(trace, w) == ByWorker(old(trace), w) + [StartBatch]
      ensures WorkerOf(world, w) == Polling(now)
    {
      hide Grows, HistoryOf, Act, CanAct, Logged, Apply, Enabled;
      now := clock;
      StartBatchIs(c, world, w);
      Step(w, StartBatch);
      Await(Some(w));
    }

    /** Locks the rows of the batch; with nothing due the batch is over. */
    method LockBatch(w: WorkerId, now: int) returns (picked: seq<RowId>, counts: seq<nat>)
      requires Valid() && WorkerOf(world, w) == Polling(now)
      modifies this
      ensures Valid() && old(trace) <= trace
      ensures |counts| == |picked| <= c.batchSize && NoDuplicates(picked)
      ensures ByWorker(trace, w) == ByWorker(old(trace), w) + [SelectRows(picked)]
      ensures if picked == [] then WorkerOf(world, w).Idle? else Holding(w, now, picked, counts) && WorkerOf(world, w).Locked?
      ensures rows == old(rows) && locks == Acquire(old(locks), picked, w)
      ensures forall id :: id in picked ==> id in locks && locks[id] == w && id !in old(locks)
      ensures forall id :: id in old(locks) ==> id in locks && locks[id] == old(locks)[id]
      ensures forall i :: 0 <= i < |picked| ==>
        && picked[i] in rows && counts[i] == rows[picked[i]].attemptCount && rows[picked[i]].nextAttemptAt <= now
        && (rows[picked[i]].status == Pending || rows[picked[i]].status == Failed)
    {
      hide Grows, HistoryOf, Act, CanAct, Logged, Apply, Enabled, CanSelect, Eligible, NoDuplicates, Acquire;
      picked := SelectForUpdate(now);
      AcquireIs(locks, picked, w);
      SelectRowsIs(c, world, w, picked);
      counts := CountsOf(rows, picked);
      locks := Acquire(locks, picked, w);
      Step(w, SelectRows(picked));
    }

    /** Worker w's batch is the rows `picked`, remembered with their `counts`. */
    ghost predicate Holding(w: WorkerId, now: int, picked: seq<RowId>, counts: seq<nat>)
      reads this
    {
      var wk := WorkerOf(world, w);
      && (wk.Locked? || wk.Loaded? || wk.Delivering?) && wk.now == now
      && |wk.todo| == |picked| == |counts|
      && forall i :: 0 <= i < |picked| ==> wk.todo[i].id == picked[i] && wk.todo[i].count == counts[i]
    }

    /** Loads the payloads of the locked rows. */
    method LoadBatch(w: WorkerId, now: int, picked: seq<RowId>, counts: seq<nat>, payloads: RowId -> Payload)
      returns (ghost bodies: seq<Payload>)
      requires Valid() && Holding(w, now, picked, counts) && WorkerOf(world, w).Locked?
      modifies this
      ensures Valid() && old(trace) <= trace
      ensures ByWorker(trace, w) == ByWorker(old(trace), w) + [LoadBodies(bodies)]
      ensures Holding(w, now, picked, counts) && WorkerOf(world, w).Loaded?
    {
      hide Grows, HistoryOf, Act, CanAct, Logged, Apply, Enabled;
      Await(Some(w));
      bodies := seq(|picked|, i requires 0 <= i < |picked| => payloads(picked[i]));
      LoadBodiesIs(c, world, w, bodies);
      Step(w, LoadBodies(bodies));
      ghost var before := ByWorker(trace, w);
      Await(Some(w));
      assert ByWorker(trace, w) == before;
    }

    lemma HoldsTheseRows(w: WorkerId, now: int, picked: seq<RowId>, counts: seq<nat>)
      requires Valid() && Holding(w, now, picked, counts)
      ensures forall id :: InTodo(WorkerOf(world, w).todo, id) <==> id in picked
      ensures forall id :: id in picked ==> id in rows
    {
      SafeRun(c, start, trace);
      assert WorkerOk(c, world, w, world.workers[w]);
      forall i | 0 <= i < |picked| ensures picked[i] in rows {
        assert SnapshotOk(c, world, world.workers[w].todo[i]);
      }
      forall id | id in picked ensures InTodo(WorkerOf(world, w).todo, id) {
        var i :| 0 <= i < |picked| && picked[i] == id;
        assert WorkerOf(world, w).todo[i].id == id;
      }
    }

    /** Marks exactly the locked rows in flight and releases the locks. */
    method CommitBatch(w: WorkerId, now: int, picked: seq<RowId>, counts: seq<nat>)
      requires Valid() && Holding(w, now, picked, counts) && WorkerOf(world, w).Loaded?
      modifies this
      ensures Valid() && old(trace) <= trace
      ensures ByWorker(trace, w) == ByWorker(old(trace), w) + [CommitClaim]
      ensures Holding(w, now, picked, counts) && WorkerOf(world, w).Delivering? && WorkerOf(world, w).phase.Ready?
      ensures (forall id :: id in picked ==> id in old(rows)) && rows.Keys == old(rows).Keys
      ensures forall id :: id in rows ==> rows[id] == if id in picked then old(rows)[id].(status := InFlight, updatedAt := now) else old(rows)[id]
      ensures forall id :: id in locks <==> id in old(locks) && old(locks)[id] != w
      ensures forall id :: id in locks ==> locks[id] == old(locks)[id]
    {
      hide Grows, HistoryOf, Act, CanAct, Logged, Apply, Enabled, InTodo;
      HoldsTheseRows(w, now, picked, counts);
      rows := map id | id in rows :: if id in picked then rows[id].(status := InFlight, updatedAt := now) else rows[id];
      locks := Release(locks, w);
      CommitClaimIs(c, world, w);
      Step(w, CommitClaim);
    }

    /** Delivers the claimed rows one after the other. */
    method DeliverBatch(w: WorkerId, now: int, picked: seq<RowId>, counts: seq<nat>)
      returns (processed: nat, ghost attempts: seq<seq<Action>>)
      requires Valid() && Holding(w, now, picked, counts) && WorkerOf(world, w).Delivering? && WorkerOf(world, w).phase.Ready?
      requires picked != []
      modifies this
      ensures Valid() && old(trace) <= trace && WorkerOf(world, w).Idle?
      ensures processed == |picked| == |attempts|
      ensures forall i :: 0 <= i < |attempts| ==> OneAttempt(attempts[i])
      ensures ByWorker(trace, w) == ByWorker(old(trace), w) + Flatten(attempts)
    {
      hide Logged, WorkerOf, ByWorker, OneAttempt;
      processed, attempts := 0, [];
      ghost var todo := WorkerOf(world, w).todo;
      while processed < |picked|
        invariant Valid() && old(trace) <= trace
        invariant 0 <= processed <= |picked| && |attempts| == processed
        invariant forall i :: 0 <= i < |attempts| ==> OneAttempt(attempts[i])
        invariant ByWorker(trace, w) == ByWorker(old(trace), w) + Flatten(attempts)
        invariant processed == |picked| ==> WorkerOf(world, w).Idle?
        invariant processed < |picked| ==>
          WorkerOf(world, w).Delivering? && WorkerOf(world, w).phase.Ready? && WorkerOf(world, w).todo == todo[processed..]
      {
        assert WorkerOf(world, w).todo[0] == todo[processed];
        ghost var steps := DeliverAttempt(w, picked[processed], counts[processed]);
        FlattenAppend(attempts, steps);
        attempts := attempts + [steps];
        processed := processed + 1;
        assert todo[processed - 1..][1..] == todo[processed..];
      }
    }

    /** Claims a batch and delivers it, whatever happens in between. Returns how many attempts were made: one
        for each claimed row, in claim order, each with at most one POST. The worker ends with no batch. */
    method ProcessBatch(w: WorkerId, payloads: RowId -> Payload)
      returns (processed: nat, ghost picked: seq<RowId>, ghost bodies: seq<Payload>, ghost attempts: seq<seq<Action>>)
      requires Valid() && WorkerOf(world, w).Idle?
      modifies this
      ensures Valid() && old(trace) <= trace && WorkerOf(world, w).Idle?
      ensures processed == |picked| == |attempts| <= c.batchSize && NoDuplicates(picked)
      ensures forall i :: 0 <= i < |attempts| ==> OneAttempt(attempts[i])
      ensures ByWorker(trace, w) == ByWorker(old(trace), w) +
        if processed == 0 then [StartBatch, SelectRows(picked)]
        else [StartBatch, SelectRows(picked), LoadBodies(bodies), CommitClaim] + Flatten(attempts)
    {
      hide Logged, WorkerOf, ByWorker, OneAttempt, Flatten;
      var now := BeginBatch(w);
      var ids, counts := LockBatch(w, now);
      processed, picked, bodies, attempts := 0, ids, [], [];
      ghost var before := ByWorker(old(trace), w);
      assert before + [StartBatch] + [SelectRows(picked)] == before + [StartBatch, SelectRows(picked)];
      if ids == [] { return; }
      bodies := LoadBatch(w, now, ids, counts, payloads);
      CommitBatch(w, now, ids, counts);
      processed, attempts := DeliverBatch(w, now, ids, counts);
      assert before + [StartBatch] + [SelectRows(picked)] + [LoadBodies(bodies)] + [CommitClaim] + Flatten(attempts)
          == before + ([StartBatch, SelectRows(picked), LoadBodies(bodies), CommitClaim] + Flatten(attempts));
    }

    /** The write of a retry: it does not look at the row again, and it leaves the count alone. */
    method WriteRetry(id: RowId) returns (row: Row)
      requires Valid() && id in world.retrying && id in rows && id !in locks
      modifies this
      ensures Valid() && trace == old(trace) + [RetryWrite(id)] && clock == old(clock)
      ensures row == old(rows)[id].(status := Pending, nextAttemptAt := clock, lastError := None, updatedAt := clock)
      ensures rows == old(rows)[id := row]
    {
      hide Grows, HistoryOf, Act, CanAct, Logged;
      row := rows[id].(status := Pending, nextAttemptAt := clock, lastError := None, updatedAt := clock);
      rows := rows[id := row];
      Log(RetryWrite(id));
    }

    /** POST /deliveries/{id}/retry: refused unless the row is dead or failed when read; the write comes later. */
    method RetryDelivery(id: RowId) returns (reply: RetryReply)
      requires Valid()
      modifies this
      ensures Valid() && old(trace) <= trace
      ensures reply.NotFound? <==> id !in old(rows)
      ensures reply.Conflict? <==> id in old(rows) && old(rows)[id].status != Dead && old(rows)[id].status != Failed
      ensures reply.Conflict? ==> reply.status == old(rows)[id].status
      ensures !reply.Accepted? ==> rows == old(rows) && trace == old(trace)
      ensures reply.Accepted? ==>
        && id in rows && rows[id] == reply.row
        && reply.row.status.Pending? && reply.row.nextAttemptAt == clock && reply.row.lastError == None
        && trace[|trace| - 1] == RetryWrite(id)
    {
      hide Grows, HistoryOf, Act, CanAct, Logged;
      if id !in rows { return NotFound; }
      if !rows[id].status.Dead? && !rows[id].status.Failed? { return Conflict(rows[id].status); }
      Log(RetryRead(id));
      AwaitLock(None, id);
      var row := WriteRetry(id);
      return Accepted(row);
    }
  }

  lemma AcquireIs(locks: map<RowId, WorkerId>, picked: seq<RowId>, w: WorkerId)
    requires forall i :: 0 <= i < |picked| ==> picked[i] !in locks
    ensures var locks' := Acquire(locks, picked, w);
      && (forall id :: id in picked ==> id in locks' && locks'[id] == w && id !in locks)
      && (forall id :: id in locks ==> id in locks' && locks'[id] == locks[id])
  {
  }

  lemma FlattenAppend(parts: seq<seq<Action>>, part: seq<Action>)
    ensures Flatten(parts + [part]) == Flatten(parts) + part
  {
    assert (parts + [part])[..|parts|] == parts;
  }

  function CountsOf(rows: map<RowId, Row>, picked: seq<RowId>): (counts: seq<nat>)
    requires forall i :: 0 <= i < |picked| ==> picked[i] in rows
    ensures |counts| == |picked| && forall i :: 0 <= i < |picked| ==> counts[i] == rows[picked[i]].attemptCount
  {
    if picked == [] then [] else [rows[picked[0]].attemptCount] + CountsOf(rows, picked[1..])
  }
}
