/** What the history of the delivery machine counts, and what becomes of an answer, in terms of the events of a run and
    the stored columns alone. */
module DeliveryHistory {
  import opened Types
  import opened Delivery
  import opened DeliverySafety

  // ----- The history is the tally of the run

  /** The row that worker w is at. */
  predicate IsAt(s: State, w: WorkerId, id: RowId) {
    WorkerOf(s, w).Delivering? && WorkerOf(s, w).todo != [] && WorkerOf(s, w).todo[0].id == id
  }

  function One(b: bool): nat { if b then 1 else 0 }

  predicate Sends(s: State, e: Event, id: RowId) { e.Work? && e.action.SendPost? && IsAt(s, e.w, id) }

  predicate Claims(s: State, e: Event, id: RowId) {
    e.Work? && e.action.CommitClaim? && WorkerOf(s, e.w).Loaded? && InTodo(WorkerOf(s, e.w).todo, id)
  }

  predicate Resets(c: Config, s: State, e: Event, id: RowId) {
    && e.ResetStale? && id in s.rows
    && s.rows[id].status == InFlight && s.rows[id].updatedAt < e.readAt - c.staleAfter
  }

  predicate Retries(e: Event, id: RowId) { e == Retry(id) || e == RetryWrite(id) }
  predicate Records(s: State, e: Event, id: RowId) { e.Work? && e.action.Record? && IsAt(s, e.w, id) }
  predicate Buries(s: State, e: Event, id: RowId) { e.Work? && e.action.MarkGone? && IsAt(s, e.w, id) }

  /** A 2xx comes back: any status code from 200 to 299. */
  predicate Hears2xx(s: State, e: Event, id: RowId) {
    && e.Work? && e.action.Receive? && IsAt(s, e.w, id)
    && e.action.outcome.Response? && 200 <= e.action.outcome.code <= 299
  }

  /** The re-fetch finds no subscriber that is active and not deleted. */
  predicate FindsNobody(s: State, e: Event, id: RowId) {
    && e.Work? && e.action.Refetch? && IsAt(s, e.w, id)
    && !(id.subscriber in s.subs && s.subs[id.subscriber].active && !s.subs[id.subscriber].deleted)
  }

  function Noted(c: Config, s: State, e: Event, id: RowId, h: History): History {
    History(h.posts + One(Sends(s, e, id)), h.claims + One(Claims(s, e, id)), h.resets + One(Resets(c, s, e, id)),
            h.retries + One(Retries(e, id)), h.recorded + One(Records(s, e, id)), h.goneDeaths + One(Buries(s, e, id)),
            h.got2xx || Hears2xx(s, e, id), h.seenGone || FindsNobody(s, e, id))
  }

  ghost function Tally(c: Config, s: State, es: seq<Event>, id: RowId, h: History): History
    requires IsRun(c, s, es)
    decreases |es|
  {
    if es == [] then h else Tally(c, Apply(c, s, es[0]), es[1..], id, Noted(c, s, es[0], id, h))
  }

  lemma ClaimCounted(c: Config, s: State, w: WorkerId, id: RowId)
    requires Safe(c, s) && CanAct(c, s, w, CommitClaim)
    ensures HistoryOf(Act(c, s, w, CommitClaim), id) == Noted(c, s, Work(w, CommitClaim), id, HistoryOf(s, id))
  {
    hide Rows, Locks, Fresh, Grows;
    assert WorkerOk(c, s, w, s.workers[w]);
    var todo := s.workers[w].todo;
    if InTodo(todo, id) {
      var i :| 0 <= i < |todo| && todo[i].id == id;
      assert HoldsLock(s, w, s.workers[w].now, todo[i]);
    }
  }

  lemma OtherActionCounted(c: Config, s: State, w: WorkerId, a: Action, id: RowId)
    requires CanAct(c, s, w, a) && !a.CommitClaim?
    ensures HistoryOf(Act(c, s, w, a), id) == Noted(c, s, Work(w, a), id, HistoryOf(s, id))
  {
    hide Grows, SettledRow, CanSelect;
  }

  lemma HappeningCounted(c: Config, s: State, e: Event, id: RowId)
    requires !e.Work? && CanHappen(s, e)
    ensures HistoryOf(Happen(c, s, e), id) == Noted(c, s, e, id, HistoryOf(s, id))
  {
  }

  lemma StepCounted(c: Config, s: State, e: Event, id: RowId)
    requires Safe(c, s) && Enabled(c, s, e)
    ensures HistoryOf(Apply(c, s, e), id) == Noted(c, s, e, id, HistoryOf(s, id))
  {
    hide Act, CanAct, Happen, CanHappen, HistoryOf, Noted, Safe;
    if !e.Work? {
      HappeningCounted(c, s, e, id);
    } else if e.action.CommitClaim? {
      ClaimCounted(c, s, e.w, id);
    } else {
      OtherActionCounted(c, s, e.w, e.action, id);
    }
  }

  lemma {:induction false} RunCounted(c: Config, s: State, es: seq<Event>, id: RowId)
    requires c.maxAttempts >= 1 && Safe(c, s) && IsRun(c, s, es)
    ensures HistoryOf(After(c, s, es), id) == Tally(c, s, es, id, HistoryOf(s, id))
    decreases |es|
  {
    hide Enabled, Apply, HistoryOf, Noted, Safe;
    if es != [] {
      StepCounted(c, s, es[0], id);
      SafeStep(c, s, es[0]);
      RunCounted(c, Apply(c, s, es[0]), es[1..], id);
    }
  }

  /** The history of a row is exactly what happened to it in the run: POSTs begun, claims, stale resets, retries,
      outcomes stored, deaths without a POST, whether a status code from 200 to 299 came back, and whether a re-fetch
      found the subscriber missing, inactive or deleted. */
  lemma HistoryIsTheTally(c: Config, s0: State, es: seq<Event>, id: RowId)
    requires c.maxAttempts >= 1 && Initial(s0) && IsRun(c, s0, es)
    ensures HistoryOf(After(c, s0, es), id) == Tally(c, s0, es, id, History(0, 0, 0, 0, 0, 0, false, false))
  {
    SafeInitially(c, s0);
    RunCounted(c, s0, es, id);
  }

  /** The POSTs of a run, in order: the row each goes to. */
  ghost function Posts(c: Config, s: State, es: seq<Event>): seq<RowId>
    requires IsRun(c, s, es)
    decreases |es|
  {
    if es == [] then [] else
    (if es[0].Work? && es[0].action.SendPost? then [WorkerOf(s, es[0].w).todo[0].id] else []) + Posts(c, Apply(c, s, es[0]), es[1..])
  }

  function To(posts: seq<RowId>, sub: SubscriberId): nat {
    if posts == [] then 0 else One(posts[0].subscriber == sub) + To(posts[1..], sub)
  }

  lemma SendSent(c: Config, s: State, w: WorkerId, sub: SubscriberId)
    requires CanAct(c, s, w, SendPost)
    ensures var s' := Act(c, s, w, SendPost);
      && WorkerOf(s, w).Delivering? && WorkerOf(s, w).todo != []
      && s'.sent == s.sent + [WorkerOf(s, w).todo[0].load]
      && PostsTo(s', sub) == PostsTo(s, sub) + One(WorkerOf(s, w).todo[0].id.subscriber == sub)
  {
    hide Grows, HistoryOf;
  }

  lemma NothingSent(c: Config, s: State, w: WorkerId, a: Action)
    requires CanAct(c, s, w, a) && !a.SendPost?
    ensures Act(c, s, w, a).sent == s.sent && Act(c, s, w, a).postsTo == s.postsTo
  {
    hide Grows, SettledRow, CanSelect, HistoryOf;
  }

  lemma PostSent(c: Config, s: State, e: Event, sub: SubscriberId)
    requires Enabled(c, s, e)
    ensures var s' := Apply(c, s, e);
      if e.Work? && e.action.SendPost? then
        && WorkerOf(s, e.w).Delivering? && WorkerOf(s, e.w).todo != []
        && s'.sent == s.sent + [WorkerOf(s, e.w).todo[0].load]
        && PostsTo(s', sub) == PostsTo(s, sub) + One(WorkerOf(s, e.w).todo[0].id.subscriber == sub)
      else s'.sent == s.sent && PostsTo(s', sub) == PostsTo(s, sub)
  {
    hide Act, CanAct, Grows, HistoryOf;
    if e.Work? {
      if e.action.SendPost? { SendSent(c, s, e.w, sub); } else { NothingSent(c, s, e.w, e.action); }
    }
  }

  lemma ToOfPrefix(id: RowId, rest: seq<RowId>, sub: SubscriberId)
    ensures To([id] + rest, sub) == One(id.subscriber == sub) + To(rest, sub)
  {
    assert ([id] + rest)[1..] == rest;
  }

  /** Every POST of a run is recorded as sent, and counted for its subscriber. */
  lemma {:induction false} PostsAreCounted(c: Config, s: State, es: seq<Event>, sub: SubscriberId)
    requires IsRun(c, s, es)
    ensures |After(c, s, es).sent| == |s.sent| + |Posts(c, s, es)|
    ensures PostsTo(After(c, s, es), sub) == PostsTo(s, sub) + To(Posts(c, s, es), sub)
    decreases |es|
  {
    hide Enabled, Apply, PostsTo;
    if es != [] {
      var e, t := es[0], Apply(c, s, es[0]);
      PostSent(c, s, e, sub);
      PostsAreCounted(c, t, es[1..], sub);
      if e.Work? && e.action.SendPost? {
        ToOfPrefix(WorkerOf(s, e.w).todo[0].id, Posts(c, t, es[1..]), sub);
      } else {
        assert [] + Posts(c, t, es[1..]) == Posts(c, t, es[1..]);
      }
    }
  }

  /** The newest clock reading of a stale reset in the run, or `newest` if that is later. */
  function NewestReset(es: seq<Event>, newest: int): int {
    if es == [] then newest else
    NewestReset(es[1..], if es[0].ResetStale? && es[0].readAt > newest then es[0].readAt else newest)
  }

  lemma ResetNoted(c: Config, s: State, e: Event)
    requires Enabled(c, s, e)
    ensures Apply(c, s, e).lastReset == if e.ResetStale? && e.readAt > s.lastReset then e.readAt else s.lastReset
  {
    hide Act, CanAct, Grows;
  }

  /** `lastReset` is the newest clock reading of a stale reset, or the time of the start. */
  lemma {:induction false} LastResetIsTheNewest(c: Config, s: State, es: seq<Event>)
    requires IsRun(c, s, es)
    ensures After(c, s, es).lastReset == NewestReset(es, s.lastReset)
    decreases |es|
  {
    hide Enabled, Apply;
    if es != [] {
      ResetNoted(c, s, es[0]);
      LastResetIsTheNewest(c, Apply(c, s, es[0]), es[1..]);
    }
  }

  // ----- What becomes of an answer

  predicate NotBy(es: seq<Event>, w: WorkerId) { forall i :: 0 <= i < |es| ==> !(es[i].Work? && es[i].w == w) }

  lemma OthersLeaveIt(c: Config, s: State, e: Event, w: WorkerId)
    requires Enabled(c, s, e) && !(e.Work? && e.w == w)
    ensures WorkerOf(Apply(c, s, e), w) == WorkerOf(s, w)
  {
    hide Act, CanAct, Grows;
    if !e.Work? { HappenGrows(c, s, e); }
  }

  lemma {:induction false} OthersLeaveItRun(c: Config, s: State, es: seq<Event>, w: WorkerId)
    requires IsRun(c, s, es) && NotBy(es, w)
    ensures WorkerOf(After(c, s, es), w) == WorkerOf(s, w)
    decreases |es|
  {
    hide Enabled, Apply, WorkerOf;
    if es != [] {
      OthersLeaveIt(c, s, es[0], w);
      OthersLeaveItRun(c, Apply(c, s, es[0]), es[1..], w);
    }
  }

  lemma AnswerNoted(c: Config, s: State, w: WorkerId, o: Outcome)
    requires CanAct(c, s, w, Receive(o))
    ensures var wk := WorkerOf(Act(c, s, w, Receive(o)), w);
      && WorkerOf(s, w).Delivering? && WorkerOf(s, w).todo != []
      && wk.Delivering? && wk.todo == WorkerOf(s, w).todo && wk.phase == Posted(o, s.clock)
  {
    hide Grows;
  }

  lemma RecordColumns(c: Config, s: State, w: WorkerId, a: Action)
    requires CanAct(c, s, w, a) && WorkerOf(s, w).Delivering? && WorkerOf(s, w).todo != [] && WorkerOf(s, w).phase.Posted?
    ensures a.Record? || a.Crash?
    ensures a.Record? ==>
      var x, o, at := WorkerOf(s, w).todo[0], WorkerOf(s, w).phase.outcome, WorkerOf(s, w).phase.at;
      && x.id in Act(c, s, w, a).rows
      && Stored(c, Act(c, s, w, a).rows[x.id], x.count, o, at, a.delay)
  {
    hide Grows;
  }

  /** The columns an answer leaves in its row: delivered for every status code from 200 to 299 and for nothing else,
      otherwise dead at the limit, otherwise failed and due again `delay` after the answer. */
  ghost predicate Stored(c: Config, row: Row, count: nat, o: Outcome, at: int, delay: nat) {
    && row.attemptCount == count + 1 && row.updatedAt == at
    && row.lastHttpStatus == (if o.Response? then Some(o.code) else None)
    && (row.status == Delivered <==> o.Response? && 200 <= o.code <= 299)
    && (row.status == Dead <==> !(o.Response? && 200 <= o.code <= 299) && count + 1 >= c.maxAttempts)
    && (row.status == Failed <==> !(o.Response? && 200 <= o.code <= 299) && count + 1 < c.maxAttempts)
    && (row.status == Failed ==> row.nextAttemptAt == at + delay && delay <= BackoffCap(c, count + 1))
    && (row.status == Delivered <==> row.lastError == None)
  }

  /** A 2xx is recorded as delivered. When an answer comes back to worker w, then whatever others do before w's next
      step, that step is a crash or stores the answer in the row: delivered, with its code, for every code from 200 to
      299; never failed or dead for one of these, and never delivered for anything else. */
  lemma AnswersAreRecorded(c: Config, s: State, w: WorkerId, o: Outcome, es: seq<Event>, a: Action)
    requires CanAct(c, s, w, Receive(o)) && IsRun(c, Act(c, s, w, Receive(o)), es) && NotBy(es, w)
    requires CanAct(c, After(c, Act(c, s, w, Receive(o)), es), w, a)
    ensures WorkerOf(s, w).Delivering? && WorkerOf(s, w).todo != [] && (a.Record? || a.Crash?)
    ensures a.Record? ==>
      var x, t' := WorkerOf(s, w).todo[0], Act(c, After(c, Act(c, s, w, Receive(o)), es), w, a);
      x.id in t'.rows && Stored(c, t'.rows[x.id], x.count, o, s.clock, a.delay)
  {
    hide Act, CanAct, Stored;
    AnswerNoted(c, s, w, o);
    OthersLeaveItRun(c, Act(c, s, w, Receive(o)), es, w);
    RecordColumns(c, After(c, Act(c, s, w, Receive(o)), es), w, a);
  }

  // ----- The backoff

  function Smaller(x: nat, y: nat): nat { if x < y then x else y }

  /** The cap starts at the base delay and doubles with each attempt until it reaches the maximum, where it stays. */
  lemma BackoffDoubles(c: Config, n: nat)
    ensures BackoffCap(c, 0) == Smaller(c.baseDelay, c.maxDelay)
    ensures BackoffCap(c, n + 1) == Smaller(2 * BackoffCap(c, n), c.maxDelay)
  {
    assert c.baseDelay * Power2(n + 1) == 2 * (c.baseDelay * Power2(n));
  }

  /** The defaults: ten attempts; up to 2 s before the second, 256 s before the ninth, and 300 s before the tenth. */
  lemma DefaultBackoff()
    ensures DEFAULTS.maxAttempts == 10
    ensures BackoffCap(DEFAULTS, 1) == 2_000 && BackoffCap(DEFAULTS, 8) == 256_000 && BackoffCap(DEFAULTS, 9) == 300_000
  {
    assert Power2(1) == 2 && Power2(2) == 4 && Power2(4) == 16 && Power2(6) == 64 && Power2(8) == 256 && Power2(9) == 512;
  }
}
