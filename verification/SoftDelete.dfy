/** What deactivating or deleting a subscriber cuts off, in every interleaving. */
module SoftDelete {
  import opened Types
  import opened Delivery
  import opened DeliverySafety

  /** The subscriber is missing, inactive or deleted. */
  predicate Off(subs: Subscribers, sub: SubscriberId) { !(sub in subs && subs[sub].active && !subs[sub].deleted) }

  /** A run on which the subscriber stays so. */
  ghost predicate StaysOff(c: Config, s: State, es: seq<Event>, sub: SubscriberId)
    decreases |es|
  {
    Off(s.subs, sub) && (es == [] || (Enabled(c, s, es[0]) && StaysOff(c, Apply(c, s, es[0]), es[1..], sub)))
  }

  lemma {:induction false} DeletedStaysOff(c: Config, s: State, es: seq<Event>, sub: SubscriberId)
    requires Deleted(s.subs, sub) && IsRun(c, s, es)
    ensures StaysOff(c, s, es, sub) && Deleted(After(c, s, es).subs, sub)
    decreases |es|
  {
    hide Enabled, Apply;
    if es != [] {
      DeletionIsNotUndone(c, s, es[0], sub);
      DeletedStaysOff(c, Apply(c, s, es[0]), es[1..], sub);
    }
  }

  /** Workers past the re-fetch of a subscriber and not yet POSTing to it. */
  ghost function Armed(s: State, sub: SubscriberId): set<WorkerId> {
    set w | w in s.workers && IsArmed(s.workers[w], sub)
  }

  predicate IsArmed(wk: Worker, sub: SubscriberId) {
    wk.Delivering? && wk.todo != [] && wk.phase.Cleared? && wk.todo[0].id.subscriber == sub
  }

  lemma DeletionIsNotUndone(c: Config, s: State, e: Event, sub: SubscriberId)
    requires Enabled(c, s, e) && Deleted(s.subs, sub)
    ensures Deleted(Apply(c, s, e).subs, sub)
  {
    hide Act, CanAct, Grows;
  }

  lemma WorkerPosts(c: Config, s: State, w: WorkerId, a: Action, sub: SubscriberId)
    requires CanAct(c, s, w, a) && Off(s.subs, sub)
    ensures var s' := Act(c, s, w, a);
      && (IsArmed(s'.workers[w], sub) ==> IsArmed(WorkerOf(s, w), sub) && PostsTo(s', sub) == PostsTo(s, sub))
      && PostsTo(s', sub) <= PostsTo(s, sub) + (if IsArmed(WorkerOf(s, w), sub) then 1 else 0)
  {
    hide Grows, HistoryOf, ClaimRows, SettledRow, CanSelect;
  }

  /** While a subscriber is off, POSTs to it plus armed workers never grow. */
  lemma ArmedStep(c: Config, s: State, e: Event, sub: SubscriberId)
    requires Enabled(c, s, e) && Off(s.subs, sub)
    ensures PostsTo(Apply(c, s, e), sub) + |Armed(Apply(c, s, e), sub)| <= PostsTo(s, sub) + |Armed(s, sub)|
  {
    hide Act, CanAct, Grows, IsArmed, Off;
    var s' := Apply(c, s, e);
    if e.Work? {
      WorkerPosts(c, s, e.w, e.action, sub);
      if PostsTo(s', sub) > PostsTo(s, sub) {
        NotArmedWhenIdle(sub);
        assert Armed(s', sub) <= Armed(s, sub) - {e.w};
        SubsetIsNoLarger(Armed(s', sub), Armed(s, sub) - {e.w});
      } else {
        NotArmedWhenIdle(sub);
        SubsetIsNoLarger(Armed(s', sub), Armed(s, sub));
      }
    } else {
      HappenGrows(c, s, e);
      assert Armed(s', sub) == Armed(s, sub);
    }
  }

  lemma NotArmedWhenIdle(sub: SubscriberId)
    ensures !IsArmed(Idle, sub)
  {
  }

  // ----- The theorems

  /** While a subscriber is inactive, deleted or missing, at most one POST to it begins per worker that was past its
      re-fetch. */
  lemma {:induction false} PostsWhileOff(c: Config, s: State, es: seq<Event>, sub: SubscriberId)
    requires StaysOff(c, s, es, sub)
    ensures IsRun(c, s, es)
    ensures PostsTo(After(c, s, es), sub) + |Armed(After(c, s, es), sub)| <= PostsTo(s, sub) + |Armed(s, sub)|
    decreases |es|
  {
    hide Enabled, Apply, Armed, Off;
    if es != [] {
      ArmedStep(c, s, es[0], sub);
      PostsWhileOff(c, Apply(c, s, es[0]), es[1..], sub);
    }
  }

  /** An inactive, deleted or missing subscriber can still be POSTed to before it is available again if and only if some
      worker was past its re-fetch. */
  lemma PostWhileOffIff(c: Config, s: State, sub: SubscriberId)
    requires Off(s.subs, sub)
    ensures (exists es :: StaysOff(c, s, es, sub) && IsRun(c, s, es) && PostsTo(After(c, s, es), sub) > PostsTo(s, sub))
      <==> Armed(s, sub) != {}
  {
    if es :| StaysOff(c, s, es, sub) && IsRun(c, s, es) && PostsTo(After(c, s, es), sub) > PostsTo(s, sub) {
      PostsWhileOff(c, s, es, sub);
    }
    if w :| w in Armed(s, sub) {
      var es := [Work(w, SendPost)];
      RunOfOne(c, s, Work(w, SendPost));
      SendPostIs(c, s, w);
      assert StaysOff(c, s, es, sub);
    }
  }

  /** After a deletion commits it is never undone, and at most one further POST to the subscriber begins
      per worker that was past its re-fetch. */
  lemma PostsAfterDeletion(c: Config, s: State, es: seq<Event>, sub: SubscriberId)
    requires Deleted(s.subs, sub) && IsRun(c, s, es)
    ensures Deleted(After(c, s, es).subs, sub)
    ensures PostsTo(After(c, s, es), sub) <= PostsTo(s, sub) + |Armed(s, sub)|
  {
    DeletedStaysOff(c, s, es, sub);
    PostsWhileOff(c, s, es, sub);
  }

  /** A deleted subscriber can still be POSTed to if and only if some worker was past its re-fetch. */
  lemma PostAfterDeletionIff(c: Config, s: State, sub: SubscriberId)
    requires Deleted(s.subs, sub)
    ensures (exists es :: IsRun(c, s, es) && PostsTo(After(c, s, es), sub) > PostsTo(s, sub)) <==> Armed(s, sub) != {}
  {
    if es :| IsRun(c, s, es) && PostsTo(After(c, s, es), sub) > PostsTo(s, sub) {
      PostsAfterDeletion(c, s, es, sub);
    }
    if w :| w in Armed(s, sub) {
      RunOfOne(c, s, Work(w, SendPost));
    }
  }

  /** Worker w has row x at the head of its batch and has not been cleared to POST it. */
  ghost predicate Uncleared(s: State, w: WorkerId, todo: seq<Snapshot>) {
    && Busy(s, w) && WorkerOf(s, w).todo == todo
    && (WorkerOf(s, w).phase.Ready? || WorkerOf(s, w).phase.Gone?)
  }

  lemma UnclearedStep(c: Config, s: State, e: Event, w: WorkerId, todo: seq<Snapshot>)
    requires Enabled(c, s, e) && Uncleared(s, w, todo) && Off(s.subs, todo[0].id.subscriber)
    requires e != Work(w, MarkGone) && e != Work(w, Crash)
    ensures Uncleared(Apply(c, s, e), w, todo)
  {
    hide Act, CanAct, Grows;
    if e.Work? && e.w == w {
      OnlyGoneIsLeft(c, s, w, e.action, todo);
    } else if !e.Work? {
      HappenGrows(c, s, e);
    }
  }

  /** What w can do with an uncleared row of a subscriber that is off, and what it makes of it. */
  lemma OnlyGoneIsLeft(c: Config, s: State, w: WorkerId, a: Action, todo: seq<Snapshot>)
    requires CanAct(c, s, w, a) && Uncleared(s, w, todo) && Off(s.subs, todo[0].id.subscriber)
    ensures a.Refetch? || a.MarkGone? || a.Crash?
    ensures a.Refetch? ==> Uncleared(Act(c, s, w, a), w, todo)
    ensures HistoryOf(Act(c, s, w, a), todo[0].id).posts == HistoryOf(s, todo[0].id).posts
    ensures a.MarkGone? ==>
      && todo[0].id in s.rows
      && Act(c, s, w, a).rows[todo[0].id].status.Dead?
      && Act(c, s, w, a).rows[todo[0].id].lastError == Some(SubscriberGone)
      && Act(c, s, w, a).rows[todo[0].id].attemptCount == s.rows[todo[0].id].attemptCount
  {
    hide Grows, CanSelect;
  }

  /** What is left for w to do at a row it has not been cleared to POST. */
  ghost predicate EndsDead(c: Config, t: State, w: WorkerId, id: RowId, a: Action) {
    CanAct(c, t, w, a) ==>
      && (a.Refetch? || a.MarkGone? || a.Crash?)
      && HistoryOf(Act(c, t, w, a), id).posts == HistoryOf(t, id).posts
      && (a.MarkGone? ==>
            && id in t.rows
            && Act(c, t, w, a).rows[id].status == Dead
            && Act(c, t, w, a).rows[id].lastError == Some(SubscriberGone)
            && Act(c, t, w, a).rows[id].attemptCount == t.rows[id].attemptCount)
  }

  /** A claimed row of an inactive, deleted or missing subscriber ends dead. When w comes to such a row, then as long as
      the subscriber stays so, w stays at the row, uncleared, until it marks it dead or crashes: its only other step is
      the re-fetch, so it never POSTs; and marking it dead leaves its count and its POSTs as they are then, whatever
      others did in between. */
  lemma {:induction false} ClaimWhileOffEndsDead(c: Config, s: State, es: seq<Event>, w: WorkerId, todo: seq<Snapshot>, a: Action)
    requires Uncleared(s, w, todo) && StaysOff(c, s, es, todo[0].id.subscriber)
    requires Work(w, MarkGone) !in es && Work(w, Crash) !in es
    ensures IsRun(c, s, es) && Uncleared(After(c, s, es), w, todo) && EndsDead(c, After(c, s, es), w, todo[0].id, a)
    decreases |es|
  {
    hide Enabled, Apply, Act, CanAct, Uncleared, Off;
    UnclearedIsBusy(s, w, todo);
    if es == [] {
      if CanAct(c, s, w, a) { OnlyGoneIsLeft(c, s, w, a, todo); }
    } else {
      UnclearedStep(c, s, es[0], w, todo);
      ClaimWhileOffEndsDead(c, Apply(c, s, es[0]), es[1..], w, todo, a);
    }
  }

  /** Every claim of a deleted subscriber's row ends so, in every run. */
  lemma ClaimEndsDead(c: Config, s: State, es: seq<Event>, w: WorkerId, todo: seq<Snapshot>, a: Action)
    requires IsRun(c, s, es) && Work(w, MarkGone) !in es && Work(w, Crash) !in es
    requires Uncleared(s, w, todo) && Deleted(s.subs, todo[0].id.subscriber)
    ensures Uncleared(After(c, s, es), w, todo) && EndsDead(c, After(c, s, es), w, todo[0].id, a)
  {
    DeletedStaysOff(c, s, es, todo[0].id.subscriber);
    ClaimWhileOffEndsDead(c, s, es, w, todo, a);
  }

  lemma UnclearedIsBusy(s: State, w: WorkerId, todo: seq<Snapshot>)
    requires Uncleared(s, w, todo)
    ensures todo != []
  {
  }

  ghost predicate NobodyPast(s: State, id: RowId) {
    forall w :: w in s.workers ==> !IsPast(s.workers[w], id)
  }

  predicate IsPast(wk: Worker, id: RowId) {
    wk.Delivering? && wk.todo != [] && wk.todo[0].id == id && !wk.phase.Ready? && !wk.phase.Gone?
  }

  /** Count, POSTs and response of a row stay, and it does not become delivered. */
  ghost predicate SameAttempts(s: State, s': State, id: RowId) {
    && id in s.rows && id in s'.rows
    && s'.rows[id].attemptCount == s.rows[id].attemptCount
    && s'.rows[id].lastHttpStatus == s.rows[id].lastHttpStatus
    && HistoryOf(s', id).posts == HistoryOf(s, id).posts
    && (s'.rows[id].status.Delivered? ==> s.rows[id].status.Delivered?)
  }

  lemma FrozenActed(c: Config, s: State, w: WorkerId, a: Action, id: RowId)
    requires CanAct(c, s, w, a) && id in s.rows && Off(s.subs, id.subscriber) && !IsPast(WorkerOf(s, w), id)
    ensures SameAttempts(s, Act(c, s, w, a), id) && !IsPast(Act(c, s, w, a).workers[w], id)
  {
    hide Grows, CanSelect;
  }

  lemma FrozenStep(c: Config, s: State, e: Event, id: RowId)
    requires Enabled(c, s, e) && id in s.rows && Off(s.subs, id.subscriber) && NobodyPast(s, id)
    ensures SameAttempts(s, Apply(c, s, e), id) && NobodyPast(Apply(c, s, e), id)
  {
    hide Act, CanAct, Grows, IsPast, Off;
    if e.Work? {
      assert !IsPast(Idle, id) by { NotPastWhenIdle(id); }
      FrozenActed(c, s, e.w, e.action, id);
    } else {
      HappenGrows(c, s, e);
    }
  }

  lemma NotPastWhenIdle(id: RowId)
    ensures !IsPast(Idle, id)
  {
  }

  /** If no worker is past the re-fetch of a row, then as long as its subscriber is inactive, deleted or missing, the
      row's count, POSTs and response stay and it does not become delivered, whatever retries and claims follow. */
  lemma {:induction false} RowIsFrozenWhileOff(c: Config, s: State, es: seq<Event>, id: RowId)
    requires StaysOff(c, s, es, id.subscriber) && id in s.rows && NobodyPast(s, id)
    ensures IsRun(c, s, es) && SameAttempts(s, After(c, s, es), id)
    decreases |es|
  {
    hide Enabled, Apply, NobodyPast, Off;
    if es != [] {
      FrozenStep(c, s, es[0], id);
      RowIsFrozenWhileOff(c, Apply(c, s, es[0]), es[1..], id);
    }
  }

  /** For a deleted subscriber that is for ever. */
  lemma RowOfDeletedSubscriberIsFrozen(c: Config, s: State, es: seq<Event>, id: RowId)
    requires IsRun(c, s, es) && id in s.rows && Deleted(s.subs, id.subscriber) && NobodyPast(s, id)
    ensures SameAttempts(s, After(c, s, es), id)
  {
    DeletedStaysOff(c, s, es, id.subscriber);
    RowIsFrozenWhileOff(c, s, es, id);
  }
}
