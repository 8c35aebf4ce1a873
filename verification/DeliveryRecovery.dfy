/** No row stays stuck. Holds in every interleaving, for whatever time claims take to commit. */
module DeliveryRecovery {
  import opened Types
  import opened Delivery
  import opened DeliverySafety

  /** A worker that has read the clock for a claim commits it, or gives up, within `overhead`. */
  ghost predicate Prompt(overhead: nat, s: State) {
    forall w :: w in s.workers ==>
      var wk := s.workers[w];
      wk.Polling? || wk.Locked? || wk.Loaded? ==> s.clock <= wk.now + overhead
  }

  ghost predicate IsPromptRun(c: Config, overhead: nat, s: State, es: seq<Event>)
    decreases |es|
  {
    && Prompt(overhead, s)
    && (es == [] || (Enabled(c, s, es[0]) && IsPromptRun(c, overhead, Apply(c, s, es[0]), es[1..])))
  }

  /** How long before a reset a row may have been claimed that the reset leaves in flight: it was too young to be
      stale, or its claim had read the clock and was yet to commit. */
  function Window(c: Config, overhead: nat): nat { if c.staleAfter >= overhead then c.staleAfter else overhead }

  ghost predicate RowYoung(c: Config, overhead: nat, lastReset: int, row: Row) {
    row.status.InFlight? ==> row.updatedAt + Window(c, overhead) >= lastReset
  }

  ghost predicate Young(c: Config, overhead: nat, s: State) {
    forall id :: id in s.rows ==> RowYoung(c, overhead, s.lastReset, s.rows[id])
  }

  lemma YoungActed(c: Config, overhead: nat, s: State, w: WorkerId, a: Action, id: RowId)
    requires CanAct(c, s, w, a) && Prompt(overhead, s) && s.lastReset <= s.clock
    requires id in s.rows && RowYoung(c, overhead, s.lastReset, s.rows[id])
    ensures RowYoung(c, overhead, s.lastReset, Act(c, s, w, a).rows[id])
  {
    hide Grows, HistoryOf, CanSelect;
  }

  lemma YoungStep(c: Config, overhead: nat, s: State, e: Event)
    requires Safe(c, s) && Young(c, overhead, s) && Prompt(overhead, s) && Enabled(c, s, e)
    ensures Young(c, overhead, Apply(c, s, e))
  {
    hide Act, CanAct, Rows, Workers, Locks, Prompt, HistoryOf;
    var s' := Apply(c, s, e);
    forall id | id in s'.rows ensures RowYoung(c, overhead, s'.lastReset, s'.rows[id]) {
      assert id in s.rows ==> RowYoung(c, overhead, s.lastReset, s.rows[id]);
      if e.Work? { YoungActed(c, overhead, s, e.w, e.action, id); }
    }
  }

  lemma {:induction false} YoungRun(c: Config, overhead: nat, s: State, es: seq<Event>)
    requires c.maxAttempts >= 1
    requires Safe(c, s) && Young(c, overhead, s) && IsPromptRun(c, overhead, s, es)
    ensures IsRun(c, s, es) && Safe(c, After(c, s, es)) && Young(c, overhead, After(c, s, es))
    decreases |es|
  {
    hide Enabled, Apply, Safe, Young, Prompt;
    if es != [] {
      SafeStep(c, s, es[0]);
      YoungStep(c, overhead, s, es[0]);
      YoungRun(c, overhead, Apply(c, s, es[0]), es[1..]);
    }
  }

  /** While the newest stale reset is at most `period` old, a row in flight is at most `period` older
      than the stale window (or than a claim takes to commit, if that is longer), and a waiting row falls due within
      the backoff cap. */
  lemma NoRowStaysStuck(c: Config, overhead: nat, period: nat, s0: State, es: seq<Event>, id: RowId)
    requires c.maxAttempts >= 1
    requires Initial(s0) && IsPromptRun(c, overhead, s0, es) && IsRun(c, s0, es)
    requires After(c, s0, es).clock <= After(c, s0, es).lastReset + period
    requires id in After(c, s0, es).rows
    ensures var t := After(c, s0, es);
      var row := t.rows[id];
      match row.status
      case InFlight => t.clock - row.updatedAt <= Window(c, overhead) + period
      case Pending => row.nextAttemptAt <= t.clock + c.maxDelay
      case Failed => row.nextAttemptAt <= t.clock + c.maxDelay
      case _ => true
  {
    SafeInitially(c, s0);
    YoungRun(c, overhead, s0, es);
    var t := After(c, s0, es);
    assert RowYoung(c, overhead, t.lastReset, t.rows[id]) && RowOk(c, t.clock, t.rows[id], HistoryOf(t, id));
  }
}
