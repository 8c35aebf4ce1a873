/** How fast a reconciler empties a set of stale keys that no handler is working on: in every run of the machine, as
    long as no other key goes stale, whatever handlers, publishers and the broker do, and however many cycles fail. */
module ReconcilerDrain {
  import opened Types
  import opened Ingest
  import opened IngestSafety
  import opened IngestTheorems
  import opened ReconcilerCycle

  // ----- Keys without a handler

  /** No handler past the insert gate works on `id`: only reconcilers can still write its row. */
  ghost predicate Orphaned(s: State, id: MessageId) {
    id in s.keys && forall h :: IsFor(s, h, id) ==> !PastGate(s.handlers[h].stage)
  }

  ghost predicate Orphans(s: State, ids: set<MessageId>) { forall id :: id in ids ==> Orphaned(s, id) }

  lemma OrphanHandled(c: Config, s: State, h: HandlerId, a: HandlerAction, id: MessageId)
    requires Safe(c, s) && Orphaned(s, id) && CanHandle(s, h, a)
    ensures var s' := HandleStep(s, h, a);
      && id in s'.keys && s'.keys[id] == s.keys[id]
      && (IsFor(s', h, id) ==> !PastGate(s'.handlers[h].stage))
  {
    hide HandlerLocal, Keys, Gate, Locks, Cycles, Broker, Acks, Requeues;
    assert h in s.handlers ==> HandlerOk(s, h);
  }

  lemma OthersStay(s: State, h: HandlerId, a: HandlerAction, g: HandlerId, id: MessageId)
    requires CanHandle(s, h, a) && g != h && IsFor(HandleStep(s, h, a), g, id)
    ensures IsFor(s, g, id) && HandleStep(s, h, a).handlers[g] == s.handlers[g]
  {
    hide CanHandle, HandleStep, SameFor;
  }

  lemma OrphanHandledStays(c: Config, s: State, h: HandlerId, a: HandlerAction, id: MessageId)
    requires Safe(c, s) && Orphaned(s, id) && CanHandle(s, h, a)
    ensures Orphaned(HandleStep(s, h, a), id) && HandleStep(s, h, a).keys[id] == s.keys[id]
  {
    hide CanHandle, HandleStep, Safe;
    OrphanHandled(c, s, h, a, id);
    forall g | IsFor(HandleStep(s, h, a), g, id) ensures !PastGate(HandleStep(s, h, a).handlers[g].stage) {
      if g != h { OthersStay(s, h, a, g, id); }
    }
  }

  lemma OrphanReconciled(c: Config, s: State, q: ReconcilerId, a: CycleAction, id: MessageId)
    requires Safe(c, s) && Orphaned(s, id) && CanReconcile(c, s, q, a)
    ensures var s' := ReconcileStep(c, s, q, a);
      && Orphaned(s', id) && Receding(s.keys[id], s'.keys[id])
      && (!a.CommitCycle? ==> s'.keys[id] == s.keys[id])
  {
    hide Keys, Gate, Locks, Cycles, Broker, Acks, Requeues, HandlerOk;
    HandlersKnow(c, s);
  }

  lemma HandlersKnow(c: Config, s: State)
    requires Safe(c, s)
    ensures forall h :: h in s.handlers ==> Knows(s, h)
  {
    forall h | h in s.handlers ensures Knows(s, h) { assert HandlerOk(s, h); }
  }

  lemma OrphanHappened(c: Config, s: State, e: Event, id: MessageId)
    requires Safe(c, s) && Orphaned(s, id) && !e.Handle? && !e.Reconcile? && CanHappen(c, s, e)
    ensures Orphaned(Happen(c, s, e), id) && Happen(c, s, e).keys == s.keys
  {
    hide Keys, Gate, Locks, Cycles, Broker, Acks, Requeues, HandlerOk, Safe;
    HandlersKnow(c, s);
  }

  /** What can become of an orphaned key: it does not turn received again, and its age stays. */
  predicate Receding(k: Key, k': Key) {
    k'.receivedAt == k.receivedAt && (k'.status.Received? ==> k.status.Received?)
  }

  lemma {:induction false} OrphanRun(c: Config, s: State, es: seq<Event>, id: MessageId)
    requires Safe(c, s) && Orphaned(s, id) && IsRun(c, s, es)
    ensures Orphaned(After(c, s, es), id) && Receding(s.keys[id], After(c, s, es).keys[id])
    decreases |es|
  {
    hide CanHandle, HandleStep, CanReconcile, ReconcileStep, CanHappen, Happen, Safe, Orphaned;
    if es != [] {
      OrphanIsKey(s, id);
      var e := es[0];
      match e {
        case Handle(h, a) => OrphanHandledStays(c, s, h, a, id);
        case Reconcile(q, a) => OrphanReconciled(c, s, q, a, id);
        case _ => OrphanHappened(c, s, e, id);
      }
      SafeStep(c, s, e);
      OrphanRun(c, Apply(c, s, e), es[1..], id);
    } else {
      OrphanIsKey(s, id);
    }
  }

  lemma OrphanIsKey(s: State, id: MessageId)
    requires Orphaned(s, id)
    ensures id in s.keys
  {
  }

  /** While a clean cycle is in progress an orphaned row does not change at all. */
  lemma {:induction false} OrphanCleanRun(c: Config, s: State, es: seq<Event>, q: ReconcilerId, id: MessageId)
    requires Safe(c, s) && Orphaned(s, id) && IsCleanRun(c, s, es, q) && IsRun(c, s, es)
    ensures Orphaned(After(c, s, es), id) && After(c, s, es).keys[id] == s.keys[id]
    decreases |es|
  {
    hide CanHandle, HandleStep, CanReconcile, ReconcileStep, CanHappen, Happen, Safe, Orphaned;
    OrphanIsKey(s, id);
    if es != [] {
      var e := es[0];
      match e {
        case Handle(h, a) => OrphanHandledStays(c, s, h, a, id);
        case Reconcile(p, a) => OrphanReconciled(c, s, p, a, id);
        case _ => OrphanHappened(c, s, e, id);
      }
      SafeStep(c, s, e);
      OrphanCleanRun(c, Apply(c, s, e), es[1..], q, id);
    }
  }

  // ----- The potential of a set of keys

  function Only(keys: map<MessageId, Key>, ids: set<MessageId>): map<MessageId, Key> {
    map id | id in keys && id in ids :: keys[id]
  }

  /** The keys that a reconciler may still load. */
  function Stuck(keys: map<MessageId, Key>): set<MessageId> {
    set id | id in keys && keys[id].status.Received?
  }

  /** Cycles a key may still be picked for. */
  function Weight(c: Config, k: Key): nat {
    if k.status.Received? && k.reconcileCount <= c.maxReconciles then c.maxReconciles + 1 - k.reconcileCount else 0
  }

  ghost predicate WithinCap(c: Config, keys: map<MessageId, Key>) {
    forall id :: id in keys ==> keys[id].reconcileCount <= c.maxReconciles
  }

  ghost function Potential(c: Config, keys: map<MessageId, Key>): nat
    decreases |keys|
  {
    if keys == map[] then 0 else
    var id :| id in keys;
    Weight(c, keys[id]) + Potential(c, keys - {id})
  }

  lemma {:induction false} Extract(c: Config, keys: map<MessageId, Key>, id: MessageId)
    requires id in keys
    ensures Potential(c, keys) == Weight(c, keys[id]) + Potential(c, keys - {id})
    decreases |keys|
  {
    var first :| first in keys && Potential(c, keys) == Weight(c, keys[first]) + Potential(c, keys - {first});
    if first != id {
      Extract(c, keys - {first}, id);
      Extract(c, keys - {id}, first);
      assert keys - {first} - {id} == keys - {id} - {first};
    }
  }

  lemma OneKeySettles(c: Config, keys: map<MessageId, Key>, id: MessageId)
    requires id in Stuck(keys) && WithinCap(c, keys)
    ensures Potential(c, keys[id := SettleKey(c, keys[id])]) == Potential(c, keys) - 1
  {
    var keys' := keys[id := SettleKey(c, keys[id])];
    Extract(c, keys, id);
    Extract(c, keys', id);
    assert keys' - {id} == keys - {id};
  }

  /** The cycles that the received keys of `ids` may still be picked for, in all. */
  ghost function Phi(c: Config, s: State, ids: set<MessageId>): nat { Potential(c, Only(s.keys, ids)) }

  function StuckIn(s: State, ids: set<MessageId>): set<MessageId> { Stuck(Only(s.keys, ids)) }

  lemma {:induction false} PotentialMonotone(c: Config, keys: map<MessageId, Key>, keys': map<MessageId, Key>)
    requires keys.Keys == keys'.Keys && forall id :: id in keys ==> Weight(c, keys'[id]) <= Weight(c, keys[id])
    ensures Potential(c, keys') <= Potential(c, keys)
    decreases |keys|
  {
    if keys != map[] {
      var id :| id in keys;
      Extract(c, keys, id);
      Extract(c, keys', id);
      PotentialMonotone(c, keys - {id}, keys' - {id});
    } else {
      assert keys' == map[];
    }
  }

  /** What one cycle may pick: LIMIT without ORDER BY returns any rows, as many as there are up to the limit. */
  ghost predicate IsPick(c: Config, keys: map<MessageId, Key>, picked: seq<MessageId>) {
    && NoDuplicates(picked)
    && (forall i :: 0 <= i < |picked| ==> picked[i] in Stuck(keys))
    && |picked| == (if |Stuck(keys)| <= c.batchSize then |Stuck(keys)| else c.batchSize)
  }

  lemma {:induction false} PickedSettle(c: Config, keys: map<MessageId, Key>, picked: seq<MessageId>)
    requires NoDuplicates(picked) && WithinCap(c, keys)
    requires forall i :: 0 <= i < |picked| ==> picked[i] in Stuck(keys)
    ensures Potential(c, Settle(c, keys, picked)) + |picked| == Potential(c, keys)
    ensures WithinCap(c, Settle(c, keys, picked))
    decreases |picked|
  {
    if picked == [] {
      assert Settle(c, keys, picked) == keys;
    } else {
      var n := |picked| - 1;
      var last, front := picked[n], picked[..n];
      PickedSettle(c, keys, front);
      var m := Settle(c, keys, front);
      assert last !in front;
      assert m[last] == keys[last];
      OneKeySettles(c, m, last);
      assert picked == front + [last];
      assert Settle(c, keys, picked) == m[last := SettleKey(c, m[last])];
    }
  }

  /** A pick of as many keys as are stuck picks them all. */
  lemma PicksAll(s: set<MessageId>, picked: seq<MessageId>)
    requires NoDuplicates(picked) && (forall i :: 0 <= i < |picked| ==> picked[i] in s) && |picked| == |s|
    ensures forall id :: id in s ==> id in picked
    decreases |picked|
  {
    if picked != [] {
      var n := |picked| - 1;
      assert forall i :: 0 <= i < n ==> picked[..n][i] in s - {picked[n]};
      assert |s - {picked[n]}| == |s| - 1;
      PicksAll(s - {picked[n]}, picked[..n]);
      assert picked == picked[..n] + [picked[n]];
    }
  }

  // ----- Rounds

  /** The keys the query of a cycle finds. */
  function StaleIds(c: Config, s: State, readAt: int): set<MessageId> {
    set id | id in s.keys && IsStale(c, s.keys[id], readAt)
  }

  function AtMost(n: nat, limit: nat): nat { if n <= limit then n else limit }

  /** One cycle whose publishes all succeed. Before it, anything can happen, failing cycles too, as long as reconcilers
      take turns; during it, anything but another cycle. */
  datatype Round = Round(before: seq<Event>, q: ReconcilerId, ids: seq<MessageId>, readAt: int, during: seq<Event>)

  /** The query returns as many rows as there are up to the limit, any of them; all it finds belong to `ids`. */
  ghost predicate FullLoad(c: Config, s: State, r: Round, ids: set<MessageId>) {
    && CanLoad(c, s, r.ids, r.readAt)
    && StaleIds(c, s, r.readAt) <= ids
    && |r.ids| == AtMost(|StaleIds(c, s, r.readAt)|, c.batchSize)
  }

  ghost predicate IsRound(c: Config, s: State, r: Round, ids: set<MessageId>, from: int) {
    && IsSingleRun(c, s, r.before) && IsRun(c, s, r.before)
    && Opening(c, s, r).cycles == map[]
    && from <= r.readAt && FullLoad(c, Opening(c, s, r), r, ids)
    && IsCleanRun(c, Loaded(c, Opening(c, s, r), r.q, r.ids, r.readAt), r.during, r.q)
    && IsRun(c, Loaded(c, Opening(c, s, r), r.q, r.ids, r.readAt), r.during)
    && CanReconcile(c, Closing(c, s, r), r.q, CommitCycle)
  }

  /** The state in which the round's cycle loads. */
  ghost function Opening(c: Config, s: State, r: Round): State
    requires IsRun(c, s, r.before)
  {
    After(c, s, r.before)
  }

  /** The state in which it commits. */
  ghost function Closing(c: Config, s: State, r: Round): State
    requires IsRun(c, s, r.before) && Enabled(c, Opening(c, s, r), LoadStale(r.q, r.ids, r.readAt))
    requires IsRun(c, Loaded(c, Opening(c, s, r), r.q, r.ids, r.readAt), r.during)
  {
    After(c, Loaded(c, Opening(c, s, r), r.q, r.ids, r.readAt), r.during)
  }

  ghost function AfterRound(c: Config, s: State, r: Round, ids: set<MessageId>, from: int): State
    requires IsRound(c, s, r, ids, from)
  {
    Apply(c, Closing(c, s, r), Reconcile(r.q, CommitCycle))
  }

  ghost predicate AreRounds(c: Config, s: State, rs: seq<Round>, ids: set<MessageId>, from: int)
    decreases |rs|
  {
    rs == [] || (IsRound(c, s, rs[0], ids, from) && AreRounds(c, AfterRound(c, s, rs[0], ids, from), rs[1..], ids, from))
  }

  ghost function AfterRounds(c: Config, s: State, rs: seq<Round>, ids: set<MessageId>, from: int): State
    requires AreRounds(c, s, rs, ids, from)
    decreases |rs|
  {
    if rs == [] then s else AfterRounds(c, AfterRound(c, s, rs[0], ids, from), rs[1..], ids, from)
  }

  /** Between cycles: nobody works on `ids`, and those still received were stale at `from`. */
  ghost predicate Ready(c: Config, s: State, ids: set<MessageId>, from: int) {
    && Safe(c, s) && s.cycles == map[] && Orphans(s, ids)
    && forall id :: id in ids && id in s.keys && s.keys[id].status.Received? ==> IsStale(c, s.keys[id], from)
  }

  lemma ReadyCaps(c: Config, s: State, ids: set<MessageId>)
    requires Safe(c, s)
    ensures WithinCap(c, Only(s.keys, ids))
  {
    forall id | id in s.keys ensures s.keys[id].reconcileCount <= c.maxReconciles { assert KeyOk(c, s, id); }
  }

  /** Up to its load a round takes nothing back: the weights do not grow. */
  lemma RoundOpens(c: Config, s: State, r: Round, ids: set<MessageId>, from: int)
    requires Ready(c, s, ids, from) && IsRound(c, s, r, ids, from)
    ensures Ready(c, Opening(c, s, r), ids, from)
    ensures Only(Opening(c, s, r).keys, ids).Keys == Only(s.keys, ids).Keys
    ensures forall id :: id in Only(s.keys, ids) ==>
      Weight(c, Only(Opening(c, s, r).keys, ids)[id]) <= Weight(c, Only(s.keys, ids)[id])
    ensures StuckIn(Opening(c, s, r), ids) <= StuckIn(s, ids)
  {
    hide IsRun, After, Safe, IsCleanRun, FullLoad, Orphaned, IsSingleRun, CanReconcile;
    var m := Opening(c, s, r);
    SafeRun(c, s, r.before);
    assert Single(s);
    CountsAreMonotone(c, s, r.before);
    forall id | id in ids ensures Orphaned(m, id) && id in s.keys && id in m.keys && Receding(s.keys[id], m.keys[id]) {
      OrphanIsKey(s, id);
      OrphanRun(c, s, r.before, id);
      OrphanIsKey(m, id);
    }
  }

  /** What it loads is a pick of the stuck keys. */
  lemma RoundPicks(c: Config, s: State, r: Round, ids: set<MessageId>, from: int)
    requires Ready(c, s, ids, from) && from <= r.readAt && FullLoad(c, s, r, ids)
    ensures IsPick(c, Only(s.keys, ids), r.ids)
  {
    hide Safe, Orphaned;
    assert StaleIds(c, s, r.readAt) == StuckIn(s, ids);
    forall i | 0 <= i < |r.ids| ensures r.ids[i] in StuckIn(s, ids) {
      assert r.ids[i] in StaleIds(c, s, r.readAt);
    }
  }

  /** Through load, clean run and commit, an orphaned row changes only in the commit. */
  lemma OrphanInRound(c: Config, m: State, r: Round, id: MessageId)
    requires Safe(c, m) && m.cycles == map[] && Orphaned(m, id) && Enabled(c, m, LoadStale(r.q, r.ids, r.readAt))
    requires var l := Loaded(c, m, r.q, r.ids, r.readAt);
      IsCleanRun(c, l, r.during, r.q) && IsRun(c, l, r.during) && CanReconcile(c, After(c, l, r.during), r.q, CommitCycle)
    ensures var t := After(c, Loaded(c, m, r.q, r.ids, r.readAt), r.during);
      var t' := ReconcileStep(c, t, r.q, CommitCycle);
      && Orphaned(t', id) && id in m.keys && id in t.keys && id in t'.keys
      && t.keys[id] == m.keys[id] && Receding(m.keys[id], t'.keys[id])
  {
    hide IsRun, After, Safe, IsCleanRun, Orphaned, CanReconcile, ReconcileStep;
    var l := Loaded(c, m, r.q, r.ids, r.readAt);
    SafeStep(c, m, LoadStale(r.q, r.ids, r.readAt));
    SucceedingLoad(c, m, r);
    OrphanHappened(c, m, LoadStale(r.q, r.ids, r.readAt), id);
    OrphanCleanRun(c, l, r.during, r.q, id);
    SafeRun(c, l, r.during);
    var t := After(c, l, r.during);
    OrphanReconciled(c, t, r.q, CommitCycle, id);
    OrphanIsKey(m, id);
    OrphanIsKey(t, id);
    OrphanIsKey(ReconcileStep(c, t, r.q, CommitCycle), id);
  }

  lemma SucceedingLoad(c: Config, m: State, r: Round)
    requires Enabled(c, m, LoadStale(r.q, r.ids, r.readAt))
    ensures CanHappen(c, m, LoadStale(r.q, r.ids, r.readAt)) && Loaded(c, m, r.q, r.ids, r.readAt) == Happen(c, m, LoadStale(r.q, r.ids, r.readAt))
  {
  }

  lemma SettleOnly(c: Config, keys: map<MessageId, Key>, m: map<MessageId, Key>, picked: seq<MessageId>, ids: set<MessageId>)
    requires forall id :: id in ids ==> id in keys && id in m && keys[id] == m[id]
    ensures Only(Settle(c, keys, picked), ids) == Settle(c, Only(m, ids), picked)
  {
  }

  lemma StillReady(c: Config, m: State, t: State, ids: set<MessageId>, from: int)
    requires Ready(c, m, ids, from) && Safe(c, t) && t.cycles == map[]
    requires forall id :: id in ids ==> Orphaned(t, id) && id in m.keys && id in t.keys && Receding(m.keys[id], t.keys[id])
    ensures Ready(c, t, ids, from)
  {
    hide Safe, Orphaned;
  }

  /** Its commit settles the picked keys of `ids`, and no other. */
  lemma RoundCloses(c: Config, s: State, r: Round, ids: set<MessageId>, from: int)
    requires Ready(c, s, ids, from) && IsRound(c, s, r, ids, from)
    ensures Ready(c, AfterRound(c, s, r, ids, from), ids, from)
    ensures Only(AfterRound(c, s, r, ids, from).keys, ids) == Settle(c, Only(Opening(c, s, r).keys, ids), r.ids)
  {
    RoundOpens(c, s, r, ids, from);
    hide IsRun, After, Safe, IsCleanRun, Orphaned, IsSingleRun, CanReconcile, ReconcileStep, Only, Settle, StaleIds, CanLoad;
    var m := Opening(c, s, r);
    var t, t' := Closing(c, s, r), AfterRound(c, s, r, ids, from);
    SucceedingCycleSettles(c, m, r.q, r.ids, r.readAt, r.during);
    forall id | id in ids
      ensures Orphaned(t', id) && id in m.keys && id in t.keys && id in t'.keys
      ensures t.keys[id] == m.keys[id] && Receding(m.keys[id], t'.keys[id])
    {
      OrphanInRound(c, m, r, id);
    }
    SettleOnly(c, t.keys, m.keys, r.ids, ids);
    StillReady(c, m, t', ids, from);
  }

  lemma PickLowers(c: Config, keys: map<MessageId, Key>, picked: seq<MessageId>)
    requires WithinCap(c, keys) && IsPick(c, keys, picked)
    ensures Potential(c, Settle(c, keys, picked)) == Potential(c, keys) - AtMost(|Stuck(keys)|, c.batchSize)
    ensures Stuck(Settle(c, keys, picked)) <= Stuck(keys)
  {
    PickedSettle(c, keys, picked);
  }

  /** A round lowers the potential: up to its load it does not grow, and the cycle takes exactly
      min(limit, stuck keys) off it, whichever keys the query returns. */
  lemma CycleLowersPotential(c: Config, s: State, r: Round, ids: set<MessageId>, from: int)
    requires Ready(c, s, ids, from) && IsRound(c, s, r, ids, from)
    ensures var m, t := Opening(c, s, r), AfterRound(c, s, r, ids, from);
      && Ready(c, t, ids, from)
      && Phi(c, m, ids) <= Phi(c, s, ids)
      && Phi(c, t, ids) == Phi(c, m, ids) - AtMost(|StuckIn(m, ids)|, c.batchSize)
      && StuckIn(t, ids) <= StuckIn(m, ids) <= StuckIn(s, ids)
  {
    RoundOpens(c, s, r, ids, from);
    RoundCloses(c, s, r, ids, from);
    OpenRound(c, s, r, ids, from);
    hide IsRun, After, Safe, Ready, IsRound, AfterRound, Opening, Weight, Only, Settle, FullLoad, Potential, Stuck, IsPick,
      WithinCap, AtMost;
    var m := Opening(c, s, r);
    ReadyIsSafe(c, m, ids, from);
    RoundPicks(c, m, r, ids, from);
    ReadyCaps(c, m, ids);
    PotentialMonotone(c, Only(s.keys, ids), Only(m.keys, ids));
    PickLowers(c, Only(m.keys, ids), r.ids);
  }

  // ----- The drain

  ghost predicate Light(c: Config, s: State, ids: set<MessageId>, w: nat) {
    forall id :: id in Only(s.keys, ids) ==> Weight(c, Only(s.keys, ids)[id]) <= w
  }

  lemma AllPicked(c: Config, before: map<MessageId, Key>, keys: map<MessageId, Key>, picked: seq<MessageId>, w: nat)
    requires WithinCap(c, keys) && forall id :: id in Stuck(keys) ==> id in picked
    requires forall id :: id in keys ==> id in before && Weight(c, keys[id]) <= Weight(c, before[id]) <= w
    ensures forall id :: id in Settle(c, keys, picked) ==> Weight(c, Settle(c, keys, picked)[id]) <= if w == 0 then 0 else w - 1
  {
    forall id | id in keys ensures Weight(c, Settle(c, keys, picked)[id]) <= if w == 0 then 0 else w - 1 {
      assert id in Stuck(keys) ==> id in picked;
    }
  }

  /** When the stuck keys fit in one batch, the round takes all of them. */
  lemma RoundTakesAll(c: Config, s: State, r: Round, ids: set<MessageId>, from: int, w: nat)
    requires Ready(c, s, ids, from) && IsRound(c, s, r, ids, from)
    requires Light(c, s, ids, w) && |StuckIn(Opening(c, s, r), ids)| <= c.batchSize
    ensures Light(c, AfterRound(c, s, r, ids, from), ids, if w == 0 then 0 else w - 1)
  {
    OpenRound(c, s, r, ids, from);
    RoundOpens(c, s, r, ids, from);
    RoundCloses(c, s, r, ids, from);
    hide IsRun, After, Safe, Ready, IsRound, AfterRound, Opening, Weight, Only, Settle, Stuck, FullLoad;
    var m := Opening(c, s, r);
    RoundPicks(c, m, r, ids, from);
    PicksAll(StuckIn(m, ids), r.ids);
    ReadyIsSafe(c, m, ids, from);
    ReadyCaps(c, m, ids);
    AllPicked(c, Only(s.keys, ids), Only(m.keys, ids), r.ids, w);
  }

  lemma OpenRound(c: Config, s: State, r: Round, ids: set<MessageId>, from: int)
    requires IsRound(c, s, r, ids, from)
    ensures IsRun(c, s, r.before) && FullLoad(c, Opening(c, s, r), r, ids) && from <= r.readAt
  {
  }

  lemma LightIsDone(c: Config, s: State, ids: set<MessageId>)
    requires Safe(c, s) && Light(c, s, ids, 0)
    ensures StuckIn(s, ids) == {}
  {
    ReadyCaps(c, s, ids);
    forall id ensures id !in StuckIn(s, ids) {
      assert id in Only(s.keys, ids) ==> Weight(c, Only(s.keys, ids)[id]) <= 0;
    }
  }

  lemma {:induction false} LastRounds(c: Config, s: State, rs: seq<Round>, ids: set<MessageId>, from: int, w: nat)
    requires Ready(c, s, ids, from) && AreRounds(c, s, rs, ids, from)
    requires |StuckIn(s, ids)| <= c.batchSize && Light(c, s, ids, w) && |rs| >= w
    ensures StuckIn(AfterRounds(c, s, rs, ids, from), ids) == {}
    decreases |rs|
  {
    hide Ready, IsRound, AfterRound, Light, StuckIn, Opening, Phi;
    if rs == [] {
      assert Safe(c, s) by { ReadyIsSafe(c, s, ids, from); }
      LightIsDone(c, s, ids);
    } else {
      OpenRound(c, s, rs[0], ids, from);
      CycleLowersPotential(c, s, rs[0], ids, from);
      SubsetIsNoLarger(StuckIn(Opening(c, s, rs[0]), ids), StuckIn(s, ids));
      SubsetIsNoLarger(StuckIn(AfterRound(c, s, rs[0], ids, from), ids), StuckIn(s, ids));
      RoundTakesAll(c, s, rs[0], ids, from, w);
      LastRounds(c, AfterRound(c, s, rs[0], ids, from), rs[1..], ids, from, if w == 0 then 0 else w - 1);
    }
  }

  lemma ReadyIsSafe(c: Config, s: State, ids: set<MessageId>, from: int)
    requires Ready(c, s, ids, from)
    ensures Safe(c, s)
  {
  }

  lemma WeightsAreLight(c: Config, s: State, ids: set<MessageId>)
    ensures Light(c, s, ids, c.maxReconciles + 1)
  {
  }

  lemma OneCycleLess(k: int, b: nat, x: nat)
    requires k * b > x
    ensures k > 0 && (k - 1) * b > x - b
  {
    assert (k - 1) * b == k * b - b;
    assert k <= 0 ==> k * b <= 0;
  }

  lemma {:induction false} DrainsInTime(c: Config, s: State, rs: seq<Round>, ids: set<MessageId>, from: int)
    requires c.batchSize > 0 && Ready(c, s, ids, from) && AreRounds(c, s, rs, ids, from)
    requires (|rs| - c.maxReconciles) * c.batchSize > Phi(c, s, ids)
    ensures StuckIn(AfterRounds(c, s, rs, ids, from), ids) == {}
    decreases |rs|
  {
    hide Ready, IsRound, AfterRound, Light, StuckIn, Opening, Phi;
    var k := |rs| - c.maxReconciles;
    OneCycleLess(k, c.batchSize, Phi(c, s, ids));
    OpenRound(c, s, rs[0], ids, from);
    CycleLowersPotential(c, s, rs[0], ids, from);
    var m, t := Opening(c, s, rs[0]), AfterRound(c, s, rs[0], ids, from);
    if |StuckIn(m, ids)| <= c.batchSize {
      WeightsAreLight(c, s, ids);
      RoundTakesAll(c, s, rs[0], ids, from, c.maxReconciles + 1);
      SubsetIsNoLarger(StuckIn(t, ids), StuckIn(m, ids));
      LastRounds(c, t, rs[1..], ids, from, c.maxReconciles);
    } else {
      DrainsInTime(c, t, rs[1..], ids, from);
    }
  }

  lemma QuotientBound(x: nat, b: nat, k: nat)
    requires b > 0 && k >= x / b + 1
    ensures k * b > x
  {
    assert x == (x / b) * b + x % b;
    assert (x / b + 1) * b == (x / b) * b + b;
    assert k * b == (x / b + 1) * b + (k - (x / b + 1)) * b;
  }

  lemma Drained(c: Config, s: State, rs: seq<Round>, ids: set<MessageId>, from: int)
    requires c.batchSize > 0 && Ready(c, s, ids, from) && AreRounds(c, s, rs, ids, from)
    requires |rs| >= Phi(c, s, ids) / c.batchSize + c.maxReconciles + 1
    ensures StuckIn(AfterRounds(c, s, rs, ids, from), ids) == {}
  {
    hide Ready, AreRounds, AfterRounds, StuckIn, Phi;
    QuotientBound(Phi(c, s, ids), c.batchSize, |rs| - c.maxReconciles);
    DrainsInTime(c, s, rs, ids, from);
  }

  /** The drain. Take any set of keys that no handler is past the insert gate of, those of them still received being
      stale. After potential / limit + max_attempts + 1 cycles whose publishes all succeed, in whatever order the
      unordered LIMIT hands the rows out, none of them is received any more. Handlers, publishers, the broker and
      failing cycles do as they like; reconcilers take turns, and no other key goes stale. */
  lemma ReconcilerDrains(c: Config, s0: State, es: seq<Event>, rs: seq<Round>, ids: set<MessageId>, from: int)
    requires c.batchSize > 0 && Reached(c, s0, es) && After(c, s0, es).cycles == map[] && Orphans(After(c, s0, es), ids)
    requires forall id :: id in ids && id in After(c, s0, es).keys && After(c, s0, es).keys[id].status.Received? ==>
      IsStale(c, After(c, s0, es).keys[id], from)
    requires AreRounds(c, After(c, s0, es), rs, ids, from)
    requires |rs| >= Phi(c, After(c, s0, es), ids) / c.batchSize + c.maxReconciles + 1
    ensures StuckIn(AfterRounds(c, After(c, s0, es), rs, ids, from), ids) == {}
  {
    hide AreRounds, AfterRounds, StuckIn, Phi, Safe, Orphaned;
    ReachedIsSafe(c, s0, es);
    var s := After(c, s0, es);
    assert Ready(c, s, ids, from);
    Drained(c, s, rs, ids, from);
  }

  /** Such a round is always possible: left alone, the reconciler completes one. */
  lemma RoundIsPossible(c: Config, s: State, q: ReconcilerId, picked: seq<MessageId>, ids: set<MessageId>, from: int)
    returns (r: Round)
    requires Ready(c, s, ids, from) && from <= s.clock
    requires FullLoad(c, s, Round([], q, picked, s.clock, []), ids)
    ensures IsRound(c, s, r, ids, from) && r.ids == picked
    ensures AfterRound(c, s, r, ids, from).keys == Settle(c, s.keys, picked)
  {
    hide Safe, CanReconcile, ReconcileStep, IsCleanRun, Orphans;
    var during := UndisturbedCycleSettles(c, s, q, picked, s.clock);
    r := Round([], q, picked, s.clock, during);
  }
}
