/** The stale window is exactly long enough: when overhead + batchSize * perAttempt exceeds it, a schedule on which
    every batch is on time ends in a POST of a row that is already delivered. */
module DeliveryOverrun {
  import opened Types
  import opened Delivery
  import opened DeliverySafety
  import opened DeliveryOwnership

  /** After `es` the row is delivered, and along `fs` it is POSTed again; every batch is on time throughout. */
  ghost predicate RepostsDelivered(c: Config, b: Bounds, s0: State, es: seq<Event>, fs: seq<Event>, id: RowId) {
    && Initial(s0) && IsTimelyRun(c, b, s0, es) && IsRun(c, s0, es)
    && var s := After(c, s0, es);
       IsTimelyRun(c, b, s, fs) && IsRun(c, s, fs)
       && id in s.rows && s.rows[id].status.Delivered?
       && HistoryOf(After(c, s, fs), id).posts > HistoryOf(s, id).posts
  }

  // ----- Building a schedule

  /** The timely run `es` leads from s to t. */
  ghost predicate Leads(c: Config, b: Bounds, s: State, es: seq<Event>, t: State) {
    IsTimelyRun(c, b, s, es) && IsRun(c, s, es) && After(c, s, es) == t
  }

  lemma {:induction false} LeadsOn(c: Config, b: Bounds, s: State, es: seq<Event>, t: State, fs: seq<Event>, u: State)
    requires Leads(c, b, s, es, t) && Leads(c, b, t, fs, u)
    ensures Leads(c, b, s, es + fs, u)
    decreases |es|
  {
    hide Enabled, Apply, OnTime;
    if es == [] {
      assert es + fs == fs;
    } else {
      assert (es + fs)[0] == es[0] && (es + fs)[1..] == es[1..] + fs;
      LeadsOn(c, b, Apply(c, s, es[0]), es[1..], t, fs, u);
    }
  }

  lemma OneStep(c: Config, b: Bounds, s: State, e: Event)
    requires Enabled(c, s, e) && RetryInTime(s, e) && OnTime(b, s) && OnTime(b, Apply(c, s, e))
    ensures Leads(c, b, s, [e], Apply(c, s, e))
  {
    hide Enabled, Apply, OnTime;
    NoStep(c, b, Apply(c, s, e));
    RunOfOne(c, s, e);
    assert [e][1..] == [];
  }

  lemma Then(c: Config, b: Bounds, s: State, es: seq<Event>, t: State, e: Event) returns (es': seq<Event>, u: State)
    requires Leads(c, b, s, es, t)
    requires Enabled(c, t, e) && RetryInTime(t, e) && OnTime(b, t) && OnTime(b, Apply(c, t, e))
    ensures u == Apply(c, t, e) && Leads(c, b, s, es', u)
  {
    hide Enabled, Apply, OnTime;
    OneStep(c, b, t, e);
    LeadsOn(c, b, s, es, t, [e], Apply(c, t, e));
    es', u := es + [e], Apply(c, t, e);
  }

  /** A step of w that leaves it with time to spare. */
  lemma ThenWork(c: Config, b: Bounds, s: State, es: seq<Event>, t: State, w: WorkerId, a: Action)
    returns (es': seq<Event>, u: State)
    requires Leads(c, b, s, es, t) && OnTime(b, t)
    requires CanAct(c, t, w, a) && WorkerOnTime(b, t.clock, Act(c, t, w, a).workers[w])
    ensures u == Act(c, t, w, a) && Leads(c, b, s, es', u) && OnTime(b, u)
  {
    hide CanAct, Act, Leads, Grows;
    assert OnTime(b, Act(c, t, w, a));
    es', u := Then(c, b, s, es, t, Work(w, a));
  }

  lemma ThenTick(c: Config, b: Bounds, s: State, es: seq<Event>, t: State, d: nat) returns (es': seq<Event>, u: State)
    requires Leads(c, b, s, es, t) && OnTime(b, t) && OnTime(b, t.(clock := t.clock + d))
    ensures u == t.(clock := t.clock + d) && Leads(c, b, s, es', u) && OnTime(b, u)
  {
    hide Leads, OnTime;
    es', u := Then(c, b, s, es, t, Tick(d));
  }

  // ----- One claim

  /** `w` holds just-claimed rows `ids`, everyone else is as in s. */
  ghost predicate HasClaimed(s: State, t: State, w: WorkerId, ids: seq<RowId>, todo: seq<Snapshot>, d: nat) {
    && t.workers == s.workers[w := Delivering(s.clock, s.clock + d, todo, Ready)]
    && NumberedFor(s, ids, todo)
    && t.rows == ClaimRows(s.rows, todo, s.clock)
    && t.clock == s.clock + d && t.subs == s.subs && t.locks == map[]
  }

  lemma Claim(c: Config, b: Bounds, s: State, w: WorkerId, ids: seq<RowId>, d: nat)
    returns (es: seq<Event>, t: State, todo: seq<Snapshot>)
    requires WorkerOf(s, w).Idle? && s.locks == map[] && ids != [] && CanSelect(c, s, s.clock, ids)
    requires d <= b.overhead && OnTime(b, s.(clock := s.clock + d)) && OnTime(b, s)
    ensures Leads(c, b, s, es, t) && OnTime(b, t) && HasClaimed(s, t, w, ids, todo, d)
  {
    hide Leads, OnTime, HasClaimed, HasLocked;
    var e1, s1 := Lock(c, b, s, w, ids);
    var e2, s2;
    assert OnTime(b, s1.(clock := s1.clock + d)) by { OthersLater(b, s, s1, w, ids, d); }
    e2, s2 := ThenTick(c, b, s, e1, s1, d);
    var e3;
    LockedClock(s, s1, w, ids, d);
    e3, t, todo := LoadAndCommit(c, b, s, s2, w, ids, d);
    LeadsOn(c, b, s, e2, s2, e3, t);
    es := e2 + e3;
  }

  lemma LockedClock(s: State, t: State, w: WorkerId, ids: seq<RowId>, d: nat)
    requires HasLocked(s, t, w, ids)
    ensures t.clock == s.clock && t.(clock := t.clock + d).(clock := s.clock) == t
  {
  }

  ghost predicate HasLocked(s: State, t: State, w: WorkerId, ids: seq<RowId>) {
    && (forall i :: 0 <= i < |ids| ==> ids[i] in s.rows)
    && t.workers == s.workers[w := Locked(s.clock, Snapshots(s.rows, ids))]
    && t.locks == Acquire(map[], ids, w)
    && t.rows == s.rows && t.clock == s.clock && t.subs == s.subs
  }

  lemma OthersLater(b: Bounds, s: State, t: State, w: WorkerId, ids: seq<RowId>, d: nat)
    requires HasLocked(s, t, w, ids) && d <= b.overhead && OnTime(b, s.(clock := s.clock + d))
    ensures OnTime(b, t.(clock := t.clock + d))
  {
    var later := s.(clock := s.clock + d);
    forall v | v in t.workers && v != w ensures WorkerOnTime(b, t.clock + d, t.workers[v]) {
      assert v in later.workers && WorkerOnTime(b, later.clock, later.workers[v]);
    }
  }

  lemma Lock(c: Config, b: Bounds, s: State, w: WorkerId, ids: seq<RowId>) returns (es: seq<Event>, t: State)
    requires WorkerOf(s, w).Idle? && s.locks == map[] && ids != [] && CanSelect(c, s, s.clock, ids) && OnTime(b, s)
    ensures Leads(c, b, s, es, t) && OnTime(b, t) && HasLocked(s, t, w, ids)
  {
    hide CanAct, Act, Leads, CanSelect, Grows, Acquire, OnTime;
    NoStep(c, b, s);
    StartBatchIs(c, s, w);
    var e1, s1 := ThenWork(c, b, s, [], s, w, StartBatch);
    StillSelectable(c, s, s1, ids);
    SelectRowsIs(c, s1, w, ids);
    es, t := ThenWork(c, b, s, e1, s1, w, SelectRows(ids));
  }

  lemma LoadAndCommit(c: Config, b: Bounds, s: State, t: State, w: WorkerId, ids: seq<RowId>, d: nat)
    returns (es: seq<Event>, u: State, todo: seq<Snapshot>)
    requires HasLocked(s, t.(clock := s.clock), w, ids) && t.clock == s.clock + d && OnTime(b, t)
    ensures Leads(c, b, t, es, u) && OnTime(b, u) && HasClaimed(s, u, w, ids, todo, d)
  {
    hide CanAct, Act, Leads, Grows, ClaimRows, OnTime, CountClaims, NumberedFor, Acquire, Release;
    var e1, s1;
    e1, s1, todo := Loading(c, b, s, t, w, ids);
    CommitClaimIs(c, s1, w);
    es, u := ThenWork(c, b, t, e1, s1, w, CommitClaim);
    AllReleased(ids, w);
  }

  ghost predicate NumberedFor(s: State, ids: seq<RowId>, todo: seq<Snapshot>) {
    |todo| == |ids|
    && forall i :: 0 <= i < |ids| ==> ids[i] in s.rows && todo[i].id == ids[i] && todo[i].count == s.rows[ids[i]].attemptCount
  }

  lemma Loading(c: Config, b: Bounds, s: State, t: State, w: WorkerId, ids: seq<RowId>)
    returns (es: seq<Event>, u: State, todo: seq<Snapshot>)
    requires HasLocked(s, t.(clock := s.clock), w, ids) && OnTime(b, t)
    ensures Leads(c, b, t, es, u) && OnTime(b, u) && NumberedFor(s, ids, todo)
    ensures u.workers == s.workers[w := Loaded(s.clock, todo)] && u.clock == t.clock
    ensures u.rows == s.rows && u.subs == s.subs && u.locks == Acquire(map[], ids, w)
  {
    hide CanAct, Act, Leads, Grows, OnTime, LoadsFor, Acquire;
    NoStep(c, b, t);
    var bodies := seq(|ids|, _ => map[]);
    WorkerIsOnTime(b, t, w);
    LoadBodiesIs(c, t, w, bodies);
    es, u := ThenWork(c, b, t, [], t, w, LoadBodies(bodies));
    todo := WorkerOf(u, w).todo;
  }

  lemma WorkerIsOnTime(b: Bounds, s: State, w: WorkerId)
    requires OnTime(b, s) && w in s.workers
    ensures WorkerOnTime(b, s.clock, s.workers[w])
  {
  }

  lemma AllReleased(ids: seq<RowId>, w: WorkerId)
    ensures Release(Acquire(map[], ids, w), w) == map[]
  {
  }

  lemma StillSelectable(c: Config, s: State, t: State, ids: seq<RowId>)
    requires CanSelect(c, s, s.clock, ids) && t.rows == s.rows && t.locks == s.locks
    ensures CanSelect(c, t, s.clock, ids)
  {
    forall i | 0 <= i < |ids| ensures Eligible(t, s.clock, ids[i]) { assert Eligible(s, s.clock, ids[i]); }
  }

  // ----- Slow attempts

  /** Worker w, alone, is about to start the first attempt of todo; all those rows are untouched since the claim. */
  ghost predicate Ahead(s: State, w: WorkerId, now: int, todo: seq<Snapshot>) {
    && s.workers == map[w := Delivering(now, s.clock, todo, Ready)] && s.locks == map[]
    && todo != []
    && (forall i, j :: 0 <= i < j < |todo| ==> todo[i].id != todo[j].id)
    && (forall i :: 0 <= i < |todo| ==> Receives(s.subs, todo[i].id.subscriber) && JustClaimed(s, now, todo[i].id))
  }

  ghost predicate JustClaimed(s: State, now: int, id: RowId) {
    id in s.rows && s.rows[id].status.InFlight? && s.rows[id].updatedAt == now
  }

  const OK := Response(200, "")

  /** The first half of an attempt that takes all its time: the POST is out when the clock stops. */
  lemma SlowPost(c: Config, b: Bounds, s: State, w: WorkerId, now: int, todo: seq<Snapshot>)
    returns (es: seq<Event>, t: State)
    requires Ahead(s, w, now, todo)
    ensures Leads(c, b, s, es, t) && OnTime(b, t)
    ensures t.clock == s.clock + b.perAttempt && t.rows == s.rows && t.locks == map[] && t.subs == s.subs
    ensures t.workers == map[w := Delivering(now, s.clock, todo, Posting)]
  {
    hide CanAct, Act, Leads, Grows;
    var e0: seq<Event> := [];
    NoStep(c, b, s);
    RefetchIs(c, s, w);
    var e1, s1 := ThenWork(c, b, s, e0, s, w, Refetch);
    SendPostIs(c, s1, w);
    var e2, s2 := ThenWork(c, b, s, e1, s1, w, SendPost);
    es, t := ThenTick(c, b, s, e2, s2, b.perAttempt);
  }

  /** The second half: a 2xx comes back and is stored. */
  lemma Deliver(c: Config, b: Bounds, s: State, w: WorkerId) returns (es: seq<Event>, t: State)
    requires OnTime(b, s) && Busy(s, w) && WorkerOf(s, w).phase.Posting? && Unlocked(s, Head(s, w).id)
    ensures Leads(c, b, s, es, t) && OnTime(b, t)
    ensures t.workers == s.workers[w := Next(WorkerOf(s, w), s.clock)]
    ensures t.clock == s.clock && t.subs == s.subs && t.locks == s.locks
    ensures Head(s, w).id in t.rows && t.rows[Head(s, w).id].status.Delivered?
    ensures t.rows == s.rows[Head(s, w).id := t.rows[Head(s, w).id]]
  {
    hide CanAct, Act, Leads, Grows, BackoffCap;
    var e0: seq<Event> := [];
    NoStep(c, b, s);
    ReceiveIs(c, s, w, OK);
    var e1, s1 := ThenWork(c, b, s, e0, s, w, Receive(OK));
    RecordIs(c, s1, w, 0);
    es, t := ThenWork(c, b, s, e1, s1, w, Record(0));
  }

  /** Every attempt but the last takes all its time. */
  lemma {:induction false} SlowBatch(c: Config, b: Bounds, s: State, w: WorkerId, now: int, todo: seq<Snapshot>)
    returns (es: seq<Event>, t: State)
    requires Ahead(s, w, now, todo) && OnTime(b, s)
    ensures Leads(c, b, s, es, t) && OnTime(b, t) && Ahead(t, w, now, todo[|todo| - 1..])
    ensures t.clock == s.clock + (|todo| - 1) * b.perAttempt
    decreases |todo|
  {
    hide Leads, OnTime;
    if |todo| == 1 {
      assert todo[0..] == todo;
      es, t := [], s;
      NoStep(c, b, s);
    } else {
      var e1, s1 := SlowPost(c, b, s, w, now, todo);
      var e2, s2 := Deliver(c, b, s1, w);
      LeadsOn(c, b, s, e1, s1, e2, s2);
      assert Ahead(s2, w, now, todo[1..]);
      var e3, s3 := SlowBatch(c, b, s2, w, now, todo[1..]);
      LeadsOn(c, b, s, e1 + e2, s2, e3, s3);
      es, t := e1 + e2 + e3, s3;
      assert todo[1..][|todo| - 2..] == todo[|todo| - 1..];
      Distribute(|todo|, b.perAttempt);
    }
  }

  lemma Distribute(n: nat, d: nat)
    requires n >= 2
    ensures d + (n - 2) * d == (n - 1) * d
  {
  }

  lemma NoStep(c: Config, b: Bounds, s: State)
    requires OnTime(b, s)
    ensures Leads(c, b, s, [], s)
  {
  }

  // ----- The overrun

  /** With the window shorter than the schedule, the reset finds the row of a POST still out, another worker claims
      it, and that worker is cleared to POST when the first one stores its 2xx. */
  lemma Overtaken(c: Config, b: Bounds, s: State, w: WorkerId, v: WorkerId, now: int, x: Snapshot)
    returns (es: seq<Event>, t: State, todo: seq<Snapshot>)
    requires Ahead(s, w, now, [x]) && v != w && c.batchSize >= 1
    requires s.clock + b.perAttempt - now > c.staleAfter && OnTime(b, s)
    ensures Leads(c, b, s, es, t) && OnTime(b, t)
    ensures x.id in t.rows && t.rows[x.id].status.Delivered? && Busy(t, v)
    ensures Head(t, v).id == x.id && WorkerOf(t, v).phase.Cleared?
  {
    hide CanAct, Act, Leads, Grows, OnTime;
    var e1, s1 := SlowPost(c, b, s, w, now, [x]);
    assert [x][0] == x;
    assert JustClaimed(s, now, x.id) && Receives(s.subs, x.id.subscriber);
    var s2 := Apply(c, s1, ResetStale(s1.clock));
    var e2;
    assert OnTime(b, s2) by { SameWorkers(b, s1, s2); }
    e2, s2 := Then(c, b, s, e1, s1, ResetStale(s1.clock));
    assert Eligible(s2, s2.clock, x.id);
    assert s2.(clock := s2.clock + 0) == s2;
    var e3, s3;
    e3, s3, todo := Claim(c, b, s2, v, [x.id], 0);
    LeadsOn(c, b, s, e2, s2, e3, s3);
    RefetchIs(c, s3, v);
    assert WorkerOnTime(b, s3.clock, Act(c, s3, v, Refetch).workers[v]);
    var e4, s4 := ThenWork(c, b, s, e2 + e3, s3, v, Refetch);
    var e5, s5 := Deliver(c, b, s4, w);
    LeadsOn(c, b, s, e4, s4, e5, s5);
    es, t := e4 + e5, s5;
  }

  lemma SameWorkers(b: Bounds, s: State, t: State)
    requires OnTime(b, s) && s.workers == t.workers && s.clock == t.clock
    ensures OnTime(b, t)
  {
  }

  // ----- The whole schedule

  /** n rows of subscriber 0. */
  function RowIds(n: nat): (ids: seq<RowId>)
    ensures |ids| == n && NoDuplicates(ids) && forall i :: 0 <= i < n ==> ids[i].subscriber == 0
  {
    var ids := seq(n, i requires 0 <= i => RowId(seq(i, _ => 'm'), 0));
    assert forall i :: 0 <= i < n ==> |ids[i].message| == i;
    ids
  }

  const NOTHING := State(0, map[], map[], map[], map[], multiset{}, map[], [], [], 0, map[], 0)

  /** One active subscriber and n rows to deliver to it. */
  lemma Setup(c: Config, b: Bounds, n: nat) returns (es: seq<Event>, t: State)
    ensures Leads(c, b, NOTHING, es, t) && OnTime(b, t)
    ensures t.clock == 0 && t.workers == map[] && t.locks == map[] && Receives(t.subs, 0)
    ensures forall i :: 0 <= i < n ==> RowIds(n)[i] in t.rows && t.rows[RowIds(n)[i]] == NewRow(0)
  {
    hide Leads, RowIds;
    NoStep(c, b, NOTHING);
    var e1, s1 := Then(c, b, NOTHING, [], NOTHING, ChangeSubscriber(Register(0)));
    es, t := Then(c, b, NOTHING, e1, s1, Create(set id | id in RowIds(n)));
  }

  /** A worker alone has claimed a full batch, as late as its schedule allows. */
  lemma FullClaim(c: Config, b: Bounds) returns (es: seq<Event>, t: State, todo: seq<Snapshot>)
    requires c.batchSize >= 1
    ensures Leads(c, b, NOTHING, es, t) && OnTime(b, t)
    ensures Ahead(t, 0, 0, todo) && |todo| == c.batchSize && t.clock == b.overhead
  {
    hide Leads, RowIds;
    var e1, s1 := Setup(c, b, c.batchSize);
    var ids := RowIds(c.batchSize);
    assert CanSelect(c, s1, 0, ids) by {
      forall i | 0 <= i < |ids| ensures Eligible(s1, 0, ids[i]) {}
    }
    var e2;
    e2, t, todo := Claim(c, b, s1, 0, ids, b.overhead);
    LeadsOn(c, b, NOTHING, e1, s1, e2, t);
    es := e1 + e2;
    forall i | 0 <= i < |todo| ensures Receives(t.subs, todo[i].id.subscriber) && JustClaimed(t, 0, todo[i].id) {
      assert todo[i].id == ids[i];
    }
  }

  /** With a schedule longer than the window, on-time batches can deliver a row twice. */
  lemma OverrunReposts(c: Config, b: Bounds) returns (s0: State, es: seq<Event>, fs: seq<Event>, id: RowId)
    requires c.batchSize >= 1 && b.overhead + c.batchSize * b.perAttempt > c.staleAfter
    ensures RepostsDelivered(c, b, s0, es, fs, id)
  {
    hide CanAct, Act, OnTime, IsTimelyRun, IsRun, After;
    var e1, s1, todo := FullClaim(c, b);
    var e2, s2 := SlowBatch(c, b, s1, 0, 0, todo);
    LeadsOn(c, b, NOTHING, e1, s1, e2, s2);
    var x := todo[|todo| - 1];
    assert todo[|todo| - 1..] == [x];
    Distribute(c.batchSize + 1, b.perAttempt);
    var e3, s3, _ := Overtaken(c, b, s2, 0, 1, 0, x);
    LeadsOn(c, b, NOTHING, e1 + e2, s2, e3, s3);
    SendPostIs(c, s3, 1);
    NoStep(c, b, s3);
    WorkerIsOnTime(b, s3, 1);
    var e4, s4 := ThenWork(c, b, s3, [], s3, 1, SendPost);
    s0, es, fs, id := NOTHING, e1 + e2 + e3, e4, x.id;
  }

  /** Exactly when delivered is final: for a worker that takes any batch at all, no schedule of on-time batches POSTs
      a delivered row again if and only if the claim overhead and a full batch of attempts fit in the stale window. */
  lemma DeliveredIsFinalIff(c: Config, b: Bounds)
    requires c.maxAttempts >= 1 && c.batchSize >= 1
    ensures b.overhead + c.batchSize * b.perAttempt <= c.staleAfter <==>
      forall s0, es, fs, id :: !RepostsDelivered(c, b, s0, es, fs, id)
  {
    if b.overhead + c.batchSize * b.perAttempt <= c.staleAfter {
      forall s0, es, fs, id ensures !RepostsDelivered(c, b, s0, es, fs, id) {
        if RepostsDelivered(c, b, s0, es, fs, id) { DeliveredIsFinal(c, b, s0, es, fs, id); }
      }
    } else {
      var s0, es, fs, id := OverrunReposts(c, b);
    }
  }

  /** With the defaults, delivered is final exactly while the claim overhead and fifty attempts take at most ten
      minutes: twelve seconds an attempt if a claim takes no time, and not a millisecond more. */
  lemma DefaultSchedule(b: Bounds)
    ensures (forall s0, es, fs, id :: !RepostsDelivered(DEFAULTS, b, s0, es, fs, id)) <==>
      b.overhead + 50 * b.perAttempt <= 600_000
    ensures FitsWindow(DEFAULTS, Bounds(0, 12_000)) && !FitsWindow(DEFAULTS, Bounds(0, 12_001))
  {
    DeliveredIsFinalIff(DEFAULTS, b);
  }
}
