/**
 The two ways a message can be left without a live event. Liveness of the pipeline
 is false without these exceptions; `Guarantees.SomethingIsAlwaysLive` shows there
 are no others, and `ParkingIsExact` that they are exact while no event is duplicated.
 */
module Parking {
  import opened Wrappers
  import opened Messages
  import opened Store
  import opened Protocol
  import opened Deliveries
  import opened Settlement
  import opened Sums
  import Attempts

  const FREE_TEXT := Content("+251911000000", None, None, None, false, None, None)
  const ROUTE := Route(1, None, None, Http, 0)
  const SUBMIT := Submit(Submission(0, 0, FREE_TEXT, 0, 1, ROUTE), 0)
  const ROUTE_IT := RouteAccepted(0, ROUTE, 0, 0)

  /** One free message, routed, with its dispatch event read by a handler. */
  ghost predicate RoutedAndLoaded(s: Sys) {
    && |s.db.rows| == 1 && s.db.rows[0].status == Routed && s.db.rows[0].version == 1 && s.db.rows[0].id == 0
    && |s.deliveries| == 2 && !Live(s.deliveries[0])
    && s.deliveries[1].phase == Loaded(s.db.rows[0]) && IsDispatch(s.deliveries[1].event.topic)
       && s.deliveries[1].event.msg == 0
    && forall k :: 0 <= k < |s.db.outbox| ==> s.db.outbox[k].key in {AcceptedKey(0), DispatchKey(0, 1)}
  }

  /** One message submitted, and its accepted event read. */
  function LoadedSys(wallets: map<nat, Wallet>): Sys {
    Step(Step(Start(wallets), SUBMIT), Load(0))
  }

  lemma LoadedSysIs(wallets: map<nat, Wallet>)
    requires Funded(wallets)
    ensures var s := LoadedSys(wallets);
            && Reachable(s, wallets)
            && |s.db.rows| == 1 && s.db.rows[0].status == Accepted && s.db.rows[0].version == 0 && s.db.rows[0].id == 0
            && |s.deliveries| == 1 && s.deliveries[0].phase == Loaded(s.db.rows[0])
            && s.deliveries[0].event.topic == AcceptedTopic && s.deliveries[0].event.msg == 0
            && |s.db.outbox| == 1 && s.db.outbox[0].key == AcceptedKey(0)
  {
    var start := Start(wallets);
    RunIsReachable(wallets, []);
    OneMoreStep(start, wallets, SUBMIT);
    assert !HasKey(start.db.outbox, 0, AcceptedKey(0));
    OneMoreStep(Step(start, SUBMIT), wallets, Load(0));
  }

  /** The message routed, and its dispatch event read. */
  function RoutedSys(wallets: map<nat, Wallet>): Sys {
    Step(Step(LoadedSys(wallets), ROUTE_IT), Load(1))
  }

  lemma RoutedSysIs(wallets: map<nat, Wallet>)
    requires Funded(wallets)
    ensures Reachable(RoutedSys(wallets), wallets) && RoutedAndLoaded(RoutedSys(wallets))
  {
    LoadedSysIs(wallets);
    RoutingRoutes(LoadedSys(wallets), wallets);
  }

  lemma RoutingRoutes(s: Sys, wallets: map<nat, Wallet>)
    requires Reachable(s, wallets)
    requires |s.db.rows| == 1 && s.db.rows[0].status == Accepted && s.db.rows[0].version == 0 && s.db.rows[0].id == 0
    requires |s.deliveries| == 1 && s.deliveries[0].phase == Loaded(s.db.rows[0])
    requires s.deliveries[0].event.topic == AcceptedTopic && s.deliveries[0].event.msg == 0
    requires |s.db.outbox| == 1 && s.db.outbox[0].key == AcceptedKey(0)
    ensures var s' := Step(Step(s, ROUTE_IT), Load(1)); Reachable(s', wallets) && RoutedAndLoaded(s')
  {
    OneMoreStep(s, wallets, ROUTE_IT);
    RoutingQueues(s);
    OneMoreStep(Step(s, ROUTE_IT), wallets, Load(1));
  }

  lemma RoutingQueues(s: Sys)
    requires |s.db.rows| == 1 && s.db.rows[0].status == Accepted && s.db.rows[0].version == 0 && s.db.rows[0].id == 0
    requires |s.deliveries| == 1 && s.deliveries[0].phase == Loaded(s.db.rows[0])
    requires s.deliveries[0].event.topic == AcceptedTopic && s.deliveries[0].event.msg == 0
    requires |s.db.outbox| == 1 && s.db.outbox[0].key == AcceptedKey(0)
    ensures var s1 := Step(s, ROUTE_IT);
            && |s1.db.rows| == 1 && s1.db.rows[0].id == 0
            && s1.db.rows[0].status == Routed && s1.db.rows[0].version == 1
            && |s1.deliveries| == 2 && !Live(s1.deliveries[0])
            && s1.deliveries[1].phase.Pending? && IsDispatch(s1.deliveries[1].event.topic)
            && s1.deliveries[1].event.msg == 0
            && forall k :: 0 <= k < |s1.db.outbox| ==> s1.db.outbox[k].key in {AcceptedKey(0), DispatchKey(0, 1)}
  {
    assert !HasKey(s.db.outbox, 0, DispatchKey(0, 1));
  }

  lemma RouteAndLoad() returns (s: Sys)
    ensures Reachable(s, map[]) && RoutedAndLoaded(s)
  {
    RoutedSysIs(map[]);
    s := RoutedSys(map[]);
  }

  /**
   A message throttled while `routed` is stuck: its retry event is dropped because
   the row is not `submitting`, and nothing live is left for it.
   */
  lemma ThrottledWhileRoutedIsStuck() returns (s: Sys)
    ensures Reachable(s, map[])
    ensures |s.db.rows| == 1 && s.db.rows[0].status == Routed && ThrottleParked(s.db, 0)
    ensures forall i :: 0 <= i < |s.deliveries| ==> !Live(s.deliveries[i])
  {
    var s0 := RouteAndLoad();
    var throttle := Dispatch(1, Throttle, 0, 0);
    OneMoreStep(s0, map[], throttle);
    assert !HasKey(s0.db.outbox, 0, ThrottleKey(0, 2));
    var s1 := Step(s0, throttle);
    assert s1.db.outbox[|s0.db.outbox|].key == ThrottleKey(0, 2);
    assert |s1.deliveries| == 3 && s1.deliveries[2].phase.Pending? && s1.deliveries[2].event.topic == RetryTopic;
    OneMoreStep(s1, map[], Load(2));
    s := Step(s1, Load(2));
  }

  const UNCERTAIN := Outcome(Http, false, true, None, None)

  /** The message submitted, with the provider's answer lost. */
  ghost predicate CalledUncertain(s: Sys) {
    && |s.db.rows| == 1 && s.db.rows[0].status == Submitting && s.db.rows[0].version == 2 && s.db.rows[0].id == 0
    && |s.deliveries| == 2 && !Live(s.deliveries[0])
    && s.deliveries[1].phase.Called? && s.deliveries[1].phase.snap.id == 0
       && s.deliveries[1].phase.submittingVersion == 2
    && s.deliveries[1].phase.outcome == UNCERTAIN && s.deliveries[1].event.msg == 0
    && forall k :: 0 <= k < |s.db.outbox| ==> s.db.outbox[k].key in {AcceptedKey(0), DispatchKey(0, 1)}
  }

  lemma CallUncertain(s: Sys)
    requires RoutedAndLoaded(s)
    ensures CalledUncertain(Step(Step(s, Dispatch(1, Allow, 0, 0)), CallProvider(1, UNCERTAIN, true)))
  {
    var submitted := Step(s, Dispatch(1, Allow, 0, 0));
    assert submitted.deliveries[1].phase == Submitted(s.db.rows[0], 2) && submitted.db.outbox == s.db.outbox;
  }

  /** The uncertain outcome on its way to the result handler. */
  ghost predicate ReportedUncertain(s: Sys) {
    && |s.db.rows| == 1 && s.db.rows[0].status == Submitting && s.db.rows[0].version == 2 && s.db.rows[0].id == 0
    && |s.deliveries| == 3 && !Live(s.deliveries[0]) && !Live(s.deliveries[1])
    && s.deliveries[2].phase.Pending? && s.deliveries[2].event.topic == ResultTopic && s.deliveries[2].event.msg == 0
    && s.deliveries[2].event.uncertain && !s.deliveries[2].event.accepted
    && forall k :: 0 <= k < |s.db.outbox| ==> !s.db.outbox[k].key.UncertainKey?
  }

  lemma ReportUncertain(s: Sys)
    requires CalledUncertain(s)
    ensures ReportedUncertain(Step(s, Report(1, 0)))
  {
    assert !HasKey(s.db.outbox, 0, ResultKey(0, 2));
  }

  lemma SubmitUncertain() returns (s: Sys)
    ensures Reachable(s, map[]) && ReportedUncertain(s)
  {
    var s0 := RouteAndLoad();
    var s1 := Step(s0, Dispatch(1, Allow, 0, 0));
    var s2 := Step(s1, CallProvider(1, UNCERTAIN, true));
    OneMoreStep(s0, map[], Dispatch(1, Allow, 0, 0));
    OneMoreStep(s1, map[], CallProvider(1, UNCERTAIN, true));
    CallUncertain(s0);
    OneMoreStep(s2, map[], Report(1, 0));
    ReportUncertain(s2);
    s := Step(s2, Report(1, 0));
  }

  /** An uncertain outcome leaves the message `submitting` with only a reconciliation event. */
  lemma UncertainOutcomeIsStuck() returns (s: Sys)
    ensures Reachable(s, map[])
    ensures |s.db.rows| == 1 && s.db.rows[0].status == Submitting && UncertainParked(s.db, 0)
    ensures forall i :: 0 <= i < |s.deliveries| ==> !Live(s.deliveries[i])
  {
    var s0 := SubmitUncertain();
    ParkTheResult(s0);
    OneMoreStep(s0, map[], Load(2));
    var handle := HandleResult(2, RetryPolicy(3, {}), None, 0, 0);
    OneMoreStep(Step(s0, Load(2)), map[], handle);
    s := Step(Step(s0, Load(2)), handle);
  }

  lemma ParkTheResult(s: Sys)
    requires ReportedUncertain(s)
    ensures var s' := Step(Step(s, Load(2)), HandleResult(2, RetryPolicy(3, {}), None, 0, 0));
            && |s'.db.rows| == 1 && s'.db.rows[0].status == Submitting
            && UncertainParked(s'.db, 0)
            && forall i :: 0 <= i < |s'.deliveries| ==> !Live(s'.deliveries[i])
  {
    var loaded := Step(s, Load(2));
    assert loaded.deliveries[2].phase == Loaded(s.db.rows[0]);
    var s' := Step(loaded, HandleResult(2, RetryPolicy(3, {}), None, 0, 0));
    assert !HasKey(s.db.outbox, 0, UncertainKey(0, 3));
    assert s'.db.outbox[|s.db.outbox|].key == UncertainKey(0, 3);
  }

  // ----- parked messages stay parked -----

  ghost predicate OnlyRetries(ds: seq<Delivery>, m: nat) {
    forall i :: 0 <= i < |ds| && ds[i].event.msg == m && Live(ds[i]) ==> ds[i].event.topic == RetryTopic
  }

  ghost predicate NothingLive(ds: seq<Delivery>, m: nat) {
    forall i :: 0 <= i < |ds| && ds[i].event.msg == m ==> !Live(ds[i])
  }

  ghost predicate Throttled(db: Db, m: nat)
    requires m < |db.rows|
  {
    db.rows[m].status == Routed && ThrottleParked(db, m)
  }

  ghost predicate Uncertain(db: Db, m: nat)
    requires m < |db.rows|
  {
    db.rows[m].status == Submitting && UncertainParked(db, m)
  }

  /** As long as none of its events was duplicated, a parked message has nothing on its way that could move it. */
  ghost predicate ParkedAt(s: Sys, m: nat)
    requires m < |s.db.rows|
  {
    s.duplicated[m] == 0 ==>
      && (Throttled(s.db, m) ==> OnlyRetries(s.deliveries, m))
      && (Uncertain(s.db, m) ==> NothingLive(s.deliveries, m))
  }

  ghost predicate ParkedOk(s: Sys) {
    forall m: nat :: m < |s.db.rows| ==> ParkedAt(s, m)
  }

  /** `key` parks message `m`. */
  predicate Parks(key: DedupeKey, m: nat) {
    (key.ThrottleKey? || key.UncertainKey?) && key.msg == m
  }

  /** A message whose row stays where it is, and that gets no new event while parked. */
  lemma StaysParked(s: Sys, s': Sys, k: nat)
    requires k < |s.db.rows| <= |s'.db.rows| && s'.db.rows[k] == s.db.rows[k] && ParkedAt(s, k)
    requires s'.duplicated[k] >= s.duplicated[k] && AtMostOneMore(s.db.outbox, s'.db.outbox)
    requires |s'.db.outbox| > |s.db.outbox| ==> !Parks(s'.db.outbox[|s.db.outbox|].key, k)
    requires |s.deliveries| <= |s'.deliveries|
    requires forall i :: 0 <= i < |s.deliveries| ==>
               && s'.deliveries[i].event == s.deliveries[i].event
               && (s.deliveries[i].event.msg == k && Live(s'.deliveries[i]) ==> Live(s.deliveries[i]))
    requires forall i :: |s.deliveries| <= i < |s'.deliveries| && s'.deliveries[i].event.msg == k ==>
               s.duplicated[k] > 0 || (!Throttled(s.db, k) && !Uncertain(s.db, k))
    ensures ParkedAt(s', k)
  {
    UsedStays(s.db.outbox, s'.db.outbox, ThrottleKey(k, s.db.rows[k].version));
    UsedStays(s.db.outbox, s'.db.outbox, UncertainKey(k, s.db.rows[k].version));
  }

  /** Without duplicates, a live delivery is the only one of its message. */
  lemma SoleLive(s: Sys, maxAttempts: int, i: nat, j: nat, m: nat)
    requires m < |s.db.rows| && Attempts.AttemptsAt(s, maxAttempts, m) && s.duplicated[m] == 0
    requires i < |s.deliveries| && j < |s.deliveries| && i != j
    requires s.deliveries[i].event.msg == m && s.deliveries[j].event.msg == m && Live(s.deliveries[i])
    ensures !Live(s.deliveries[j])
  {
    var w := Attempts.LiveWeight(m);
    var done := s.deliveries[i].(phase := Handled);
    SumUpdate(s.deliveries, i, done, w);
    SumCoversMember(s.deliveries[i := done], j, w);
  }

  /** The message a handler's transaction moved: parked only by the event that transaction left behind. */
  lemma MovedParked(s: Sys, maxAttempts: int, i: nat, after: Db, phase: Phase, m: nat)
    requires KeysOk(s.db) && m < |s.db.rows| == |after.rows| && Attempts.AttemptsAt(s, maxAttempts, m)
    requires i < |s.deliveries| && s.deliveries[i].event.msg == m && Live(s.deliveries[i])
    requires after.rows[m].version > s.db.rows[m].version && AtMostOneMore(s.db.outbox, after.outbox)
    requires phase.Handled? || after.outbox == s.db.outbox
    requires |after.outbox| > |s.db.outbox| ==> Leaves(after, after.outbox[|s.db.outbox|], m)
    ensures ParkedAt(Finish(s, i, Ok(after), phase), m)
  {
    var v := after.rows[m].version;
    var s' := Finish(s, i, Ok(after), phase);
    FutureKeyIsFresh(s.db, m, ThrottleKey(m, v), 0);
    FutureKeyIsFresh(s.db, m, UncertainKey(m, v), 0);
    if |after.outbox| == |s.db.outbox| {
      assert after.outbox == s.db.outbox;
    } else if s.duplicated[m] == 0 {
      var o := after.outbox[|s.db.outbox|];
      if o.key != ThrottleKey(m, v) {
        UsedStays(s.db.outbox, after.outbox, ThrottleKey(m, v));
      }
      if o.key != UncertainKey(m, v) {
        UsedStays(s.db.outbox, after.outbox, UncertainKey(m, v));
      }
      forall j | 0 <= j < |s.deliveries| && s.deliveries[j].event.msg == m
        ensures !Live(s'.deliveries[j])
      {
        if j != i {
          SoleLive(s, maxAttempts, i, j, m);
        }
      }
    }
  }

  lemma HandlerParked(s: Sys, initial: map<nat, Wallet>, maxAttempts: int, i: nat, after: Db, phase: Phase, m: nat)
    requires SysInv(s, initial) && Attempts.AttemptsOk(s, maxAttempts) && ParkedOk(s)
    requires i < |s.deliveries| && s.deliveries[i].event.msg == m && Live(s.deliveries[i])
    requires Advanced(s.db, after, initial, m) && AtMostOneMore(s.db.outbox, after.outbox)
    requires phase.Handled? || after.outbox == s.db.outbox
    requires |after.outbox| > |s.db.outbox| ==> Leaves(after, after.outbox[|s.db.outbox|], m)
    ensures ParkedOk(Finish(s, i, Ok(after), phase))
  {
    var s' := Finish(s, i, Ok(after), phase);
    forall k: nat | k < |s'.db.rows|
      ensures ParkedAt(s', k)
    {
      assert ParkedAt(s, k);
      if k == m {
        assert Attempts.AttemptsAt(s, maxAttempts, m);
        MovedParked(s, maxAttempts, i, after, phase, m);
      } else {
        StaysParked(s, s', k);
      }
    }
  }

  lemma RequeueParked(s: Sys, i: nat)
    requires ParkedOk(s) && i < |s.deliveries|
    ensures ParkedOk(Requeue(s, i))
  {
    var s' := Requeue(s, i);
    forall k: nat | k < |s'.db.rows|
      ensures ParkedAt(s', k)
    {
      assert ParkedAt(s, k);
      if k != s.deliveries[i].event.msg || Live(s.deliveries[i]) {
        StaysParked(s, s', k);
      }
    }
  }

  // ----- the handlers -----

  lemma RouteParked(s: Sys, initial: map<nat, Wallet>, maxAttempts: int, i: nat, route: Route, day: int, now: int)
    requires SysInv(s, initial) && Attempts.AttemptsOk(s, maxAttempts) && ParkedOk(s)
    ensures ParkedOk(Step(s, RouteAccepted(i, route, day, now)))
  {
    if i < |s.deliveries| && s.deliveries[i].phase.Loaded? && s.deliveries[i].event.topic == AcceptedTopic {
      var d := s.deliveries[i];
      var snap := d.phase.snap;
      assert DeliveryOk(s.db, d);
      RouteKeeps(s.db, initial, d.event, snap, route, day, now);
      if RouteTx(s.db, d.event, snap, route, day, now).Err? {
        RequeueParked(s, i);
      } else {
        GuardMeansCurrent(s.db, initial, snap);
        FutureKeyIsFresh(s.db, snap.id, DispatchKey(snap.id, snap.version + 1), day);
        RouteQueues(s.db, d.event, snap, route, day, now);
        HandlerParked(s, initial, maxAttempts, i, RouteTx(s.db, d.event, snap, route, day, now).value, Handled,
          snap.id);
      }
    }
  }

  lemma BlockParked(s: Sys, initial: map<nat, Wallet>, maxAttempts: int, i: nat, reason: string, day: int, now: int)
    requires SysInv(s, initial) && Attempts.AttemptsOk(s, maxAttempts) && ParkedOk(s)
    ensures ParkedOk(Step(s, Dispatch(i, Block(reason), day, now)))
  {
    if i < |s.deliveries| && s.deliveries[i].phase.Loaded? && IsDispatch(s.deliveries[i].event.topic) {
      var d := s.deliveries[i];
      var snap := d.phase.snap;
      assert DeliveryOk(s.db, d);
      BlockKeeps(s.db, initial, snap, reason, now);
      if BlockTx(s.db, snap, reason, now).Err? {
        RequeueParked(s, i);
      } else {
        BlockFails(s.db, snap, reason, now);
        HandlerParked(s, initial, maxAttempts, i, BlockTx(s.db, snap, reason, now).value, Handled, snap.id);
      }
    }
  }

  lemma ThrottleParks(s: Sys, initial: map<nat, Wallet>, maxAttempts: int, i: nat, day: int, now: int)
    requires SysInv(s, initial) && Attempts.AttemptsOk(s, maxAttempts) && ParkedOk(s)
    ensures ParkedOk(Step(s, Dispatch(i, Throttle, day, now)))
  {
    if i < |s.deliveries| && s.deliveries[i].phase.Loaded? && IsDispatch(s.deliveries[i].event.topic) {
      var d := s.deliveries[i];
      var snap := d.phase.snap;
      assert DeliveryOk(s.db, d);
      ThrottleKeeps(s.db, initial, d.event, snap, day);
      if ThrottleTx(s.db, d.event, snap, day).Err? {
        RequeueParked(s, i);
      } else {
        GuardMeansCurrent(s.db, initial, snap);
        FutureKeyIsFresh(s.db, snap.id, ThrottleKey(snap.id, snap.version + 1), day);
        ThrottleQueues(s.db, d.event, snap, day);
        HandlerParked(s, initial, maxAttempts, i, ThrottleTx(s.db, d.event, snap, day).value, Handled, snap.id);
      }
    }
  }

  lemma BeginQueuesNothing(db: Db, snap: Row, now: int)
    ensures BeginSubmitTx(db, snap, now).Ok? ==> BeginSubmitTx(db, snap, now).value.0.outbox == db.outbox
  {
  }

  lemma BeginSubmitParked(s: Sys, initial: map<nat, Wallet>, maxAttempts: int, i: nat, day: int, now: int)
    requires SysInv(s, initial) && Attempts.AttemptsOk(s, maxAttempts) && ParkedOk(s)
    ensures ParkedOk(Step(s, Dispatch(i, Allow, day, now)))
  {
    if i < |s.deliveries| && s.deliveries[i].phase.Loaded? && IsDispatch(s.deliveries[i].event.topic) {
      var d := s.deliveries[i];
      var snap := d.phase.snap;
      assert DeliveryOk(s.db, d);
      BeginSubmitKeeps(s.db, initial, snap, now);
      if BeginSubmitTx(s.db, snap, now).Err? {
        RequeueParked(s, i);
      } else {
        var (after, updated) := BeginSubmitTx(s.db, snap, now).value;
        BeginQueuesNothing(s.db, snap, now);
        HandlerParked(s, initial, maxAttempts, i, after, Submitted(snap, updated.version), snap.id);
      }
    }
  }

  lemma ResultParked(
    s: Sys, initial: map<nat, Wallet>, maxAttempts: int, i: nat, policy: RetryPolicy, next: Option<Route>,
    day: int, now: int)
    requires SysInv(s, initial) && Attempts.AttemptsOk(s, maxAttempts) && ParkedOk(s)
    ensures ParkedOk(Step(s, HandleResult(i, policy, next, day, now)))
  {
    if i < |s.deliveries| && s.deliveries[i].phase.Loaded? && s.deliveries[i].event.topic == ResultTopic {
      var d := s.deliveries[i];
      var snap := d.phase.snap;
      assert DeliveryOk(s.db, d);
      ResultKeeps(s.db, initial, d.event, snap, policy, next, day, now);
      if ResultTx(s.db, d.event, snap, policy, next, day, now).Err? {
        RequeueParked(s, i);
      } else {
        GuardMeansCurrent(s.db, initial, snap);
        FutureKeyIsFresh(s.db, snap.id, UncertainKey(snap.id, snap.version + 1), day);
        FutureKeyIsFresh(s.db, snap.id, RetryKey(snap.id, snap.version + 1), day);
        ResultQueues(s.db, d.event, snap, policy, next, day, now);
        HandlerParked(s, initial, maxAttempts, i, ResultTx(s.db, d.event, snap, policy, next, day, now).value, Handled,
          snap.id);
      }
    }
  }

  /** Once past routing, every later version is. */
  lemma {:induction false} NeverBackToRouting(db: Db, m: nat, v: nat, w: nat)
    requires HistoryOk(db) && m < |db.rows| && v <= w <= db.rows[m].version
    ensures (m, v) in db.history && (m, w) in db.history
    ensures PastRouting(db.history[(m, v)].status) ==> PastRouting(db.history[(m, w)].status)
    decreases w
  {
    assert VersionAt(db, m, v) && VersionAt(db, m, w);
    if v < w {
      NeverBackToRouting(db, m, v, w - 1);
    }
  }

  /**
   The two handlers that queue without moving the row: their message is not parked, or one
   of its events was duplicated.
   */
  lemma QueueParked(s: Sys, initial: map<nat, Wallet>, i: nat, day: int, key: DedupeKey, event: Event)
    requires SysInv(s, initial) && ParkedOk(s) && i < |s.deliveries| && Live(s.deliveries[i])
    requires s.deliveries[i].event.msg == event.msg && !key.ThrottleKey? && !key.UncertainKey?
    requires s.deliveries[i].event.topic == RetryTopic ==> s.deliveries[i].phase.Loaded?
    ensures ParkedOk(Finish(s, i, Ok(Enqueue(s.db, day, key, event)), Handled))
  {
    var m := event.msg;
    var s' := Finish(s, i, Ok(Enqueue(s.db, day, key, event)), Handled);
    assert DeliveryOk(s.db, s.deliveries[i]);
    if s.deliveries[i].event.topic == RetryTopic {
      var snap := s.deliveries[i].phase.snap;
      NeverBackToRouting(s.db, m, snap.version, s.db.rows[m].version);
      assert VersionAt(s.db, m, s.db.rows[m].version);
    }
    forall k: nat | k < |s'.db.rows|
      ensures ParkedAt(s', k)
    {
      assert ParkedAt(s, k);
      StaysParked(s, s', k);
    }
  }

  lemma RetryDispatchParked(s: Sys, initial: map<nat, Wallet>, i: nat, day: int)
    requires SysInv(s, initial) && ParkedOk(s)
    ensures ParkedOk(Step(s, QueueRetryDispatch(i, day)))
  {
    if i < |s.deliveries| && s.deliveries[i].phase.Loaded? && s.deliveries[i].event.topic == RetryTopic {
      var d := s.deliveries[i];
      var snap := d.phase.snap;
      QueueParked(s, initial, i, day, RetryDispatchKey(snap.id, snap.version),
                  d.event.(topic := DispatchTopic(snap.content.marketing), version := snap.version,
                           providerId := snap.providerId, smppConfigId := snap.smppConfigId));
    }
  }

  lemma ReportParked(s: Sys, initial: map<nat, Wallet>, i: nat, day: int)
    requires SysInv(s, initial) && ParkedOk(s)
    ensures ParkedOk(Step(s, Report(i, day)))
  {
    if i < |s.deliveries| && s.deliveries[i].phase.Called? {
      var d := s.deliveries[i];
      var outcome := d.phase.outcome;
      assert DeliveryOk(s.db, d);
      QueueParked(s, initial, i, day, ResultKey(d.phase.snap.id, d.phase.submittingVersion),
                  d.event.(topic := ResultTopic, version := d.phase.submittingVersion, accepted := outcome.accepted,
                           uncertain := outcome.uncertain, providerMessageId := outcome.providerMessageId,
                           errorCode := outcome.errorCode, protocol := Some(outcome.protocol)));
    }
  }

  // ----- the other steps -----

  lemma SubmitParked(s: Sys, submission: Submission, day: int)
    requires ParkedOk(s)
    ensures ParkedOk(Step(s, Submit(submission, day)))
  {
    if IsRepeated(s.db, submission) {
      RepeatChangesNothing(s, submission, day);
    } else if InsertTx(s.db, submission, day).Ok? {
      SubmitAdds(s.db, submission, day);
      var s' := Step(s, Submit(submission, day));
      forall k: nat | k < |s'.db.rows|
        ensures ParkedAt(s', k)
      {
        if k < |s.db.rows| {
          assert ParkedAt(s, k);
          StaysParked(s, s', k);
        }
      }
    }
  }

  lemma RedeliverParked(s: Sys, i: nat)
    requires ParkedOk(s)
    ensures ParkedOk(Step(s, Redeliver(i)))
  {
    if i < |s.deliveries| {
      var s' := Step(s, Redeliver(i));
      forall k: nat | k < |s'.db.rows|
        ensures ParkedAt(s', k)
      {
        assert ParkedAt(s, k);
        if k != s.deliveries[i].event.msg {
          StaysParked(s, s', k);
        }
      }
    }
  }

  /** Reads, calls and acknowledgements revive nothing. */
  lemma PhaseParked(s: Sys, a: Action)
    requires ParkedOk(s) && (a.Load? || a.CallProvider? || a.Ack? || a.OpenReceipt? || a.LoadReceipt?)
    ensures ParkedOk(Step(s, a))
  {
    var s' := Step(s, a);
    forall k: nat | k < |s'.db.rows|
      ensures ParkedAt(s', k)
    {
      assert ParkedAt(s, k);
      StaysParked(s, s', k);
    }
  }

  lemma TablesParked(s: Sys, after: Db, m: nat)
    requires ParkedOk(s) && AtMostOneMore(s.db.outbox, after.outbox)
    requires || after.rows == s.db.rows
             || (m < |s.db.rows| == |after.rows| && after.rows == s.db.rows[m := after.rows[m]]
                && after.rows[m].status in {Delivered, Failed})
    requires |after.outbox| > |s.db.outbox| ==> after.outbox[|s.db.outbox|].key.HookKey?
    ensures ParkedOk(s.(db := after))
  {
    forall k: nat | k < |after.rows|
      ensures ParkedAt(s.(db := after), k)
    {
      assert ParkedAt(s, k);
      if after.rows[k] == s.db.rows[k] {
        StaysParked(s, s.(db := after), k);
      }
    }
  }

  lemma ReceiptParked(s: Sys, initial: map<nat, Wallet>, k: nat, day: int, now: int)
    requires SysInv(s, initial) && ParkedOk(s)
    ensures ParkedOk(Step(s, HandleReceipt(k, day, now)))
  {
    if k < |s.receipts| && s.receipts[k].opening.hook < |s.db.webhooks| {
      var work := s.receipts[k];
      ReceiptKeeps(s.db, initial, work.opening, work.snap, day, now);
      ReceiptQueues(s.db, work.opening, work.snap, day, now);
      var r := ReceiptTx(s.db, work.opening, work.snap, day, now);
      if r.Ok? {
        TablesParked(s, r.value, work.snap.id);
      }
    }
  }

  lemma StepParked(s: Sys, initial: map<nat, Wallet>, maxAttempts: int, a: Action)
    requires SysInv(s, initial) && Attempts.AttemptsOk(s, maxAttempts) && ParkedOk(s)
    ensures ParkedOk(Step(s, a))
  {
    match a
    case Submit(submission, day) => SubmitParked(s, submission, day);
    case RouteAccepted(i, route, day, now) => RouteParked(s, initial, maxAttempts, i, route, day, now);
    case QueueRetryDispatch(i, day) => RetryDispatchParked(s, initial, i, day);
    case Dispatch(i, verdict, day, now) => DispatchParked(s, initial, maxAttempts, i, verdict, day, now);
    case Report(i, day) => ReportParked(s, initial, i, day);
    case HandleResult(i, policy, next, day, now) => ResultParked(s, initial, maxAttempts, i, policy, next, day, now);
    case HandleReceipt(k, day, now) => ReceiptParked(s, initial, k, day, now);
    case Redeliver(i) => RedeliverParked(s, i);
    case Crash(i) =>
      if i < |s.deliveries| {
        RequeueParked(s, i);
      }
    case RepeatHook(_, _) => TablesParked(s, Step(s, a).db, 0);
    case ReceiveHook(_) => TablesParked(s, Step(s, a).db, 0);
    case ReceiptUnmatched(_, _) => TablesParked(s, Step(s, a).db, 0);
    case _ => PhaseParked(s, a);
  }

  lemma DispatchParked(
    s: Sys, initial: map<nat, Wallet>, maxAttempts: int, i: nat, verdict: Verdict, day: int, now: int)
    requires SysInv(s, initial) && Attempts.AttemptsOk(s, maxAttempts) && ParkedOk(s)
    ensures ParkedOk(Step(s, Dispatch(i, verdict, day, now)))
  {
    match verdict
    case Block(reason) => BlockParked(s, initial, maxAttempts, i, reason, day, now);
    case Throttle => ThrottleParks(s, initial, maxAttempts, i, day, now);
    case Allow => BeginSubmitParked(s, initial, maxAttempts, i, day, now);
  }

  // ----- exactly when -----

  /** The largest retry policy a run consults. */
  function LargestPolicy(actions: seq<Action>): int {
    if actions == [] then 0
    else
      var before, last := LargestPolicy(actions[..|actions| - 1]), actions[|actions| - 1];
      if last.HandleResult? then Max(before, last.policy.maxAttempts) else before
  }

  lemma {:induction false} PoliciesAreBounded(actions: seq<Action>)
    ensures forall a :: a in actions ==> Attempts.PolicyBounded(a, LargestPolicy(actions))
  {
    if actions != [] {
      var init := actions[..|actions| - 1];
      PoliciesAreBounded(init);
      assert actions == init + [actions[|init|]];
      assert LargestPolicy(init) <= LargestPolicy(actions);
    }
  }

  lemma {:induction false} RunParked(wallets: map<nat, Wallet>, actions: seq<Action>)
    requires Funded(wallets)
    ensures ParkedOk(Run(Start(wallets), actions))
  {
    if actions != [] {
      var last := |actions| - 1;
      var s := Run(Start(wallets), actions[..last]);
      RunParked(wallets, actions[..last]);
      PoliciesAreBounded(actions[..last]);
      Attempts.RunAttempts(wallets, actions[..last], LargestPolicy(actions[..last]));
      RunIsReachable(wallets, actions[..last]);
      ReachableInv(s, wallets);
      StepParked(s, wallets, LargestPolicy(actions[..last]), actions[last]);
    }
  }

  /**
   In every run, a message none of whose events was duplicated has a live event
   that can move it if and only if its last update did not park it: a routed one
   if and only if that was not a throttle, a submitting one if and only if that was
   not an uncertain outcome.
   */
  lemma {:induction false} ParkingIsExact(wallets: map<nat, Wallet>, actions: seq<Action>, m: nat)
    requires Funded(wallets)
    requires var s := Run(Start(wallets), actions); m < |s.db.rows| && s.duplicated[m] == 0
    ensures var s := Run(Start(wallets), actions); var row := s.db.rows[m];
            && (row.status == Routed ==> (DispatchLive(s.deliveries, m) <==> !ThrottleParked(s.db, m)))
            && (row.status == Submitting ==> (SolidLive(row, s.deliveries, m) <==> !UncertainParked(s.db, m)))
  {
    var s := Run(Start(wallets), actions);
    RunParked(wallets, actions);
    assert ParkedAt(s, m);
    RunIsReachable(wallets, actions);
    ReachableInv(s, wallets);
    assert LiveAt(s.db, s.deliveries, m);
  }
}
