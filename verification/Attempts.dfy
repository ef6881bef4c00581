/**
 How often a message can be attempted. Every attempt is paid for by a live event
 on its way to a dispatch, and live events only multiply when one is redelivered.
 */
module Attempts {
  import opened Wrappers
  import opened Sums
  import opened Messages
  import opened Store
  import opened Settlement
  import opened Protocol
  import opened Deliveries

  function LiveWeight(m: nat): Delivery -> int {
    (d: Delivery) => if d.event.msg == m && Live(d) then 1 else 0
  }

  /** A live event that will still cost an attempt. */
  predicate WillAttempt(d: Delivery) {
    && (d.phase.Pending? || d.phase.Loaded?)
    && (d.event.topic == AcceptedTopic || IsDispatch(d.event.topic) || d.event.topic == RetryTopic)
  }

  function AttemptWeight(m: nat): Delivery -> int {
    (d: Delivery) => if d.event.msg == m && WillAttempt(d) then 1 else 0
  }

  /** An attempt already counted whose provider call is still to come. */
  function CallWeight(m: nat): Delivery -> int {
    (d: Delivery) => if d.event.msg == m && d.phase.Submitted? then 1 else 0
  }

  ghost predicate AttemptsAt(s: Sys, maxAttempts: int, m: nat)
    requires m < |s.db.rows|
  {
    && Sum(s.deliveries, LiveWeight(m)) <= 1 + s.duplicated[m]
    && s.db.rows[m].attempts + Sum(s.deliveries, AttemptWeight(m)) <= Max(1, maxAttempts) + s.redelivered[m]
    && s.submissions[m] + Sum(s.deliveries, CallWeight(m)) <= s.db.rows[m].attempts
  }

  ghost predicate AttemptsOk(s: Sys, maxAttempts: int) {
    && (forall m: nat :: m < |s.db.rows| ==> AttemptsAt(s, maxAttempts, m))
    && (forall m: nat :: m in s.submissions ==> m < |s.db.rows|)
    && (forall m: nat :: s.duplicated[m] <= s.redelivered[m])
  }

  predicate PolicyBounded(a: Action, maxAttempts: int) {
    a.HandleResult? ==> a.policy.maxAttempts <= maxAttempts
  }

  /** Weight of the deliveries a transaction added. */
  function WeightOfNew(before: Db, after: Db, w: Delivery -> int): int {
    var added := NewDeliveries(before, after);
    if added == [] then 0 else w(added[0])
  }

  lemma FinishSum(s: Sys, i: nat, after: Db, phase: Phase, w: Delivery -> int)
    requires i < |s.deliveries|
    ensures Sum(Finish(s, i, Ok(after), phase).deliveries, w)
            == Sum(s.deliveries, w) - w(s.deliveries[i]) + w(s.deliveries[i].(phase := phase))
               + WeightOfNew(s.db, after, w)
  {
    var d' := s.deliveries[i].(phase := phase);
    var added := NewDeliveries(s.db, after);
    SumUpdate(s.deliveries, i, d', w);
    if added == [] {
      assert s.deliveries[i := d'] + added == s.deliveries[i := d'];
    } else {
      SumAppend(s.deliveries[i := d'], added[0], w);
    }
  }

  /** A handler step is paid for when it trades live events, future attempts and pending calls as follows. */
  lemma FinishAttempts(s: Sys, i: nat, after: Db, phase: Phase, maxAttempts: int, m: nat)
    requires AttemptsOk(s, maxAttempts) && i < |s.deliveries|
    requires s.deliveries[i].event.msg == m < |s.db.rows| == |after.rows| && after.rows == s.db.rows[m := after.rows[m]]
    requires forall d :: d in NewDeliveries(s.db, after) ==> d.event.msg == m
    requires var d := s.deliveries[i]; var d' := d.(phase := phase);
             && LiveWeight(m)(d') + WeightOfNew(s.db, after, LiveWeight(m)) <= LiveWeight(m)(d)
             && after.rows[m].attempts + Sum(s.deliveries, AttemptWeight(m)) - AttemptWeight(m)(d)
                + AttemptWeight(m)(d')
                + WeightOfNew(s.db, after, AttemptWeight(m)) <= Max(1, maxAttempts) + s.redelivered[m]
             && CallWeight(m)(d') + s.db.rows[m].attempts <= CallWeight(m)(d) + after.rows[m].attempts
    ensures AttemptsOk(Finish(s, i, Ok(after), phase), maxAttempts)
  {
    var s' := Finish(s, i, Ok(after), phase);
    forall k: nat | k < |s'.db.rows|
      ensures AttemptsAt(s', maxAttempts, k)
    {
      assert AttemptsAt(s, maxAttempts, k);
      if k != m {
        OthersAttempts(s, i, after, phase, maxAttempts, m, k);
      } else {
        FinishSum(s, i, after, phase, LiveWeight(k));
        FinishSum(s, i, after, phase, AttemptWeight(k));
        FinishSum(s, i, after, phase, CallWeight(k));
      }
    }
  }

  /** The step of a handler weighs nothing for another message. */
  lemma OthersAttempts(s: Sys, i: nat, after: Db, phase: Phase, maxAttempts: int, m: nat, k: nat)
    requires i < |s.deliveries| && s.deliveries[i].event.msg == m && k != m
    requires k < |s.db.rows| == |after.rows| && after.rows[k].attempts == s.db.rows[k].attempts
    requires forall d :: d in NewDeliveries(s.db, after) ==> d.event.msg == m
    requires AttemptsAt(s, maxAttempts, k)
    ensures AttemptsAt(Finish(s, i, Ok(after), phase), maxAttempts, k)
  {
    var added := NewDeliveries(s.db, after);
    assert added != [] ==> added[0] in added;
    FinishSum(s, i, after, phase, LiveWeight(k));
    FinishSum(s, i, after, phase, AttemptWeight(k));
    FinishSum(s, i, after, phase, CallWeight(k));
  }

  lemma RequeueAttempts(s: Sys, i: nat, maxAttempts: int)
    requires AttemptsOk(s, maxAttempts) && i < |s.deliveries| && s.deliveries[i].event.msg < |s.db.rows|
    ensures AttemptsOk(Requeue(s, i), maxAttempts)
  {
    var s' := Requeue(s, i);
    forall k: nat | k < |s'.db.rows|
      ensures AttemptsAt(s', maxAttempts, k)
    {
      assert AttemptsAt(s, maxAttempts, k);
      RequeueAttemptsAt(s, i, maxAttempts, k);
    }
  }

  lemma RequeueAttemptsAt(s: Sys, i: nat, maxAttempts: int, k: nat)
    requires i < |s.deliveries| && k < |s.db.rows| && AttemptsAt(s, maxAttempts, k)
    ensures AttemptsAt(Requeue(s, i), maxAttempts, k)
  {
    var d' := s.deliveries[i].(phase := Pending);
    SumUpdate(s.deliveries, i, d', LiveWeight(k));
    SumUpdate(s.deliveries, i, d', AttemptWeight(k));
    SumUpdate(s.deliveries, i, d', CallWeight(k));
  }

  /** A result in hand is live and costs no attempt itself, so it leaves room for the retry it may queue. */
  lemma ResultLeavesRoom(s: Sys, i: nat, maxAttempts: int, m: nat)
    requires AttemptsOk(s, maxAttempts) && i < |s.deliveries| && m < |s.db.rows|
    requires s.deliveries[i].event.msg == m && s.deliveries[i].event.topic == ResultTopic
    requires s.deliveries[i].phase.Loaded?
    ensures Sum(s.deliveries, AttemptWeight(m)) <= s.redelivered[m]
  {
    var done := s.deliveries[i].(phase := Handled);
    SumUpdate(s.deliveries, i, done, LiveWeight(m));
    SumUpdate(s.deliveries, i, done, AttemptWeight(m));
    SumMonotone(s.deliveries[i := done], AttemptWeight(m), LiveWeight(m));
    assert AttemptsAt(s, maxAttempts, m);
  }

  lemma PhaseAttempts(s: Sys, i: nat, phase: Phase, maxAttempts: int)
    requires AttemptsOk(s, maxAttempts) && i < |s.deliveries| && s.deliveries[i].event.msg < |s.db.rows|
    requires var d := s.deliveries[i]; var m := d.event.msg; var d' := d.(phase := phase);
             && LiveWeight(m)(d') <= LiveWeight(m)(d) && AttemptWeight(m)(d') <= AttemptWeight(m)(d)
             && CallWeight(m)(d') <= CallWeight(m)(d)
    ensures AttemptsOk(At(s, i, phase), maxAttempts)
  {
    var d' := s.deliveries[i].(phase := phase);
    forall k: nat | k < |s.db.rows|
      ensures AttemptsAt(At(s, i, phase), maxAttempts, k)
    {
      assert AttemptsAt(s, maxAttempts, k);
      SumUpdate(s.deliveries, i, d', LiveWeight(k));
      SumUpdate(s.deliveries, i, d', AttemptWeight(k));
      SumUpdate(s.deliveries, i, d', CallWeight(k));
    }
  }

  lemma CallAttempts(s: Sys, i: nat, outcome: Outcome, reached: bool, maxAttempts: int)
    requires AttemptsOk(s, maxAttempts) && i < |s.deliveries| && s.deliveries[i].event.msg < |s.db.rows|
    ensures AttemptsOk(Step(s, CallProvider(i, outcome, reached)), maxAttempts)
  {
    if s.deliveries[i].phase.Submitted? {
      var s' := Step(s, CallProvider(i, outcome, reached));
      var called := Called(s.deliveries[i].phase.snap, s.deliveries[i].phase.submittingVersion, outcome);
      assert s' == At(s, i, called).(submissions := s'.submissions);
      forall k: nat | k < |s.db.rows|
        ensures AttemptsAt(s', maxAttempts, k)
      {
        assert AttemptsAt(s, maxAttempts, k);
        CallAttemptsAt(s, i, called, s'.submissions, maxAttempts, k);
      }
    }
  }

  lemma CallAttemptsAt(s: Sys, i: nat, called: Phase, submissions: multiset<nat>, maxAttempts: int, k: nat)
    requires i < |s.deliveries| && s.deliveries[i].phase.Submitted? && called.Called?
    requires k < |s.db.rows| && AttemptsAt(s, maxAttempts, k)
    requires submissions[k] <= s.submissions[k] + (if k == s.deliveries[i].event.msg then 1 else 0)
    ensures AttemptsAt(At(s, i, called).(submissions := submissions), maxAttempts, k)
  {
    var d' := s.deliveries[i].(phase := called);
    SumUpdate(s.deliveries, i, d', LiveWeight(k));
    SumUpdate(s.deliveries, i, d', AttemptWeight(k));
    SumUpdate(s.deliveries, i, d', CallWeight(k));
  }

  lemma RedeliverAttempts(s: Sys, i: nat, maxAttempts: int)
    requires AttemptsOk(s, maxAttempts) && i < |s.deliveries| && s.deliveries[i].event.msg < |s.db.rows|
    ensures AttemptsOk(Step(s, Redeliver(i)), maxAttempts)
  {
    var s' := Step(s, Redeliver(i));
    var d' := Delivery(s.deliveries[i].event, Pending);
    forall k: nat | k < |s.db.rows|
      ensures AttemptsAt(s', maxAttempts, k)
    {
      assert AttemptsAt(s, maxAttempts, k);
      SumAppend(s.deliveries, d', LiveWeight(k));
      SumAppend(s.deliveries, d', AttemptWeight(k));
      SumAppend(s.deliveries, d', CallWeight(k));
    }
  }

  lemma SubmitAttempts(s: Sys, initial: map<nat, Wallet>, submission: Submission, day: int, maxAttempts: int)
    requires SysInv(s, initial) && AttemptsOk(s, maxAttempts)
    ensures AttemptsOk(Step(s, Submit(submission, day)), maxAttempts)
  {
    if IsRepeated(s.db, submission) {
      RepeatChangesNothing(s, submission, day);
    } else if InsertTx(s.db, submission, day).Ok? {
      var s' := Step(s, Submit(submission, day));
      SubmitAdds(s.db, submission, day);
      forall k: nat | k < |s'.db.rows|
        ensures AttemptsAt(s', maxAttempts, k)
      {
        SubmitAttemptsAt(s, initial, submission, day, maxAttempts, k);
      }
    }
  }

  lemma SubmitAttemptsAt(s: Sys, initial: map<nat, Wallet>, submission: Submission, day: int, maxAttempts: int, k: nat)
    requires SysInv(s, initial) && AttemptsOk(s, maxAttempts)
    requires !IsRepeated(s.db, submission) && InsertTx(s.db, submission, day).Ok? && k <= |s.db.rows|
    ensures var s' := Step(s, Submit(submission, day)); k < |s'.db.rows| && AttemptsAt(s', maxAttempts, k)
  {
    var m := |s.db.rows|;
    AcceptedKeyIsFresh(s.db);
    SubmitAdds(s.db, submission, day);
    var added := NewDeliveries(s.db, InsertTx(s.db, submission, day).value);
    if k < m {
      assert AttemptsAt(s, maxAttempts, k);
    } else {
      NothingInFlight(s, m);
    }
    SumAppend(s.deliveries, added[0], LiveWeight(k));
    SumAppend(s.deliveries, added[0], AttemptWeight(k));
    SumAppend(s.deliveries, added[0], CallWeight(k));
  }

  lemma NothingInFlight(s: Sys, m: nat)
    requires DeliveriesOk(s.db, s.deliveries) && m >= |s.db.rows|
    ensures Sum(s.deliveries, LiveWeight(m)) == 0
    ensures Sum(s.deliveries, AttemptWeight(m)) == 0
    ensures Sum(s.deliveries, CallWeight(m)) == 0
  {
    forall d | d in s.deliveries
      ensures d.event.msg != m
    {
      var i :| 0 <= i < |s.deliveries| && s.deliveries[i] == d;
      assert DeliveryOk(s.db, s.deliveries[i]);
    }
    SumZero(s.deliveries, LiveWeight(m));
    SumZero(s.deliveries, AttemptWeight(m));
    SumZero(s.deliveries, CallWeight(m));
  }

  // ----- what each transaction does to the attempt count -----

  lemma RouteCounts(db: Db, event: Event, snap: Row, route: Route, day: int, now: int)
    requires RouteTx(db, event, snap, route, day, now).Ok? && snap.id < |db.rows| && snap == db.rows[snap.id]
    requires event.msg == snap.id
    ensures var after := RouteTx(db, event, snap, route, day, now).value;
            snap.id < |after.rows| && after.rows[snap.id].attempts == snap.attempts
            && forall d :: d in NewDeliveries(db, after) ==> d.event.msg == snap.id
  {
  }

  lemma BlockCounts(db: Db, snap: Row, reason: string, now: int)
    requires BlockTx(db, snap, reason, now).Ok? && snap.id < |db.rows| && snap == db.rows[snap.id]
    ensures var after := BlockTx(db, snap, reason, now).value;
            && snap.id < |after.rows| && snap.attempts <= after.rows[snap.id].attempts <= snap.attempts + 1
            && NewDeliveries(db, after) == []
  {
    var first := if snap.status == Routed then Transitioned(snap, Submitting, NO_FIELDS, true, now)
      else Patched(snap, NO_FIELDS);
    var last := Transitioned(first, Failed, BLOCKED_FIELDS, false, now);
    assert BlockTx(db, snap, reason, now).value.rows[snap.id] == last;
  }

  lemma ThrottleCounts(db: Db, event: Event, snap: Row, day: int)
    requires ThrottleTx(db, event, snap, day).Ok? && snap.id < |db.rows| && snap == db.rows[snap.id]
    requires event.msg == snap.id
    ensures var after := ThrottleTx(db, event, snap, day).value;
            snap.id < |after.rows| && after.rows[snap.id].attempts == snap.attempts
            && forall d :: d in NewDeliveries(db, after) ==> d.event.msg == snap.id
  {
  }

  /** Only the retry branch queues anything, and only below the policy's bound. */
  lemma ResultCounts(db: Db, event: Event, snap: Row, policy: RetryPolicy, next: Option<Route>, day: int, now: int)
    requires ResultTx(db, event, snap, policy, next, day, now).Ok? && snap.id < |db.rows|
    requires snap == db.rows[snap.id] && event.msg == snap.id
    ensures var after := ResultTx(db, event, snap, policy, next, day, now).value;
            && snap.id < |after.rows| && after.rows[snap.id].attempts == snap.attempts
            && (forall d :: d in NewDeliveries(db, after) ==> d.event.msg == snap.id)
            && (NewDeliveries(db, after) != [] ==> snap.attempts < policy.maxAttempts)
  {
  }

  // ----- every step -----

  /** Handlers that only queue trade their own delivery for at most one other. */
  lemma RetryDispatchAttempts(s: Sys, initial: map<nat, Wallet>, i: nat, day: int, maxAttempts: int)
    requires SysInv(s, initial) && AttemptsOk(s, maxAttempts) && i < |s.deliveries|
    ensures AttemptsOk(Step(s, QueueRetryDispatch(i, day)), maxAttempts)
  {
    var d := s.deliveries[i];
    assert DeliveryOk(s.db, d);
    if d.phase.Loaded? && d.event.topic == RetryTopic {
      assert AttemptsAt(s, maxAttempts, d.event.msg);
      FinishAttempts(s, i, RetryDispatchTx(s.db, d.event, d.phase.snap, day), Handled, maxAttempts, d.event.msg);
    }
  }

  lemma ReportAttempts(s: Sys, initial: map<nat, Wallet>, i: nat, day: int, maxAttempts: int)
    requires SysInv(s, initial) && AttemptsOk(s, maxAttempts) && i < |s.deliveries|
    ensures AttemptsOk(Step(s, Report(i, day)), maxAttempts)
  {
    var d := s.deliveries[i];
    assert DeliveryOk(s.db, d);
    if d.phase.Called? {
      assert AttemptsAt(s, maxAttempts, d.event.msg);
      FinishAttempts(s, i, ReportTx(s.db, d.event, d.phase.snap, d.phase.submittingVersion, d.phase.outcome, day),
        Handled, maxAttempts, d.event.msg);
    }
  }

  lemma RouteAttempts(s: Sys, initial: map<nat, Wallet>, i: nat, route: Route, day: int, now: int, maxAttempts: int)
    requires SysInv(s, initial) && AttemptsOk(s, maxAttempts) && i < |s.deliveries|
    ensures AttemptsOk(Step(s, RouteAccepted(i, route, day, now)), maxAttempts)
  {
    var d := s.deliveries[i];
    assert DeliveryOk(s.db, d);
    if d.phase.Loaded? && d.event.topic == AcceptedTopic {
      var snap := d.phase.snap;
      RouteKeeps(s.db, initial, d.event, snap, route, day, now);
      if RouteTx(s.db, d.event, snap, route, day, now).Err? {
        RequeueAttempts(s, i, maxAttempts);
      } else {
        GuardMeansCurrent(s.db, initial, snap);
        RouteCommits(s, i, route, day, now, maxAttempts);
      }
    }
  }

  lemma RouteCommits(s: Sys, i: nat, route: Route, day: int, now: int, maxAttempts: int)
    requires AttemptsOk(s, maxAttempts) && i < |s.deliveries| && s.deliveries[i].phase.Loaded?
    requires var d := s.deliveries[i]; var snap := d.phase.snap;
             && d.event.topic == AcceptedTopic && d.event.msg == snap.id < |s.db.rows| && snap == s.db.rows[snap.id]
             && RouteTx(s.db, d.event, snap, route, day, now).Ok?
    ensures var d := s.deliveries[i];
            AttemptsOk(Finish(s, i, RouteTx(s.db, d.event, d.phase.snap, route, day, now), Handled), maxAttempts)
  {
    var d := s.deliveries[i];
    var snap := d.phase.snap;
    RouteCounts(s.db, d.event, snap, route, day, now);
    assert AttemptsAt(s, maxAttempts, snap.id);
    FinishAttempts(s, i, RouteTx(s.db, d.event, snap, route, day, now).value, Handled, maxAttempts, snap.id);
  }

  lemma BlockAttempts(s: Sys, initial: map<nat, Wallet>, i: nat, reason: string, now: int, maxAttempts: int)
    requires SysInv(s, initial) && AttemptsOk(s, maxAttempts) && i < |s.deliveries|
    requires s.deliveries[i].phase.Loaded? && IsDispatch(s.deliveries[i].event.topic)
    ensures AttemptsOk(Finish(s, i, BlockTx(s.db, s.deliveries[i].phase.snap, reason, now), Handled), maxAttempts)
  {
    var snap := s.deliveries[i].phase.snap;
    assert DeliveryOk(s.db, s.deliveries[i]);
    BlockKeeps(s.db, initial, snap, reason, now);
    var r := BlockTx(s.db, snap, reason, now);
    if r.Err? {
      RequeueAttempts(s, i, maxAttempts);
    } else {
      GuardMeansCurrent(s.db, initial, snap);
      BlockCounts(s.db, snap, reason, now);
      assert AttemptsAt(s, maxAttempts, snap.id);
      FinishAttempts(s, i, r.value, Handled, maxAttempts, snap.id);
    }
  }

  lemma ThrottleAttempts(s: Sys, initial: map<nat, Wallet>, i: nat, day: int, maxAttempts: int)
    requires SysInv(s, initial) && AttemptsOk(s, maxAttempts) && i < |s.deliveries|
    requires s.deliveries[i].phase.Loaded? && IsDispatch(s.deliveries[i].event.topic)
    ensures AttemptsOk(Finish(s, i, ThrottleTx(s.db, s.deliveries[i].event, s.deliveries[i].phase.snap, day), Handled),
            maxAttempts)
  {
    var d := s.deliveries[i];
    var snap := d.phase.snap;
    assert DeliveryOk(s.db, d);
    ThrottleKeeps(s.db, initial, d.event, snap, day);
    var r := ThrottleTx(s.db, d.event, snap, day);
    if r.Err? {
      RequeueAttempts(s, i, maxAttempts);
    } else {
      GuardMeansCurrent(s.db, initial, snap);
      ThrottleCounts(s.db, d.event, snap, day);
      assert AttemptsAt(s, maxAttempts, snap.id);
      FinishAttempts(s, i, r.value, Handled, maxAttempts, snap.id);
    }
  }

  lemma BeginSubmitAttempts(s: Sys, initial: map<nat, Wallet>, i: nat, now: int, maxAttempts: int)
    requires SysInv(s, initial) && AttemptsOk(s, maxAttempts) && i < |s.deliveries|
    requires s.deliveries[i].phase.Loaded? && IsDispatch(s.deliveries[i].event.topic)
    ensures AttemptsOk(BeginSubmit(s, i, s.deliveries[i].phase.snap, now), maxAttempts)
  {
    var snap := s.deliveries[i].phase.snap;
    assert DeliveryOk(s.db, s.deliveries[i]);
    BeginSubmitKeeps(s.db, initial, snap, now);
    var r := BeginSubmitTx(s.db, snap, now);
    if r.Err? {
      RequeueAttempts(s, i, maxAttempts);
    } else {
      GuardMeansCurrent(s.db, initial, snap);
      assert AttemptsAt(s, maxAttempts, snap.id);
      FinishAttempts(s, i, r.value.0, Submitted(snap, r.value.1.version), maxAttempts, snap.id);
    }
  }

  lemma DispatchAttempts(
    s: Sys, initial: map<nat, Wallet>, i: nat, verdict: Verdict, day: int, now: int, maxAttempts: int)
    requires SysInv(s, initial) && AttemptsOk(s, maxAttempts) && i < |s.deliveries|
    ensures AttemptsOk(Step(s, Dispatch(i, verdict, day, now)), maxAttempts)
  {
    if s.deliveries[i].phase.Loaded? && IsDispatch(s.deliveries[i].event.topic) {
      match verdict
      case Block(reason) => BlockAttempts(s, initial, i, reason, now, maxAttempts);
      case Throttle => ThrottleAttempts(s, initial, i, day, maxAttempts);
      case Allow => BeginSubmitAttempts(s, initial, i, now, maxAttempts);
    }
  }

  lemma ResultAttempts(
    s: Sys, initial: map<nat, Wallet>, i: nat, policy: RetryPolicy, next: Option<Route>, day: int, now: int,
    maxAttempts: int)
    requires SysInv(s, initial) && AttemptsOk(s, maxAttempts) && i < |s.deliveries| && policy.maxAttempts <= maxAttempts
    ensures AttemptsOk(Step(s, HandleResult(i, policy, next, day, now)), maxAttempts)
  {
    var d := s.deliveries[i];
    assert DeliveryOk(s.db, d);
    if d.phase.Loaded? && d.event.topic == ResultTopic {
      var snap := d.phase.snap;
      if ResultTx(s.db, d.event, snap, policy, next, day, now).Err? {
        RequeueAttempts(s, i, maxAttempts);
      } else {
        ResultShape(s.db, initial, d.event, snap, policy, next, day, now);
        ResultCommits(s, i, ResultTx(s.db, d.event, snap, policy, next, day, now).value, maxAttempts, snap.id);
      }
    }
  }

  lemma ResultShape(
    db: Db, initial: map<nat, Wallet>, event: Event, snap: Row, policy: RetryPolicy, next: Option<Route>, day: int,
    now: int)
    requires Inv(db, initial) && WasCommitted(db, snap) && snap.status == Submitting && event.msg == snap.id
    requires ResultTx(db, event, snap, policy, next, day, now).Ok?
    ensures var after := ResultTx(db, event, snap, policy, next, day, now).value;
            && snap.id < |db.rows| == |after.rows| && after.rows == db.rows[snap.id := after.rows[snap.id]]
            && after.rows[snap.id].attempts == db.rows[snap.id].attempts
            && (forall d :: d in NewDeliveries(db, after) ==> d.event.msg == snap.id)
            && (NewDeliveries(db, after) != [] ==> db.rows[snap.id].attempts < policy.maxAttempts)
  {
    ResultKeeps(db, initial, event, snap, policy, next, day, now);
    GuardMeansCurrent(db, initial, snap);
    ResultCounts(db, event, snap, policy, next, day, now);
  }

  /** A result that counts no attempt, and queues a retry only while there is one left. */
  lemma ResultCommits(s: Sys, i: nat, after: Db, maxAttempts: int, m: nat)
    requires AttemptsOk(s, maxAttempts) && i < |s.deliveries| && s.deliveries[i].event.msg == m
    requires s.deliveries[i].phase.Loaded? && s.deliveries[i].event.topic == ResultTopic
    requires m < |s.db.rows| == |after.rows| && after.rows == s.db.rows[m := after.rows[m]]
    requires after.rows[m].attempts == s.db.rows[m].attempts
    requires forall d :: d in NewDeliveries(s.db, after) ==> d.event.msg == m
    requires NewDeliveries(s.db, after) != [] ==> s.db.rows[m].attempts < maxAttempts
    ensures AttemptsOk(Finish(s, i, Ok(after), Handled), maxAttempts)
  {
    assert AttemptsAt(s, maxAttempts, m);
    ResultLeavesRoom(s, i, maxAttempts, m);
    FinishAttempts(s, i, after, Handled, maxAttempts, m);
  }

  /** Rows may change, but no attempt count. */
  lemma SameCounts(s: Sys, s': Sys, maxAttempts: int)
    requires AttemptsOk(s, maxAttempts)
    requires s'.deliveries == s.deliveries && s'.duplicated == s.duplicated && s'.redelivered == s.redelivered
    requires s'.submissions == s.submissions
    requires |s'.db.rows| == |s.db.rows|
    requires forall m :: 0 <= m < |s.db.rows| ==> s'.db.rows[m].attempts == s.db.rows[m].attempts
    ensures AttemptsOk(s', maxAttempts)
  {
    forall m: nat | m < |s'.db.rows|
      ensures AttemptsAt(s', maxAttempts, m)
    {
      assert AttemptsAt(s, maxAttempts, m);
    }
  }

  lemma ReceiptCounts(db: Db, o: OpenedReceipt, snap: Row, day: int, now: int)
    requires o.hook < |db.webhooks| && ReceiptTx(db, o, snap, day, now).Ok?
    ensures var after := ReceiptTx(db, o, snap, day, now).value;
            |after.rows| == |db.rows| && forall m :: 0 <= m < |db.rows| ==>
              after.rows[m].attempts == db.rows[m].attempts
  {
  }

  lemma StepAttempts(s: Sys, initial: map<nat, Wallet>, a: Action, maxAttempts: int)
    requires SysInv(s, initial) && AttemptsOk(s, maxAttempts) && PolicyBounded(a, maxAttempts)
    ensures AttemptsOk(Step(s, a), maxAttempts)
  {
    match a
    case Submit(submission, day) => SubmitAttempts(s, initial, submission, day, maxAttempts);
    case HandleReceipt(k, day, now) => ReceiptAttempts(s, k, day, now, maxAttempts);
    case RepeatHook(_, _) => HookAttempts(s, a, maxAttempts);
    case ReceiveHook(_) => HookAttempts(s, a, maxAttempts);
    case OpenReceipt(_) => HookAttempts(s, a, maxAttempts);
    case LoadReceipt(_, _, _) => HookAttempts(s, a, maxAttempts);
    case ReceiptUnmatched(_, _) => HookAttempts(s, a, maxAttempts);
    case _ =>
      if a.i < |s.deliveries| {
        HandlerStepAttempts(s, initial, a, maxAttempts);
      }
  }

  /** Receipts before their handler's write. */
  predicate IsHook(a: Action) {
    a.RepeatHook? || a.ReceiveHook? || a.OpenReceipt? || a.LoadReceipt? || a.ReceiptUnmatched?
  }

  lemma HookAttempts(s: Sys, a: Action, maxAttempts: int)
    requires AttemptsOk(s, maxAttempts) && IsHook(a)
    ensures AttemptsOk(Step(s, a), maxAttempts)
  {
    SameCounts(s, Step(s, a), maxAttempts);
  }

  lemma ReceiptAttempts(s: Sys, k: nat, day: int, now: int, maxAttempts: int)
    requires AttemptsOk(s, maxAttempts)
    ensures AttemptsOk(Step(s, HandleReceipt(k, day, now)), maxAttempts)
  {
    if k < |s.receipts| && s.receipts[k].opening.hook < |s.db.webhooks| {
      var w := s.receipts[k];
      if ReceiptTx(s.db, w.opening, w.snap, day, now).Ok? {
        ReceiptCounts(s.db, w.opening, w.snap, day, now);
        SameCounts(s, s.(db := ReceiptTx(s.db, w.opening, w.snap, day, now).value), maxAttempts);
      }
    }
  }

  lemma HandlerStepAttempts(s: Sys, initial: map<nat, Wallet>, a: Action, maxAttempts: int)
    requires SysInv(s, initial) && AttemptsOk(s, maxAttempts) && PolicyBounded(a, maxAttempts)
    requires !a.Submit? && !IsHook(a) && !a.HandleReceipt? && a.i < |s.deliveries|
    ensures AttemptsOk(Step(s, a), maxAttempts)
  {
    var d := s.deliveries[a.i];
    assert DeliveryOk(s.db, d);
    match a
    case Load(i) =>
      if d.phase.Pending? {
        PhaseAttempts(s, i, if HandlerWants(d.event.topic, s.db.rows[d.event.msg].status)
          then Loaded(s.db.rows[d.event.msg]) else Handled, maxAttempts);
      }
    case RouteAccepted(i, route, day, now) => RouteAttempts(s, initial, i, route, day, now, maxAttempts);
    case QueueRetryDispatch(i, day) => RetryDispatchAttempts(s, initial, i, day, maxAttempts);
    case Dispatch(i, verdict, day, now) => DispatchAttempts(s, initial, i, verdict, day, now, maxAttempts);
    case CallProvider(i, outcome, reached) => CallAttempts(s, i, outcome, reached, maxAttempts);
    case Report(i, day) => ReportAttempts(s, initial, i, day, maxAttempts);
    case HandleResult(i, policy, next, day, now) => ResultAttempts(s, initial, i, policy, next, day, now, maxAttempts);
    case Ack(i) =>
      if d.phase.Handled? {
        PhaseAttempts(s, i, Acked, maxAttempts);
      }
    case Crash(i) => RequeueAttempts(s, i, maxAttempts);
    case Redeliver(i) => RedeliverAttempts(s, i, maxAttempts);
  }

  lemma {:induction false} RunAttempts(wallets: map<nat, Wallet>, actions: seq<Action>, maxAttempts: int)
    requires Funded(wallets)
    requires forall a :: a in actions ==> PolicyBounded(a, maxAttempts)
    ensures AttemptsOk(Run(Start(wallets), actions), maxAttempts)
  {
    if actions != [] {
      var last := |actions| - 1;
      RunAttempts(wallets, actions[..last], maxAttempts);
      var s := Run(Start(wallets), actions[..last]);
      RunIsReachable(wallets, actions[..last]);
      ReachableInv(s, wallets);
      StepAttempts(s, wallets, actions[last], maxAttempts);
    }
  }

  /**
   However events are redelivered, delayed or acted on stale, provider calls never
   outnumber the attempts counted, and attempts never exceed the largest retry
   policy consulted by more than the number of redeliveries. A handler that crashed
   or lost a version race before it wrote is not among those.
   */
  lemma {:induction false} AttemptsAreBounded(wallets: map<nat, Wallet>, actions: seq<Action>, maxAttempts: int, m: nat)
    requires Funded(wallets)
    requires forall a :: a in actions ==> PolicyBounded(a, maxAttempts)
    requires m < |Run(Start(wallets), actions).db.rows|
    ensures var s := Run(Start(wallets), actions);
            s.submissions[m] <= s.db.rows[m].attempts <= Max(1, maxAttempts) + s.redelivered[m]
  {
    RunAttempts(wallets, actions, maxAttempts);
    var s := Run(Start(wallets), actions);
    assert AttemptsAt(s, maxAttempts, m);
    WeightsNonNegative(s, m);
  }

  lemma WeightsNonNegative(s: Sys, m: nat)
    ensures Sum(s.deliveries, AttemptWeight(m)) >= 0 && Sum(s.deliveries, CallWeight(m)) >= 0
  {
    SumZero(s.deliveries, (_: Delivery) => 0);
    SumMonotone(s.deliveries, (_: Delivery) => 0, AttemptWeight(m));
    SumMonotone(s.deliveries, (_: Delivery) => 0, CallWeight(m));
  }
}
