/**
 Progress: whatever has happened so far, a message short of an outcome that is not
 parked can still be brought to one, by a few steps of its own handlers in which
 nothing crashes and nothing is delivered twice.
 */
module Progress {
  import opened Wrappers
  import opened Messages
  import opened Store
  import opened Settlement
  import opened Protocol
  import opened Deliveries

  /** A step of a handler working on an event of message `m`. */
  predicate IsOwn(s: Sys, a: Action, m: nat) {
    match a
    case Load(i) => i < |s.deliveries| && s.deliveries[i].event.msg == m
    case RouteAccepted(i, _, _, _) => i < |s.deliveries| && s.deliveries[i].event.msg == m
    case QueueRetryDispatch(i, _) => i < |s.deliveries| && s.deliveries[i].event.msg == m
    case Dispatch(i, _, _, _) => i < |s.deliveries| && s.deliveries[i].event.msg == m
    case CallProvider(i, _, _) => i < |s.deliveries| && s.deliveries[i].event.msg == m
    case Report(i, _) => i < |s.deliveries| && s.deliveries[i].event.msg == m
    case HandleResult(i, _, _, _, _) => i < |s.deliveries| && s.deliveries[i].event.msg == m
    case _ => false
  }

  /** Settled: debited or released. Otherwise parked by its last update. */
  ghost predicate Finished(s: Sys, m: nat) {
    && m < |s.db.rows|
    && var row := s.db.rows[m];
    || row.billing != Reserved
    || (row.status == Routed && ThrottleParked(s.db, m))
    || (row.status == Submitting && UncertainParked(s.db, m))
  }

  /** At most `n` steps of its own bring message `m` to an outcome or a parking. */
  ghost predicate CanFinish(s: Sys, m: nat, n: nat)
    decreases n
  {
    Finished(s, m) || (n > 0 && exists a :: IsOwn(s, a, m) && CanFinish(Step(s, a), m, n - 1))
  }

  lemma {:induction false} StepTo(s: Sys, a: Action, m: nat, n: nat)
    requires IsOwn(s, a, m) && CanFinish(Step(s, a), m, n)
    ensures CanFinish(s, m, n + 1)
  {
  }

  lemma {:induction false} CanFinishLater(s: Sys, m: nat, n: nat, more: nat)
    requires CanFinish(s, m, n) && n <= more
    ensures CanFinish(s, m, more)
    decreases n
  {
    if !Finished(s, m) {
      var a :| IsOwn(s, a, m) && CanFinish(Step(s, a), m, n - 1);
      CanFinishLater(Step(s, a), m, n - 1, more - 1);
    }
  }

  // ----- what single steps do -----

  lemma LoadReads(s: Sys, i: nat)
    requires i < |s.deliveries| && s.deliveries[i].phase.Pending? && s.deliveries[i].event.msg < |s.db.rows|
    requires HandlerWants(s.deliveries[i].event.topic, s.db.rows[s.deliveries[i].event.msg].status)
    ensures Step(s, Load(i)) == At(s, i, Loaded(s.db.rows[s.deliveries[i].event.msg]))
  {
  }

  /** A handler loaded with a row, and whether that row is still the current one. */
  ghost predicate LoadedWith(s: Sys, i: nat, m: nat, topic: Topic) {
    && i < |s.deliveries| && s.deliveries[i].event.msg == m && s.deliveries[i].event.topic == topic
    && s.deliveries[i].phase.Loaded?
  }

  predicate IsCurrent(s: Sys, snap: Row, m: nat) {
    snap.id == m && m < |s.db.rows| && snap == s.db.rows[m]
  }

  /** A loaded handler has read its own message, in a status it wants; and its guard is as good as the whole row. */
  lemma LoadedFacts(s: Sys, initial: map<nat, Wallet>, i: nat)
    requires SysInv(s, initial) && i < |s.deliveries| && s.deliveries[i].phase.Loaded?
    ensures var d := s.deliveries[i];
            && d.event.msg < |s.db.rows| && d.phase.snap.id == d.event.msg
            && HandlerWants(d.event.topic, d.phase.snap.status)
            && (Guard(s.db, d.phase.snap) <==> d.phase.snap == s.db.rows[d.event.msg])
  {
    assert DeliveryOk(s.db, s.deliveries[i]);
    GuardMeansCurrent(s.db, initial, s.deliveries[i].phase.snap);
  }

  // ----- results -----

  const NO_RETRY := RetryPolicy(0, {})

  lemma {:induction false} ResultSettles(s: Sys, initial: map<nat, Wallet>, i: nat, m: nat)
    requires SysInv(s, initial) && LoadedWith(s, i, m, ResultTopic) && IsCurrent(s, s.deliveries[i].phase.snap, m)
    ensures CanFinish(s, m, 1)
  {
    var d := s.deliveries[i];
    LoadedFacts(s, initial, i);
    ResultKeeps(s.db, initial, d.event, d.phase.snap, NO_RETRY, None, 0, 0);
    FutureKeyIsFresh(s.db, m, UncertainKey(m, d.phase.snap.version + 1), 0);
    ResultFinishes(s.db, d.event, d.phase.snap);
    var a := HandleResult(i, NO_RETRY, None, 0, 0);
    assert Step(s, a).db == ResultTx(s.db, d.event, d.phase.snap, NO_RETRY, None, 0, 0).value;
    StepTo(s, a, m, 0);
  }

  /** Without a retry policy a result settles the message, or parks it. */
  lemma ResultFinishes(db: Db, event: Event, snap: Row)
    requires Guard(db, snap) && snap == db.rows[snap.id] && snap.status == Submitting && event.msg == snap.id
    requires ResultTx(db, event, snap, NO_RETRY, None, 0, 0).Ok?
    requires !HasKey(db.outbox, 0, UncertainKey(snap.id, snap.version + 1))
    ensures var after := ResultTx(db, event, snap, NO_RETRY, None, 0, 0).value;
            && snap.id < |after.rows|
            && (after.rows[snap.id].billing != Reserved
                || (after.rows[snap.id].status == Submitting && UncertainParked(after, snap.id)))
  {
    if !event.accepted && event.uncertain {
      var after := ResultTx(db, event, snap, NO_RETRY, None, 0, 0).value;
      assert after.outbox[|db.outbox|].key == UncertainKey(snap.id, snap.version + 1);
    }
  }

  /** A result event not yet read. */
  lemma {:induction false} PendingResult(s: Sys, initial: map<nat, Wallet>, i: nat, m: nat)
    requires SysInv(s, initial) && i < |s.deliveries| && s.deliveries[i].phase.Pending?
    requires s.deliveries[i].event.topic == ResultTopic && s.deliveries[i].event.msg == m
    requires m < |s.db.rows| && s.db.rows[m].status == Submitting
    ensures CanFinish(s, m, 2)
  {
    assert s.db.rows[m].id == m;
    LoadReads(s, i);
    StepKeeps(s, initial, Load(i));
    ResultSettles(Step(s, Load(i)), initial, i, m);
    StepTo(s, Load(i), m, 1);
  }

  lemma StaleResult(s: Sys, i: nat, m: nat)
    requires LoadedWith(s, i, m, ResultTopic) && !Guard(s.db, s.deliveries[i].phase.snap)
    requires s.deliveries[i].phase.snap.status == Submitting
    ensures Step(s, HandleResult(i, NO_RETRY, None, 0, 0)) == At(s, i, Pending)
  {
  }

  lemma {:induction false} LiveResult(s: Sys, initial: map<nat, Wallet>, i: nat, m: nat)
    requires SysInv(s, initial) && i < |s.deliveries| && Live(s.deliveries[i])
    requires s.deliveries[i].event.topic == ResultTopic && s.deliveries[i].event.msg == m
    requires m < |s.db.rows| && s.db.rows[m].status == Submitting
    ensures CanFinish(s, m, 3)
  {
    assert DeliveryOk(s.db, s.deliveries[i]);
    if s.deliveries[i].phase.Pending? {
      PendingResult(s, initial, i, m);
      CanFinishLater(s, m, 2, 3);
    } else {
      LoadedFacts(s, initial, i);
      if s.deliveries[i].phase.snap == s.db.rows[m] {
        ResultSettles(s, initial, i, m);
        CanFinishLater(s, m, 1, 3);
      } else {
        var a := HandleResult(i, NO_RETRY, None, 0, 0);
        StaleResult(s, i, m);
        StepKeeps(s, initial, a);
        PendingResult(Step(s, a), initial, i, m);
        StepTo(s, a, m, 2);
      }
    }
  }

  // ----- dispatches -----

  /** The event a report queues. */
  lemma ReportQueues(s: Sys, i: nat, m: nat)
    requires i < |s.deliveries| && s.deliveries[i].phase.Called? && s.deliveries[i].event.msg == m
    requires s.deliveries[i].phase.snap.id == m && Unreported(s.db.outbox, m, s.deliveries[i].phase.submittingVersion)
    ensures var s' := Step(s, Report(i, 0));
            && s'.db.rows == s.db.rows
            && |s'.deliveries| == |s.deliveries| + 1
            && var d := s'.deliveries[|s.deliveries|];
            && d.phase.Pending? && d.event.topic == ResultTopic && d.event.msg == m
  {
    assert !HasKey(s.db.outbox, 0, ResultKey(m, s.deliveries[i].phase.submittingVersion));
  }

  lemma {:induction false} CalledFinishes(s: Sys, initial: map<nat, Wallet>, i: nat, m: nat)
    requires SysInv(s, initial) && i < |s.deliveries| && s.deliveries[i].phase.Called? && s.deliveries[i].event.msg == m
    requires m < |s.db.rows| && s.db.rows[m].status == Submitting
    ensures CanFinish(s, m, 3)
  {
    assert DeliveryOk(s.db, s.deliveries[i]);
    ReportQueues(s, i, m);
    StepKeeps(s, initial, Report(i, 0));
    PendingResult(Step(s, Report(i, 0)), initial, |s.deliveries|, m);
    StepTo(s, Report(i, 0), m, 2);
  }

  const TAKEN := Outcome(Http, true, false, None, None)

  lemma {:induction false} SubmittedFinishes(s: Sys, initial: map<nat, Wallet>, i: nat, m: nat)
    requires SysInv(s, initial) && i < |s.deliveries| && s.deliveries[i].phase.Submitted?
    requires s.deliveries[i].event.msg == m
    requires m < |s.db.rows| && s.db.rows[m].status == Submitting
    ensures CanFinish(s, m, 4)
  {
    var a := CallProvider(i, TAKEN, true);
    StepKeeps(s, initial, a);
    CalledFinishes(Step(s, a), initial, i, m);
    StepTo(s, a, m, 3);
  }

  lemma DispatchBegins(s: Sys, i: nat, m: nat)
    requires i < |s.deliveries| && s.deliveries[i].phase.Loaded? && s.deliveries[i].event.msg == m
    requires IsDispatch(s.deliveries[i].event.topic) && IsCurrent(s, s.deliveries[i].phase.snap, m)
    requires s.db.rows[m].status == Routed || s.db.rows[m].status == Submitting
    ensures var s' := Step(s, Dispatch(i, Allow, 0, 0));
            && i < |s'.deliveries| && s'.deliveries[i].phase.Submitted?
               && s'.deliveries[i].event == s.deliveries[i].event
            && m < |s'.db.rows| && s'.db.rows[m].status == Submitting
  {
  }

  lemma {:induction false} CurrentDispatch(s: Sys, initial: map<nat, Wallet>, i: nat, m: nat)
    requires SysInv(s, initial) && i < |s.deliveries| && s.deliveries[i].phase.Loaded? && s.deliveries[i].event.msg == m
    requires IsDispatch(s.deliveries[i].event.topic) && IsCurrent(s, s.deliveries[i].phase.snap, m)
    ensures CanFinish(s, m, 5)
  {
    var a := Dispatch(i, Allow, 0, 0);
    LoadedFacts(s, initial, i);
    DispatchBegins(s, i, m);
    StepKeeps(s, initial, a);
    SubmittedFinishes(Step(s, a), initial, i, m);
    StepTo(s, a, m, 4);
  }

  lemma {:induction false} PendingDispatch(s: Sys, initial: map<nat, Wallet>, i: nat, m: nat)
    requires SysInv(s, initial) && i < |s.deliveries| && s.deliveries[i].phase.Pending?
    requires s.deliveries[i].event.msg == m
    requires IsDispatch(s.deliveries[i].event.topic)
    requires m < |s.db.rows| && (s.db.rows[m].status == Routed || s.db.rows[m].status == Submitting)
    ensures CanFinish(s, m, 6)
  {
    assert s.db.rows[m].id == m;
    LoadReads(s, i);
    StepKeeps(s, initial, Load(i));
    CurrentDispatch(Step(s, Load(i)), initial, i, m);
    StepTo(s, Load(i), m, 5);
  }

  lemma StaleDispatch(s: Sys, i: nat)
    requires i < |s.deliveries| && s.deliveries[i].phase.Loaded? && IsDispatch(s.deliveries[i].event.topic)
    requires !Guard(s.db, s.deliveries[i].phase.snap)
    ensures Step(s, Dispatch(i, Allow, 0, 0)) == At(s, i, Pending)
  {
  }

  lemma {:induction false} LiveDispatch(s: Sys, initial: map<nat, Wallet>, i: nat, m: nat)
    requires SysInv(s, initial) && i < |s.deliveries| && Live(s.deliveries[i]) && s.deliveries[i].event.msg == m
    requires IsDispatch(s.deliveries[i].event.topic)
    requires m < |s.db.rows| && (s.db.rows[m].status == Routed || s.db.rows[m].status == Submitting)
    ensures CanFinish(s, m, 7)
  {
    assert DeliveryOk(s.db, s.deliveries[i]);
    match s.deliveries[i].phase
    case Pending =>
      PendingDispatch(s, initial, i, m);
      CanFinishLater(s, m, 6, 7);
    case Loaded(snap) =>
      LoadedFacts(s, initial, i);
      if snap == s.db.rows[m] {
        CurrentDispatch(s, initial, i, m);
        CanFinishLater(s, m, 5, 7);
      } else {
        var a := Dispatch(i, Allow, 0, 0);
        StaleDispatch(s, i);
        StepKeeps(s, initial, a);
        PendingDispatch(Step(s, a), initial, i, m);
        StepTo(s, a, m, 6);
      }
    case Submitted(_, _) =>
      SubmittedFinishes(s, initial, i, m);
      CanFinishLater(s, m, 4, 7);
    case Called(_, _, _) =>
      CalledFinishes(s, initial, i, m);
      CanFinishLater(s, m, 3, 7);
  }

  // ----- retries -----

  lemma RetryQueues(s: Sys, i: nat, m: nat)
    requires LoadedWith(s, i, m, RetryTopic) && IsCurrent(s, s.deliveries[i].phase.snap, m)
    requires s.db.rows[m].status == Submitting && LiveAt(s.db, s.deliveries, m)
    ensures var s' := Step(s, QueueRetryDispatch(i, 0));
            s'.db.rows == s.db.rows && DispatchLiveAt(s'.deliveries, m, s.db.rows[m].version)
  {
    var d := s.deliveries[i];
    var snap := d.phase.snap;
    RetryDispatchAlive(s, i, 0, m, snap.version,
                       d.event.(topic := DispatchTopic(snap.content.marketing), version := snap.version,
                                providerId := snap.providerId, smppConfigId := snap.smppConfigId));
  }

  lemma {:induction false} CurrentRetry(s: Sys, initial: map<nat, Wallet>, i: nat, m: nat)
    requires SysInv(s, initial) && LoadedWith(s, i, m, RetryTopic) && IsCurrent(s, s.deliveries[i].phase.snap, m)
    ensures CanFinish(s, m, 8)
  {
    var a := QueueRetryDispatch(i, 0);
    LoadedFacts(s, initial, i);
    assert LiveAt(s.db, s.deliveries, m);
    RetryQueues(s, i, m);
    StepKeeps(s, initial, a);
    var s' := Step(s, a);
    var j :| 0 <= j < |s'.deliveries| && Live(s'.deliveries[j]) && IsDispatch(s'.deliveries[j].event.topic)
             && s'.deliveries[j].event.msg == m && s'.deliveries[j].event.version == s.db.rows[m].version;
    LiveDispatch(s', initial, j, m);
    StepTo(s, a, m, 7);
  }

  lemma {:induction false} SolidRetry(s: Sys, initial: map<nat, Wallet>, i: nat, m: nat)
    requires SysInv(s, initial) && i < |s.deliveries| && m < |s.db.rows| && s.db.rows[m].status == Submitting
    requires Solid(s.db.rows[m], s.deliveries[i], m) && s.deliveries[i].event.topic == RetryTopic
    ensures CanFinish(s, m, 9)
  {
    assert DeliveryOk(s.db, s.deliveries[i]) && s.db.rows[m].id == m;
    if s.deliveries[i].phase.Loaded? {
      LoadedFacts(s, initial, i);
      assert VersionAt(s.db, m, s.db.rows[m].version);
      CurrentRetry(s, initial, i, m);
      CanFinishLater(s, m, 8, 9);
    } else {
      LoadReads(s, i);
      StepKeeps(s, initial, Load(i));
      CurrentRetry(Step(s, Load(i)), initial, i, m);
      StepTo(s, Load(i), m, 8);
    }
  }

  // ----- accepted messages -----

  const ANY_ROUTE := Route(1, None, None, Http, 0)

  lemma RouteDispatches(s: Sys, i: nat, m: nat)
    requires LoadedWith(s, i, m, AcceptedTopic) && IsCurrent(s, s.deliveries[i].phase.snap, m)
    requires s.db.rows[m].status == Accepted && !HasKey(s.db.outbox, 0, DispatchKey(m, s.db.rows[m].version + 1))
    ensures var s' := Step(s, RouteAccepted(i, ANY_ROUTE, 0, 0));
            && m < |s'.db.rows| && s'.db.rows[m].status == Routed
            && |s'.deliveries| == |s.deliveries| + 1
            && var d := s'.deliveries[|s.deliveries|];
            && d.phase.Pending? && IsDispatch(d.event.topic) && d.event.msg == m
  {
  }

  lemma {:induction false} CurrentAccepted(s: Sys, initial: map<nat, Wallet>, i: nat, m: nat)
    requires SysInv(s, initial) && LoadedWith(s, i, m, AcceptedTopic) && IsCurrent(s, s.deliveries[i].phase.snap, m)
    ensures CanFinish(s, m, 7)
  {
    var a := RouteAccepted(i, ANY_ROUTE, 0, 0);
    LoadedFacts(s, initial, i);
    FutureKeyIsFresh(s.db, m, DispatchKey(m, s.db.rows[m].version + 1), 0);
    RouteDispatches(s, i, m);
    StepKeeps(s, initial, a);
    PendingDispatch(Step(s, a), initial, |s.deliveries|, m);
    StepTo(s, a, m, 6);
  }

  lemma {:induction false} PendingAccepted(s: Sys, initial: map<nat, Wallet>, i: nat, m: nat)
    requires SysInv(s, initial) && i < |s.deliveries| && s.deliveries[i].phase.Pending?
    requires s.deliveries[i].event.msg == m
    requires s.deliveries[i].event.topic == AcceptedTopic && m < |s.db.rows| && s.db.rows[m].status == Accepted
    ensures CanFinish(s, m, 8)
  {
    assert s.db.rows[m].id == m;
    LoadReads(s, i);
    StepKeeps(s, initial, Load(i));
    CurrentAccepted(Step(s, Load(i)), initial, i, m);
    StepTo(s, Load(i), m, 7);
  }

  lemma StaleAccepted(s: Sys, i: nat)
    requires i < |s.deliveries| && s.deliveries[i].phase.Loaded? && s.deliveries[i].event.topic == AcceptedTopic
    requires !Guard(s.db, s.deliveries[i].phase.snap)
    ensures Step(s, RouteAccepted(i, ANY_ROUTE, 0, 0)) == At(s, i, Pending)
  {
  }

  lemma {:induction false} LiveAccepted(s: Sys, initial: map<nat, Wallet>, i: nat, m: nat)
    requires SysInv(s, initial) && i < |s.deliveries| && Live(s.deliveries[i]) && s.deliveries[i].event.msg == m
    requires s.deliveries[i].event.topic == AcceptedTopic && m < |s.db.rows| && s.db.rows[m].status == Accepted
    ensures CanFinish(s, m, 9)
  {
    assert DeliveryOk(s.db, s.deliveries[i]);
    if s.deliveries[i].phase.Pending? {
      PendingAccepted(s, initial, i, m);
      CanFinishLater(s, m, 8, 9);
    } else {
      LoadedFacts(s, initial, i);
      if s.deliveries[i].phase.snap == s.db.rows[m] {
        CurrentAccepted(s, initial, i, m);
        CanFinishLater(s, m, 7, 9);
      } else {
        var a := RouteAccepted(i, ANY_ROUTE, 0, 0);
        StaleAccepted(s, i);
        StepKeeps(s, initial, a);
        PendingAccepted(Step(s, a), initial, i, m);
        StepTo(s, a, m, 8);
      }
    }
  }

  // ----- every message -----

  /**
   From every reachable state, at most nine steps of its own handlers, none of them
   a crash or a second delivery, settle a message or park it.
   */
  lemma {:induction false} EveryMessageCanFinish(s: Sys, wallets: map<nat, Wallet>, m: nat)
    requires Reachable(s, wallets) && m < |s.db.rows|
    ensures CanFinish(s, m, 9)
  {
    ReachableInv(s, wallets);
    assert LiveAt(s.db, s.deliveries, m);
    if !Finished(s, m) {
      LiveCanFinish(s, wallets, m);
    }
  }

  lemma {:induction false} LiveCanFinish(s: Sys, initial: map<nat, Wallet>, m: nat)
    requires SysInv(s, initial) && m < |s.db.rows| && LiveAt(s.db, s.deliveries, m) && !Finished(s, m)
    ensures CanFinish(s, m, 9)
  {
    assert RowOk(s.db.rows[m]);
    match s.db.rows[m].status
    case Accepted =>
      var i :| 0 <= i < |s.deliveries| && Live(s.deliveries[i]) && s.deliveries[i].event.topic == AcceptedTopic
               && s.deliveries[i].event.msg == m;
      LiveAccepted(s, initial, i, m);
    case Routed =>
      var i :| 0 <= i < |s.deliveries| && Live(s.deliveries[i]) && IsDispatch(s.deliveries[i].event.topic)
               && s.deliveries[i].event.msg == m;
      LiveDispatch(s, initial, i, m);
      CanFinishLater(s, m, 7, 9);
    case Submitting =>
      var i :| 0 <= i < |s.deliveries| && Solid(s.db.rows[m], s.deliveries[i], m);
      if IsDispatch(s.deliveries[i].event.topic) {
        LiveDispatch(s, initial, i, m);
        CanFinishLater(s, m, 7, 9);
      } else if s.deliveries[i].event.topic == ResultTopic {
        LiveResult(s, initial, i, m);
        CanFinishLater(s, m, 3, 9);
      } else {
        SolidRetry(s, initial, i, m);
      }
    case _ =>
  }

  // ----- as runs -----

  /** `trace` goes from state to state by `actions`, each step as `step` says. */
  predicate IsTrace<State(!new), Move(!new)>(
    trace: seq<State>, actions: seq<Move>, step: (State, Move, State) -> bool)
  {
    |trace| == |actions| + 1 && forall k :: 0 <= k < |actions| ==> step(trace[k], actions[k], trace[k + 1])
  }

  lemma TraceFrom<State(!new), Move(!new)>(
    s: State, a: Move, trace: seq<State>, actions: seq<Move>, step: (State, Move, State) -> bool)
    requires IsTrace(trace, actions, step) && step(s, a, trace[0])
    ensures IsTrace([s] + trace, [a] + actions, step)
  {
  }

  /** Steps of message `m`'s own handlers. */
  function OwnStep(m: nat): (Sys, Action, Sys) -> bool {
    (s, a, s') => IsOwn(s, a, m) && s' == Step(s, a)
  }

  /** The same as a run. */
  lemma {:induction false} FinishingRun(s: Sys, m: nat, n: nat) returns (trace: seq<Sys>, actions: seq<Action>)
    requires CanFinish(s, m, n)
    ensures |actions| <= n && IsTrace(trace, actions, OwnStep(m)) && trace[0] == s && Finished(trace[|actions|], m)
    decreases n
  {
    trace, actions := [s], [];
    if !Finished(s, m) {
      var a :| IsOwn(s, a, m) && CanFinish(Step(s, a), m, n - 1);
      var later, rest := FinishingRun(Step(s, a), m, n - 1);
      TraceFrom(s, a, later, rest, OwnStep(m));
      trace, actions := [s] + later, [a] + rest;
    }
  }
}
