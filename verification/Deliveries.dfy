/**
 What every step keeps true of the handlers and of the events in flight, up to
 the central fact: dedupe never drops the last live event of a message.
 */
module Deliveries {
  import opened Wrappers
  import opened Messages
  import opened Store
  import opened Settlement
  import opened Protocol

  // ----- handlers -----

  ghost predicate SnapshotOk(db: Db, event: Event, snap: Row) {
    && WasCommitted(db, snap)
    && snap.id == event.msg
    && event.version <= snap.version
    && HandlerWants(event.topic, snap.status)
  }

  predicate InSubmission(phase: Phase) {
    phase.Submitted? || phase.Called?
  }

  ghost predicate DeliveryOk(db: Db, d: Delivery) {
    && d.event.topic != ReconcileTopic
    && d.event.msg < |db.rows|
    && d.event.version <= db.rows[d.event.msg].version
    && (d.phase.Loaded? ==> SnapshotOk(db, d.event, d.phase.snap))
    && (InSubmission(d.phase) ==>
          && SnapshotOk(db, d.event, d.phase.snap)
          && IsDispatch(d.event.topic)
          && d.phase.snap.version < d.phase.submittingVersion <= db.rows[d.event.msg].version
          && PastRouting(db.rows[d.event.msg].status)
          && Unreported(db.outbox, d.event.msg, d.phase.submittingVersion))
  }

  /** No result has been queued yet for this submission. */
  ghost predicate Unreported(outbox: seq<OutboxRow>, m: nat, v: nat) {
    forall k :: 0 <= k < |outbox| ==> outbox[k].key != ResultKey(m, v)
  }

  ghost predicate DeliveriesOk(db: Db, ds: seq<Delivery>) {
    forall i :: 0 <= i < |ds| ==> DeliveryOk(db, ds[i])
  }

  /** Two submissions of one message in flight never share a version. */
  ghost predicate SubmissionsDistinct(ds: seq<Delivery>) {
    forall i, j :: 0 <= i < j < |ds| && InSubmission(ds[i].phase) && InSubmission(ds[j].phase)
                   && ds[i].event.msg == ds[j].event.msg
                   ==> ds[i].phase.submittingVersion != ds[j].phase.submittingVersion
  }

  // ----- keys -----

  /** The event goes to the provider of version `v` of its message. */
  ghost predicate CarriesRouting(db: Db, event: Event, m: nat, v: nat) {
    && (m, v) in db.history
    && event.providerId == db.history[(m, v)].providerId
    && event.smppConfigId == db.history[(m, v)].smppConfigId
  }

  /** Every key names a version its message has reached, and the event under it carries that version's routing. */
  ghost predicate KeyOk(db: Db, o: OutboxRow) {
    match o.key
    case AcceptedKey(m) => m < |db.rows| && CarriesRouting(db, o.event, m, 0)
    case HookKey(_, _) => o.event.topic == ReconcileTopic
    case RetryDispatchKey(m, v) =>
      && m < |db.rows| && v <= db.rows[m].version
      && IsDispatch(o.event.topic) && o.event.msg == m && o.event.version == v
      && CarriesRouting(db, o.event, m, v)
    case DispatchKey(m, v) => m < |db.rows| && v <= db.rows[m].version && CarriesRouting(db, o.event, m, v)
    case ThrottleKey(m, v) => m < |db.rows| && v <= db.rows[m].version
    case ResultKey(m, v) => m < |db.rows| && v <= db.rows[m].version
    case UncertainKey(m, v) => m < |db.rows| && v <= db.rows[m].version
    case RetryKey(m, v) => m < |db.rows| && v <= db.rows[m].version && CarriesRouting(db, o.event, m, v)
  }

  ghost predicate KeysOk(db: Db) {
    forall k :: 0 <= k < |db.outbox| ==> KeyOk(db, db.outbox[k])
  }

  ghost predicate KeyUsed(outbox: seq<OutboxRow>, key: DedupeKey) {
    exists k :: 0 <= k < |outbox| && outbox[k].key == key
  }

  // ----- live events -----

  predicate Live(d: Delivery) {
    !d.phase.Handled? && !d.phase.Acked?
  }

  ghost predicate AcceptedLive(ds: seq<Delivery>, m: nat) {
    exists i :: 0 <= i < |ds| && Live(ds[i]) && ds[i].event.topic == AcceptedTopic && ds[i].event.msg == m
  }

  ghost predicate DispatchLive(ds: seq<Delivery>, m: nat) {
    exists i :: 0 <= i < |ds| && Live(ds[i]) && IsDispatch(ds[i].event.topic) && ds[i].event.msg == m
  }

  ghost predicate DispatchLiveAt(ds: seq<Delivery>, m: nat, v: nat) {
    exists i :: 0 <= i < |ds| && Live(ds[i]) && IsDispatch(ds[i].event.topic) && ds[i].event.msg == m
      && ds[i].event.version == v
  }

  /**
   A live event that cannot be lost to dedupe while the row stays where it is. A
   retry handler that read an older version is excluded: its unguarded enqueue may
   meet a used key.
   */
  predicate Solid(row: Row, d: Delivery, m: nat) {
    && Live(d)
    && d.event.msg == m
    && (IsDispatch(d.event.topic) || d.event.topic == ResultTopic || d.event.topic == RetryTopic)
    && (d.event.topic == RetryTopic && d.phase.Loaded? ==> d.phase.snap.version == row.version)
  }

  ghost predicate SolidLive(row: Row, ds: seq<Delivery>, m: nat) {
    exists i :: 0 <= i < |ds| && Solid(row, ds[i], m)
  }

  /** Parked by an uncertain outcome: the last update of the row queued a reconciliation instead of a successor. */
  ghost predicate UncertainParked(db: Db, m: nat)
    requires m < |db.rows|
  {
    KeyUsed(db.outbox, UncertainKey(m, db.rows[m].version))
  }

  /** Parked by a fraud throttle that was the last update of the row. */
  ghost predicate ThrottleParked(db: Db, m: nat)
    requires m < |db.rows|
  {
    KeyUsed(db.outbox, ThrottleKey(m, db.rows[m].version))
  }

  ghost predicate LiveAt(db: Db, ds: seq<Delivery>, m: nat)
    requires m < |db.rows|
  {
    var row := db.rows[m];
    && (row.status == Accepted ==> AcceptedLive(ds, m))
    && (row.status == Routed ==> ThrottleParked(db, m) || DispatchLive(ds, m))
    && (row.status == Submitting ==>
          && (UncertainParked(db, m) || SolidLive(row, ds, m))
          // the chain holding the current retry-dispatch key is still alive
          && (KeyUsed(db.outbox, RetryDispatchKey(m, row.version)) ==> DispatchLiveAt(ds, m, row.version)))
  }

  ghost predicate AllLive(db: Db, ds: seq<Delivery>) {
    forall m: nat :: m < |db.rows| ==> LiveAt(db, ds, m)
  }

  // ----- the whole invariant -----

  ghost predicate ReceiptsOk(s: Sys) {
    forall k :: 0 <= k < |s.receipts| ==>
      WasCommitted(s.db, s.receipts[k].snap) && RowOk(s.receipts[k].snap) && s.receipts[k].snap.billing == Debited
  }

  ghost predicate HandlersOk(db: Db, ds: seq<Delivery>) {
    DeliveriesOk(db, ds) && SubmissionsDistinct(ds) && KeysOk(db)
  }

  ghost predicate SysInv(s: Sys, initial: map<nat, Wallet>) {
    Inv(s.db, initial) && HandlersOk(s.db, s.deliveries) && AllLive(s.db, s.deliveries) && ReceiptsOk(s)
  }

  // ----- stability -----

  lemma CommittedStays(before: Db, after: Db, snap: Row)
    requires Grew(before, after) && WasCommitted(before, snap)
    ensures WasCommitted(after, snap)
  {
  }

  /** `after` has at most one outbox row more than `before`. */
  predicate AtMostOneMore(before: seq<OutboxRow>, after: seq<OutboxRow>) {
    |before| <= |after| <= |before| + 1 && after[..|before|] == before
  }

  lemma DeliveryStays(before: Db, after: Db, d: Delivery)
    requires DeliveryOk(before, d) && Grew(before, after) && AtMostOneMore(before.outbox, after.outbox)
    requires |after.outbox| > |before.outbox| && InSubmission(d.phase) ==>
               after.outbox[|before.outbox|].key != ResultKey(d.event.msg, d.phase.submittingVersion)
    ensures DeliveryOk(after, d)
  {
    if InSubmission(d.phase) {
      CommittedStays(before, after, d.phase.snap);
    }
    if d.phase.Loaded? {
      CommittedStays(before, after, d.phase.snap);
    }
  }

  lemma KeysStay(before: Db, after: Db)
    requires KeysOk(before) && Grew(before, after) && AtMostOneMore(before.outbox, after.outbox)
    requires |after.outbox| > |before.outbox| ==> KeyOk(after, after.outbox[|before.outbox|])
    ensures KeysOk(after)
  {
    forall k | 0 <= k < |after.outbox|
      ensures KeyOk(after, after.outbox[k])
    {
      if k < |before.outbox| {
        assert after.outbox[k] == before.outbox[k];
        assert KeyOk(before, before.outbox[k]);
      }
    }
  }

  /** A live accepted or dispatch event its handler would act on. */
  predicate Opens(row: Row, d: Delivery, m: nat) {
    && Live(d)
    && d.event.msg == m
    && (d.event.topic == AcceptedTopic || IsDispatch(d.event.topic))
    && HandlerWants(d.event.topic, row.status)
  }

  /** Nothing that matters to message `m` died. */
  ghost predicate Survives(row: Row, ds: seq<Delivery>, row': Row, ds': seq<Delivery>, m: nat) {
    && |ds| <= |ds'|
    && forall i :: 0 <= i < |ds| ==>
         && ds'[i].event == ds[i].event
         && (Opens(row, ds[i], m) ==> Live(ds'[i]))
         && (row.status == Submitting && Solid(row, ds[i], m) ==> Solid(row', ds'[i], m))
  }

  /** A message whose row did not move keeps its live event when nothing that matters died. */
  lemma LiveStays(before: Db, ds: seq<Delivery>, after: Db, ds': seq<Delivery>, m: nat)
    requires m < |before.rows| <= |after.rows| && after.rows[m] == before.rows[m]
    requires LiveAt(before, ds, m) && AtMostOneMore(before.outbox, after.outbox)
    requires (&& |after.outbox| > |before.outbox|
              && after.outbox[|before.outbox|].key == RetryDispatchKey(m, after.rows[m].version)
              && after.rows[m].status == Submitting) ==> DispatchLiveAt(ds', m, after.rows[m].version)
    requires Survives(before.rows[m], ds, after.rows[m], ds', m)
    ensures LiveAt(after, ds', m)
  {
    var row := before.rows[m];
    UsedStays(before.outbox, after.outbox, UncertainKey(m, row.version));
    UsedStays(before.outbox, after.outbox, ThrottleKey(m, row.version));
    if row.status == Submitting && KeyUsed(after.outbox, RetryDispatchKey(m, row.version)) {
      if KeyUsed(before.outbox, RetryDispatchKey(m, row.version)) {
        var i :| 0 <= i < |ds| && Live(ds[i]) && IsDispatch(ds[i].event.topic) && ds[i].event.msg == m
          && ds[i].event.version == row.version;
        assert Live(ds'[i]);
      } else {
        UsedStays(before.outbox, after.outbox, RetryDispatchKey(m, row.version));
      }
    }
    if row.status == Submitting && SolidLive(row, ds, m) {
      var i :| 0 <= i < |ds| && Solid(row, ds[i], m);
      assert Solid(row, ds'[i], m);
    }
    if row.status == Accepted {
      var i :| 0 <= i < |ds| && Live(ds[i]) && ds[i].event.topic == AcceptedTopic && ds[i].event.msg == m;
      assert Live(ds'[i]);
    }
    if row.status == Routed && DispatchLive(ds, m) {
      var i :| 0 <= i < |ds| && Live(ds[i]) && IsDispatch(ds[i].event.topic) && ds[i].event.msg == m;
      assert Live(ds'[i]);
    }
  }

  lemma UsedStays(before: seq<OutboxRow>, after: seq<OutboxRow>, key: DedupeKey)
    requires AtMostOneMore(before, after)
    ensures KeyUsed(before, key) ==> KeyUsed(after, key)
    ensures KeyUsed(after, key) ==> KeyUsed(before, key) || (|after| > |before| && after[|before|].key == key)
  {
    if KeyUsed(before, key) {
      var k :| 0 <= k < |before| && before[k].key == key;
      assert after[k] == before[k];
    }
    if KeyUsed(after, key) {
      var k :| 0 <= k < |after| && after[k].key == key;
      assert k < |before| ==> before[k] == after[k];
    }
  }

  // ----- steps that change one delivery and no table -----

  /** Moving delivery `i` to a phase that is fine for it, on unchanged tables. */
  lemma PhaseStep(s: Sys, initial: map<nat, Wallet>, i: nat, phase: Phase)
    requires SysInv(s, initial) && i < |s.deliveries|
    requires DeliveryOk(s.db, s.deliveries[i].(phase := phase))
    requires InSubmission(phase) ==>
               InSubmission(s.deliveries[i].phase) && phase.submittingVersion == s.deliveries[i].phase.submittingVersion
    requires var d := s.deliveries[i];
             var row := s.db.rows[d.event.msg];
             || !Live(d)
             || (Live(d.(phase := phase)) && (Solid(row, d, d.event.msg) ==>
                Solid(row, d.(phase := phase), d.event.msg)))
             || !HandlerWants(d.event.topic, row.status)
    ensures SysInv(s.(deliveries := s.deliveries[i := s.deliveries[i].(phase := phase)]), initial)
  {
    var ds := s.deliveries;
    var ds' := ds[i := ds[i].(phase := phase)];
    forall m: nat | m < |s.db.rows|
      ensures LiveAt(s.db, ds', m)
    {
      LiveStays(s.db, ds, s.db, ds', m);
    }
  }

  lemma LoadStep(s: Sys, initial: map<nat, Wallet>, i: nat)
    requires SysInv(s, initial)
    ensures SysInv(Step(s, Load(i)), initial)
  {
    if i < |s.deliveries| && s.deliveries[i].phase.Pending? && s.deliveries[i].event.msg < |s.db.rows| {
      var m := s.deliveries[i].event.msg;
      assert DeliveryOk(s.db, s.deliveries[i]);
      assert VersionAt(s.db, m, s.db.rows[m].version);
      PhaseStep(s, initial, i, if HandlerWants(s.deliveries[i].event.topic, s.db.rows[m].status)
        then Loaded(s.db.rows[m]) else Handled);
    }
  }

  lemma RequeueStep(s: Sys, initial: map<nat, Wallet>, i: nat)
    requires SysInv(s, initial) && i < |s.deliveries|
    ensures SysInv(Requeue(s, i), initial)
  {
    assert DeliveryOk(s.db, s.deliveries[i]);
    PhaseStep(s, initial, i, Pending);
  }

  lemma CallAndAckSteps(s: Sys, initial: map<nat, Wallet>, i: nat, outcome: Outcome, reached: bool)
    requires SysInv(s, initial)
    ensures SysInv(Step(s, CallProvider(i, outcome, reached)), initial)
    ensures SysInv(Step(s, Ack(i)), initial)
  {
    if i < |s.deliveries| {
      var d := s.deliveries[i];
      assert DeliveryOk(s.db, d);
      if d.phase.Submitted? {
        PhaseStep(s, initial, i, Called(d.phase.snap, d.phase.submittingVersion, outcome));
      }
      if d.phase.Handled? {
        PhaseStep(s, initial, i, Acked);
      }
    }
  }

  lemma RedeliverStep(s: Sys, initial: map<nat, Wallet>, i: nat)
    requires SysInv(s, initial)
    ensures SysInv(Step(s, Redeliver(i)), initial)
  {
    if i < |s.deliveries| {
      assert DeliveryOk(s.db, s.deliveries[i]);
      var ds' := s.deliveries + [Delivery(s.deliveries[i].event, Pending)];
      forall m: nat | m < |s.db.rows|
        ensures LiveAt(s.db, ds', m)
      {
        LiveStays(s.db, s.deliveries, s.db, ds', m);
      }
    }
  }

  // ----- steps that only queue -----

  /** Handlers and keys after delivery `i` finished by queueing at most one event on unchanged rows. */
  lemma QueueOnlyHandlers(s: Sys, i: nat, day: int, key: DedupeKey, event: Event)
    requires HandlersOk(s.db, s.deliveries) && i < |s.deliveries|
    requires var after := Enqueue(s.db, day, key, event); KeyOk(after, OutboxRow(day, key, event))
    requires DeliveryOk(s.db, Delivery(event, Pending))
    requires forall j :: 0 <= j < |s.deliveries| && j != i && InSubmission(s.deliveries[j].phase) ==>
                           key != ResultKey(s.deliveries[j].event.msg, s.deliveries[j].phase.submittingVersion)
    ensures var s' := Finish(s, i, Ok(Enqueue(s.db, day, key, event)), Handled);
            HandlersOk(s'.db, s'.deliveries)
  {
    var after := Enqueue(s.db, day, key, event);
    var s' := Finish(s, i, Ok(after), Handled);
    KeysStay(s.db, after);
    assert DeliveryOk(s.db, s.deliveries[i]);
    SubmissionsStayDistinct(s, i, after, Handled, s.deliveries[i].event.msg);
    forall j | 0 <= j < |s'.deliveries|
      ensures DeliveryOk(after, s'.deliveries[j])
    {
      if j < |s.deliveries| {
        QueuedDeliveryStays(s, i, day, key, event, j);
      } else {
        DeliveryStays(s.db, after, s'.deliveries[j]);
      }
    }
  }

  lemma QueuedDeliveryStays(s: Sys, i: nat, day: int, key: DedupeKey, event: Event, j: nat)
    requires i < |s.deliveries| && j < |s.deliveries| && DeliveryOk(s.db, s.deliveries[j])
    requires j != i && InSubmission(s.deliveries[j].phase) ==>
               key != ResultKey(s.deliveries[j].event.msg, s.deliveries[j].phase.submittingVersion)
    ensures var after := Enqueue(s.db, day, key, event);
            DeliveryOk(after, Finish(s, i, Ok(after), Handled).deliveries[j])
  {
    var after := Enqueue(s.db, day, key, event);
    var d' := Finish(s, i, Ok(after), Handled).deliveries[j];
    DeliveryStays(s.db, after, s.deliveries[j].(phase := d'.phase));
  }

  lemma RetryDispatchStep(s: Sys, initial: map<nat, Wallet>, i: nat, day: int)
    requires SysInv(s, initial)
    ensures SysInv(Step(s, QueueRetryDispatch(i, day)), initial)
  {
    if i < |s.deliveries| && s.deliveries[i].phase.Loaded? && s.deliveries[i].event.topic == RetryTopic {
      var d := s.deliveries[i];
      var snap := d.phase.snap;
      var m := snap.id;
      assert DeliveryOk(s.db, d);
      var key := RetryDispatchKey(m, snap.version);
      var event := d.event.(topic := DispatchTopic(snap.content.marketing), version := snap.version,
                            providerId := snap.providerId, smppConfigId := snap.smppConfigId);
      var s' := Step(s, QueueRetryDispatch(i, day));
      assert s' == Finish(s, i, Ok(Enqueue(s.db, day, key, event)), Handled);
      QueueOnlyHandlers(s, i, day, key, event);
      Unrelated(s.db, s'.db, initial);
      forall k: nat | k < |s'.db.rows|
        ensures LiveAt(s'.db, s'.deliveries, k)
      {
        assert LiveAt(s.db, s.deliveries, k);
        RetryDispatchLive(s, i, day, m, snap.version, event, k);
      }
    }
  }

  lemma RetryDispatchLive(s: Sys, i: nat, day: int, m: nat, v: nat, event: Event, k: nat)
    requires i < |s.deliveries| && k < |s.db.rows| && LiveAt(s.db, s.deliveries, k)
    requires s.deliveries[i].event.topic == RetryTopic && s.deliveries[i].event.msg == m
    requires s.deliveries[i].phase.Loaded? && s.deliveries[i].phase.snap.version == v
    requires IsDispatch(event.topic) && event.msg == m && event.version == v
    ensures var s' := Finish(s, i, Ok(Enqueue(s.db, day, RetryDispatchKey(m, v), event)), Handled);
            LiveAt(s'.db, s'.deliveries, k)
  {
    var s' := Finish(s, i, Ok(Enqueue(s.db, day, RetryDispatchKey(m, v), event)), Handled);
    if k == m && v == s.db.rows[m].version && s.db.rows[m].status == Submitting {
      RetryDispatchAlive(s, i, day, m, v, event);
      var j :| 0 <= j < |s'.deliveries| && Live(s'.deliveries[j]) && IsDispatch(s'.deliveries[j].event.topic)
               && s'.deliveries[j].event.msg == m && s'.deliveries[j].event.version == v;
      assert Solid(s'.db.rows[m], s'.deliveries[j], m);
    } else {
      LiveStays(s.db, s.deliveries, s'.db, s'.deliveries, k);
    }
  }

  /**
   The unguarded enqueue: either the dispatch event goes out, or the key was used
   and, if the row has not moved on, the event it went out with is still alive.
   */
  lemma RetryDispatchAlive(s: Sys, i: nat, day: int, m: nat, v: nat, event: Event)
    requires i < |s.deliveries| && m < |s.db.rows| && LiveAt(s.db, s.deliveries, m)
    requires s.deliveries[i].event.topic == RetryTopic
    requires IsDispatch(event.topic) && event.msg == m && event.version == v
    ensures v == s.db.rows[m].version && s.db.rows[m].status == Submitting ==>
              DispatchLiveAt(Finish(s, i, Ok(Enqueue(s.db, day, RetryDispatchKey(m, v), event)), Handled).deliveries, m,
                v)
  {
    var key := RetryDispatchKey(m, v);
    var ds' := Finish(s, i, Ok(Enqueue(s.db, day, key, event)), Handled).deliveries;
    if v == s.db.rows[m].version && s.db.rows[m].status == Submitting {
      if HasKey(s.db.outbox, day, key) {
        assert KeyUsed(s.db.outbox, key);
        var j :| 0 <= j < |s.deliveries| && Live(s.deliveries[j]) && IsDispatch(s.deliveries[j].event.topic)
                 && s.deliveries[j].event.msg == m && s.deliveries[j].event.version == v;
        assert Live(ds'[j]);
      } else {
        assert ds'[|s.deliveries|] == Delivery(event, Pending);
      }
    }
  }

  lemma ReportStep(s: Sys, initial: map<nat, Wallet>, i: nat, day: int)
    requires SysInv(s, initial)
    ensures SysInv(Step(s, Report(i, day)), initial)
  {
    if i < |s.deliveries| && s.deliveries[i].phase.Called? {
      var d := s.deliveries[i];
      var m := d.phase.snap.id;
      var v := d.phase.submittingVersion;
      assert DeliveryOk(s.db, d);
      var key := ResultKey(m, v);
      var outcome := d.phase.outcome;
      var event := d.event.(topic := ResultTopic, version := v, accepted := outcome.accepted,
                            uncertain := outcome.uncertain, providerMessageId := outcome.providerMessageId,
                            errorCode := outcome.errorCode, protocol := Some(outcome.protocol));
      var s' := Step(s, Report(i, day));
      assert s' == Finish(s, i, Ok(Enqueue(s.db, day, key, event)), Handled);
      QueueOnlyHandlers(s, i, day, key, event);
      Unrelated(s.db, s'.db, initial);
      forall k: nat | k < |s'.db.rows|
        ensures LiveAt(s'.db, s'.deliveries, k)
      {
        assert LiveAt(s.db, s.deliveries, k);
        ReportLive(s, i, day, key, event, k);
      }
    }
  }

  /** The result event takes over from the dispatch handler. */
  lemma ReportLive(s: Sys, i: nat, day: int, key: DedupeKey, event: Event, k: nat)
    requires i < |s.deliveries| && k < |s.db.rows| && LiveAt(s.db, s.deliveries, k)
    requires key.ResultKey? && !HasKey(s.db.outbox, day, key) && event.topic == ResultTopic
    requires s.deliveries[i].event.msg == event.msg < |s.db.rows| && PastRouting(s.db.rows[event.msg].status)
    requires s.deliveries[i].phase.Called?
    requires s.deliveries[i].event.version < s.db.rows[event.msg].version
    ensures var s' := Finish(s, i, Ok(Enqueue(s.db, day, key, event)), Handled);
            LiveAt(s'.db, s'.deliveries, k)
  {
    var s' := Finish(s, i, Ok(Enqueue(s.db, day, key, event)), Handled);
    assert s'.deliveries[|s.deliveries|] == Delivery(event, Pending);
    if k == event.msg {
      var v := s.db.rows[k].version;
      assert Solid(s'.db.rows[k], s'.deliveries[|s.deliveries|], k);
      UsedStays(s.db.outbox, s'.db.outbox, RetryDispatchKey(k, v));
      if DispatchLiveAt(s.deliveries, k, v) {
        var j :| 0 <= j < |s.deliveries| && Live(s.deliveries[j]) && IsDispatch(s.deliveries[j].event.topic)
                 && s.deliveries[j].event.msg == k && s.deliveries[j].event.version == v;
        assert j != i && s'.deliveries[j] == s.deliveries[j];
      }
    } else {
      LiveStays(s.db, s.deliveries, s'.db, s'.deliveries, k);
    }
  }

  // ----- steps that move the row -----

  /** Handlers and keys after delivery `i` committed a guarded transaction on message `m`. */
  lemma GuardedHandlers(s: Sys, initial: map<nat, Wallet>, i: nat, after: Db, phase: Phase, m: nat)
    requires SysInv(s, initial) && i < |s.deliveries|
    requires Advanced(s.db, after, initial, m) && AtMostOneMore(s.db.outbox, after.outbox)
    requires phase.Handled? || (phase.Submitted? && after.outbox == s.db.outbox)
    requires phase.Submitted? ==>
               && s.deliveries[i].event.msg == m && IsDispatch(s.deliveries[i].event.topic)
               && SnapshotOk(s.db, s.deliveries[i].event, phase.snap)
               && s.db.rows[m].version < phase.submittingVersion <= after.rows[m].version
               && PastRouting(after.rows[m].status)
    requires |after.outbox| > |s.db.outbox| ==>
               var o := after.outbox[|s.db.outbox|];
               && KeyOk(after, o) && !o.key.ResultKey?
               && (o.event.topic != ReconcileTopic ==> DeliveryOk(after, Delivery(o.event, Pending)))
    ensures var s' := Finish(s, i, Ok(after), phase);
            Inv(s'.db, initial) && HandlersOk(s'.db, s'.deliveries) && ReceiptsOk(s')
  {
    var s' := Finish(s, i, Ok(after), phase);
    KeysStay(s.db, after);
    forall j | 0 <= j < |s'.deliveries|
      ensures DeliveryOk(after, s'.deliveries[j])
    {
      if j == i {
        assert DeliveryOk(s.db, s.deliveries[i]);
        DeliveryStays(s.db, after, s.deliveries[i].(phase := Pending));
        if phase.Submitted? {
          CommittedStays(s.db, after, phase.snap);
          forall k | 0 <= k < |after.outbox|
            ensures after.outbox[k].key != ResultKey(m, phase.submittingVersion)
          {
            assert KeyOk(s.db, s.db.outbox[k]);
          }
        }
      } else if j < |s.deliveries| {
        DeliveryStays(s.db, after, s.deliveries[j]);
      }
    }
    assert SubmissionsDistinct(s'.deliveries) by {
      SubmissionsStayDistinct(s, i, after, phase, m);
    }
    forall k | 0 <= k < |s'.receipts|
      ensures WasCommitted(after, s'.receipts[k].snap)
    {
      CommittedStays(s.db, after, s.receipts[k].snap);
    }
  }

  lemma SubmissionsStayDistinct(s: Sys, i: nat, after: Db, phase: Phase, m: nat)
    requires HandlersOk(s.db, s.deliveries) && i < |s.deliveries| && m < |s.db.rows|
    requires phase.Handled? || phase.Submitted?
    requires phase.Submitted? ==> s.deliveries[i].event.msg == m && s.db.rows[m].version < phase.submittingVersion
    ensures SubmissionsDistinct(Finish(s, i, Ok(after), phase).deliveries)
  {
    var ds' := Finish(s, i, Ok(after), phase).deliveries;
    forall j, k | 0 <= j < k < |ds'| && InSubmission(ds'[j].phase) && InSubmission(ds'[k].phase)
      && ds'[j].event.msg == ds'[k].event.msg
      ensures ds'[j].phase.submittingVersion != ds'[k].phase.submittingVersion
    {
      assert k < |s.deliveries|;
      if j == i {
        assert DeliveryOk(s.db, s.deliveries[k]);
      } else if k == i {
        assert DeliveryOk(s.db, s.deliveries[j]);
      }
    }
  }

  /** The other messages keep their live events. */
  lemma OthersStayLive(s: Sys, i: nat, after: Db, phase: Phase, m: nat, k: nat)
    requires AllLive(s.db, s.deliveries) && i < |s.deliveries|
    requires s.deliveries[i].event.msg == m < |s.db.rows| && k != m && k < |s.db.rows| == |after.rows|
    requires after.rows == s.db.rows[m := after.rows[m]] && AtMostOneMore(s.db.outbox, after.outbox)
    requires |after.outbox| > |s.db.outbox| ==> !after.outbox[|s.db.outbox|].key.RetryDispatchKey?
    ensures LiveAt(after, Finish(s, i, Ok(after), phase).deliveries, k)
  {
    assert LiveAt(s.db, s.deliveries, k);
    LiveStays(s.db, s.deliveries, after, Finish(s, i, Ok(after), phase).deliveries, k);
  }

  /** A key of a version not yet reached is unused, so queueing under it always succeeds. */
  lemma FutureKeyIsFresh(db: Db, m: nat, key: DedupeKey, day: int)
    requires KeysOk(db) && m < |db.rows|
    requires match key
             case DispatchKey(k, v) => k == m && v > db.rows[m].version
             case RetryDispatchKey(k, v) => k == m && v > db.rows[m].version
             case ThrottleKey(k, v) => k == m && v > db.rows[m].version
             case UncertainKey(k, v) => k == m && v > db.rows[m].version
             case RetryKey(k, v) => k == m && v > db.rows[m].version
             case _ => false
    ensures !KeyUsed(db.outbox, key) && !HasKey(db.outbox, day, key)
  {
    forall k | 0 <= k < |db.outbox|
      ensures db.outbox[k].key != key
    {
      assert KeyOk(db, db.outbox[k]);
    }
  }

  lemma RouteStep(s: Sys, initial: map<nat, Wallet>, i: nat, route: Route, day: int, now: int)
    requires SysInv(s, initial)
    ensures SysInv(Step(s, RouteAccepted(i, route, day, now)), initial)
  {
    if i < |s.deliveries| && s.deliveries[i].phase.Loaded? && s.deliveries[i].event.topic == AcceptedTopic {
      var d := s.deliveries[i];
      var snap := d.phase.snap;
      var m := snap.id;
      assert DeliveryOk(s.db, d);
      RouteKeeps(s.db, initial, d.event, snap, route, day, now);
      if RouteTx(s.db, d.event, snap, route, day, now).Err? {
        RequeueStep(s, initial, i);
      } else {
        GuardMeansCurrent(s.db, initial, snap);
        FutureKeyIsFresh(s.db, m, DispatchKey(m, snap.version + 1), day);
        RouteQueues(s.db, d.event, snap, route, day, now);
        MovedStep(s, initial, i, RouteTx(s.db, d.event, snap, route, day, now).value, m);
      }
    }
  }

  lemma RouteQueues(db: Db, event: Event, snap: Row, route: Route, day: int, now: int)
    requires RouteTx(db, event, snap, route, day, now).Ok? && event.msg == snap.id
    requires snap.id < |db.rows| && snap == db.rows[snap.id]
    requires !HasKey(db.outbox, day, DispatchKey(snap.id, snap.version + 1))
    ensures var after := RouteTx(db, event, snap, route, day, now).value;
            && snap.id < |after.rows| && after.rows[snap.id].status == Routed
            && |after.outbox| == |db.outbox| + 1 && after.outbox[..|db.outbox|] == db.outbox
            && Leaves(after, after.outbox[|db.outbox|], snap.id)
  {
  }

  lemma ThrottleQueues(db: Db, event: Event, snap: Row, day: int)
    requires ThrottleTx(db, event, snap, day).Ok? && event.msg == snap.id
    requires snap.id < |db.rows| && snap == db.rows[snap.id] && (snap.status == Routed || snap.status == Submitting)
    requires !HasKey(db.outbox, day, ThrottleKey(snap.id, snap.version + 1))
    ensures var after := ThrottleTx(db, event, snap, day).value;
            && snap.id < |after.rows| && after.rows[snap.id].status == snap.status
            && |after.outbox| == |db.outbox| + 1 && after.outbox[..|db.outbox|] == db.outbox
            && Leaves(after, after.outbox[|db.outbox|], snap.id)
  {
  }

  /** A row that reached a new version in `submitting` has no retry-dispatch key there yet. */
  lemma NoRetryDispatchKeyYet(before: Db, after: Db, m: nat)
    requires KeysOk(before) && m < |before.rows| == |after.rows| && AtMostOneMore(before.outbox, after.outbox)
    requires after.rows[m].version > before.rows[m].version
    requires |after.outbox| > |before.outbox| ==> !after.outbox[|before.outbox|].key.RetryDispatchKey?
    ensures !KeyUsed(after.outbox, RetryDispatchKey(m, after.rows[m].version))
  {
    var key := RetryDispatchKey(m, after.rows[m].version);
    FutureKeyIsFresh(before, m, key, 0);
    UsedStays(before.outbox, after.outbox, key);
  }

  lemma BlockFails(db: Db, snap: Row, reason: string, now: int)
    requires BlockTx(db, snap, reason, now).Ok?
    requires snap.id < |db.rows| ==> db.rows[snap.id].id == snap.id
    ensures var after := BlockTx(db, snap, reason, now).value;
            snap.id < |after.rows| && after.outbox == db.outbox && after.rows[snap.id].status == Failed
  {
    var (first, submitting) := (if snap.status == Routed
                                then TransitionMessage(db, snap, Submitting, NO_FIELDS, true, now)
                                else PatchMessage(db, snap, NO_FIELDS)).value;
    var (failed, row) := TransitionMessage(first, submitting, Failed, BLOCKED_FIELDS, false, now).value;
    assert failed.rows[submitting.id] == row && row.status == Failed;
  }

  /**
   A guarded transaction that ends its handler, with what it may leave behind:
   a settled row, a parked row, or a queued event no dedupe key blocks.
   */
  lemma MovedStep(s: Sys, initial: map<nat, Wallet>, i: nat, after: Db, m: nat)
    requires SysInv(s, initial) && i < |s.deliveries| && s.deliveries[i].event.msg == m
    requires Advanced(s.db, after, initial, m) && AtMostOneMore(s.db.outbox, after.outbox)
    requires after.rows[m].status != Accepted
    requires !PastRouting(after.rows[m].status) || after.rows[m].status == Submitting ==> |after.outbox| > |s.db.outbox|
    requires |after.outbox| > |s.db.outbox| ==> Leaves(after, after.outbox[|s.db.outbox|], m)
    ensures SysInv(Finish(s, i, Ok(after), Handled), initial)
  {
    assert VersionAt(after, m, after.rows[m].version);
    GuardedHandlers(s, initial, i, after, Handled, m);
    var ds' := Finish(s, i, Ok(after), Handled).deliveries;
    MovedRowLive(s, i, after, m);
    forall k: nat | k < |after.rows|
      ensures LiveAt(after, ds', k)
    {
      if k != m {
        OthersStayLive(s, i, after, Handled, m, k);
      }
    }
  }

  /** The outbox row a guarded transaction adds for the version it just created. */
  predicate Leaves(after: Db, o: OutboxRow, m: nat)
    requires m < |after.rows|
  {
    var row := after.rows[m];
    if o.event.topic == ReconcileTopic then
      row.status == Submitting && o.key == UncertainKey(m, row.version)
    else
      && o.event.msg == m && o.event.version == row.version
      && (o.key.ThrottleKey? || (o.event.providerId == row.providerId && o.event.smppConfigId == row.smppConfigId))
      && if row.status == Routed then
           (o.key == ThrottleKey(m, row.version) && o.event.topic == RetryTopic)
           || (o.key == DispatchKey(m, row.version) && IsDispatch(o.event.topic))
         else
           row.status == Submitting && o.event.topic == RetryTopic
           && (o.key == RetryKey(m, row.version) || o.key == ThrottleKey(m, row.version))
  }

  lemma MovedRowLive(s: Sys, i: nat, after: Db, m: nat)
    requires KeysOk(s.db) && i < |s.deliveries| && m < |s.db.rows| == |after.rows|
    requires after.rows[m].version > s.db.rows[m].version && AtMostOneMore(s.db.outbox, after.outbox)
    requires after.rows[m].status != Accepted
    requires !PastRouting(after.rows[m].status) || after.rows[m].status == Submitting ==> |after.outbox| > |s.db.outbox|
    requires |after.outbox| > |s.db.outbox| ==> Leaves(after, after.outbox[|s.db.outbox|], m)
    ensures LiveAt(after, Finish(s, i, Ok(after), Handled).deliveries, m)
  {
    var ds' := Finish(s, i, Ok(after), Handled).deliveries;
    NoRetryDispatchKeyYet(s.db, after, m);
    if |after.outbox| > |s.db.outbox| {
      var o := after.outbox[|s.db.outbox|];
      assert KeyUsed(after.outbox, o.key);
      if o.event.topic != ReconcileTopic {
        assert ds'[|s.deliveries|] == Delivery(o.event, Pending);
        assert Solid(after.rows[m], ds'[|s.deliveries|], m);
      }
    }
  }

  lemma BlockStep(s: Sys, initial: map<nat, Wallet>, i: nat, reason: string, day: int, now: int)
    requires SysInv(s, initial)
    ensures SysInv(Step(s, Dispatch(i, Block(reason), day, now)), initial)
  {
    if i < |s.deliveries| && s.deliveries[i].phase.Loaded? && IsDispatch(s.deliveries[i].event.topic) {
      var d := s.deliveries[i];
      var snap := d.phase.snap;
      assert DeliveryOk(s.db, d);
      BlockKeeps(s.db, initial, snap, reason, now);
      if BlockTx(s.db, snap, reason, now).Err? {
        RequeueStep(s, initial, i);
      } else {
        var after := BlockTx(s.db, snap, reason, now).value;
        BlockFails(s.db, snap, reason, now);
        MovedStep(s, initial, i, after, snap.id);
      }
    }
  }

  lemma ThrottleStep(s: Sys, initial: map<nat, Wallet>, i: nat, day: int, now: int)
    requires SysInv(s, initial)
    ensures SysInv(Step(s, Dispatch(i, Throttle, day, now)), initial)
  {
    if i < |s.deliveries| && s.deliveries[i].phase.Loaded? && IsDispatch(s.deliveries[i].event.topic) {
      var d := s.deliveries[i];
      var snap := d.phase.snap;
      var m := snap.id;
      assert DeliveryOk(s.db, d);
      ThrottleKeeps(s.db, initial, d.event, snap, day);
      if ThrottleTx(s.db, d.event, snap, day).Err? {
        RequeueStep(s, initial, i);
      } else {
        GuardMeansCurrent(s.db, initial, snap);
        FutureKeyIsFresh(s.db, m, ThrottleKey(m, snap.version + 1), day);
        ThrottleQueues(s.db, d.event, snap, day);
        MovedStep(s, initial, i, ThrottleTx(s.db, d.event, snap, day).value, m);
      }
    }
  }

  /** The attempt is counted and its handler goes on to call the provider: it is the live event now. */
  lemma SubmittedStep(s: Sys, initial: map<nat, Wallet>, i: nat, after: Db, phase: Phase, m: nat)
    requires SysInv(s, initial) && i < |s.deliveries| && s.deliveries[i].event.msg == m
    requires IsDispatch(s.deliveries[i].event.topic)
    requires Advanced(s.db, after, initial, m) && after.outbox == s.db.outbox
    requires phase.Submitted? && SnapshotOk(s.db, s.deliveries[i].event, phase.snap)
    requires s.db.rows[m].version < phase.submittingVersion == after.rows[m].version
    requires after.rows[m].status == Submitting
    ensures SysInv(Finish(s, i, Ok(after), phase), initial)
  {
    GuardedHandlers(s, initial, i, after, phase, m);
    var ds' := Finish(s, i, Ok(after), phase).deliveries;
    assert Solid(after.rows[m], ds'[i], m);
    NoRetryDispatchKeyYet(s.db, after, m);
    forall k: nat | k < |after.rows| && k != m
      ensures LiveAt(after, ds', k)
    {
      OthersStayLive(s, i, after, phase, m, k);
    }
  }

  lemma BeginSubmitStep(s: Sys, initial: map<nat, Wallet>, i: nat, day: int, now: int)
    requires SysInv(s, initial)
    ensures SysInv(Step(s, Dispatch(i, Allow, day, now)), initial)
  {
    if i < |s.deliveries| && s.deliveries[i].phase.Loaded? && IsDispatch(s.deliveries[i].event.topic) {
      var d := s.deliveries[i];
      var snap := d.phase.snap;
      var m := snap.id;
      assert DeliveryOk(s.db, d);
      BeginSubmitKeeps(s.db, initial, snap, now);
      if BeginSubmitTx(s.db, snap, now).Err? {
        RequeueStep(s, initial, i);
      } else {
        GuardMeansCurrent(s.db, initial, snap);
        var (after, updated) := BeginSubmitTx(s.db, snap, now).value;
        SubmittedStep(s, initial, i, after, Submitted(snap, updated.version), m);
      }
    }
  }

  lemma ResultStep(
    s: Sys, initial: map<nat, Wallet>, i: nat, policy: RetryPolicy, next: Option<Route>, day: int, now: int)
    requires SysInv(s, initial)
    ensures SysInv(Step(s, HandleResult(i, policy, next, day, now)), initial)
  {
    if i < |s.deliveries| && s.deliveries[i].phase.Loaded? && s.deliveries[i].event.topic == ResultTopic {
      var d := s.deliveries[i];
      var snap := d.phase.snap;
      var m := snap.id;
      assert DeliveryOk(s.db, d);
      ResultKeeps(s.db, initial, d.event, snap, policy, next, day, now);
      if ResultTx(s.db, d.event, snap, policy, next, day, now).Err? {
        RequeueStep(s, initial, i);
      } else {
        GuardMeansCurrent(s.db, initial, snap);
        FutureKeyIsFresh(s.db, m, UncertainKey(m, snap.version + 1), day);
        FutureKeyIsFresh(s.db, m, RetryKey(m, snap.version + 1), day);
        var after := ResultTx(s.db, d.event, snap, policy, next, day, now).value;
        ResultQueues(s.db, d.event, snap, policy, next, day, now);
        MovedStep(s, initial, i, after, m);
      }
    }
  }

  /** What each branch of the result handler leaves behind. */
  lemma ResultQueues(db: Db, event: Event, snap: Row, policy: RetryPolicy, next: Option<Route>, day: int, now: int)
    requires ResultTx(db, event, snap, policy, next, day, now).Ok?
    requires snap.id < |db.rows| && snap == db.rows[snap.id] && snap.status == Submitting
    requires !HasKey(db.outbox, day, UncertainKey(snap.id, snap.version + 1))
    requires !HasKey(db.outbox, day, RetryKey(snap.id, snap.version + 1))
    requires event.msg == snap.id
    ensures var after := ResultTx(db, event, snap, policy, next, day, now).value;
            && snap.id < |after.rows| && PastRouting(after.rows[snap.id].status)
            && AtMostOneMore(db.outbox, after.outbox)
            && (after.rows[snap.id].status == Submitting ==> |after.outbox| > |db.outbox|)
            && (|after.outbox| > |db.outbox| ==> Leaves(after, after.outbox[|db.outbox|], snap.id))
  {
  }

  // ----- submissions and receipts -----

  lemma AcceptedKeyIsFresh(db: Db)
    requires KeysOk(db)
    ensures !KeyUsed(db.outbox, AcceptedKey(|db.rows|))
  {
    forall k | 0 <= k < |db.outbox|
      ensures db.outbox[k].key != AcceptedKey(|db.rows|)
    {
      assert KeyOk(db, db.outbox[k]);
    }
  }

  lemma SubmitAdds(db: Db, submission: Submission, day: int)
    requires InsertTx(db, submission, day).Ok?
    ensures var after := InsertTx(db, submission, day).value;
            && after.rows == db.rows + [NewRow(|db.rows|, submission)]
            && after.history == db.history[(|db.rows|, 0) := NewRow(|db.rows|, submission)]
            && AtMostOneMore(db.outbox, after.outbox)
            && (!KeyUsed(db.outbox, AcceptedKey(|db.rows|)) ==> |after.outbox| > |db.outbox|)
            && (|after.outbox| > |db.outbox| ==>
                  && after.outbox[|db.outbox|].key == AcceptedKey(|db.rows|)
                  && var event := after.outbox[|db.outbox|].event;
                  && event.topic == AcceptedTopic && event.msg == |db.rows| && event.version == 0
                  && CarriesRouting(after, event, |db.rows|, 0)
                  && NewDeliveries(db, after) == [Delivery(event, Pending)])
            && |NewDeliveries(db, after)| <= 1
            && forall d :: d in NewDeliveries(db, after) ==> d.event.msg == |db.rows| && d.phase.Pending?
  {
  }

  lemma SubmitLive(s: Sys, submission: Submission, day: int)
    requires HandlersOk(s.db, s.deliveries) && AllLive(s.db, s.deliveries)
    requires !IsRepeated(s.db, submission) && InsertTx(s.db, submission, day).Ok?
    ensures var s' := Step(s, Submit(submission, day)); AllLive(s'.db, s'.deliveries)
  {
    var after := InsertTx(s.db, submission, day).value;
    var s' := Step(s, Submit(submission, day));
    var m := |s.db.rows|;
    AcceptedKeyIsFresh(s.db);
    SubmitAdds(s.db, submission, day);
    forall k: nat | k < |after.rows|
      ensures LiveAt(after, s'.deliveries, k)
    {
      if k < m {
        LiveStays(s.db, s.deliveries, after, s'.deliveries, k);
      } else {
        assert Live(s'.deliveries[|s.deliveries|]) && s'.deliveries[|s.deliveries|].event.msg == m;
      }
    }
  }

  lemma SubmitHandlers(s: Sys, submission: Submission, day: int)
    requires HandlersOk(s.db, s.deliveries) && ReceiptsOk(s)
    requires !IsRepeated(s.db, submission) && InsertTx(s.db, submission, day).Ok?
    ensures var s' := Step(s, Submit(submission, day)); HandlersOk(s'.db, s'.deliveries) && ReceiptsOk(s')
  {
    var after := InsertTx(s.db, submission, day).value;
    var s' := Step(s, Submit(submission, day));
    SubmitAdds(s.db, submission, day);
    assert Grew(s.db, after);
    KeysStay(s.db, after);
    forall j | 0 <= j < |s'.deliveries|
      ensures DeliveryOk(after, s'.deliveries[j])
    {
      if j < |s.deliveries| {
        DeliveryStays(s.db, after, s.deliveries[j]);
      }
    }
    forall k | 0 <= k < |s'.receipts|
      ensures WasCommitted(after, s'.receipts[k].snap)
    {
      CommittedStays(s.db, after, s.receipts[k].snap);
    }
  }

  lemma RepeatChangesNothing(s: Sys, submission: Submission, day: int)
    requires IsRepeated(s.db, submission)
    ensures Step(s, Submit(submission, day)) == s
  {
    assert s.deliveries + NewDeliveries(s.db, s.db) == s.deliveries;
  }

  lemma SubmitStep(s: Sys, initial: map<nat, Wallet>, submission: Submission, day: int)
    requires SysInv(s, initial)
    ensures SysInv(Step(s, Submit(submission, day)), initial)
  {
    if IsRepeated(s.db, submission) {
      RepeatChangesNothing(s, submission, day);
    } else if InsertTx(s.db, submission, day).Ok? {
      SubmitKeeps(s.db, initial, submission, day);
      SubmitLive(s, submission, day);
      SubmitHandlers(s, submission, day);
    }
  }

  /** Receipt bookkeeping and reconciliation change no row. */
  lemma BookkeepingStep(s: Sys, initial: map<nat, Wallet>, after: Db)
    requires SysInv(s, initial)
    requires after.rows == s.db.rows && after.history == s.db.history && after.wallets == s.db.wallets
    requires after.ledger == s.db.ledger
    requires AtMostOneMore(s.db.outbox, after.outbox)
    requires |after.outbox| > |s.db.outbox| ==>
             after.outbox[|s.db.outbox|].key.HookKey? && after.outbox[|s.db.outbox|].event.topic == ReconcileTopic
    ensures SysInv(s.(db := after), initial)
  {
    Unrelated(s.db, after, initial);
    KeysStay(s.db, after);
    forall j | 0 <= j < |s.deliveries|
      ensures DeliveryOk(after, s.deliveries[j])
    {
      DeliveryStays(s.db, after, s.deliveries[j]);
    }
    forall k: nat | k < |after.rows|
      ensures LiveAt(after, s.deliveries, k)
    {
      LiveStays(s.db, s.deliveries, after, s.deliveries, k);
    }
  }

  lemma LoadReceiptStep(s: Sys, initial: map<nat, Wallet>, o: nat, m: nat, now: int)
    requires SysInv(s, initial)
    ensures SysInv(Step(s, LoadReceipt(o, m, now)), initial)
  {
    if m < |s.db.rows| {
      assert VersionAt(s.db, m, s.db.rows[m].version);
    }
  }

  lemma ReceiptStep(s: Sys, initial: map<nat, Wallet>, k: nat, day: int, now: int)
    requires SysInv(s, initial)
    ensures SysInv(Step(s, HandleReceipt(k, day, now)), initial)
  {
    if k < |s.receipts| && s.receipts[k].opening.hook < |s.db.webhooks| {
      var work := s.receipts[k];
      var r := ReceiptTx(s.db, work.opening, work.snap, day, now);
      ReceiptKeeps(s.db, initial, work.opening, work.snap, day, now);
      ReceiptQueues(s.db, work.opening, work.snap, day, now);
      if r.Ok? {
        ReceiptCommits(s, initial, r.value, work.snap.id);
      }
    }
  }

  /** A receipt leaves the tables alone but for its own mark and a reconciliation event. */
  predicate OnlyReconciles(before: Db, after: Db) {
    && after.rows == before.rows && after.history == before.history && after.wallets == before.wallets
       && after.ledger == before.ledger
    && AtMostOneMore(before.outbox, after.outbox)
    && (|after.outbox| > |before.outbox| ==>
          after.outbox[|before.outbox|].key.HookKey? && after.outbox[|before.outbox|].event.topic == ReconcileTopic)
  }

  lemma ReceiptQueues(db: Db, o: OpenedReceipt, snap: Row, day: int, now: int)
    requires snap.billing == Debited && RowOk(snap) && o.hook < |db.webhooks|
    ensures var r := ReceiptTx(db, o, snap, day, now);
            r.Ok? ==>
              || OnlyReconciles(db, r.value)
              || (r.value.outbox == db.outbox && snap.id < |r.value.rows|
                 && r.value.rows[snap.id].status in {Delivered, Failed}
                  && r.value.rows[snap.id].version > db.rows[snap.id].version)
  {
    ReceiptShape(db, o, snap, day, now);
  }

  lemma ReceiptCommits(s: Sys, initial: map<nat, Wallet>, after: Db, m: nat)
    requires SysInv(s, initial)
    requires (after.rows == s.db.rows && after.history == s.db.history) || Advanced(s.db, after, initial, m)
    requires || OnlyReconciles(s.db, after)
             || (m < |s.db.rows| == |after.rows| && after.outbox == s.db.outbox
                && after.rows[m].status in {Delivered, Failed}
                 && after.rows[m].version > s.db.rows[m].version)
    ensures SysInv(s.(db := after), initial)
  {
    if OnlyReconciles(s.db, after) {
      BookkeepingStep(s, initial, after);
    } else {
      ReceiptMoves(s, initial, after, m);
    }
  }

  lemma ReceiptMoves(s: Sys, initial: map<nat, Wallet>, after: Db, m: nat)
    requires SysInv(s, initial) && Advanced(s.db, after, initial, m)
    requires after.outbox == s.db.outbox && after.rows[m].status in {Delivered, Failed}
    ensures SysInv(s.(db := after), initial)
  {
    KeysStay(s.db, after);
    forall j | 0 <= j < |s.deliveries|
      ensures DeliveryOk(after, s.deliveries[j])
    {
      DeliveryStays(s.db, after, s.deliveries[j]);
    }
    forall k: nat | k < |after.rows|
      ensures LiveAt(after, s.deliveries, k)
    {
      if k != m {
        LiveStays(s.db, s.deliveries, after, s.deliveries, k);
      }
    }
    forall k | 0 <= k < |s.receipts|
      ensures WasCommitted(after, s.receipts[k].snap)
    {
      CommittedStays(s.db, after, s.receipts[k].snap);
    }
  }

  // ----- every step, every run -----

  /** One step of anything keeps everything. */
  lemma StepKeeps(s: Sys, initial: map<nat, Wallet>, a: Action)
    requires SysInv(s, initial)
    ensures SysInv(Step(s, a), initial)
  {
    match a
    case Submit(submission, day) => SubmitStep(s, initial, submission, day);
    case RouteAccepted(i, route, day, now) => RouteStep(s, initial, i, route, day, now);
    case QueueRetryDispatch(i, day) => RetryDispatchStep(s, initial, i, day);
    case Dispatch(i, verdict, day, now) => DispatchStep(s, initial, i, verdict, day, now);
    case Report(i, day) => ReportStep(s, initial, i, day);
    case HandleResult(i, policy, next, day, now) => ResultStep(s, initial, i, policy, next, day, now);
    case HandleReceipt(k, day, now) => ReceiptStep(s, initial, k, day, now);
    case LoadReceipt(o, m, now) => LoadReceiptStep(s, initial, o, m, now);
    case RepeatHook(w, hook) => RepeatHookStep(s, initial, w, hook);
    case OpenReceipt(w) => OpenReceiptStep(s, initial, w);
    case ReceiveHook(hook) => ReceiveHookStep(s, initial, hook);
    case ReceiptUnmatched(o, day) => UnmatchedStep(s, initial, o, day);
    case _ => QuietStep(s, initial, a);
  }

  lemma DispatchStep(s: Sys, initial: map<nat, Wallet>, i: nat, verdict: Verdict, day: int, now: int)
    requires SysInv(s, initial)
    ensures SysInv(Step(s, Dispatch(i, verdict, day, now)), initial)
  {
    match verdict
    case Block(reason) => BlockStep(s, initial, i, reason, day, now);
    case Throttle => ThrottleStep(s, initial, i, day, now);
    case Allow => BeginSubmitStep(s, initial, i, day, now);
  }

  /** Steps without a transaction on a message. */
  lemma QuietStep(s: Sys, initial: map<nat, Wallet>, a: Action)
    requires SysInv(s, initial)
    requires a.Load? || a.CallProvider? || a.Ack? || a.Crash? || a.Redeliver?
    ensures SysInv(Step(s, a), initial)
  {
    match a
    case Load(i) => LoadStep(s, initial, i);
    case CallProvider(i, outcome, reached) => CallAndAckSteps(s, initial, i, outcome, reached);
    case Ack(i) => CallAndAckSteps(s, initial, i, Outcome(Http, false, false, None, None), false);
    case Crash(i) =>
      if i < |s.deliveries| {
        RequeueStep(s, initial, i);
      }
    case Redeliver(i) => RedeliverStep(s, initial, i);
  }

  /** Receipts on their way to their handler. */
  lemma ReceiveHookStep(s: Sys, initial: map<nat, Wallet>, hook: Webhook)
    requires SysInv(s, initial)
    ensures SysInv(Step(s, ReceiveHook(hook)), initial)
  {
    BookkeepingStep(s, initial, s.db.(webhooks := s.db.webhooks + [hook]));
  }

  lemma RepeatHookStep(s: Sys, initial: map<nat, Wallet>, w: nat, hook: Webhook)
    requires SysInv(s, initial)
    ensures SysInv(Step(s, RepeatHook(w, hook)), initial)
  {
    if w < |s.db.webhooks| {
      BookkeepingStep(s, initial, s.db.(webhooks := s.db.webhooks[w := Overwritten(s.db.webhooks[w], hook)]));
    }
  }

  lemma OpenReceiptStep(s: Sys, initial: map<nat, Wallet>, w: nat)
    requires SysInv(s, initial)
    ensures SysInv(Step(s, OpenReceipt(w)), initial)
  {
  }

  lemma UnmatchedStep(s: Sys, initial: map<nat, Wallet>, o: nat, day: int)
    requires SysInv(s, initial)
    ensures SysInv(Step(s, ReceiptUnmatched(o, day)), initial)
  {
    if o < |s.reading| && s.reading[o].hook < |s.db.webhooks| {
      ReconcileOnly(s.db, s.reading[o], day);
      BookkeepingStep(s, initial, ReconcileHook(s.db, s.reading[o], "message_not_found", day));
    }
  }

  lemma ReconcileOnly(db: Db, o: OpenedReceipt, day: int)
    requires o.hook < |db.webhooks|
    ensures OnlyReconciles(db, ReconcileHook(db, o, "message_not_found", day))
  {
  }

  lemma NothingInFlightOk(s: Sys)
    requires s.db.rows == [] && s.db.outbox == [] && s.deliveries == [] && s.receipts == []
    ensures HandlersOk(s.db, s.deliveries) && AllLive(s.db, s.deliveries) && ReceiptsOk(s)
  {
  }

  lemma StartOk(wallets: map<nat, Wallet>)
    requires Funded(wallets)
    ensures SysInv(Start(wallets), wallets)
  {
    var s := Start(wallets);
    EmptyOk(s.db, wallets);
    NothingInFlightOk(s);
  }

  /** The invariant holds in every reachable state. */
  lemma {:induction false} RunKeeps(s: Sys, initial: map<nat, Wallet>, actions: seq<Action>)
    requires SysInv(s, initial)
    ensures SysInv(Run(s, actions), initial)
  {
    if actions != [] {
      var last := |actions| - 1;
      RunKeeps(s, initial, actions[..last]);
      StepKeeps(Run(s, actions[..last]), initial, actions[last]);
    }
  }

  lemma {:induction false} TraceKeeps(trace: seq<Sys>, actions: seq<Action>, initial: map<nat, Wallet>, k: nat)
    requires IsRun(trace, actions) && k <= |actions| && SysInv(trace[0], initial)
    ensures SysInv(trace[k], initial)
  {
    if k > 0 {
      TraceKeeps(trace, actions, initial, k - 1);
      StepKeeps(trace[k - 1], initial, actions[k - 1]);
    }
  }

  lemma ReachableInv(s: Sys, wallets: map<nat, Wallet>)
    requires Reachable(s, wallets)
    ensures SysInv(s, wallets)
  {
    StartOk(wallets);
    var trace, actions :| IsRun(trace, actions) && trace[0] == Start(wallets) && trace[|actions|] == s;
    TraceKeeps(trace, actions, wallets, |actions|);
  }
}
