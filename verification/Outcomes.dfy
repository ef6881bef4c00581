/**
 What each step leaves in the tables, column by column: the row it writes, the
 money it moves, the event it queues, and that nothing else changes.
 */
module Outcomes {
  import opened Wrappers
  import opened Messages
  import opened Store
  import opened Settlement
  import opened Protocol
  import opened Deliveries
  import Guarantees

  // ----- what a step may leave -----

  predicate MoneyStays(before: Db, after: Db) {
    after.wallets == before.wallets && after.ledger == before.ledger
  }

  /** One wallet got `toAvailable` and `toReserved` more, and one entry about `amount` says so. */
  predicate MoneyMoves(
    before: Db, after: Db, row: Row, operation: BillingOperation, key: LedgerKey, toAvailable: int, toReserved: int,
    balance: int) {
    && row.tenant in before.wallets
    && var w := before.wallets[row.tenant];
    && after.wallets == before.wallets[row.tenant :=
         Wallet(w.available + toAvailable, w.reserved + toReserved, w.creditLimit)]
    && after.ledger == before.ledger
         + [LedgerEntry(row.tenant, row.id, operation, row.price, balance, balance - row.price, key)]
  }

  /** The price went from available to reserved. */
  predicate Reserves(before: Db, after: Db, row: Row) {
    if row.price <= 0 then MoneyStays(before, after)
    else
      && row.tenant in before.wallets
      && MoneyMoves(before, after, row, Reserve, ReserveKey(row.id), -row.price, row.price,
           before.wallets[row.tenant].available)
  }

  /** The price left the reserved balance for good. */
  predicate Debits(before: Db, after: Db, row: Row) {
    if row.price <= 0 then MoneyStays(before, after)
    else
      && row.tenant in before.wallets
      && MoneyMoves(before, after, row, Debit, DebitKey(row.id), 0, -row.price,
           before.wallets[row.tenant].reserved)
  }

  /** The price went back from reserved to available. */
  predicate Releases(before: Db, after: Db, row: Row, path: ReleasePath) {
    if row.price <= 0 then MoneyStays(before, after)
    else
      && row.tenant in before.wallets
      && MoneyMoves(before, after, row, Release, ReleaseKey(row.id, path), row.price, -row.price,
           before.wallets[row.tenant].reserved)
  }

  /** `after` has the one row `row` rewritten and `queued` queued; receipts stay. */
  predicate Writes(before: Db, after: Db, row: Row, queued: seq<OutboxRow>) {
    && row.id < |before.rows|
    && after.rows == before.rows[row.id := row]
    && after.outbox == before.outbox + queued
    && after.webhooks == before.webhooks
  }

  /** Queued events other than reconciliations become deliveries. */
  function Woken(queued: seq<OutboxRow>): seq<Delivery> {
    if queued == [] then []
    else if queued[0].event.topic == ReconcileTopic then Woken(queued[1..])
    else [Delivery(queued[0].event, Pending)] + Woken(queued[1..])
  }

  /** Delivery `i` is in `phase` now, and handlers will see `queued`. */
  predicate Proceeds(s: Sys, s': Sys, i: nat, phase: Phase, queued: seq<OutboxRow>)
    requires i < |s.deliveries|
  {
    s' == s.(db := s'.db,
             deliveries := s.deliveries[i := Delivery(s.deliveries[i].event, phase)] + Woken(queued))
  }

  /** Nothing happened but that the event will be handled again. */
  predicate GivesBack(s: Sys, s': Sys, i: nat)
    requires i < |s.deliveries|
  {
    s' == s.(deliveries := s.deliveries[i := Delivery(s.deliveries[i].event, Pending)])
  }

  /** What is known of a row that a handler still has in hand as it stands. */
  ghost predicate InHand(db: Db, snap: Row) {
    && snap.id < |db.rows| && snap == db.rows[snap.id]
    && snap.billing == Reserved && snap.sentAt.None? && snap.providerMessageId.None?
  }

  /** The wallet covers what the row holds, and no entry settles it yet. */
  ghost predicate Unsettled(db: Db, row: Row) {
    row.price > 0 ==>
      && row.tenant in db.wallets && db.wallets[row.tenant].reserved >= row.price
      && !LedgerExists(db.ledger, row.tenant, DebitKey(row.id))
      && forall path :: !LedgerExists(db.ledger, row.tenant, ReleaseKey(row.id, path))
  }

  lemma HeldIsUnsettled(db: Db, initial: map<nat, Wallet>, m: nat)
    requires Inv(db, initial) && m < |db.rows| && db.rows[m].billing == Reserved
    ensures Unsettled(db, db.rows[m])
  {
    if db.rows[m].price > 0 {
      ReservationIsCovered(db, initial, m);
      UnsettledHasNoKey(db, initial, m, Debit, DebitKey(m));
      forall path: ReleasePath
        ensures !LedgerExists(db.ledger, db.rows[m].tenant, ReleaseKey(m, path))
      {
        UnsettledHasNoKey(db, initial, m, Release, ReleaseKey(m, path));
      }
    }
  }

  /** A handler's snapshot either is the current row, with its money unsettled, or fails the guard. */
  lemma SnapshotFacts(s: Sys, wallets: map<nat, Wallet>, i: nat)
    requires Reachable(s, wallets) && i < |s.deliveries| && s.deliveries[i].phase.Loaded?
    ensures var d := s.deliveries[i]; var snap := d.phase.snap;
            && snap.id == d.event.msg < |s.db.rows|
            && HandlerWants(d.event.topic, snap.status)
            && (Guard(s.db, snap) <==> snap == s.db.rows[snap.id])
            && (snap == s.db.rows[snap.id] ==> InHand(s.db, snap) && Unsettled(s.db, snap))
    ensures KeysOk(s.db)
  {
    ReachableInv(s, wallets);
    var d := s.deliveries[i];
    assert DeliveryOk(s.db, d);
    GuardMeansCurrent(s.db, wallets, d.phase.snap);
    if d.phase.snap == s.db.rows[d.phase.snap.id] {
      assert RowOk(s.db.rows[d.phase.snap.id]);
      HeldIsUnsettled(s.db, wallets, d.phase.snap.id);
    }
  }

  // ----- submission -----

  /** A message of the same tenant and day has one of the client keys given. */
  predicate ClientKeyTaken(rows: seq<Row>, s: Submission) {
    var key, id := s.content.idempotencyKey, s.content.clientMessageId;
    && (key.GetOr("") != "" || id.GetOr("") != "")
    && exists m :: 0 <= m < |rows| && rows[m].submitDate == s.submitDate && rows[m].tenant == s.tenant
         && ((key.Some? && rows[m].content.idempotencyKey == key)
             || (id.Some? && rows[m].content.clientMessageId == id))
  }

  predicate Affordable(db: Db, s: Submission) {
    s.price <= 0
    || (s.tenant in db.wallets && db.wallets[s.tenant].available + db.wallets[s.tenant].creditLimit >= s.price)
  }

  /** The row is the message as submitted, before anything was done about it. */
  predicate IsSubmitted(row: Row, id: nat, s: Submission) {
    && row.id == id && row.submitDate == s.submitDate && row.tenant == s.tenant && row.content == s.content
    && row.price == s.price && row.cost == s.route.unitCost * s.parts && row.parts == s.parts
    && row.status == Accepted && row.version == 0 && row.attempts == 0 && row.billing == Reserved
    && row.providerId == Some(s.route.providerId) && row.smppConfigId == s.route.smppConfigId
    && row.routeRuleId == s.route.ruleId && row.providerMessageId == None && row.lastError == None
    && row.sentAt == None && row.deliveredAt == None && row.failedAt == None
  }

  /** The event that starts the workflow for the new message. */
  predicate Announces(o: OutboxRow, day: int, id: nat, s: Submission) {
    && o.day == day && o.key == AcceptedKey(id)
    && o.event.topic == AcceptedTopic && o.event.msg == id && o.event.version == 0
    && o.event.providerId == Some(s.route.providerId) && o.event.smppConfigId == s.route.smppConfigId
    && !o.event.accepted && !o.event.uncertain && o.event.errorCode == None && o.event.providerMessageId == None
  }

  predicate TakesIn(before: Db, after: Db, s: Submission, day: int) {
    var id := |before.rows|;
    && |after.rows| == id + 1 && after.rows[..id] == before.rows && IsSubmitted(after.rows[id], id, s)
    && Reserves(before, after, after.rows[id])
    && |after.outbox| == |before.outbox| + 1 && after.outbox[..|before.outbox|] == before.outbox
    && Announces(after.outbox[|before.outbox|], day, id, s)
    && after.webhooks == before.webhooks
  }

  lemma NewMessageHasNoEvent(db: Db, day: int)
    requires KeysOk(db)
    ensures !HasKey(db.outbox, day, AcceptedKey(|db.rows|))
  {
    forall k | 0 <= k < |db.outbox|
      ensures db.outbox[k].key != AcceptedKey(|db.rows|)
    {
      assert KeyOk(db, db.outbox[k]);
    }
  }

  lemma InsertOutcome(db: Db, s: Submission, day: int)
    requires !LedgerExists(db.ledger, s.tenant, ReserveKey(|db.rows|))
    requires !HasKey(db.outbox, day, AcceptedKey(|db.rows|))
    ensures InsertTx(db, s, day).Ok? <==> Affordable(db, s)
    ensures Affordable(db, s) ==> TakesIn(db, InsertTx(db, s, day).value, s, day)
  {
  }

  lemma RepeatedIffTaken(db: Db, s: Submission)
    ensures IsRepeated(db, s) <==> ClientKeyTaken(db.rows, s)
  {
    if ClientKeyTaken(db.rows, s) {
      var m :| 0 <= m < |db.rows| && db.rows[m].submitDate == s.submitDate && db.rows[m].tenant == s.tenant
         && ((s.content.idempotencyKey.Some? && db.rows[m].content.idempotencyKey == s.content.idempotencyKey)
             || (s.content.clientMessageId.Some? && db.rows[m].content.clientMessageId == s.content.clientMessageId));
      assert HasClientKey(db.rows[m], s);
    }
  }

  /**
   A submission is taken in exactly when its client keys are new and its price is within
   what the tenant has and may borrow; then the sell price, and no other amount, is
   reserved, and the message goes to the workflow with its route.
   */
  lemma SubmissionOutcome(s: Sys, wallets: map<nat, Wallet>, submission: Submission, day: int)
    requires Reachable(s, wallets)
    ensures var s' := Step(s, Submit(submission, day));
            if ClientKeyTaken(s.db.rows, submission) || !Affordable(s.db, submission) then s' == s
            else
              && TakesIn(s.db, s'.db, submission, day)
              && s' == s.(db := s'.db, deliveries := s.deliveries + [Delivery(s'.db.outbox[|s.db.outbox|].event,
                   Pending)])
  {
    ReachableInv(s, wallets);
    NewMessageHasNoReserve(s.db);
    NewMessageHasNoEvent(s.db, day);
    RepeatedIffTaken(s.db, submission);
    InsertOutcome(s.db, submission, day);
    SubmitStep(s, submission, day);
  }

  lemma SubmitStep(s: Sys, submission: Submission, day: int)
    ensures var s', r := Step(s, Submit(submission, day)), InsertTx(s.db, submission, day);
            if IsRepeated(s.db, submission) || r.Err? then s' == s
            else s' == s.(db := r.value, deliveries := s.deliveries + NewDeliveries(s.db, r.value))
  {
  }

  // ----- routing and dispatch -----

  /** A delivery whose handler has read its row and goes by `topic`. */
  predicate Holds(s: Sys, i: nat, topic: Topic) {
    i < |s.deliveries| && s.deliveries[i].phase.Loaded? && s.deliveries[i].event.topic == topic
  }

  /** The version after `row`; what else changes is said where this is used. */
  function Next(row: Row): Row {
    row.(version := row.version + 1)
  }

  /** A handler finished: its row is written, its event queued, and each queued event delivered. */
  predicate Finishes(s: Sys, s': Sys, i: nat, row: Row, queued: seq<OutboxRow>)
    requires i < |s.deliveries|
  {
    Writes(s.db, s'.db, row, queued) && Proceeds(s, s', i, Handled, queued)
  }

  lemma FinishOutcome(s: Sys, i: nat, after: Db, phase: Phase, queued: seq<OutboxRow>)
    requires i < |s.deliveries| && |queued| <= 1 && after.outbox == s.db.outbox + queued
    ensures Finish(s, i, Ok(after), phase).db == after
    ensures Proceeds(s, Finish(s, i, Ok(after), phase), i, phase, queued)
  {
    if queued != [] {
      assert queued == [queued[0]] && queued[1..] == [];
    }
  }

  function RoutedRow(row: Row, route: Route): Row {
    Next(row).(status := Routed, providerId := Some(route.providerId), smppConfigId := route.smppConfigId,
               routeRuleId := route.ruleId, cost := route.unitCost * row.parts, lastError := None)
  }

  function RoutedEvent(event: Event, row: Row, route: Route): Event {
    event.(topic := DispatchTopic(row.content.marketing), version := row.version + 1,
           providerId := Some(route.providerId), smppConfigId := route.smppConfigId, routeRuleId := route.ruleId,
           protocol := Some(route.protocol))
  }

  lemma RouteWrites(db: Db, event: Event, snap: Row, route: Route, day: int, now: int)
    requires InHand(db, snap) && snap.status == Accepted && Guard(db, snap)
    requires !HasKey(db.outbox, day, DispatchKey(snap.id, snap.version + 1))
    ensures var r := RouteTx(db, event, snap, route, day, now);
            && r.Ok? && MoneyStays(db, r.value)
            && Writes(db, r.value, RoutedRow(snap, route),
                 [OutboxRow(day, DispatchKey(snap.id, snap.version + 1), RoutedEvent(event, snap, route))])
  {
  }

  /**
   Routing a message nobody else has moved: the row and the dispatch event both take the
   chosen route, and the cost is the route's unit cost for every part. With any other
   snapshot nothing changes.
   */
  lemma RouteOutcome(s: Sys, wallets: map<nat, Wallet>, i: nat, route: Route, day: int, now: int)
    requires Reachable(s, wallets) && Holds(s, i, AcceptedTopic)
    ensures var d := s.deliveries[i]; var snap := d.phase.snap;
            var s' := Step(s, RouteAccepted(i, route, day, now));
            && snap.id < |s.db.rows|
            && if snap != s.db.rows[snap.id] then GivesBack(s, s', i)
               else
                 && MoneyStays(s.db, s'.db)
                 && Finishes(s, s', i, RoutedRow(snap, route),
                      [OutboxRow(day, DispatchKey(snap.id, snap.version + 1), RoutedEvent(d.event, snap, route))])
  {
    SnapshotFacts(s, wallets, i);
    var d := s.deliveries[i];
    var snap := d.phase.snap;
    if snap == s.db.rows[snap.id] {
      FutureKeyIsFresh(s.db, snap.id, DispatchKey(snap.id, snap.version + 1), day);
      RouteWrites(s.db, d.event, snap, route, day, now);
      FinishOutcome(s, i, RouteTx(s.db, d.event, snap, route, day, now).value, Handled,
        [OutboxRow(day, DispatchKey(snap.id, snap.version + 1), RoutedEvent(d.event, snap, route))]);
    }
  }

  /** A dispatch handler that has read its row. */
  predicate HoldsDispatch(s: Sys, i: nat) {
    i < |s.deliveries| && s.deliveries[i].phase.Loaded? && s.deliveries[i].event.topic.DispatchTopic?
  }

  function ThrottledRow(row: Row): Row {
    Next(row).(lastError := Some("fraud_throttled"))
  }

  function ThrottledEvent(event: Event, row: Row): Event {
    event.(topic := RetryTopic, version := row.version + 1)
  }

  lemma ThrottleWrites(db: Db, event: Event, snap: Row, day: int)
    requires InHand(db, snap) && Guard(db, snap)
    requires !HasKey(db.outbox, day, ThrottleKey(snap.id, snap.version + 1))
    ensures var r := ThrottleTx(db, event, snap, day);
            && r.Ok? && MoneyStays(db, r.value)
            && Writes(db, r.value, ThrottledRow(snap),
                 [OutboxRow(day, ThrottleKey(snap.id, snap.version + 1), ThrottledEvent(event, snap))])
  {
  }

  /** A throttled message keeps its status and its attempts; the throttle is its last error and a retry is queued. */
  lemma ThrottleOutcome(s: Sys, wallets: map<nat, Wallet>, i: nat, day: int, now: int)
    requires Reachable(s, wallets) && HoldsDispatch(s, i)
    ensures var d := s.deliveries[i]; var snap := d.phase.snap;
            var s' := Step(s, Dispatch(i, Throttle, day, now));
            && snap.id < |s.db.rows|
            && if snap != s.db.rows[snap.id] then GivesBack(s, s', i)
               else
                 && MoneyStays(s.db, s'.db)
                 && Finishes(s, s', i, ThrottledRow(snap),
                      [OutboxRow(day, ThrottleKey(snap.id, snap.version + 1), ThrottledEvent(d.event, snap))])
  {
    SnapshotFacts(s, wallets, i);
    var d := s.deliveries[i];
    var snap := d.phase.snap;
    if snap == s.db.rows[snap.id] {
      FutureKeyIsFresh(s.db, snap.id, ThrottleKey(snap.id, snap.version + 1), day);
      ThrottleWrites(s.db, d.event, snap, day);
      FinishOutcome(s, i, ThrottleTx(s.db, d.event, snap, day).value, Handled,
        [OutboxRow(day, ThrottleKey(snap.id, snap.version + 1), ThrottledEvent(d.event, snap))]);
    }
  }

  function FailedAt(row: Row, now: int): Option<int> {
    if row.failedAt.Some? then row.failedAt else Some(now)
  }

  /** A blocked message went through `submitting`, so it is two versions on and a routed one counts an attempt. */
  function BlockedRow(row: Row, now: int): Row {
    row.(version := row.version + 2, status := Failed, billing := Released, lastError := Some("fraud_blocked"),
         failedAt := FailedAt(row, now), attempts := row.attempts + if row.status == Routed then 1 else 0)
  }

  lemma BlockWrites(db: Db, snap: Row, reason: string, now: int)
    requires InHand(db, snap) && Guard(db, snap) && Unsettled(db, snap)
    requires snap.status == Routed || snap.status == Submitting
    ensures var r := BlockTx(db, snap, reason, now);
            && r.Ok? && Releases(db, r.value, snap, FraudPath)
            && Writes(db, r.value, BlockedRow(snap, now), [])
  {
    BlockShape(db, snap, reason, now);
  }

  /** A blocked message fails, its price goes back to the tenant, and nothing is queued. */
  lemma BlockOutcome(s: Sys, wallets: map<nat, Wallet>, i: nat, reason: string, day: int, now: int)
    requires Reachable(s, wallets) && HoldsDispatch(s, i)
    ensures var snap, s' := s.deliveries[i].phase.snap, Step(s, Dispatch(i, Block(reason), day, now));
            && snap.id < |s.db.rows|
            && if snap != s.db.rows[snap.id] then GivesBack(s, s', i)
               else
                 && Releases(s.db, s'.db, snap, FraudPath)
                 && Finishes(s, s', i, BlockedRow(snap, now), [])
  {
    SnapshotFacts(s, wallets, i);
    var snap := s.deliveries[i].phase.snap;
    if snap == s.db.rows[snap.id] {
      BlockWrites(s.db, snap, reason, now);
      FinishOutcome(s, i, BlockTx(s.db, snap, reason, now).value, Handled, []);
    } else {
      assert BlockTx(s.db, snap, reason, now).Err?;
    }
  }

  lemma BeginWrites(db: Db, snap: Row, now: int)
    requires InHand(db, snap) && Guard(db, snap)
    requires snap.status == Routed || snap.status == Submitting
    ensures var r := BeginSubmitTx(db, snap, now);
            var row := Next(snap).(status := Submitting, attempts := snap.attempts + 1);
            && r.Ok? && r.value.1 == row && MoneyStays(db, r.value.0) && Writes(db, r.value.0, row, [])
  {
  }

  /** Before the provider is called one attempt is counted, whichever status the dispatch found. */
  lemma BeginSubmitOutcome(s: Sys, wallets: map<nat, Wallet>, i: nat, day: int, now: int)
    requires Reachable(s, wallets) && HoldsDispatch(s, i)
    ensures var snap, s' := s.deliveries[i].phase.snap, Step(s, Dispatch(i, Allow, day, now));
            && snap.id < |s.db.rows|
            && if snap != s.db.rows[snap.id] then GivesBack(s, s', i)
               else
                 && MoneyStays(s.db, s'.db)
                 && Writes(s.db, s'.db, Next(snap).(status := Submitting, attempts := snap.attempts + 1), [])
                 && Proceeds(s, s', i, Submitted(snap, snap.version + 1), [])
  {
    SnapshotFacts(s, wallets, i);
    var snap := s.deliveries[i].phase.snap;
    if snap == s.db.rows[snap.id] {
      BeginWrites(s.db, snap, now);
      FinishOutcome(s, i, BeginSubmitTx(s.db, snap, now).value.0, Submitted(snap, snap.version + 1), []);
    }
  }

  /** The provider's answer always goes out, word for word, under the version that counted the attempt. */
  lemma ReportOutcome(s: Sys, wallets: map<nat, Wallet>, i: nat, day: int)
    requires Reachable(s, wallets) && i < |s.deliveries| && s.deliveries[i].phase.Called?
    ensures var d := s.deliveries[i];
            var o, v, s' := d.phase.outcome, d.phase.submittingVersion, Step(s, Report(i, day));
            var event := d.event.(topic := ResultTopic, version := v, accepted := o.accepted,
                                  uncertain := o.uncertain, providerMessageId := o.providerMessageId,
                                  errorCode := o.errorCode, protocol := Some(o.protocol));
            var queued := [OutboxRow(day, ResultKey(d.event.msg, v), event)];
            && s'.db == s.db.(outbox := s.db.outbox + queued)
            && Proceeds(s, s', i, Handled, queued)
  {
    ReachableInv(s, wallets);
    var d := s.deliveries[i];
    assert DeliveryOk(s.db, d);
    var o, v := d.phase.outcome, d.phase.submittingVersion;
    var event := d.event.(topic := ResultTopic, version := v, accepted := o.accepted,
                          uncertain := o.uncertain, providerMessageId := o.providerMessageId,
                          errorCode := o.errorCode, protocol := Some(o.protocol));
    FinishOutcome(s, i, ReportTx(s.db, d.event, d.phase.snap, v, o, day), Handled,
      [OutboxRow(day, ResultKey(d.event.msg, v), event)]);
  }

  /** A retry sends the message, as its handler read it, back to dispatch unless that was queued the same day. */
  lemma RetryOutcome(s: Sys, wallets: map<nat, Wallet>, i: nat, day: int)
    requires Reachable(s, wallets) && Holds(s, i, RetryTopic)
    ensures var d := s.deliveries[i]; var snap, s' := d.phase.snap, Step(s, QueueRetryDispatch(i, day));
            var key := RetryDispatchKey(d.event.msg, snap.version);
            var event := d.event.(topic := DispatchTopic(snap.content.marketing), version := snap.version,
                                  providerId := snap.providerId, smppConfigId := snap.smppConfigId);
            var known := exists k ::
                           0 <= k < |s.db.outbox| && s.db.outbox[k].day == day && s.db.outbox[k].key == key;
            var queued := if known then [] else [OutboxRow(day, key, event)];
            && s'.db == s.db.(outbox := s.db.outbox + queued)
            && Proceeds(s, s', i, Handled, queued)
  {
    SnapshotFacts(s, wallets, i);
    var d := s.deliveries[i];
    var snap := d.phase.snap;
    var event := d.event.(topic := DispatchTopic(snap.content.marketing), version := snap.version,
                          providerId := snap.providerId, smppConfigId := snap.smppConfigId);
    var key := RetryDispatchKey(d.event.msg, snap.version);
    FinishOutcome(s, i, RetryDispatchTx(s.db, d.event, snap, day), Handled,
      if HasKey(s.db.outbox, day, key) then [] else [OutboxRow(day, key, event)]);
  }

  // ----- dispatch results -----

  function SentRow(row: Row, event: Event, now: int): Row {
    Next(row).(status := ProviderAccepted, billing := Debited, providerMessageId := event.providerMessageId,
               lastError := None, sentAt := Some(now))
  }

  function UncertainRow(row: Row, event: Event): Row {
    Next(row).(lastError := Some(if event.errorCode.Some? then event.errorCode.value else "unknown_submit_outcome"))
  }

  /** The next route where it has a value, else the current one. */
  function RetriedRow(row: Row, event: Event, next: Option<Route>): Row {
    var again := Next(row).(lastError := event.errorCode);
    if next.None? then again
    else
      again.(providerId := Some(next.value.providerId), cost := next.value.unitCost * row.parts,
             smppConfigId := if next.value.smppConfigId.None? then row.smppConfigId else next.value.smppConfigId,
             routeRuleId := if next.value.ruleId.None? then row.routeRuleId else next.value.ruleId)
  }

  /** The retry goes to the route of the retried row. */
  function RetriedEvent(event: Event, row: Row, next: Option<Route>): Event {
    event.(topic := RetryTopic, version := row.version, accepted := false, providerId := row.providerId,
           smppConfigId := row.smppConfigId, routeRuleId := row.routeRuleId,
           protocol := if next.None? then event.protocol else Some(next.value.protocol))
  }

  function RefusedRow(row: Row, event: Event, now: int): Row {
    Next(row).(status := Failed, billing := Released, failedAt := FailedAt(row, now),
               lastError := Some(if event.errorCode.Some? then event.errorCode.value else "dispatch_failed"))
  }

  lemma AcceptedWrites(db: Db, event: Event, snap: Row, policy: RetryPolicy, next: Option<Route>, day: int, now: int)
    requires InHand(db, snap) && Guard(db, snap) && Unsettled(db, snap) && snap.status == Submitting && event.accepted
    ensures var r := ResultTx(db, event, snap, policy, next, day, now);
            r.Ok? && Debits(db, r.value, snap) && Writes(db, r.value, SentRow(snap, event, now), [])
  {
  }

  lemma UncertainWrites(db: Db, event: Event, snap: Row, policy: RetryPolicy, next: Option<Route>, day: int, now: int)
    requires InHand(db, snap) && Guard(db, snap) && !event.accepted && event.uncertain
    requires !HasKey(db.outbox, day, UncertainKey(snap.id, snap.version + 1))
    ensures var r := ResultTx(db, event, snap, policy, next, day, now);
            && r.Ok? && MoneyStays(db, r.value)
            && Writes(db, r.value, UncertainRow(snap, event),
                 [OutboxRow(day, UncertainKey(snap.id, snap.version + 1), event.(topic := ReconcileTopic))])
  {
  }

  /** The provider refused for a reason the policy retries, and attempts are left. */
  predicate IsRetried(event: Event, row: Row, policy: RetryPolicy) {
    && event.errorCode.GetOr("") != "" && event.errorCode.value in policy.retryOnErrors
    && row.attempts < policy.maxAttempts
  }

  lemma RetriedWrites(db: Db, event: Event, snap: Row, policy: RetryPolicy, next: Option<Route>, day: int, now: int)
    requires InHand(db, snap) && Guard(db, snap) && !event.accepted && !event.uncertain
    requires IsRetried(event, snap, policy) && !HasKey(db.outbox, day, RetryKey(snap.id, snap.version + 1))
    ensures var r := ResultTx(db, event, snap, policy, next, day, now);
            && r.Ok? && MoneyStays(db, r.value)
            && Writes(db, r.value, RetriedRow(snap, event, next),
                 [OutboxRow(day, RetryKey(snap.id, snap.version + 1),
                    RetriedEvent(event, RetriedRow(snap, event, next), next))])
  {
  }

  lemma RefusedWrites(db: Db, event: Event, snap: Row, policy: RetryPolicy, next: Option<Route>, day: int, now: int)
    requires InHand(db, snap) && Guard(db, snap) && Unsettled(db, snap) && snap.status == Submitting
    requires !event.accepted && !event.uncertain && !IsRetried(event, snap, policy)
    ensures var r := ResultTx(db, event, snap, policy, next, day, now);
            && r.Ok? && Releases(db, r.value, snap, FinalPath)
            && Writes(db, r.value, RefusedRow(snap, event, now), [])
  {
  }

  /** What a dispatch result makes of the current row: the row, the money, and what is queued. */
  ghost predicate ResultSays(
    before: Db, after: Db, event: Event, row: Row, policy: RetryPolicy, next: Option<Route>, day: int, now: int,
    queued: seq<OutboxRow>) {
    if event.accepted then
      Debits(before, after, row) && Writes(before, after, SentRow(row, event, now), queued) && queued == []
    else if event.uncertain then
      && MoneyStays(before, after) && Writes(before, after, UncertainRow(row, event), queued)
      && queued == [OutboxRow(day, UncertainKey(row.id, row.version + 1), event.(topic := ReconcileTopic))]
    else if IsRetried(event, row, policy) then
      var retried := RetriedRow(row, event, next);
      && MoneyStays(before, after) && Writes(before, after, retried, queued)
      && queued == [OutboxRow(day, RetryKey(row.id, retried.version), RetriedEvent(event, retried, next))]
    else
      Releases(before, after, row, FinalPath) && Writes(before, after, RefusedRow(row, event, now), queued)
      && queued == []
  }

  lemma ResultWrites(db: Db, event: Event, snap: Row, policy: RetryPolicy, next: Option<Route>, day: int, now: int)
    returns (queued: seq<OutboxRow>)
    requires InHand(db, snap) && Guard(db, snap) && Unsettled(db, snap) && snap.status == Submitting && KeysOk(db)
    ensures var r := ResultTx(db, event, snap, policy, next, day, now);
            r.Ok? && ResultSays(db, r.value, event, snap, policy, next, day, now, queued) && |queued| <= 1
  {
    queued := [];
    if event.accepted {
      AcceptedWrites(db, event, snap, policy, next, day, now);
    } else if event.uncertain {
      var key := UncertainKey(snap.id, snap.version + 1);
      FutureKeyIsFresh(db, snap.id, key, day);
      UncertainWrites(db, event, snap, policy, next, day, now);
      queued := [OutboxRow(day, key, event.(topic := ReconcileTopic))];
    } else if IsRetried(event, snap, policy) {
      var key := RetryKey(snap.id, snap.version + 1);
      FutureKeyIsFresh(db, snap.id, key, day);
      RetriedWrites(db, event, snap, policy, next, day, now);
      queued := [OutboxRow(day, key, RetriedEvent(event, RetriedRow(snap, event, next), next))];
    } else {
      RefusedWrites(db, event, snap, policy, next, day, now);
    }
  }

  lemma {:induction false} ResultFinishes(
    s: Sys, wallets: map<nat, Wallet>, i: nat, policy: RetryPolicy, next: Option<Route>, day: int, now: int)
    returns (queued: seq<OutboxRow>)
    requires Reachable(s, wallets) && Holds(s, i, ResultTopic)
    ensures var d := s.deliveries[i];
            var snap, s' := d.phase.snap, Step(s, HandleResult(i, policy, next, day, now));
            && snap.id < |s.db.rows|
            && if snap != s.db.rows[snap.id] then GivesBack(s, s', i)
               else
                 && ResultSays(s.db, s'.db, d.event, snap, policy, next, day, now, queued)
                 && Proceeds(s, s', i, Handled, queued)
  {
    SnapshotFacts(s, wallets, i);
    var d := s.deliveries[i];
    var snap := d.phase.snap;
    queued := [];
    if snap == s.db.rows[snap.id] {
      queued := ResultWrites(s.db, d.event, snap, policy, next, day, now);
      var r := ResultTx(s.db, d.event, snap, policy, next, day, now);
      assert r.value.outbox == s.db.outbox + queued;
      FinishOutcome(s, i, r.value, Handled, queued);
      assert Step(s, HandleResult(i, policy, next, day, now)) == Finish(s, i, Ok(r.value), Handled);
    }
  }

  predicate IsOne(queued: seq<OutboxRow>, topic: Topic) {
    |queued| == 1 && queued[0].event.topic == topic
  }

  /** A submitting row ends in one of four ways, told apart by its status and by what was queued. */
  lemma ResultWays(
    before: Db, after: Db, event: Event, row: Row, policy: RetryPolicy, next: Option<Route>, day: int, now: int,
    queued: seq<OutboxRow>)
    requires ResultSays(before, after, event, row, policy, next, day, now, queued) && row.status == Submitting
    ensures row.id < |after.rows|
    ensures var status := after.rows[row.id].status;
            && (status == ProviderAccepted <==> event.accepted)
            && (status == Submitting && IsOne(queued, ReconcileTopic) <==> event.uncertain && !event.accepted)
            && (status == Submitting && IsOne(queued, RetryTopic) <==>
                 !event.accepted && !event.uncertain && IsRetried(event, row, policy))
            && (status == Failed <==> !event.accepted && !event.uncertain && !IsRetried(event, row, policy))
  {
  }

  /**
   A result either meets the current row and settles, parks, retries or fails the message,
   by what the provider said and by the policy alone, or it meets another row and changes
   nothing.
   */
  lemma {:induction false} ResultOutcome(
    s: Sys, wallets: map<nat, Wallet>, i: nat, policy: RetryPolicy, next: Option<Route>, day: int, now: int)
    requires Reachable(s, wallets) && Holds(s, i, ResultTopic)
    ensures var d := s.deliveries[i];
            var snap, s' := d.phase.snap, Step(s, HandleResult(i, policy, next, day, now));
            && snap.id < |s.db.rows| == |s'.db.rows|
            && if snap != s.db.rows[snap.id] then GivesBack(s, s', i)
               else
                 && |s.db.outbox| <= |s'.db.outbox|
                 && var queued, status := s'.db.outbox[|s.db.outbox|..], s'.db.rows[snap.id].status;
                 && (status == ProviderAccepted <==> d.event.accepted)
                 && (status == Submitting && IsOne(queued, ReconcileTopic) <==> d.event.uncertain && !d.event.accepted)
                 && (status == Submitting && IsOne(queued, RetryTopic) <==>
                      !d.event.accepted && !d.event.uncertain && IsRetried(d.event, snap, policy))
                 && (status == Failed <==>
                      !d.event.accepted && !d.event.uncertain && !IsRetried(d.event, snap, policy))
                 && ResultSays(s.db, s'.db, d.event, snap, policy, next, day, now, queued)
                 && Proceeds(s, s', i, Handled, queued)
  {
    var d := s.deliveries[i];
    var snap, s' := d.phase.snap, Step(s, HandleResult(i, policy, next, day, now));
    SnapshotFacts(s, wallets, i);
    var queued := ResultFinishes(s, wallets, i, policy, next, day, now);
    if snap == s.db.rows[snap.id] {
      assert s'.db.outbox[|s.db.outbox|..] == queued;
      ResultWays(s.db, s'.db, d.event, snap, policy, next, day, now, queued);
    }
  }

  // ----- reads -----

  /** A handler goes on exactly when its row is where its event expects it, and keeps the whole current row. */
  lemma LoadOutcome(s: Sys, i: nat)
    requires i < |s.deliveries| && s.deliveries[i].phase.Pending? && s.deliveries[i].event.msg < |s.db.rows|
    ensures var d, s' := s.deliveries[i], Step(s, Load(i));
            var row := s.db.rows[d.event.msg];
            var expected := match d.event.topic
                            case AcceptedTopic => {Accepted}
                            case DispatchTopic(_) => {Routed, Submitting}
                            case RetryTopic => {Submitting}
                            case ResultTopic => {Submitting}
                            case ReconcileTopic => {};
            s'.db == s.db && Proceeds(s, s', i, if row.status in expected then Loaded(row) else Handled, [])
  {
    assert s.deliveries[i := s.deliveries[i]] == s.deliveries;
  }

  // ----- delivery receipts -----

  /** Receipt `hook` is dealt with for the reason given. */
  predicate Closes(before: Db, after: Db, hook: nat, reason: string) {
    && hook < |before.webhooks|
    && after.webhooks == before.webhooks[hook :=
         before.webhooks[hook].(processed := true, processingError := Some(reason))]
  }

  /** Receipt `hook` has done its work: it keeps its error and takes the tenant when it had none. */
  predicate Matches(before: Db, after: Db, hook: nat, tenant: nat) {
    && hook < |before.webhooks|
    && var stored := before.webhooks[hook];
    && after.webhooks == before.webhooks[hook :=
         stored.(processed := true, tenant := Some(if stored.tenant.Some? then stored.tenant.value else tenant))]
  }

  /** A reconciliation with the receipt's provider and the reason is queued once a day. */
  predicate AsksToReconcile(before: Db, after: Db, o: OpenedReceipt, reason: string, day: int) {
    && |before.outbox| <= |after.outbox| && after.outbox[..|before.outbox|] == before.outbox
    && var queued, key := after.outbox[|before.outbox|..], HookKey(o.hook, reason);
    && if exists k :: 0 <= k < |before.outbox| && before.outbox[k].day == day && before.outbox[k].key == key
       then queued == []
       else
         && |queued| == 1 && queued[0].day == day && queued[0].key == key
         && queued[0].event.topic == ReconcileTopic && queued[0].event.providerId == Some(o.read.providerId)
         && queued[0].event.errorCode == Some(reason)
  }

  /** Nothing but receipts and the outbox changed. */
  predicate OnlyReports(before: Db, after: Db) {
    after.rows == before.rows && after.history == before.history && MoneyStays(before, after)
  }

  predicate Reconciles(before: Db, after: Db, o: OpenedReceipt, reason: string, day: int) {
    && OnlyReports(before, after) && Closes(before, after, o.hook, reason)
    && AsksToReconcile(before, after, o, reason, day)
  }

  predicate Repeats(before: Db, after: Db, o: OpenedReceipt, reason: string) {
    OnlyReports(before, after) && Closes(before, after, o.hook, reason) && after.outbox == before.outbox
  }

  /** The receipt moved the message on to `row`. */
  predicate Concludes(before: Db, after: Db, o: OpenedReceipt, row: Row) {
    && row.id < |before.rows| && after.rows == before.rows[row.id := row]
    && after.outbox == before.outbox && MoneyStays(before, after) && Matches(before, after, o.hook, row.tenant)
  }

  function DeliveredRow(row: Row, now: int): Row {
    Next(row).(status := Delivered, deliveredAt := if row.deliveredAt.Some? then row.deliveredAt else Some(now))
  }

  function UndeliveredRow(row: Row, now: int): Row {
    Next(row).(status := Failed, lastError := Some("dlr_failed"), failedAt := FailedAt(row, now))
  }

  /** What a correlated receipt makes of the tables, by what it says and by the status its row had when it was read. */
  predicate ReceiptSays(before: Db, after: Db, o: OpenedReceipt, row: Row, day: int, now: int) {
    match o.read.normalized
    case HookUnknown => Reconciles(before, after, o, "unknown_status", day)
    case HookDelivered =>
      if row.status == Delivered then Repeats(before, after, o, "duplicate_delivered")
      else if row.status == Failed then Reconciles(before, after, o, "invalid_delivered_transition", day)
      else Concludes(before, after, o, DeliveredRow(row, now))
    case HookFailed =>
      if row.status == Failed then Repeats(before, after, o, "duplicate_failed")
      else if row.status == Delivered then Reconciles(before, after, o, "invalid_failed_transition", day)
      else Concludes(before, after, o, UndeliveredRow(row, now))
  }

  lemma ReconcileWrites(db: Db, o: OpenedReceipt, reason: string, day: int)
    requires o.hook < |db.webhooks|
    ensures Reconciles(db, ReconcileHook(db, o, reason, day), o, reason, day)
  {
    assert HasKey(db.outbox, day, HookKey(o.hook, reason)) <==>
      exists k :: 0 <= k < |db.outbox| && db.outbox[k].day == day && db.outbox[k].key == HookKey(o.hook, reason);
  }

  lemma ReceiptWrites(db: Db, o: OpenedReceipt, snap: Row, day: int, now: int)
    requires o.hook < |db.webhooks| && snap.billing == Debited && RowOk(snap)
    requires snap.status == ProviderAccepted ==> Guard(db, snap) && snap == db.rows[snap.id]
    ensures var r := ReceiptTx(db, o, snap, day, now); r.Ok? && ReceiptSays(db, r.value, o, snap, day, now)
  {
    ReconcileWrites(db, o, "unknown_status", day);
    ReconcileWrites(db, o, "invalid_delivered_transition", day);
    ReconcileWrites(db, o, "invalid_failed_transition", day);
  }

  lemma ReceiptFacts(s: Sys, wallets: map<nat, Wallet>, k: nat)
    requires Reachable(s, wallets) && k < |s.receipts|
    ensures var snap := s.receipts[k].snap;
            && snap.id < |s.db.rows| && RowOk(snap) && snap.billing == Debited
            && (Guard(s.db, snap) <==> snap == s.db.rows[snap.id])
  {
    ReachableInv(s, wallets);
    GuardMeansCurrent(s.db, wallets, s.receipts[k].snap);
  }

  /**
   A receipt for a message the provider had taken delivers or fails it when nobody moved it
   since it was read, and otherwise waits to be processed again; every other receipt is
   closed with its reason and touches no message. No receipt moves money.
   */
  lemma ReceiptOutcome(s: Sys, wallets: map<nat, Wallet>, k: nat, day: int, now: int)
    requires Reachable(s, wallets) && k < |s.receipts| && s.receipts[k].opening.hook < |s.db.webhooks|
    ensures var o, snap, s' := s.receipts[k].opening, s.receipts[k].snap, Step(s, HandleReceipt(k, day, now));
            && snap.id < |s.db.rows|
            && if snap.status == ProviderAccepted && !o.read.normalized.HookUnknown? && snap != s.db.rows[snap.id]
               then s' == s
               else s' == s.(db := s'.db) && ReceiptSays(s.db, s'.db, o, snap, day, now)
  {
    ReceiptFacts(s, wallets, k);
    var o, snap := s.receipts[k].opening, s.receipts[k].snap;
    if snap.status == ProviderAccepted && snap != s.db.rows[snap.id] {
      StaleReceiptWrites(s.db, o, snap, day, now);
    } else {
      ReceiptWrites(s.db, o, snap, day, now);
    }
  }

  lemma StaleReceiptWrites(db: Db, o: OpenedReceipt, snap: Row, day: int, now: int)
    requires o.hook < |db.webhooks| && snap.status == ProviderAccepted && !Guard(db, snap)
    ensures var r := ReceiptTx(db, o, snap, day, now);
            if o.read.normalized.HookUnknown? then r.Ok? && ReceiptSays(db, r.value, o, snap, day, now) else r.Err?
  {
    ReconcileWrites(db, o, "unknown_status", day);
  }

  /** A receipt no message answers to is closed and reported. */
  lemma UnmatchedOutcome(s: Sys, o: nat, day: int)
    requires o < |s.reading| && s.reading[o].hook < |s.db.webhooks|
    ensures var s' := Step(s, ReceiptUnmatched(o, day));
            s' == s.(db := s'.db) && Reconciles(s.db, s'.db, s.reading[o], "message_not_found", day)
  {
    ReconcileWrites(s.db, s.reading[o], "message_not_found", day);
  }

  /** A repeated callback brings its text and status, but neither its provider nor its own progress. */
  lemma RepeatOutcome(s: Sys, w: nat, hook: Webhook)
    requires w < |s.db.webhooks|
    ensures var stored, s' := s.db.webhooks[w], Step(s, RepeatHook(w, hook));
            && s' == s.(db := s.db.(webhooks := s'.db.webhooks))
            && |s'.db.webhooks| == |s.db.webhooks|
            && (forall k :: 0 <= k < |s.db.webhooks| && k != w ==> s'.db.webhooks[k] == s.db.webhooks[k])
            && var after := s'.db.webhooks[w];
            && after.providerId == stored.providerId
            && after.processed == stored.processed && after.processingError == stored.processingError
            && after.tenant == (if stored.tenant.Some? then stored.tenant else hook.tenant)
            && after.providerMessageId
                 == (if hook.providerMessageId.Some? then hook.providerMessageId else stored.providerMessageId)
            && after.normalized == hook.normalized && after.phoneNumber == hook.phoneNumber
            && after.senderId == hook.senderId && after.eventAt == hook.eventAt && after.bodyHash == hook.bodyHash
            && after.campaignId == hook.campaignId && after.routeRuleId == hook.routeRuleId
  {
  }

  /** `after` is a later state of the stored receipt `before`. */
  predicate LaterReceipt(before: Webhook, after: Webhook) {
    && after.providerId == before.providerId
    && (before.processed ==> after.processed)
    && (before.tenant.Some? ==> after.tenant == before.tenant)
    && (before.providerMessageId.Some? ==> after.providerMessageId.Some?)
  }

  predicate LaterReceipts(before: seq<Webhook>, after: seq<Webhook>) {
    |before| <= |after| && forall w :: 0 <= w < |before| ==> LaterReceipt(before[w], after[w])
  }

  lemma ClosedReceipt(before: seq<Webhook>, hook: nat, after: Webhook)
    requires hook < |before| && LaterReceipt(before[hook], after)
    ensures LaterReceipts(before, before[hook := after])
  {
  }

  lemma MarksKeepReceipts(db: Db, hook: nat, tenant: nat, error: Option<string>)
    requires hook < |db.webhooks|
    ensures LaterReceipts(db.webhooks, MarkMatched(db, hook, tenant).webhooks)
    ensures LaterReceipts(db.webhooks, MarkProcessed(db, hook, error).webhooks)
  {
    ClosedReceipt(db.webhooks, hook, MarkMatched(db, hook, tenant).webhooks[hook]);
    ClosedReceipt(db.webhooks, hook, MarkProcessed(db, hook, error).webhooks[hook]);
  }

  lemma WritesKeepReceipts(db: Db, snap: Row, next: Status, fields: Fields, now: int, path: ReleasePath)
    ensures var r := TransitionMessage(db, snap, next, fields, false, now);
            r.Ok? ==>
              && r.value.0.webhooks == db.webhooks
              && var q := ApplyWalletLedger(r.value.0, snap.tenant, snap.price, Release, ReleaseKey(snap.id, path),
                   snap.id);
              q.Ok? ==> q.value.webhooks == db.webhooks
  {
  }

  lemma ReceiptTxKeepsReceipts(db: Db, o: OpenedReceipt, snap: Row, day: int, now: int)
    requires o.hook < |db.webhooks|
    ensures var r := ReceiptTx(db, o, snap, day, now); r.Ok? ==> LaterReceipts(db.webhooks, r.value.webhooks)
  {
    if o.read.normalized.HookFailed? && snap.status in {ProviderAccepted, Submitting} {
      var fields := NO_FIELDS.(lastError := Some(Some("dlr_failed")),
                               billing := Some(if snap.billing == Reserved then Released else snap.billing));
      WritesKeepReceipts(db, snap, Failed, fields, now, DlrPath);
      var failed := TransitionMessage(db, snap, Failed, fields, false, now);
      if failed.Ok? {
        MarksKeepReceipts(failed.value.0, o.hook, snap.tenant, None);
        var settled := ApplyWalletLedger(failed.value.0, snap.tenant, snap.price, Release, ReleaseKey(snap.id, DlrPath),
          snap.id);
        if settled.Ok? {
          MarksKeepReceipts(settled.value, o.hook, snap.tenant, None);
        }
      }
    } else if o.read.normalized.HookDelivered? && snap.status == ProviderAccepted {
      WritesKeepReceipts(db, snap, Delivered, NO_FIELDS, now, DlrPath);
      var delivered := TransitionMessage(db, snap, Delivered, NO_FIELDS, false, now);
      if delivered.Ok? {
        MarksKeepReceipts(delivered.value.0, o.hook, snap.tenant, None);
      }
    } else {
      ReasonsKeepReceipts(db, o, snap, day, now);
    }
  }

  lemma ReasonsKeepReceipts(db: Db, o: OpenedReceipt, snap: Row, day: int, now: int)
    requires o.hook < |db.webhooks|
    requires o.read.normalized.HookFailed? ==> snap.status !in {ProviderAccepted, Submitting}
    requires o.read.normalized.HookDelivered? ==> snap.status != ProviderAccepted
    ensures var r := ReceiptTx(db, o, snap, day, now); r.Ok? && LaterReceipts(db.webhooks, r.value.webhooks)
  {
    forall error: Option<string>
      ensures LaterReceipts(db.webhooks, MarkProcessed(db, o.hook, error).webhooks)
    {
      MarksKeepReceipts(db, o.hook, 0, error);
    }
  }

  lemma MovementKeepsReceipts(db: Db, tenant: nat, amount: int, operation: BillingOperation, key: LedgerKey, m: nat)
    ensures var r := ApplyWalletLedger(db, tenant, amount, operation, key, m); r.Ok? ==>
              r.value.webhooks == db.webhooks
  {
  }

  lemma SubmitKeepsReceipts(db: Db, s: Submission, day: int)
    ensures SubmitTx(db, s, day).Ok? ==> SubmitTx(db, s, day).value.webhooks == db.webhooks
  {
  }

  lemma DispatchesKeepReceipts(db: Db, event: Event, snap: Row, reason: string, day: int, now: int)
    ensures BlockTx(db, snap, reason, now).Ok? ==> BlockTx(db, snap, reason, now).value.webhooks == db.webhooks
    ensures ThrottleTx(db, event, snap, day).Ok? ==> ThrottleTx(db, event, snap, day).value.webhooks == db.webhooks
    ensures BeginSubmitTx(db, snap, now).Ok? ==> BeginSubmitTx(db, snap, now).value.0.webhooks == db.webhooks
  {
  }

  lemma ResultsKeepReceipts(
    db: Db, event: Event, snap: Row, policy: RetryPolicy, next: Option<Route>, day: int, now: int)
    ensures var r := ResultTx(db, event, snap, policy, next, day, now); r.Ok? ==> r.value.webhooks == db.webhooks
  {
    if event.accepted {
      var sent := TransitionMessage(db, snap, ProviderAccepted, AcceptedFields(event), false, now);
      if sent.Ok? {
        MovementKeepsReceipts(sent.value.0, snap.tenant, snap.price, Debit, DebitKey(snap.id), snap.id);
      }
    }
  }

  lemma TransactionsKeepReceipts(s: Sys, a: Action)
    requires a.Submit? || a.RouteAccepted? || a.Dispatch? || a.HandleResult?
    ensures Step(s, a).db.webhooks == s.db.webhooks
  {
    match a {
      case Submit(submission, day) => SubmitKeepsReceipts(s.db, submission, day);
      case RouteAccepted(_, _, _, _) =>
      case Dispatch(i, verdict, day, now) =>
        if HoldsDispatch(s, i) {
          DispatchesKeepReceipts(s.db, s.deliveries[i].event, s.deliveries[i].phase.snap,
            if verdict.Block? then verdict.reason else "", day, now);
        }
      case HandleResult(i, policy, next, day, now) =>
        if Holds(s, i, ResultTopic) {
          ResultsKeepReceipts(s.db, s.deliveries[i].event, s.deliveries[i].phase.snap, policy, next, day, now);
        }
    }
  }

  lemma HandlersKeepReceipts(s: Sys, a: Action)
    requires !a.HandleReceipt? && !a.ReceiveHook? && !a.RepeatHook? && !a.ReceiptUnmatched?
    ensures Step(s, a).db.webhooks == s.db.webhooks
  {
    if a.Submit? || a.RouteAccepted? || a.Dispatch? || a.HandleResult? {
      TransactionsKeepReceipts(s, a);
    }
  }

  lemma StepKeepsReceipts(s: Sys, a: Action)
    ensures LaterReceipts(s.db.webhooks, Step(s, a).db.webhooks)
  {
    if a.HandleReceipt? {
      if a.k < |s.receipts| && s.receipts[a.k].opening.hook < |s.db.webhooks| {
        ReceiptTxKeepsReceipts(s.db, s.receipts[a.k].opening, s.receipts[a.k].snap, a.day, a.now);
      }
    } else if !a.ReceiveHook? && !a.RepeatHook? && !a.ReceiptUnmatched? {
      HandlersKeepReceipts(s, a);
    }
  }

  /** In every run a processed receipt stays processed, and a receipt keeps its provider and, once known, its tenant. */
  lemma {:induction false} ReceiptsStayProcessed(s: Sys, actions: seq<Action>)
    ensures LaterReceipts(s.db.webhooks, Run(s, actions).db.webhooks)
  {
    if actions != [] {
      var init := actions[..|actions| - 1];
      ReceiptsStayProcessed(s, init);
      StepKeepsReceipts(Run(s, init), actions[|actions| - 1]);
      var a, b, c := s.db.webhooks, Run(s, init).db.webhooks, Run(s, actions).db.webhooks;
      forall w | 0 <= w < |a|
        ensures LaterReceipt(a[w], c[w])
      {
        assert LaterReceipt(a[w], b[w]) && LaterReceipt(b[w], c[w]);
      }
    }
  }
}
