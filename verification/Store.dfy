/**
 The tables behind the message pipeline as one value, and each database
 transaction as a function from tables to tables or to the error that rolls it
 back. `Services.dfy` carries out the same transactions on mutable tables.
 */
module Store {
  import opened Wrappers
  import opened Messages

  datatype TxError =
    | VersionConflict
    | InvalidTransition
    | WalletNotFound
    | InsufficientBalance
    | ReservedInsufficient(operation: BillingOperation)

  datatype Tx<+T> = Ok(value: T) | Err(error: TxError) {
    predicate IsFailure() {
      Err?
    }

    function PropagateFailure<U>(): Tx<U>
      requires Err?
    {
      Err(error)
    }

    function Extract(): T
      requires Ok?
    {
      value
    }
  }

  /**
   The database. A message's row sits at the index of its id; `history` holds
   every version of every row ever committed, by (id, version).
   */
  datatype Db = Db(
    rows: seq<Row>,
    history: map<(nat, nat), Row>,
    wallets: map<nat, Wallet>,
    ledger: seq<LedgerEntry>,
    outbox: seq<OutboxRow>,
    webhooks: seq<Webhook>)

  // ----- outbox -----

  predicate HasKey(outbox: seq<OutboxRow>, day: int, key: DedupeKey) {
    exists k :: 0 <= k < |outbox| && outbox[k].day == day && outbox[k].key == key
  }

  /** Insert unless the same key was already inserted on the same day. */
  function Enqueue(db: Db, day: int, key: DedupeKey, event: Event): Db {
    if HasKey(db.outbox, day, key) then db
    else db.(outbox := db.outbox + [OutboxRow(day, key, event)])
  }

  // ----- message rows -----

  /** The WHERE clause of every message update. */
  predicate Guard(db: Db, snap: Row) {
    && snap.id < |db.rows|
    && var row := db.rows[snap.id];
    && row.submitDate == snap.submitDate
    && row.tenant == snap.tenant
    && row.status == snap.status
    && row.version == snap.version
  }

  function WriteRow(db: Db, id: nat, row: Row): Db
    requires id < |db.rows|
  {
    db.(rows := db.rows[id := row], history := db.history[(id, row.version) := row])
  }

  /** The row a guarded update leaves when it matches; always one version on. */
  function Patched(row: Row, fields: Fields): Row {
    Assign(row, fields).(version := row.version + 1)
  }

  function Coalesce(value: Option<int>, now: int): Option<int> {
    if value.Some? then value else Some(now)
  }

  function Transitioned(row: Row, next: Status, fields: Fields, incrementAttempt: bool, now: int): Row {
    var base := Patched(row, fields);
    base.(status := next,
          attempts := if incrementAttempt then row.attempts + 1 else base.attempts,
          billing := if next == ProviderAccepted then Debited else base.billing,
          sentAt := if next == ProviderAccepted then Coalesce(row.sentAt, now) else row.sentAt,
          deliveredAt := if next == Delivered then Coalesce(row.deliveredAt, now) else row.deliveredAt,
          failedAt := if next == Failed then Coalesce(row.failedAt, now) else row.failedAt)
  }

  function PatchMessage(db: Db, snap: Row, fields: Fields): (r: Tx<(Db, Row)>)
    ensures r.Ok? ==> snap.id < |db.rows| == |r.value.0.rows|
  {
    if !Guard(db, snap) then Err(VersionConflict)
    else
      var row := Patched(db.rows[snap.id], fields);
      Ok((WriteRow(db, snap.id, row), row))
  }

  function TransitionMessage(
    db: Db, snap: Row, next: Status, fields: Fields, incrementAttempt: bool, now: int): (r: Tx<(Db, Row)>)
    ensures r.Ok? ==> snap.id < |db.rows| == |r.value.0.rows|
  {
    if next !in AllowedTransitions(snap.status) then Err(InvalidTransition)
    else if !Guard(db, snap) then Err(VersionConflict)
    else
      var row := Transitioned(db.rows[snap.id], next, fields, incrementAttempt, now);
      Ok((WriteRow(db, snap.id, row), row))
  }

  // ----- wallet and ledger -----

  predicate LedgerExists(ledger: seq<LedgerEntry>, tenant: nat, key: LedgerKey) {
    exists k :: 0 <= k < |ledger| && ledger[k].tenant == tenant && ledger[k].key == key
  }

  function AfterOperation(wallet: Wallet, operation: BillingOperation, amount: int): Tx<Wallet> {
    match operation
    case Reserve =>
      if wallet.available + wallet.creditLimit < amount then Err(InsufficientBalance)
      else Ok(wallet.(available := wallet.available - amount, reserved := wallet.reserved + amount))
    case Debit =>
      if wallet.reserved < amount then Err(ReservedInsufficient(Debit))
      else Ok(wallet.(reserved := wallet.reserved - amount))
    case Release =>
      if wallet.reserved < amount then Err(ReservedInsufficient(Release))
      else Ok(wallet.(available := wallet.available + amount, reserved := wallet.reserved - amount))
  }

  function EntryFor(
    before: Wallet, after: Wallet, tenant: nat, amount: int, operation: BillingOperation, key: LedgerKey,
    msg: nat): LedgerEntry {
    if operation == Reserve then
      LedgerEntry(tenant, msg, operation, amount, before.available, after.available, key)
    else
      LedgerEntry(tenant, msg, operation, amount, before.reserved, after.reserved, key)
  }

  function ApplyWalletLedger(
    db: Db, tenant: nat, amount: int, operation: BillingOperation, key: LedgerKey, msg: nat): (r: Tx<Db>)
    ensures r.Ok? ==> r.value == db.(wallets := r.value.wallets, ledger := r.value.ledger)
  {
    if amount <= 0 then Ok(db)
    else if LedgerExists(db.ledger, tenant, key) then Ok(db)
    else if tenant !in db.wallets then Err(WalletNotFound)
    else
      var after :- AfterOperation(db.wallets[tenant], operation, amount);
      var entry := EntryFor(db.wallets[tenant], after, tenant, amount, operation, key, msg);
      Ok(db.(wallets := db.wallets[tenant := after], ledger := db.ledger + [entry]))
  }

  // ----- submission -----

  /** The parts of a submission that reach the tables. */
  datatype Submission = Submission(submitDate: int, tenant: nat, content: Content, price: int, parts: nat, route: Route)

  function NewRow(id: nat, s: Submission): Row {
    Row(id, s.submitDate, s.tenant, s.content, s.price, s.parts, Accepted, 0, 0, Reserved,
        Some(s.route.providerId), s.route.smppConfigId, s.route.ruleId, None, s.route.unitCost * s.parts,
        None, None, None, None)
  }

  predicate NonEmpty(key: Option<string>) {
    key.Some? && key.value != ""
  }

  /** The row answers the submission's client key, by either column. */
  predicate HasClientKey(row: Row, s: Submission) {
    && row.submitDate == s.submitDate && row.tenant == s.tenant
    && ((s.content.idempotencyKey.Some? && row.content.idempotencyKey == s.content.idempotencyKey)
        || (s.content.clientMessageId.Some? && row.content.clientMessageId == s.content.clientMessageId))
  }

  /** A message with one of the submission's client keys was taken earlier the same day. */
  predicate IsRepeated(db: Db, s: Submission) {
    && (NonEmpty(s.content.idempotencyKey) || NonEmpty(s.content.clientMessageId))
    && exists m :: 0 <= m < |db.rows| && HasClientKey(db.rows[m], s)
  }

  /** A repeated submission is answered with the message already there. */
  function SubmitTx(db: Db, s: Submission, day: int): Tx<Db> {
    if IsRepeated(db, s) then Ok(db) else InsertTx(db, s, day)
  }

  function InsertTx(db: Db, s: Submission, day: int): Tx<Db> {
    var row := NewRow(|db.rows|, s);
    var inserted := db.(rows := db.rows + [row], history := db.history[(row.id, 0) := row]);
    var reserved :- ApplyWalletLedger(inserted, s.tenant, s.price, Reserve, ReserveKey(row.id), row.id);
    Ok(Enqueue(reserved, day, AcceptedKey(row.id),
               Event(AcceptedTopic, row.id, 0, Some(s.route.providerId), s.route.smppConfigId, None, None, None, false,
                 false, None)))
  }

  // ----- workflow transactions -----

  const BLOCKED_FIELDS := NO_FIELDS.(lastError := Some(Some("fraud_blocked")), billing := Some(Released))

  function AcceptedFields(event: Event): Fields {
    NO_FIELDS.(providerMessageId := Some(event.providerMessageId), lastError := Some(None))
  }

  function FailedFields(event: Event): Fields {
    NO_FIELDS.(lastError := Some(Some(event.errorCode.GetOr("dispatch_failed"))), billing := Some(Released))
  }

  function RouteTx(db: Db, event: Event, snap: Row, route: Route, day: int, now: int): Tx<Db> {
    var (routed, row) :- TransitionMessage(db, snap, Routed,
                                           NO_FIELDS.(providerId := Some(Some(route.providerId)),
                                                      smppConfigId := Some(route.smppConfigId),
                                                      routeRuleId := Some(route.ruleId),
                                                      cost := Some(route.unitCost * snap.parts),
                                                      lastError := Some(None)), false, now);
    Ok(Enqueue(routed, day, DispatchKey(snap.id, row.version),
               event.(topic := DispatchTopic(snap.content.marketing), version := row.version,
                      providerId := Some(route.providerId), smppConfigId := route.smppConfigId,
                      routeRuleId := route.ruleId, protocol := Some(route.protocol))))
  }

  /** No guard and no row update: the version in the key is whatever the handler had read. */
  function RetryDispatchTx(db: Db, event: Event, snap: Row, day: int): Db {
    Enqueue(db, day, RetryDispatchKey(snap.id, snap.version),
            event.(topic := DispatchTopic(snap.content.marketing), version := snap.version,
                   providerId := snap.providerId, smppConfigId := snap.smppConfigId))
  }

  /** Fraud block: fail the message and release its reservation in one transaction. */
  function BlockTx(db: Db, snap: Row, reason: string, now: int): Tx<Db> {
    var (first, submitting) :- if snap.status == Routed
                               then TransitionMessage(db, snap, Submitting, NO_FIELDS, true, now)
                               else PatchMessage(db, snap, NO_FIELDS);
    var (failed, row) :- TransitionMessage(first, submitting, Failed, BLOCKED_FIELDS, false, now);
    ApplyWalletLedger(failed, snap.tenant, snap.price, Release, ReleaseKey(snap.id, FraudPath), snap.id)
  }

  function ThrottleTx(db: Db, event: Event, snap: Row, day: int): Tx<Db> {
    var (patched, row) :- PatchMessage(db, snap, NO_FIELDS.(lastError := Some(Some("fraud_throttled"))));
    Ok(Enqueue(patched, day, ThrottleKey(snap.id, row.version), event.(topic := RetryTopic, version := row.version)))
  }

  /** Count the attempt before calling the provider. */
  function BeginSubmitTx(db: Db, snap: Row, now: int): Tx<(Db, Row)> {
    if snap.status == Routed
    then TransitionMessage(db, snap, Submitting, NO_FIELDS, true, now)
    else PatchMessage(db, snap, NO_FIELDS.(attempts := Some(snap.attempts + 1)))
  }

  /** What the provider call reported, or what the catch block put in its place. */
  datatype Outcome = Outcome(
    protocol: Protocol,
    accepted: bool,
    uncertain: bool,
    providerMessageId: Option<string>,
    errorCode: Option<string>)

  function ReportTx(db: Db, event: Event, snap: Row, submittingVersion: nat, outcome: Outcome, day: int): Db {
    Enqueue(db, day, ResultKey(snap.id, submittingVersion),
            event.(topic := ResultTopic, version := submittingVersion, accepted := outcome.accepted,
                   uncertain := outcome.uncertain, providerMessageId := outcome.providerMessageId,
                   errorCode := outcome.errorCode, protocol := Some(outcome.protocol)))
  }

  function AcceptedResultTx(db: Db, event: Event, snap: Row, now: int): Tx<Db> {
    var (sent, row) :- TransitionMessage(db, snap, ProviderAccepted, AcceptedFields(event), false, now);
    ApplyWalletLedger(sent, snap.tenant, snap.price, Debit, DebitKey(snap.id), snap.id)
  }

  function UncertainResultTx(db: Db, event: Event, snap: Row, day: int): Tx<Db> {
    var (patched, row) :-
      PatchMessage(db, snap, NO_FIELDS.(lastError := Some(Some(event.errorCode.GetOr("unknown_submit_outcome")))));
    Ok(Enqueue(patched, day, UncertainKey(snap.id, row.version), event.(topic := ReconcileTopic)))
  }

  datatype RetryPolicy = RetryPolicy(maxAttempts: int, retryOnErrors: set<string>)

  predicate ShouldRetry(event: Event, snap: Row, policy: RetryPolicy) {
    && event.errorCode.Some? && event.errorCode.value != ""
    && event.errorCode.value in policy.retryOnErrors
    && snap.attempts < policy.maxAttempts
  }

  /** Reroute to the freshly selected route, column by column falling back to the current one. */
  function RetryFields(event: Event, snap: Row, next: Option<Route>): Fields {
    match next
    case Some(route) =>
      NO_FIELDS.(providerId := Some(Some(route.providerId)),
                 smppConfigId := Some(if route.smppConfigId.Some? then route.smppConfigId else snap.smppConfigId),
                 routeRuleId := Some(if route.ruleId.Some? then route.ruleId else snap.routeRuleId),
                 cost := Some(route.unitCost * snap.parts),
                 lastError := Some(event.errorCode))
    case None =>
      NO_FIELDS.(providerId := Some(snap.providerId), smppConfigId := Some(snap.smppConfigId),
                 routeRuleId := Some(snap.routeRuleId), lastError := Some(event.errorCode))
  }

  function RetryResultTx(db: Db, event: Event, snap: Row, next: Option<Route>, day: int): Tx<Db> {
    var (patched, row) :- PatchMessage(db, snap, RetryFields(event, snap, next));
    Ok(Enqueue(patched, day, RetryKey(snap.id, row.version),
               event.(topic := RetryTopic, version := row.version, accepted := false,
                      providerId := row.providerId, smppConfigId := row.smppConfigId, routeRuleId := row.routeRuleId,
                      protocol := if next.Some? then Some(next.value.protocol) else event.protocol)))
  }

  function FailedResultTx(db: Db, event: Event, snap: Row, now: int): Tx<Db> {
    var (failed, row) :- TransitionMessage(db, snap, Failed, FailedFields(event), false, now);
    ApplyWalletLedger(failed, snap.tenant, snap.price, Release, ReleaseKey(snap.id, FinalPath), snap.id)
  }

  /** The branches of `handleDispatchResult`, in their order. */
  function ResultTx(
    db: Db, event: Event, snap: Row, policy: RetryPolicy, next: Option<Route>, day: int, now: int): Tx<Db> {
    if event.accepted then AcceptedResultTx(db, event, snap, now)
    else if event.uncertain then UncertainResultTx(db, event, snap, day)
    else if ShouldRetry(event, snap, policy) then RetryResultTx(db, event, snap, next, day)
    else FailedResultTx(db, event, snap, now)
  }

  // ----- delivery receipts -----

  function MarkProcessed(db: Db, hook: nat, error: Option<string>): Db
    requires hook < |db.webhooks|
  {
    db.(webhooks := db.webhooks[hook := db.webhooks[hook].(processed := true, processingError := error)])
  }

  /** The two updates inside a transition transaction keep the recorded error and fill in the tenant. */
  function MarkMatched(db: Db, hook: nat, tenant: nat): Db
    requires hook < |db.webhooks|
  {
    var before := db.webhooks[hook];
    db.(webhooks := db.webhooks[hook := before.(processed := true, tenant := if before.tenant.Some? then before.tenant
      else Some(tenant))])
  }

  /** A receipt as its processor read it; the stored one may have been overwritten since. */
  datatype OpenedReceipt = OpenedReceipt(hook: nat, read: Webhook)

  function ReconcileEvent(providerId: nat, reason: string): Event {
    Event(ReconcileTopic, 0, 0, Some(providerId), None, None, None, None, false, false, Some(reason))
  }

  function ReconcileHook(db: Db, o: OpenedReceipt, reason: string, day: int): Db
    requires o.hook < |db.webhooks|
  {
    var queued := Enqueue(db, day, HookKey(o.hook, reason), ReconcileEvent(o.read.providerId, reason));
    MarkProcessed(queued, o.hook, Some(reason))
  }

  /** A repeated callback: the newer text and status replace the stored ones, processed or not. */
  function Overwritten(stored: Webhook, repeated: Webhook): Webhook {
    repeated.(
      providerId := stored.providerId,
      tenant := if stored.tenant.Some? then stored.tenant else repeated.tenant,
      providerMessageId := if repeated.providerMessageId.Some? then repeated.providerMessageId
        else stored.providerMessageId,
      processed := stored.processed,
      processingError := stored.processingError)
  }

  /** Everything `processWebhook` does once it has correlated the receipt with the row `snap`. */
  function ReceiptTx(db: Db, o: OpenedReceipt, snap: Row, day: int, now: int): Tx<Db>
    requires o.hook < |db.webhooks|
  {
    match o.read.normalized
    case HookUnknown => Ok(ReconcileHook(db, o, "unknown_status", day))
    case HookDelivered =>
      if snap.status == Delivered then Ok(MarkProcessed(db, o.hook, Some("duplicate_delivered")))
      else if snap.status != ProviderAccepted then Ok(ReconcileHook(db, o, "invalid_delivered_transition", day))
      else
        var (delivered, row) :- TransitionMessage(db, snap, Delivered, NO_FIELDS, false, now);
        Ok(MarkMatched(delivered, o.hook, snap.tenant))
    case HookFailed =>
      if snap.status == Failed then Ok(MarkProcessed(db, o.hook, Some("duplicate_failed")))
      else if snap.status !in {ProviderAccepted, Submitting}
        then Ok(ReconcileHook(db, o, "invalid_failed_transition", day))
      else
        var (failed, row) :- TransitionMessage(db, snap, Failed,
                                               NO_FIELDS.(lastError := Some(Some("dlr_failed")),
                                                          billing := Some(if snap.billing == Reserved then Released
                                                            else snap.billing)),
                                               false, now);
        var settled :- if snap.billing == Reserved
                       then ApplyWalletLedger(failed, snap.tenant, snap.price, Release, ReleaseKey(snap.id, DlrPath),
                         snap.id)
                       else Ok(failed);
        Ok(MarkMatched(settled, o.hook, snap.tenant))
  }
}
