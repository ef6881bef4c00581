/**
 The services that carry out the transactions of `Store` on mutable tables, the
 way the handlers do: statement by statement, rolling every table back when a
 statement throws.
 */
module Services {
  import opened Wrappers
  import opened Messages
  import opened Store
  import opened Protocol

  /** The tables, and the saved copy a transaction rolls back to. */
  class Database {
    var rows: seq<Row>
    ghost var history: map<(nat, nat), Row>
    var wallets: map<nat, Wallet>
    var ledger: seq<LedgerEntry>
    var outbox: seq<OutboxRow>
    var webhooks: seq<Webhook>

    ghost function State(): Db
      reads this
    {
      Db(rows, history, wallets, ledger, outbox, webhooks)
    }

    constructor (initial: map<nat, Wallet>)
      ensures State() == Start(initial).db
    {
      rows, wallets, ledger, outbox, webhooks := [], initial, [], [], [];
      history := map[];
    }

    method Rollback(saved: Tables, ghost savedHistory: map<(nat, nat), Row>)
      modifies this
      ensures State() == Db(saved.rows, savedHistory, saved.wallets, saved.ledger, saved.outbox, saved.webhooks)
    {
      rows, wallets, ledger := saved.rows, saved.wallets, saved.ledger;
      outbox, webhooks := saved.outbox, saved.webhooks;
      history := savedHistory;
    }

    /** What BEGIN remembers. */
    function Snapshot(): Tables
      reads this
    {
      Tables(rows, wallets, ledger, outbox, webhooks)
    }
  }

  datatype Tables = Tables(
    rows: seq<Row>,
    wallets: map<nat, Wallet>,
    ledger: seq<LedgerEntry>,
    outbox: seq<OutboxRow>,
    webhooks: seq<Webhook>)

  /** A transaction either leaves what its specification says or leaves nothing. */
  ghost predicate Commits(before: Db, spec: Tx<Db>, after: Db, failure: Option<TxError>) {
    match spec
    case Ok(db) => failure == None && after == db
    case Err(e) => failure == Some(e) && after == before
  }

  class OutboxService {
    const db: Database

    constructor (db: Database)
      ensures this.db == db
    {
      this.db := db;
    }

    method Enqueue(day: int, key: DedupeKey, event: Event)
      modifies db
      ensures db.State() == Store.Enqueue(old(db.State()), day, key, event)
    {
      if !HasKey(db.outbox, day, key) {
        db.outbox := db.outbox + [OutboxRow(day, key, event)];
      }
    }
  }

  class MessagesService {
    const db: Database
    const outboxService: OutboxService

    constructor (db: Database, outboxService: OutboxService)
      requires outboxService.db == db
      ensures this.db == db && this.outboxService == outboxService
    {
      this.db, this.outboxService := db, outboxService;
    }

    /** None stands for the exception thrown when no row has all three. */
    method GetMessageRow(ref: MessageRef) returns (row: Option<Row>)
      ensures row.Some? <==>
           ref.id < |db.rows| && db.rows[ref.id].submitDate == ref.submitDate && db.rows[ref.id].tenant == ref.tenant
      ensures row.Some? ==> row.value == db.rows[ref.id]
    {
      row := None;
      if ref.id < |db.rows| {
        var found := db.rows[ref.id];
        if found.submitDate == ref.submitDate && found.tenant == ref.tenant {
          row := Some(found);
        }
      }
    }

    method PatchMessage(message: Row, fields: Fields) returns (r: Tx<Row>)
      modifies db
      ensures match Store.PatchMessage(old(db.State()), message, fields)
              case Ok(p) => r == Ok(p.1) && db.State() == p.0
              case Err(e) => r == Err(e) && db.State() == old(db.State())
    {
      if message.id >= |db.rows| {
        return Err(VersionConflict);
      }
      var current := db.rows[message.id];
      if current.submitDate != message.submitDate || current.tenant != message.tenant
         || current.status != message.status || current.version != message.version {
        return Err(VersionConflict);
      }
      var updated := Assign(current, fields);
      updated := updated.(version := current.version + 1);
      db.rows := db.rows[message.id := updated];
      db.history := db.history[(message.id, updated.version) := updated];
      return Ok(updated);
    }

    method TransitionMessage(
      message: Row, next: Status, fields: Fields, incrementAttempt: bool, now: int) returns (r: Tx<Row>)
      modifies db
      ensures match Store.TransitionMessage(old(db.State()), message, next, fields, incrementAttempt, now)
              case Ok(p) => r == Ok(p.1) && db.State() == p.0
              case Err(e) => r == Err(e) && db.State() == old(db.State())
    {
      if next !in AllowedTransitions(message.status) {
        return Err(InvalidTransition);
      }
      if message.id >= |db.rows| {
        return Err(VersionConflict);
      }
      var current := db.rows[message.id];
      if current.submitDate != message.submitDate || current.tenant != message.tenant
         || current.status != message.status || current.version != message.version {
        return Err(VersionConflict);
      }
      var updated := Assign(current, fields);
      updated := updated.(status := next, version := current.version + 1);
      if incrementAttempt {
        updated := updated.(attempts := current.attempts + 1);
      }
      if next == ProviderAccepted {
        updated := updated.(sentAt := Coalesce(current.sentAt, now), billing := Debited);
      }
      if next == Delivered {
        updated := updated.(deliveredAt := Coalesce(current.deliveredAt, now));
      }
      if next == Failed {
        updated := updated.(failedAt := Coalesce(current.failedAt, now));
      }
      db.rows := db.rows[message.id := updated];
      db.history := db.history[(message.id, updated.version) := updated];
      return Ok(updated);
    }

    /** Answers whether money moved: not for a free message, and not twice under one key. */
    method ApplyWalletLedger(
      tenant: nat, amount: int, operation: BillingOperation, key: LedgerKey, msg: nat) returns (r: Tx<bool>)
      modifies db
      ensures match Store.ApplyWalletLedger(old(db.State()), tenant, amount, operation, key, msg)
              case Ok(after) =>
                && db.State() == after
                && r == Ok(amount > 0 && !LedgerExists(old(db.ledger), tenant, key))
              case Err(e) => r == Err(e) && db.State() == old(db.State())
    {
      if amount <= 0 {
        return Ok(false);
      }
      if LedgerExists(db.ledger, tenant, key) {
        return Ok(false);
      }
      if tenant !in db.wallets {
        return Err(WalletNotFound);
      }
      var wallet := db.wallets[tenant];
      var availableAfter, reservedAfter := wallet.available, wallet.reserved;
      if operation == Reserve {
        if wallet.available + wallet.creditLimit < amount {
          return Err(InsufficientBalance);
        }
        availableAfter := availableAfter - amount;
        reservedAfter := reservedAfter + amount;
      }
      if operation == Debit {
        if wallet.reserved < amount {
          return Err(ReservedInsufficient(Debit));
        }
        reservedAfter := wallet.reserved - amount;
      }
      if operation == Release {
        if wallet.reserved < amount {
          return Err(ReservedInsufficient(Release));
        }
        availableAfter := availableAfter + amount;
        reservedAfter := wallet.reserved - amount;
      }
      db.wallets := db.wallets[tenant := wallet.(available := availableAfter, reserved := reservedAfter)];
      var balanceBefore := if operation == Reserve then wallet.available else wallet.reserved;
      var balanceAfter := if operation == Reserve then availableAfter else reservedAfter;
      db.ledger := db.ledger + [LedgerEntry(tenant, msg, operation, amount, balanceBefore, balanceAfter, key)];
      return Ok(true);
    }

    /** The lookup that makes a submission with a known client key a repeat. */
    method FindByClientKey(s: Submission) returns (m: Option<nat>)
      ensures m.Some? ==> m.value < |db.rows| && HasClientKey(db.rows[m.value], s)
      ensures m.None? ==> forall k :: 0 <= k < |db.rows| ==> !HasClientKey(db.rows[k], s)
    {
      for k := 0 to |db.rows|
        invariant forall j :: 0 <= j < k ==> !HasClientKey(db.rows[j], s)
      {
        if HasClientKey(db.rows[k], s) {
          return Some(k);
        }
      }
      m := None;
    }

    /**
     The submission transaction: a known client key changes nothing; otherwise insert,
     reserve, queue; an unaffordable message leaves no trace.
     */
    method Submit(s: Submission, day: int) returns (failure: Option<TxError>)
      requires outboxService.db == db
      modifies db
      ensures Commits(old(db.State()), SubmitTx(old(db.State()), s, day), db.State(), failure)
    {
      var saved := db.Snapshot();
      ghost var savedHistory := db.history;
      if NonEmpty(s.content.idempotencyKey) || NonEmpty(s.content.clientMessageId) {
        var existing := FindByClientKey(s);
        if existing.Some? {
          return None;
        }
      }
      var id := |db.rows|;
      var row := NewRow(id, s);
      db.rows := db.rows + [row];
      db.history := db.history[(id, 0) := row];
      var reserved := ApplyWalletLedger(s.tenant, s.price, Reserve, ReserveKey(id), id);
      if reserved.Err? {
        db.Rollback(saved, savedHistory);
        return Some(reserved.error);
      }
      outboxService.Enqueue(day, AcceptedKey(id),
                            Event(AcceptedTopic, id, 0, Some(s.route.providerId), s.route.smppConfigId, None, None,
                              None, false, false, None));
      return None;
    }
  }

  class MessageWorkflow {
    const db: Database
    const outboxService: OutboxService
    const messagesService: MessagesService

    constructor (db: Database, outboxService: OutboxService, messagesService: MessagesService)
      requires outboxService.db == db && messagesService.db == db
      ensures this.db == db && this.outboxService == outboxService && this.messagesService == messagesService
    {
      this.db, this.outboxService, this.messagesService := db, outboxService, messagesService;
    }

    ghost predicate Wired()
    {
      outboxService.db == db && messagesService.db == db
    }

    method Route(event: Event, message: Row, route: Route, day: int, now: int) returns (failure: Option<TxError>)
      requires Wired()
      modifies db
      ensures Commits(old(db.State()), RouteTx(old(db.State()), event, message, route, day, now), db.State(), failure)
    {
      var updated := messagesService.TransitionMessage(message, Routed,
                                                       NO_FIELDS.(providerId := Some(Some(route.providerId)),
                                                                  smppConfigId := Some(route.smppConfigId),
                                                                  routeRuleId := Some(route.ruleId),
                                                                  cost := Some(route.unitCost * message.parts),
                                                                  lastError := Some(None)), false, now);
      if updated.Err? {
        return Some(updated.error);
      }
      outboxService.Enqueue(day, DispatchKey(message.id, updated.value.version),
                            event.(topic := DispatchTopic(message.content.marketing), version := updated.value.version,
                                   providerId := Some(route.providerId), smppConfigId := route.smppConfigId,
                                   routeRuleId := route.ruleId, protocol := Some(route.protocol)));
      return None;
    }

    method Block(message: Row, reason: string, now: int) returns (failure: Option<TxError>)
      requires Wired()
      modifies db
      ensures Commits(old(db.State()), BlockTx(old(db.State()), message, reason, now), db.State(), failure)
    {
      var saved := db.Snapshot();
      ghost var savedHistory := db.history;
      var submitting;
      if message.status == Routed {
        submitting := messagesService.TransitionMessage(message, Submitting, NO_FIELDS, true, now);
      } else {
        submitting := messagesService.PatchMessage(message, NO_FIELDS);
      }
      if submitting.Err? {
        return Some(submitting.error);
      }
      var updated := messagesService.TransitionMessage(submitting.value, Failed, BLOCKED_FIELDS, false, now);
      if updated.Err? {
        db.Rollback(saved, savedHistory);
        return Some(updated.error);
      }
      var released := messagesService.ApplyWalletLedger(message.tenant, message.price, Release,
        ReleaseKey(message.id, FraudPath), message.id);
      if released.Err? {
        db.Rollback(saved, savedHistory);
        return Some(released.error);
      }
      return None;
    }

    method Throttle(event: Event, message: Row, day: int) returns (failure: Option<TxError>)
      requires Wired()
      modifies db
      ensures Commits(old(db.State()), ThrottleTx(old(db.State()), event, message, day), db.State(), failure)
    {
      var updated := messagesService.PatchMessage(message, NO_FIELDS.(lastError := Some(Some("fraud_throttled"))));
      if updated.Err? {
        return Some(updated.error);
      }
      outboxService.Enqueue(day, ThrottleKey(message.id, updated.value.version),
                            event.(topic := RetryTopic, version := updated.value.version));
      return None;
    }

    /** The attempt is counted and its version kept before the provider is called. */
    method BeginSubmit(message: Row, now: int) returns (r: Tx<nat>)
      requires Wired()
      modifies db
      ensures match BeginSubmitTx(old(db.State()), message, now)
              case Ok(p) => r == Ok(p.1.version) && db.State() == p.0
              case Err(e) => r == Err(e) && db.State() == old(db.State())
    {
      var updated;
      if message.status == Routed {
        updated := messagesService.TransitionMessage(message, Submitting, NO_FIELDS, true, now);
      } else {
        updated := messagesService.PatchMessage(message, NO_FIELDS.(attempts := Some(message.attempts + 1)));
      }
      if updated.Err? {
        return Err(updated.error);
      }
      return Ok(updated.value.version);
    }

    method Report(event: Event, message: Row, submittingVersion: nat, outcome: Outcome, day: int)
      requires Wired()
      modifies db
      ensures db.State() == ReportTx(old(db.State()), event, message, submittingVersion, outcome, day)
    {
      outboxService.Enqueue(day, ResultKey(message.id, submittingVersion),
                            event.(topic := ResultTopic, version := submittingVersion, accepted := outcome.accepted,
                                   uncertain := outcome.uncertain, providerMessageId := outcome.providerMessageId,
                                   errorCode := outcome.errorCode, protocol := Some(outcome.protocol)));
    }

    method AcceptResult(event: Event, message: Row, now: int) returns (failure: Option<TxError>)
      requires Wired()
      modifies db
      ensures Commits(old(db.State()), AcceptedResultTx(old(db.State()), event, message, now), db.State(), failure)
    {
      var saved := db.Snapshot();
      ghost var savedHistory := db.history;
      var updated := messagesService.TransitionMessage(message, ProviderAccepted, AcceptedFields(event), false, now);
      if updated.Err? {
        return Some(updated.error);
      }
      var debited := messagesService.ApplyWalletLedger(message.tenant, message.price, Debit, DebitKey(message.id),
        message.id);
      if debited.Err? {
        db.Rollback(saved, savedHistory);
        return Some(debited.error);
      }
      return None;
    }

    method FailResult(event: Event, message: Row, now: int) returns (failure: Option<TxError>)
      requires Wired()
      modifies db
      ensures Commits(old(db.State()), FailedResultTx(old(db.State()), event, message, now), db.State(), failure)
    {
      var saved := db.Snapshot();
      ghost var savedHistory := db.history;
      var updated := messagesService.TransitionMessage(message, Failed, FailedFields(event), false, now);
      if updated.Err? {
        return Some(updated.error);
      }
      var released := messagesService.ApplyWalletLedger(message.tenant, message.price, Release,
        ReleaseKey(message.id, FinalPath), message.id);
      if released.Err? {
        db.Rollback(saved, savedHistory);
        return Some(released.error);
      }
      return None;
    }

    method ParkUncertain(event: Event, message: Row, day: int) returns (failure: Option<TxError>)
      requires Wired()
      modifies db
      ensures Commits(old(db.State()), UncertainResultTx(old(db.State()), event, message, day), db.State(), failure)
    {
      var updated := messagesService.PatchMessage(message,
        NO_FIELDS.(lastError := Some(Some(event.errorCode.GetOr("unknown_submit_outcome")))));
      if updated.Err? {
        return Some(updated.error);
      }
      outboxService.Enqueue(day, UncertainKey(message.id, updated.value.version), event.(topic := ReconcileTopic));
      return None;
    }

    method ScheduleRetry(
      event: Event, message: Row, nextRoute: Option<Route>, day: int) returns (failure: Option<TxError>)
      requires Wired()
      modifies db
      ensures Commits(old(db.State()), RetryResultTx(old(db.State()), event, message, nextRoute, day), db.State(),
              failure)
    {
      var updated := messagesService.PatchMessage(message, RetryFields(event, message, nextRoute));
      if updated.Err? {
        return Some(updated.error);
      }
      var row := updated.value;
      outboxService.Enqueue(day, RetryKey(message.id, row.version),
                            event.(topic := RetryTopic, version := row.version, accepted := false,
                                   providerId := row.providerId, smppConfigId := row.smppConfigId,
                                   routeRuleId := row.routeRuleId,
                                   protocol := if nextRoute.Some? then Some(nextRoute.value.protocol)
                                     else event.protocol));
      return None;
    }

    /** The transaction of `handleRetry`: queue a dispatch under the version that was read, without a guard. */
    method QueueRetryDispatch(event: Event, message: Row, day: int)
      requires Wired()
      modifies db
      ensures db.State() == RetryDispatchTx(old(db.State()), event, message, day)
    {
      outboxService.Enqueue(day, RetryDispatchKey(message.id, message.version),
                            event.(topic := DispatchTopic(message.content.marketing), version := message.version,
                                   providerId := message.providerId, smppConfigId := message.smppConfigId));
    }

    /**
     `handleRetry` with nothing in between: drop the event unless the row it reads is
     `submitting`; no such row is an exception.
     */
    method HandleRetry(event: Event, ref: MessageRef, day: int) returns (found: bool)
      requires Wired()
      modifies db
      ensures found <==>
           && ref.id < |old(db.rows)|
           && old(db.rows)[ref.id].submitDate == ref.submitDate && old(db.rows)[ref.id].tenant == ref.tenant
      ensures db.State() == if found && HandlerWants(RetryTopic, old(db.rows)[ref.id].status)
                            then RetryDispatchTx(old(db.State()), event, old(db.rows)[ref.id], day)
                            else old(db.State())
    {
      var row := messagesService.GetMessageRow(ref);
      if row.None? {
        return false;
      }
      if row.value.status == Submitting {
        QueueRetryDispatch(event, row.value, day);
      }
      found := true;
    }

    /** The write of `handleDispatch` against the row `message` it read earlier, possibly long before. */
    method WriteDispatch(
      event: Event, message: Row, verdict: Verdict, day: int, now: int)
      returns (failure: Option<TxError>, submittingVersion: nat)
      requires Wired()
      modifies db
      ensures match verdict
              case Block(reason) => Commits(old(db.State()), BlockTx(old(db.State()), message, reason, now), db.State(),
                failure)
              case Throttle => Commits(old(db.State()), ThrottleTx(old(db.State()), event, message, day), db.State(),
                failure)
              case Allow =>
                (match BeginSubmitTx(old(db.State()), message, now)
                 case Ok(p) => failure == None && db.State() == p.0 && submittingVersion == p.1.version
                 case Err(e) => failure == Some(e) && db.State() == old(db.State()))
    {
      submittingVersion := message.version;
      match verdict {
        case Block(reason) =>
          failure := this.Block(message, reason, now);
        case Throttle =>
          failure := this.Throttle(event, message, day);
        case Allow =>
          var begun := BeginSubmit(message, now);
          if begun.Err? {
            return Some(begun.error), submittingVersion;
          }
          submittingVersion := begun.value;
          failure := None;
      }
    }

    /** The branches of `handleDispatchResult` against the row `message` it read earlier. */
    method WriteResult(
      event: Event, message: Row, policy: RetryPolicy, nextRoute: Option<Route>, day: int, now: int)
      returns (failure: Option<TxError>)
      requires Wired()
      modifies db
      ensures Commits(old(db.State()), ResultTx(old(db.State()), event, message, policy, nextRoute, day, now),
              db.State(), failure)
    {
      if event.accepted {
        failure := AcceptResult(event, message, now);
        return;
      }
      if event.uncertain {
        failure := ParkUncertain(event, message, day);
        return;
      }
      if ShouldRetry(event, message, policy) {
        failure := ScheduleRetry(event, message, nextRoute, day);
        return;
      }
      failure := FailResult(event, message, now);
    }
  }

  class DlrProcessor {
    const db: Database
    const outboxService: OutboxService
    const messagesService: MessagesService

    constructor (db: Database, outboxService: OutboxService, messagesService: MessagesService)
      requires outboxService.db == db && messagesService.db == db
      ensures this.db == db && this.outboxService == outboxService && this.messagesService == messagesService
    {
      this.db, this.outboxService, this.messagesService := db, outboxService, messagesService;
    }

    method MarkProcessed(hook: nat, error: Option<string>)
      requires hook < |db.webhooks|
      modifies db
      ensures db.State() == Store.MarkProcessed(old(db.State()), hook, error)
    {
      var webhook := db.webhooks[hook];
      db.webhooks := db.webhooks[hook := webhook.(processed := true, processingError := error)];
    }

    method EnqueueReconciliation(webhook: OpenedReceipt, reason: string, day: int)
      requires webhook.hook < |db.webhooks| && outboxService.db == db
      modifies db
      ensures db.State() == ReconcileHook(old(db.State()), webhook, reason, day)
    {
      outboxService.Enqueue(day, HookKey(webhook.hook, reason), ReconcileEvent(webhook.read.providerId, reason));
      MarkProcessed(webhook.hook, Some(reason));
    }

    /** `processWebhook` after correlation answered with the row `message`. */
    method ProcessCorrelated(
      webhook: OpenedReceipt, message: Row, day: int, now: int) returns (failure: Option<TxError>)
      requires webhook.hook < |db.webhooks| && outboxService.db == db && messagesService.db == db
      modifies db
      ensures Commits(old(db.State()), ReceiptTx(old(db.State()), webhook, message, day, now), db.State(), failure)
    {
      if webhook.read.normalized == HookUnknown {
        EnqueueReconciliation(webhook, "unknown_status", day);
        return None;
      }
      if webhook.read.normalized == HookDelivered {
        if message.status == Delivered {
          MarkProcessed(webhook.hook, Some("duplicate_delivered"));
          return None;
        }
        if message.status != ProviderAccepted {
          EnqueueReconciliation(webhook, "invalid_delivered_transition", day);
          return None;
        }
        var delivered := messagesService.TransitionMessage(message, Delivered, NO_FIELDS, false, now);
        if delivered.Err? {
          return Some(delivered.error);
        }
        MarkMatched(webhook.hook, message.tenant);
        return None;
      }
      if message.status == Failed {
        MarkProcessed(webhook.hook, Some("duplicate_failed"));
        return None;
      }
      if message.status != ProviderAccepted && message.status != Submitting {
        EnqueueReconciliation(webhook, "invalid_failed_transition", day);
        return None;
      }
      failure := FailByReceipt(webhook, message, now);
    }

    method MarkMatched(hook: nat, tenant: nat)
      requires hook < |db.webhooks|
      modifies db
      ensures db.State() == Store.MarkMatched(old(db.State()), hook, tenant)
    {
      var webhook := db.webhooks[hook];
      db.webhooks := db.webhooks[hook := webhook.(processed := true, tenant := if webhook.tenant.Some?
        then webhook.tenant else Some(tenant))];
    }

    method FailByReceipt(webhook: OpenedReceipt, message: Row, now: int) returns (failure: Option<TxError>)
      requires webhook.hook < |db.webhooks| && messagesService.db == db
      requires webhook.read.normalized == HookFailed
      requires message.status == ProviderAccepted || message.status == Submitting
      modifies db
      ensures forall day ::
              Commits(old(db.State()), ReceiptTx(old(db.State()), webhook, message, day, now), db.State(), failure)
    {
      var saved := db.Snapshot();
      ghost var savedHistory := db.history;
      var failed := messagesService.TransitionMessage(message, Failed,
                                                      NO_FIELDS.(lastError := Some(Some("dlr_failed")),
                                                                 billing := Some(if message.billing == Reserved
                                                                   then Released else message.billing)),
                                                      false, now);
      if failed.Err? {
        return Some(failed.error);
      }
      if message.billing == Reserved {
        var released := messagesService.ApplyWalletLedger(message.tenant, message.price, Release,
          ReleaseKey(message.id, DlrPath), message.id);
        if released.Err? {
          db.Rollback(saved, savedHistory);
          return Some(released.error);
        }
      }
      MarkMatched(webhook.hook, message.tenant);
      return None;
    }
  }
}
