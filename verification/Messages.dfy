/**
 Message rows, their status graph, and the values the message pipeline exchanges.
 A message is identified by the number the messages table assigned to it; the
 submit date and the tenant complete the composite key and never change.
 */
module Messages {
  import opened Wrappers

  datatype Status = Accepted | Routed | Submitting | ProviderAccepted | Delivered | Failed

  function AllowedTransitions(status: Status): set<Status> {
    match status
    case Accepted => {Routed}
    case Routed => {Submitting}
    case Submitting => {ProviderAccepted, Failed}
    case ProviderAccepted => {Delivered, Failed}
    case Delivered => {}
    case Failed => {}
  }

  datatype Billing = Reserved | Debited | Released

  datatype Protocol = Http | Smpp

  /** What the submitter supplied; no handler writes these columns. */
  datatype Content = Content(
    phoneNumber: string,
    sourceAddr: Option<string>,
    bodyHash: Option<string>,
    campaignId: Option<nat>,
    marketing: bool,
    idempotencyKey: Option<string>,
    clientMessageId: Option<string>)

  datatype Row = Row(
    id: nat,
    submitDate: int,
    tenant: nat,
    content: Content,
    price: int,
    parts: nat,
    status: Status,
    version: nat,
    attempts: nat,
    billing: Billing,
    providerId: Option<nat>,
    smppConfigId: Option<nat>,
    routeRuleId: Option<nat>,
    providerMessageId: Option<string>,
    cost: int,
    sentAt: Option<int>,
    deliveredAt: Option<int>,
    failedAt: Option<int>,
    lastError: Option<string>)

  /** How events and handlers name a message. */
  datatype MessageRef = MessageRef(submitDate: int, tenant: nat, id: nat)

  /** Columns an update may set; None leaves a column alone, as `undefined` does. */
  datatype Fields = Fields(
    attempts: Option<nat>,
    billing: Option<Billing>,
    providerId: Option<Option<nat>>,
    smppConfigId: Option<Option<nat>>,
    routeRuleId: Option<Option<nat>>,
    providerMessageId: Option<Option<string>>,
    cost: Option<int>,
    lastError: Option<Option<string>>)

  const NO_FIELDS := Fields(None, None, None, None, None, None, None, None)

  function Assign(row: Row, fields: Fields): Row {
    row.(attempts := fields.attempts.GetOr(row.attempts),
         billing := fields.billing.GetOr(row.billing),
         providerId := fields.providerId.GetOr(row.providerId),
         smppConfigId := fields.smppConfigId.GetOr(row.smppConfigId),
         routeRuleId := fields.routeRuleId.GetOr(row.routeRuleId),
         providerMessageId := fields.providerMessageId.GetOr(row.providerMessageId),
         cost := fields.cost.GetOr(row.cost),
         lastError := fields.lastError.GetOr(row.lastError))
  }

  datatype Route = Route(
    providerId: nat,
    smppConfigId: Option<nat>,
    ruleId: Option<nat>,
    protocol: Protocol,
    unitCost: int)

  datatype Topic = AcceptedTopic | DispatchTopic(bulk: bool) | RetryTopic | ResultTopic | ReconcileTopic

  /** A queued event; message identity, text and traffic type are copied unchanged by every handler. */
  datatype Event = Event(
    topic: Topic,
    msg: nat,
    version: nat,
    providerId: Option<nat>,
    smppConfigId: Option<nat>,
    routeRuleId: Option<nat>,
    protocol: Option<Protocol>,
    providerMessageId: Option<string>,
    accepted: bool,
    uncertain: bool,
    errorCode: Option<string>)

  /** Outbox dedupe keys, one constructor per key format. */
  datatype DedupeKey =
    | AcceptedKey(msg: nat)
    | DispatchKey(msg: nat, version: nat)
    | RetryDispatchKey(msg: nat, version: nat)
    | ThrottleKey(msg: nat, version: nat)
    | ResultKey(msg: nat, version: nat)
    | UncertainKey(msg: nat, version: nat)
    | RetryKey(msg: nat, version: nat)
    | HookKey(webhook: nat, reason: string)

  datatype OutboxRow = OutboxRow(day: int, key: DedupeKey, event: Event)

  datatype Wallet = Wallet(available: int, reserved: int, creditLimit: int)

  datatype BillingOperation = Reserve | Debit | Release

  datatype ReleasePath = FraudPath | FinalPath | DlrPath

  /** Ledger idempotency keys; the three release paths have three different keys. */
  datatype LedgerKey = ReserveKey(msg: nat) | DebitKey(msg: nat) | ReleaseKey(msg: nat, path: ReleasePath)

  datatype LedgerEntry = LedgerEntry(
    tenant: nat,
    msg: nat,
    operation: BillingOperation,
    amount: int,
    balanceBefore: int,
    balanceAfter: int,
    key: LedgerKey)

  datatype HookStatus = HookDelivered | HookUnknown | HookFailed

  datatype Webhook = Webhook(
    providerId: nat,
    tenant: Option<nat>,
    providerMessageId: Option<string>,
    normalized: HookStatus,
    phoneNumber: Option<string>,
    senderId: Option<string>,
    eventAt: Option<int>,
    bodyHash: Option<string>,
    campaignId: Option<nat>,
    routeRuleId: Option<nat>,
    processed: bool,
    processingError: Option<string>)
}
