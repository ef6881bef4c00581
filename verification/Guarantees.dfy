/**
 What holds in every reachable state of the message pipeline, whatever is
 redelivered, reordered, delayed or crashed.
 */
module Guarantees {
  import opened Wrappers
  import opened Sums
  import opened Messages
  import opened Store
  import opened Settlement
  import opened Protocol
  import opened Deliveries
  import Correlation
  import Attempts

  lemma ReachableRow(s: Sys, wallets: map<nat, Wallet>, m: nat)
    requires Reachable(s, wallets) && m < |s.db.rows|
    ensures RowOk(s.db.rows[m])
  {
    ReachableInv(s, wallets);
  }

  lemma ReachableVersion(s: Sys, wallets: map<nat, Wallet>, m: nat, v: nat)
    requires Reachable(s, wallets) && m < |s.db.rows| && v <= s.db.rows[m].version
    ensures VersionAt(s.db, m, v)
  {
    ReachableInv(s, wallets);
  }

  // ----- money -----

  /** What tenant `t` has had debited so far. */
  function TotalDebited(s: Sys, t: nat): int {
    Sum(s.db.ledger, DebitedFrom(t))
  }

  /** What the messages of tenant `t` that are still `reserved` hold. */
  function TotalHeld(s: Sys, t: nat): int {
    Sum(s.db.rows, HeldFor(t))
  }

  /**
   Each wallet's reserved balance is exactly what its unsettled messages hold,
   nothing is created or lost but by debits, and credit is never exceeded.
   */
  lemma MoneyIsConserved(s: Sys, wallets: map<nat, Wallet>, t: nat)
    requires Reachable(s, wallets) && t in wallets
    ensures t in s.db.wallets
    ensures var w := s.db.wallets[t];
            && w.reserved == TotalHeld(s, t)
            && w.available + w.reserved + TotalDebited(s, t) == wallets[t].available
            && w.creditLimit == wallets[t].creditLimit
            && w.available >= -w.creditLimit
  {
    ReachableInv(s, wallets);
    assert WalletAt(s.db, wallets, t);
  }

  /** Ledger entries of message `m` for one operation. */
  function Entries(s: Sys, m: nat, operation: BillingOperation): int {
    Sum(s.db.ledger, CountOf(m, operation))
  }

  /**
   A priced message is reserved once and settled at most once, by the operation
   its billing state names; it is unsettled exactly while it is `reserved`. A free
   message has no entries.
   */
  lemma SettledExactlyOnce(s: Sys, wallets: map<nat, Wallet>, m: nat)
    requires Reachable(s, wallets) && m < |s.db.rows|
    ensures var row := s.db.rows[m];
            if row.price > 0 then
              && Entries(s, m, Reserve) == 1
              && Entries(s, m, Debit) == Indicator(row.billing == Debited)
              && Entries(s, m, Release) == Indicator(row.billing == Released)
              && (Entries(s, m, Debit) + Entries(s, m, Release) == 0 <==> row.billing == Reserved)
            else
              Entries(s, m, Reserve) == 0 && Entries(s, m, Debit) == 0 && Entries(s, m, Release) == 0
  {
    ReachableInv(s, wallets);
    assert LedgerAt(s.db, m);
  }

  /**
   Every ledger entry is for its message's own tenant and price, under the key of its
   operation, and records the balance it moved.
   */
  lemma EntriesAreExact(s: Sys, wallets: map<nat, Wallet>, k: nat)
    requires Reachable(s, wallets) && k < |s.db.ledger|
    ensures var e := s.db.ledger[k];
            && e.msg < |s.db.rows|
            && e.tenant == s.db.rows[e.msg].tenant
            && e.amount == s.db.rows[e.msg].price > 0
            && e.balanceAfter == e.balanceBefore - e.amount
            && KeyMatches(e)
  {
    ReachableInv(s, wallets);
  }

  /** Billing follows the outcome: released exactly when a failed message was never sent. */
  lemma ReleasedIffFailedUnsent(s: Sys, wallets: map<nat, Wallet>, m: nat)
    requires Reachable(s, wallets) && m < |s.db.rows|
    ensures var row := s.db.rows[m];
            && (row.billing == Released <==> row.status == Failed && row.sentAt.None?)
            && (row.billing == Debited <==> row.sentAt.Some?)
            && (row.billing == Reserved <==> row.status in {Accepted, Routed, Submitting})
            && (row.status in {ProviderAccepted, Delivered} ==> row.billing == Debited)
  {
    ReachableRow(s, wallets, m);
  }

  // ----- which transactions can fail -----

  /** The error, if any, with which the transaction of action `a` rolls back in state `s`. */
  function Failure(s: Sys, a: Action): Option<TxError> {
    match a
    case Submit(submission, day) => ErrorOf(SubmitTx(s.db, submission, day))
    case RouteAccepted(i, route, day, now) =>
      if i < |s.deliveries| && s.deliveries[i].phase.Loaded? && s.deliveries[i].event.topic == AcceptedTopic
      then ErrorOf(RouteTx(s.db, s.deliveries[i].event, s.deliveries[i].phase.snap, route, day, now)) else None
    case Dispatch(i, verdict, day, now) =>
      if i < |s.deliveries| && s.deliveries[i].phase.Loaded? && IsDispatch(s.deliveries[i].event.topic) then
        match verdict
        case Block(reason) => ErrorOf(BlockTx(s.db, s.deliveries[i].phase.snap, reason, now))
        case Throttle => ErrorOf(ThrottleTx(s.db, s.deliveries[i].event, s.deliveries[i].phase.snap, day))
        case Allow => ErrorOf(BeginSubmitTx(s.db, s.deliveries[i].phase.snap, now))
      else None
    case HandleResult(i, policy, next, day, now) =>
      if i < |s.deliveries| && s.deliveries[i].phase.Loaded? && s.deliveries[i].event.topic == ResultTopic
      then ErrorOf(ResultTx(s.db, s.deliveries[i].event, s.deliveries[i].phase.snap, policy, next, day, now)) else None
    case HandleReceipt(k, day, now) =>
      if k < |s.receipts| && s.receipts[k].opening.hook < |s.db.webhooks|
      then ErrorOf(ReceiptTx(s.db, s.receipts[k].opening, s.receipts[k].snap, day, now)) else None
    case _ => None
  }

  function ErrorOf<T>(r: Tx<T>): Option<TxError> {
    if r.Err? then Some(r.error) else None
  }

  /** The snapshot a guarded handler action writes against. */
  function GuardedSnapshot(s: Sys, a: Action): Option<Row> {
    match a
    case RouteAccepted(i, _, _, _) =>
      if i < |s.deliveries| && s.deliveries[i].phase.Loaded? && s.deliveries[i].event.topic == AcceptedTopic
      then Some(s.deliveries[i].phase.snap) else None
    case Dispatch(i, _, _, _) =>
      if i < |s.deliveries| && s.deliveries[i].phase.Loaded? && IsDispatch(s.deliveries[i].event.topic)
      then Some(s.deliveries[i].phase.snap) else None
    case HandleResult(i, _, _, _, _) =>
      if i < |s.deliveries| && s.deliveries[i].phase.Loaded? && s.deliveries[i].event.topic == ResultTopic
      then Some(s.deliveries[i].phase.snap) else None
    case _ => None
  }

  /**
   Optimistic locking is serial execution: a handler's transaction commits exactly
   when the snapshot it read is still the whole current row, and otherwise fails
   with a version conflict and nothing else.
   */
  lemma HandlersCommitIffSnapshotIsCurrent(s: Sys, wallets: map<nat, Wallet>, a: Action)
    requires Reachable(s, wallets) && GuardedSnapshot(s, a).Some?
    ensures var snap := GuardedSnapshot(s, a).value;
            && snap.id < |s.db.rows|
            && Failure(s, a) == if snap == s.db.rows[snap.id] then None else Some(VersionConflict)
  {
    ReachableInv(s, wallets);
    GuardedFailure(s, wallets, a);
  }

  lemma GuardedFailure(s: Sys, initial: map<nat, Wallet>, a: Action)
    requires SysInv(s, initial) && GuardedSnapshot(s, a).Some?
    ensures var snap := GuardedSnapshot(s, a).value;
            && snap.id < |s.db.rows|
            && Failure(s, a) == if snap == s.db.rows[snap.id] then None else Some(VersionConflict)
  {
    var d := s.deliveries[a.i];
    var snap := d.phase.snap;
    assert DeliveryOk(s.db, d);
    GuardMeansCurrent(s.db, initial, snap);
    match a
    case RouteAccepted(_, route, day, now) => RouteKeeps(s.db, initial, d.event, snap, route, day, now);
    case Dispatch(_, verdict, day, now) =>
      match verdict {
        case Block(reason) => BlockKeeps(s.db, initial, snap, reason, now);
        case Throttle => ThrottleKeeps(s.db, initial, d.event, snap, day);
        case Allow => BeginSubmitKeeps(s.db, initial, snap, now);
      }
    case HandleResult(_, policy, next, day, now) => ResultKeeps(s.db, initial, d.event, snap, policy, next, day, now);
  }

  lemma ReceiptFailure(s: Sys, wallets: map<nat, Wallet>, k: nat, day: int, now: int)
    requires Reachable(s, wallets)
    ensures Failure(s, HandleReceipt(k, day, now)) in {None, Some(VersionConflict)}
  {
    ReachableInv(s, wallets);
    if k < |s.receipts| && s.receipts[k].opening.hook < |s.db.webhooks| {
      ReceiptKeeps(s.db, wallets, s.receipts[k].opening, s.receipts[k].snap, day, now);
    }
  }

  /**
   The two "reserved balance is insufficient" errors, the missing wallet and the illegal
   transition never reach a handler.
   */
  lemma OnlyVersionConflictsFail(s: Sys, wallets: map<nat, Wallet>, a: Action)
    requires Reachable(s, wallets)
    ensures Failure(s, a).Some? ==>
              if a.Submit? then Failure(s, a).value == InsufficientBalance || Failure(s, a).value == WalletNotFound
              else Failure(s, a).value == VersionConflict
  {
    if a.HandleReceipt? {
      ReceiptFailure(s, wallets, a.k, a.day, a.now);
    } else if GuardedSnapshot(s, a).Some? {
      HandlersCommitIffSnapshotIsCurrent(s, wallets, a);
    }
  }

  // ----- delivery receipts -----

  /**
   Every row that correlation can answer with has been taken by the provider and
   debited, whichever of its two lookups found it.
   */
  lemma CorrelatedMessageWasDebited(s: Sys, wallets: map<nat, Wallet>, hook: Webhook, now: int, answer: Option<Row>)
    requires Reachable(s, wallets) && Correlation.Answer(s.db.rows, hook, now, answer) && answer.Some?
    ensures answer.value.billing == Debited && answer.value.sentAt.Some?
    ensures answer.value.status in {ProviderAccepted, Delivered, Failed}
    ensures MayCorrelate(answer.value, hook, now)
  {
    Correlation.AnswerWasSent(s.db.rows, hook, now, answer);
    var m :| 0 <= m < |s.db.rows| && s.db.rows[m] == answer.value;
    ReachableRow(s, wallets, m);
  }

  /** So no receipt ever moves money: the release branch of the receipt handler is never taken. */
  lemma ReceiptsMoveNoMoney(s: Sys, wallets: map<nat, Wallet>, k: nat, day: int, now: int)
    requires Reachable(s, wallets)
    ensures Step(s, HandleReceipt(k, day, now)).db.wallets == s.db.wallets
    ensures Step(s, HandleReceipt(k, day, now)).db.ledger == s.db.ledger
    ensures k < |s.receipts| ==> s.receipts[k].snap.billing == Debited && s.receipts[k].snap.status != Submitting
  {
    ReachableInv(s, wallets);
    if k < |s.receipts| && s.receipts[k].opening.hook < |s.db.webhooks| {
      ReceiptKeeps(s.db, wallets, s.receipts[k].opening, s.receipts[k].snap, day, now);
    }
  }

  // ----- row histories -----

  lemma StepGrows(s: Sys, initial: map<nat, Wallet>, a: Action)
    requires SysInv(s, initial)
    ensures Grew(s.db, Step(s, a).db)
    ensures a.Submit? || |Step(s, a).db.rows| == |s.db.rows|
  {
    if a.Submit? {
      SubmitGrows(s, a.submission, a.day);
    } else if a.HandleReceipt? {
      ReceiptGrows(s, initial, a.k, a.day, a.now);
    } else if a.RouteAccepted? || a.Dispatch? || a.HandleResult? {
      GuardedGrows(s, initial, a);
    } else {
      if Attempts.IsHook(a) {
        HooksKeepRows(s, a);
      } else {
        DeliveriesKeepRows(s, a);
      }
      SameRowsGrow(s.db, Step(s, a).db);
    }
  }

  lemma SubmitGrows(s: Sys, submission: Submission, day: int)
    ensures Grew(s.db, Step(s, Submit(submission, day)).db)
  {
    if IsRepeated(s.db, submission) {
      RepeatChangesNothing(s, submission, day);
    } else if InsertTx(s.db, submission, day).Ok? {
      SubmitAdds(s.db, submission, day);
    }
  }

  lemma HooksKeepRows(s: Sys, a: Action)
    requires Attempts.IsHook(a)
    ensures Step(s, a).db.rows == s.db.rows && Step(s, a).db.history == s.db.history
  {
  }

  /** Reads, provider calls, reports and crashes write no message row. */
  lemma DeliveriesKeepRows(s: Sys, a: Action)
    requires || a.Load? || a.QueueRetryDispatch? || a.CallProvider? || a.Report?
             || a.Ack? || a.Crash? || a.Redeliver?
    ensures Step(s, a).db.rows == s.db.rows && Step(s, a).db.history == s.db.history
  {
  }

  lemma SameRowsGrow(before: Db, after: Db)
    requires after.rows == before.rows && after.history == before.history
    ensures Grew(before, after)
  {
  }

  lemma ReceiptGrows(s: Sys, initial: map<nat, Wallet>, k: nat, day: int, now: int)
    requires SysInv(s, initial)
    ensures Grew(s.db, Step(s, HandleReceipt(k, day, now)).db)
    ensures |Step(s, HandleReceipt(k, day, now)).db.rows| == |s.db.rows|
  {
    if k < |s.receipts| && s.receipts[k].opening.hook < |s.db.webhooks| {
      ReceiptKeeps(s.db, initial, s.receipts[k].opening, s.receipts[k].snap, day, now);
    }
  }

  lemma DispatchGrows(s: Sys, initial: map<nat, Wallet>, a: Action)
    requires SysInv(s, initial) && a.Dispatch? && GuardedSnapshot(s, a).Some?
    ensures Grew(s.db, Step(s, a).db) && |Step(s, a).db.rows| == |s.db.rows|
  {
    var d := s.deliveries[a.i];
    assert DeliveryOk(s.db, d);
    match a.verdict
    case Block(reason) => BlockKeeps(s.db, initial, d.phase.snap, reason, a.now);
    case Throttle => ThrottleKeeps(s.db, initial, d.event, d.phase.snap, a.day);
    case Allow => BeginSubmitKeeps(s.db, initial, d.phase.snap, a.now);
  }

  lemma GuardedGrows(s: Sys, initial: map<nat, Wallet>, a: Action)
    requires SysInv(s, initial) && (a.RouteAccepted? || a.Dispatch? || a.HandleResult?)
    ensures Grew(s.db, Step(s, a).db) && |Step(s, a).db.rows| == |s.db.rows|
  {
    if GuardedSnapshot(s, a).Some? {
      var d := s.deliveries[a.i];
      var snap := d.phase.snap;
      assert DeliveryOk(s.db, d);
      match a
      case RouteAccepted(_, route, day, now) => RouteKeeps(s.db, initial, d.event, snap, route, day, now);
      case Dispatch(_, _, _, _) => DispatchGrows(s, initial, a);
      case HandleResult(_, policy, next, day, now) => ResultKeeps(s.db, initial, d.event, snap, policy, next, day, now);
    }
  }

  lemma GrewTwice(a: Db, b: Db, c: Db)
    requires Grew(a, b) && Grew(b, c)
    ensures Grew(a, c)
  {
    forall m | 0 <= m < |a.rows|
      ensures a.rows[m].version <= c.rows[m].version
      ensures PastRouting(a.rows[m].status) ==> PastRouting(c.rows[m].status)
      ensures Terminal(a.rows[m].status) ==> c.rows[m] == a.rows[m]
    {
      assert b.rows[m].version <= c.rows[m].version;
    }
  }

  lemma {:induction false} RunsOnlyGrow(s: Sys, initial: map<nat, Wallet>, actions: seq<Action>)
    requires SysInv(s, initial)
    ensures Grew(s.db, Run(s, actions).db)
  {
    if actions != [] {
      var last := |actions| - 1;
      var before := Run(s, actions[..last]);
      RunsOnlyGrow(s, initial, actions[..last]);
      RunKeeps(s, initial, actions[..last]);
      StepGrows(before, initial, actions[last]);
      GrewTwice(s.db, before.db, Run(s, actions).db);
    }
  }

  /**
   Every version of every row is on record, each one version on from the last
   along the status graph, and the current row is the newest.
   */
  lemma HistoriesArePaths(s: Sys, wallets: map<nat, Wallet>, m: nat)
    requires Reachable(s, wallets) && m < |s.db.rows|
    ensures forall v: nat :: v <= s.db.rows[m].version ==> (m, v) in s.db.history && s.db.history[(m, v)].version == v
    ensures s.db.history[(m, s.db.rows[m].version)] == s.db.rows[m]
    ensures forall v: nat {:trigger s.db.history[(m, v)]} :: 0 < v <= s.db.rows[m].version ==>
              (m, v - 1) in s.db.history && Follows(s.db.history[(m, v - 1)], s.db.history[(m, v)])
  {
    ReachableVersion(s, wallets, m, s.db.rows[m].version);
    forall v: nat | v <= s.db.rows[m].version
      ensures (m, v) in s.db.history && s.db.history[(m, v)].version == v
      ensures v > 0 ==> (m, v - 1) in s.db.history && Follows(s.db.history[(m, v - 1)], s.db.history[(m, v)])
    {
      ReachableVersion(s, wallets, m, v);
    }
  }

  /** Whatever happens next, no committed version changes or disappears: no update is lost. */
  lemma {:induction false} NoUpdateIsLost(s: Sys, wallets: map<nat, Wallet>, actions: seq<Action>, m: nat, v: nat)
    requires Reachable(s, wallets) && m < |s.db.rows| && v <= s.db.rows[m].version
    ensures var later := Run(s, actions).db;
            && m < |later.rows| && s.db.rows[m].version <= later.rows[m].version
            && (m, v) in s.db.history && (m, v) in later.history && later.history[(m, v)] == s.db.history[(m, v)]
  {
    ReachableVersion(s, wallets, m, v);
    ReachableInv(s, wallets);
    RunsOnlyGrow(s, wallets, actions);
  }

  /** Delivered and failed rows never change again. */
  lemma {:induction false} TerminalRowsAreFinal(s: Sys, wallets: map<nat, Wallet>, actions: seq<Action>, m: nat)
    requires Reachable(s, wallets) && m < |s.db.rows| && s.db.rows[m].status in {Delivered, Failed}
    ensures m < |Run(s, actions).db.rows| && Run(s, actions).db.rows[m] == s.db.rows[m]
  {
    ReachableInv(s, wallets);
    RunsOnlyGrow(s, wallets, actions);
  }

  // ----- repeated submissions -----

  /** What a message was submitted with never changes. */
  lemma MessageStays(before: Db, after: Db, initial: map<nat, Wallet>, m: nat)
    requires Inv(before, initial) && Inv(after, initial) && Grew(before, after) && m < |before.rows|
    ensures SameMessage(before.rows[m], after.rows[m])
  {
    var v := before.rows[m].version;
    assert VersionAt(before, m, v) && VersionAt(after, m, v);
  }

  /**
   However often a submission with a client key already taken is repeated, and however late
   the same day, it changes nothing.
   */
  lemma {:induction false} RepeatedSubmissionChangesNothing(
    s: Sys, wallets: map<nat, Wallet>, actions: seq<Action>, m: nat, submission: Submission, day: int)
    requires Reachable(s, wallets) && m < |s.db.rows| && HasClientKey(s.db.rows[m], submission)
    requires NonEmpty(submission.content.idempotencyKey) || NonEmpty(submission.content.clientMessageId)
    ensures Step(Run(s, actions), Submit(submission, day)) == Run(s, actions)
  {
    ReachableInv(s, wallets);
    RunsOnlyGrow(s, wallets, actions);
    RunKeeps(s, wallets, actions);
    var later := Run(s, actions);
    MessageStays(s.db, later.db, wallets, m);
    assert HasClientKey(later.db.rows[m], submission);
    RepeatChangesNothing(later, submission, day);
  }

  /** Two messages of one tenant and day with the same client key. */
  predicate ShareClientKey(a: Row, b: Row) {
    && a.submitDate == b.submitDate && a.tenant == b.tenant
    && ((NonEmpty(a.content.idempotencyKey) && a.content.idempotencyKey == b.content.idempotencyKey)
        || (NonEmpty(a.content.clientMessageId) && a.content.clientMessageId == b.content.clientMessageId))
  }

  ghost predicate ClientKeysUnique(rows: seq<Row>) {
    forall i, j :: 0 <= i < j < |rows| ==> !ShareClientKey(rows[i], rows[j])
  }

  lemma StepKeepsKeysUnique(s: Sys, initial: map<nat, Wallet>, a: Action)
    requires SysInv(s, initial) && ClientKeysUnique(s.db.rows)
    ensures ClientKeysUnique(Step(s, a).db.rows)
  {
    if a.Submit? {
      SubmitKeepsKeysUnique(s, a.submission, a.day);
    } else {
      var after := Step(s, a).db;
      StepGrows(s, initial, a);
      StepKeeps(s, initial, a);
      forall i, j | 0 <= i < j < |after.rows|
        ensures !ShareClientKey(after.rows[i], after.rows[j])
      {
        MessageStays(s.db, after, initial, i);
        MessageStays(s.db, after, initial, j);
      }
    }
  }

  lemma SubmitKeepsKeysUnique(s: Sys, submission: Submission, day: int)
    requires ClientKeysUnique(s.db.rows)
    ensures ClientKeysUnique(Step(s, Submit(submission, day)).db.rows)
  {
    if IsRepeated(s.db, submission) {
      RepeatChangesNothing(s, submission, day);
    } else if InsertTx(s.db, submission, day).Ok? {
      SubmitAdds(s.db, submission, day);
      forall i | 0 <= i < |s.db.rows|
        ensures !ShareClientKey(s.db.rows[i], NewRow(|s.db.rows|, submission))
      {
        assert NonEmpty(submission.content.idempotencyKey) || NonEmpty(submission.content.clientMessageId) ==>
                 !HasClientKey(s.db.rows[i], submission);
      }
    }
  }

  lemma {:induction false} TraceKeepsKeysUnique(
    trace: seq<Sys>, actions: seq<Action>, initial: map<nat, Wallet>, k: nat)
    requires IsRun(trace, actions) && k <= |actions| && SysInv(trace[0], initial) && trace[0].db.rows == []
    ensures ClientKeysUnique(trace[k].db.rows)
  {
    if k > 0 {
      TraceKeepsKeysUnique(trace, actions, initial, k - 1);
      TraceKeeps(trace, actions, initial, k - 1);
      StepKeepsKeysUnique(trace[k - 1], initial, actions[k - 1]);
    }
  }

  /** So in every reachable state a client key names at most one message of its tenant and day. */
  lemma ClientKeysNameOneMessage(s: Sys, wallets: map<nat, Wallet>, i: nat, j: nat)
    requires Reachable(s, wallets) && i < j < |s.db.rows|
    ensures !ShareClientKey(s.db.rows[i], s.db.rows[j])
  {
    StartOk(wallets);
    var trace, actions :| IsRun(trace, actions) && trace[0] == Start(wallets) && trace[|actions|] == s;
    TraceKeepsKeysUnique(trace, actions, wallets, |actions|);
  }

  // ----- live events -----

  /**
   Dedupe never drops the last live event: unless it is parked by its own last
   update, every message short of an outcome has an event on its way to a handler
   that will act on it.
   */
  lemma SomethingIsAlwaysLive(s: Sys, wallets: map<nat, Wallet>, m: nat)
    requires Reachable(s, wallets) && m < |s.db.rows|
    ensures var row := s.db.rows[m];
            && (row.status == Accepted ==> AcceptedLive(s.deliveries, m))
            && (row.status == Routed && !ThrottleParked(s.db, m) ==> DispatchLive(s.deliveries, m))
            && (row.status == Submitting && !UncertainParked(s.db, m) ==> SolidLive(row, s.deliveries, m))
  {
    ReachableInv(s, wallets);
    assert LiveAt(s.db, s.deliveries, m);
  }

  /** Accepted, dispatch and retry events go out with the routing of the row version they are keyed under. */
  lemma QueuedEventsCarryTheirRouting(s: Sys, wallets: map<nat, Wallet>, k: nat)
    requires Reachable(s, wallets) && k < |s.db.outbox|
    ensures var o := s.db.outbox[k];
            match o.key
            case AcceptedKey(m) => CarriesRouting(s.db, o.event, m, 0)
            case DispatchKey(m, v) => CarriesRouting(s.db, o.event, m, v)
            case RetryKey(m, v) => CarriesRouting(s.db, o.event, m, v)
            case RetryDispatchKey(m, v) => CarriesRouting(s.db, o.event, m, v)
            case _ => true
  {
    ReachableInv(s, wallets);
    assert KeyOk(s.db, s.db.outbox[k]);
  }
}
