/**
 The running system: the tables, every delivery of every workflow event, and the
 receipts being processed. Handlers read a row outside any transaction and keep
 that snapshot while other handlers run, so each step below is one atomic
 transaction or one read, and any interleaving of steps is a run.
 */
module Protocol {
  import opened Wrappers
  import opened Messages
  import opened Store
  import Correlation

  /** How far one delivery of an event has got in its handler. */
  datatype Phase =
    | Pending
    | Loaded(snap: Row)
    | Submitted(snap: Row, submittingVersion: nat)
    | Called(snap: Row, submittingVersion: nat, outcome: Outcome)
    | Handled
    | Acked

  datatype Delivery = Delivery(event: Event, phase: Phase)

  /** A receipt with the message row it was correlated with, both as they were read. */
  datatype ReceiptWork = ReceiptWork(opening: OpenedReceipt, snap: Row)

  /**
   Three counts by message: `duplicated` deliveries of events already delivered to
   the end or still in flight, `redelivered` ones that may cost another attempt
   (those and the ones lost after their attempt was counted), and provider calls.
   */
  datatype Sys = Sys(
    db: Db,
    deliveries: seq<Delivery>,
    reading: seq<OpenedReceipt>,
    receipts: seq<ReceiptWork>,
    duplicated: multiset<nat>,
    redelivered: multiset<nat>,
    submissions: multiset<nat>)

  datatype Verdict = Block(reason: string) | Throttle | Allow

  /** One step, with everything the outside world chooses: clocks, routes, verdicts, outcomes, failures. */
  datatype Action =
    | Submit(submission: Submission, day: int)
    | Load(i: nat)
    | RouteAccepted(i: nat, route: Route, day: int, now: int)
    | QueueRetryDispatch(i: nat, day: int)
    | Dispatch(i: nat, verdict: Verdict, day: int, now: int)
    | CallProvider(i: nat, outcome: Outcome, reached: bool)
    | Report(i: nat, day: int)
    | HandleResult(i: nat, policy: RetryPolicy, next: Option<Route>, day: int, now: int)
    | Ack(i: nat)
    | Crash(i: nat)
    | Redeliver(i: nat)
    | ReceiveHook(hook: Webhook)
    | RepeatHook(w: nat, hook: Webhook)
    | OpenReceipt(w: nat)
    | LoadReceipt(o: nat, m: nat, now: int)
    | ReceiptUnmatched(o: nat, day: int)
    | HandleReceipt(k: nat, day: int, now: int)

  /** The status each handler insists on after its read; anything else ends the handler. */
  predicate HandlerWants(topic: Topic, status: Status) {
    match topic
    case AcceptedTopic => status == Accepted
    case DispatchTopic(_) => status == Routed || status == Submitting
    case RetryTopic => status == Submitting
    case ResultTopic => status == Submitting
    case ReconcileTopic => false
  }

  /** A fresh outbox row becomes a pending delivery; reconciliation events leave the workflow. */
  function NewDeliveries(before: Db, after: Db): seq<Delivery> {
    if |after.outbox| > |before.outbox| && after.outbox[|before.outbox|].event.topic != ReconcileTopic
    then [Delivery(after.outbox[|before.outbox|].event, Pending)]
    else []
  }

  function At(s: Sys, i: nat, phase: Phase): Sys
    requires i < |s.deliveries|
  {
    s.(deliveries := s.deliveries[i := s.deliveries[i].(phase := phase)])
  }

  /**
   The handler is lost (or threw) before its offset was committed: the broker
   delivers the event again. Losing a handler that had written nothing costs nothing;
   one that had finished is now delivered twice.
   */
  function Requeue(s: Sys, i: nat): Sys
    requires i < |s.deliveries|
  {
    var again := multiset{s.deliveries[i].event.msg};
    match s.deliveries[i].phase
    case Pending | Loaded(_) => At(s, i, Pending)
    case Submitted(_, _) | Called(_, _, _) => At(s, i, Pending).(redelivered := s.redelivered + again)
    case Handled | Acked => At(s, i, Pending).(redelivered := s.redelivered + again, duplicated := s.duplicated + again)
  }

  /** A committed transaction takes the handler to `phase`; a rolled back one throws out of the handler. */
  function Finish(s: Sys, i: nat, result: Tx<Db>, phase: Phase): Sys
    requires i < |s.deliveries|
  {
    match result
    case Ok(db) =>
      var moved := At(s, i, phase);
      moved.(db := db, deliveries := moved.deliveries + NewDeliveries(s.db, db))
    case Err(_) => Requeue(s, i)
  }

  predicate IsDispatch(topic: Topic) {
    topic.DispatchTopic?
  }

  function BeginSubmit(s: Sys, i: nat, snap: Row, now: int): Sys
    requires i < |s.deliveries|
  {
    match BeginSubmitTx(s.db, snap, now)
    case Ok(updated) => Finish(s, i, Ok(updated.0), Submitted(snap, updated.1.version))
    case Err(e) => Finish(s, i, Err(e), Handled)
  }

  /** The next system; an action whose moment has not come changes nothing. */
  function Step(s: Sys, a: Action): Sys {
    match a
    case Submit(submission, day) =>
      (match SubmitTx(s.db, submission, day)
       case Ok(db) => s.(db := db, deliveries := s.deliveries + NewDeliveries(s.db, db))
       case Err(_) => s)
    case Load(i) =>
      if i < |s.deliveries| && s.deliveries[i].phase.Pending? && s.deliveries[i].event.msg < |s.db.rows| then
        var row := s.db.rows[s.deliveries[i].event.msg];
        At(s, i, if HandlerWants(s.deliveries[i].event.topic, row.status) then Loaded(row) else Handled)
      else s
    case RouteAccepted(i, route, day, now) =>
      if i < |s.deliveries| && s.deliveries[i].phase.Loaded? && s.deliveries[i].event.topic == AcceptedTopic then
        var d := s.deliveries[i];
        Finish(s, i, RouteTx(s.db, d.event, d.phase.snap, route, day, now), Handled)
      else s
    case QueueRetryDispatch(i, day) =>
      if i < |s.deliveries| && s.deliveries[i].phase.Loaded? && s.deliveries[i].event.topic == RetryTopic then
        var d := s.deliveries[i];
        Finish(s, i, Ok(RetryDispatchTx(s.db, d.event, d.phase.snap, day)), Handled)
      else s
    case Dispatch(i, verdict, day, now) =>
      if i < |s.deliveries| && s.deliveries[i].phase.Loaded? && IsDispatch(s.deliveries[i].event.topic) then
        var d := s.deliveries[i];
        match verdict
        case Block(reason) => Finish(s, i, BlockTx(s.db, d.phase.snap, reason, now), Handled)
        case Throttle => Finish(s, i, ThrottleTx(s.db, d.event, d.phase.snap, day), Handled)
        case Allow => BeginSubmit(s, i, d.phase.snap, now)
      else s
    case CallProvider(i, outcome, reached) =>
      if i < |s.deliveries| && s.deliveries[i].phase.Submitted? then
        var d := s.deliveries[i];
        At(s, i, Called(d.phase.snap, d.phase.submittingVersion, outcome)).(
          submissions := if reached then s.submissions + multiset{d.event.msg} else s.submissions)
      else s
    case Report(i, day) =>
      if i < |s.deliveries| && s.deliveries[i].phase.Called? then
        var d := s.deliveries[i];
        Finish(s, i, Ok(ReportTx(s.db, d.event, d.phase.snap, d.phase.submittingVersion, d.phase.outcome, day)),
          Handled)
      else s
    case HandleResult(i, policy, next, day, now) =>
      if i < |s.deliveries| && s.deliveries[i].phase.Loaded? && s.deliveries[i].event.topic == ResultTopic then
        var d := s.deliveries[i];
        Finish(s, i, ResultTx(s.db, d.event, d.phase.snap, policy, next, day, now), Handled)
      else s
    case Ack(i) =>
      if i < |s.deliveries| && s.deliveries[i].phase.Handled? then At(s, i, Acked) else s
    case Crash(i) =>
      if i < |s.deliveries| && !s.deliveries[i].phase.Pending?
        && !s.deliveries[i].phase.Acked? then Requeue(s, i) else s
    case Redeliver(i) =>
      if i < |s.deliveries| then
        var event := s.deliveries[i].event;
        s.(deliveries := s.deliveries + [Delivery(event, Pending)],
           redelivered := s.redelivered + multiset{event.msg}, duplicated := s.duplicated + multiset{event.msg})
      else s
    case ReceiveHook(hook) =>
      s.(db := s.db.(webhooks := s.db.webhooks + [hook]))
    case RepeatHook(w, hook) =>
      if w < |s.db.webhooks|
      then s.(db := s.db.(webhooks := s.db.webhooks[w := Overwritten(s.db.webhooks[w], hook)]))
      else s
    case OpenReceipt(w) =>
      if w < |s.db.webhooks| && !s.db.webhooks[w].processed
      then s.(reading := s.reading + [OpenedReceipt(w, s.db.webhooks[w])])
      else s
    case LoadReceipt(o, m, now) =>
      if o < |s.reading| && m < |s.db.rows| && MayCorrelate(s.db.rows[m], s.reading[o].read, now)
      then s.(receipts := s.receipts + [ReceiptWork(s.reading[o], s.db.rows[m])])
      else s
    case ReceiptUnmatched(o, day) =>
      if o < |s.reading| && s.reading[o].hook < |s.db.webhooks|
      then s.(db := ReconcileHook(s.db, s.reading[o], "message_not_found", day))
      else s
    case HandleReceipt(k, day, now) =>
      if k < |s.receipts| && s.receipts[k].opening.hook < |s.db.webhooks| then
        match ReceiptTx(s.db, s.receipts[k].opening, s.receipts[k].snap, day, now)
        case Ok(db) => s.(db := db)
        case Err(_) => s
      else s
  }

  /** A row correlation may answer with, by the exact lookup or as a fallback candidate. */
  predicate MayCorrelate(row: Row, hook: Webhook, now: int) {
    Correlation.DirectMatch(row, hook) || Correlation.Candidate(row, hook, now)
  }

  function Run(s: Sys, actions: seq<Action>): Sys {
    if actions == [] then s else Step(Run(s, actions[..|actions| - 1]), actions[|actions| - 1])
  }

  /** No messages yet, nothing reserved, no wallet beyond its credit. */
  predicate Funded(wallets: map<nat, Wallet>) {
    forall t :: t in wallets ==> wallets[t].reserved == 0 && wallets[t].available + wallets[t].creditLimit >= 0
  }

  function Start(wallets: map<nat, Wallet>): Sys {
    Sys(Db([], map[], wallets, [], [], []), [], [], [], multiset{}, multiset{}, multiset{})
  }

  /** `trace` lists the states of the run that performs `actions`. */
  ghost predicate IsRun(trace: seq<Sys>, actions: seq<Action>) {
    && |trace| == |actions| + 1
    && forall k {:trigger Step(trace[k], actions[k])} :: 0 <= k < |actions| ==>
       trace[k + 1] == Step(trace[k], actions[k])
  }

  /** `s` arises from wallets that are in order, by some run. */
  ghost predicate Reachable(s: Sys, wallets: map<nat, Wallet>) {
    && Funded(wallets)
    && exists trace, actions :: IsRun(trace, actions) && trace[0] == Start(wallets) && trace[|actions|] == s
  }

  lemma {:induction false} RunIsReachable(wallets: map<nat, Wallet>, actions: seq<Action>)
    requires Funded(wallets)
    ensures Reachable(Run(Start(wallets), actions), wallets)
  {
    var trace := seq(|actions| + 1, k requires 0 <= k <= |actions| => Run(Start(wallets), actions[..k]));
    assert actions[..|actions|] == actions;
    forall k | 0 <= k < |actions|
      ensures trace[k + 1] == Step(trace[k], actions[k])
    {
      assert actions[..k + 1][..k] == actions[..k];
    }
    assert IsRun(trace, actions);
  }

  lemma OneMoreStep(s: Sys, wallets: map<nat, Wallet>, a: Action)
    requires Reachable(s, wallets)
    ensures Reachable(Step(s, a), wallets)
  {
    var trace, actions :| IsRun(trace, actions) && trace[0] == Start(wallets) && trace[|actions|] == s;
    var trace', actions' := trace + [Step(s, a)], actions + [a];
    assert IsRun(trace', actions') by {
      forall k | 0 <= k < |actions'|
        ensures trace'[k + 1] == Step(trace'[k], actions'[k])
      {
        if k < |actions| {
          assert trace[k + 1] == Step(trace[k], actions[k]);
        }
      }
    }
  }
}
