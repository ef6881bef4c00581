/**
 The schema's own check on message updates: a row trigger that rejects an update
 whose version, time or status does not move as it should. Every update stamps the
 row with the start time of its transaction, so the second update of one
 transaction never passes.
 */
module Schema {
  import opened Wrappers
  import opened Messages
  import opened Store
  import opened Settlement
  import opened Protocol
  import opened Deliveries
  import opened Guarantees
  import Parking

  // ----- the trigger -----

  predicate LegalEdge(before: Status, after: Row) {
    || (before == Accepted && after.status == Routed)
    || (before == Routed && after.status == Submitting)
    || (before == Submitting && after.status in {ProviderAccepted, Failed})
    || (before == ProviderAccepted && after.status == Delivered)
    || (before == ProviderAccepted && after.status == Failed && after.lastError == Some("dlr_failed"))
  }

  /** `changedAt` is the stamp of the row before, `now` the one the update sets. */
  predicate TriggerAccepts(before: Row, changedAt: int, after: Row, now: int) {
    && after.version == before.version + 1
    && changedAt < now
    && (after.status == before.status || LegalEdge(before.status, after))
  }

  /** The updates of one transaction in turn, all with its one stamp. */
  predicate AcceptsAll(before: Row, changedAt: int, updates: seq<Row>, now: int)
    decreases |updates|
  {
    updates != [] ==>
         TriggerAccepts(before, changedAt, updates[0], now) && AcceptsAll(updates[0], now, updates[1..], now)
  }

  // ----- the system with the trigger -----

  /** `changedAt` has the stamp of every message row. */
  datatype Stamped = Stamped(sys: Sys, changedAt: seq<int>)

  predicate IsBlock(a: Action) {
    a.Dispatch? && a.verdict.Block?
  }

  /** The message whose row the transaction of `a` may update. */
  function Target(s: Sys, a: Action): Option<nat> {
    match a
    case HandleReceipt(k, _, _) => if k < |s.receipts| then Some(s.receipts[k].snap.id) else None
    case _ => if GuardedSnapshot(s, a).Some? then Some(GuardedSnapshot(s, a).value.id) else None
  }

  /**
   The rows the transaction of `a` writes to message `m`, one after the other; a
   transaction that fails anyway writes none.
   */
  function Updates(s: Sys, a: Action, m: nat): seq<Row>
    requires m < |s.db.rows|
  {
    if Failure(s, a).Some? then []
    else if IsBlock(a) && GuardedSnapshot(s, a).Some? then BlockUpdates(GuardedSnapshot(s, a).value, a.now)
    else SingleUpdate(s.db, Step(s, a).db, m)
  }

  function BlockUpdates(snap: Row, now: int): seq<Row> {
    [BlockSubmitting(snap, now), BlockFailed(snap, now)]
  }

  function SingleUpdate(before: Db, after: Db, m: nat): seq<Row>
    requires m < |before.rows|
  {
    if m < |after.rows| && after.rows[m] != before.rows[m] then [after.rows[m]] else []
  }

  /** The trigger lets the transaction of `a` through, when it begins at `now`. */
  predicate PassesTrigger(t: Stamped, a: Action, now: int) {
    match Target(t.sys, a)
    case None => true
    case Some(m) => m < |t.sys.db.rows| && m < |t.changedAt| ==>
      AcceptsAll(t.sys.db.rows[m], t.changedAt[m], Updates(t.sys, a, m), now)
  }

  /** A rejected handler throws like one that lost a version race; a rejected receipt is left unprocessed. */
  function Rejected(s: Sys, a: Action): Sys {
    if a.HandleReceipt? then s
    else
      match a
      case RouteAccepted(i, _, _, _) => Step(s, Crash(i))
      case Dispatch(i, _, _, _) => Step(s, Crash(i))
      case HandleResult(i, _, _, _, _) => Step(s, Crash(i))
      case _ => s
  }

  /** `now` is the time at which the transaction of the step begins. */
  function StampedStep(t: Stamped, a: Action, now: int): Stamped {
    if !PassesTrigger(t, a, now) then t.(sys := Rejected(t.sys, a))
    else
      Stamped(Step(t.sys, a), Stamps(t, Step(t.sys, a).db, now))
  }

  /** Rows that did not change keep their stamp, the others get the new one. */
  function Stamps(t: Stamped, after: Db, now: int): (stamps: seq<int>)
    ensures |stamps| == |after.rows|
    ensures forall m :: 0 <= m < |stamps| ==> stamps[m] == now || (m < |t.changedAt| && stamps[m] == t.changedAt[m])
  {
    seq(|after.rows|, m requires 0 <= m < |after.rows| =>
      if m < |t.changedAt| && m < |t.sys.db.rows| && after.rows[m] == t.sys.db.rows[m] then t.changedAt[m] else now)
  }

  function StampedRun(wallets: map<nat, Wallet>, actions: seq<(Action, int)>): Stamped {
    if actions == [] then Stamped(Start(wallets), [])
    else
      var last := actions[|actions| - 1];
      StampedStep(StampedRun(wallets, actions[..|actions| - 1]), last.0, last.1)
  }

  // ----- what the trigger changes -----

  /**
   Every state with the trigger is a reachable state without it, and every row has a stamp:
   the guarantees hold here too.
   */
  lemma {:induction false} StampedRunsAreRuns(wallets: map<nat, Wallet>, actions: seq<(Action, int)>)
    requires Funded(wallets)
    ensures var t := StampedRun(wallets, actions);
            Reachable(t.sys, wallets) && |t.changedAt| == |t.sys.db.rows|
  {
    if actions == [] {
      RunIsReachable(wallets, []);
    } else {
      var before, last := StampedRun(wallets, actions[..|actions| - 1]), actions[|actions| - 1];
      StampedRunsAreRuns(wallets, actions[..|actions| - 1]);
      StampedStepIsStep(before, wallets, last.0, last.1);
    }
  }

  lemma StampedStepIsStep(t: Stamped, wallets: map<nat, Wallet>, a: Action, now: int)
    requires Reachable(t.sys, wallets) && |t.changedAt| == |t.sys.db.rows|
    ensures var t' := StampedStep(t, a, now); Reachable(t'.sys, wallets) && |t'.changedAt| == |t'.sys.db.rows|
  {
    if PassesTrigger(t, a, now) {
      OneMoreStep(t.sys, wallets, a);
    } else if a.RouteAccepted? || a.Dispatch? || a.HandleResult? {
      OneMoreStep(t.sys, wallets, Crash(a.i));
      CrashKeepsTables(t.sys, a.i);
    }
  }

  lemma CrashKeepsTables(s: Sys, i: nat)
    ensures Step(s, Crash(i)).db == s.db
  {
  }

  predicate LegalUpdate(before: Row, after: Row) {
    after.version == before.version + 1 && (after.status == before.status || LegalEdge(before.status, after))
  }

  /** What a transaction on a current row makes of it, when it commits. */
  ghost predicate MovesLegally(db: Db, m: nat, r: Tx<Db>) {
    r.Ok? && m < |db.rows| == |r.value.rows| && LegalUpdate(db.rows[m], r.value.rows[m])
  }

  lemma RouteIsLegal(db: Db, event: Event, snap: Row, route: Route, day: int, now: int)
    requires Guard(db, snap) && snap == db.rows[snap.id] && snap.status == Accepted
    ensures MovesLegally(db, snap.id, RouteTx(db, event, snap, route, day, now))
  {
  }

  lemma DispatchIsLegal(db: Db, event: Event, snap: Row, day: int, now: int)
    requires Guard(db, snap) && snap == db.rows[snap.id] && (snap.status == Routed || snap.status == Submitting)
    ensures MovesLegally(db, snap.id, ThrottleTx(db, event, snap, day))
    ensures BeginSubmitTx(db, snap, now).Ok? && MovesLegally(db, snap.id, Ok(BeginSubmitTx(db, snap, now).value.0))
  {
  }

  lemma ResultIsLegal(db: Db, event: Event, snap: Row, policy: RetryPolicy, next: Option<Route>, day: int, now: int)
    requires Guard(db, snap) && snap == db.rows[snap.id] && snap.status == Submitting
    requires ResultTx(db, event, snap, policy, next, day, now).Ok?
    ensures MovesLegally(db, snap.id, ResultTx(db, event, snap, policy, next, day, now))
  {
  }

  /** One update of a current row by the program always has the right version and status. */
  lemma SingleUpdateIsLegal(s: Sys, a: Action)
    requires Guarded(s, a) && !IsBlock(a) && Failure(s, a).None?
    ensures MovesLegally(s.db, GuardedSnapshot(s, a).value.id, Ok(Step(s, a).db))
  {
    var d := s.deliveries[a.i];
    var snap := d.phase.snap;
    match a
    case RouteAccepted(_, route, day, now) => RouteIsLegal(s.db, d.event, snap, route, day, now);
    case Dispatch(_, _, day, now) => DispatchIsLegal(s.db, d.event, snap, day, now);
    case HandleResult(_, policy, next, day, now) => ResultIsLegal(s.db, d.event, snap, policy, next, day, now);
  }

  /** A handler about to write against a current row, in the status it insists on. */
  predicate Guarded(s: Sys, a: Action) {
    && GuardedSnapshot(s, a).Some?
    && var snap := GuardedSnapshot(s, a).value;
    && Guard(s.db, snap) && snap == s.db.rows[snap.id]
    && HandlerWants(s.deliveries[a.i].event.topic, snap.status)
  }

  /** The second update of a transaction has the stamp of the first. */
  lemma {:induction false} SecondUpdateIsRejected(before: Row, changedAt: int, snap: Row, blockedAt: int, now: int)
    ensures !AcceptsAll(before, changedAt, BlockUpdates(snap, blockedAt), now)
  {
    var updates := BlockUpdates(snap, blockedAt);
    assert updates[1..] == [BlockFailed(snap, blockedAt)];
    assert !TriggerAccepts(updates[0], now, updates[1], now);
  }

  lemma {:induction false} OneUpdateIsAccepted(before: Row, changedAt: int, after: Row, now: int)
    requires LegalUpdate(before, after)
    ensures AcceptsAll(before, changedAt, [after], now) <==> changedAt < now
  {
  }

  /**
   Under the trigger a handler's transaction commits exactly when its snapshot is
   the whole current row, it is not a fraud block, and it began after the row was
   last changed.
   */
  lemma {:induction false} CommitsUnderTriggerIff(
    wallets: map<nat, Wallet>, actions: seq<(Action, int)>, a: Action, now: int)
    requires Funded(wallets)
    ensures var t := StampedRun(wallets, actions);
            GuardedSnapshot(t.sys, a).Some? ==>
              var snap := GuardedSnapshot(t.sys, a).value;
              && snap.id < |t.sys.db.rows| == |t.changedAt|
              && (Failure(t.sys, a).None? && PassesTrigger(t, a, now)
                  <==> snap == t.sys.db.rows[snap.id] && !IsBlock(a) && t.changedAt[snap.id] < now)
  {
    var t := StampedRun(wallets, actions);
    StampedRunsAreRuns(wallets, actions);
    if GuardedSnapshot(t.sys, a).Some? {
      CurrentCommitsIff(t, wallets, a, now);
    }
  }

  lemma CurrentCommitsIff(t: Stamped, wallets: map<nat, Wallet>, a: Action, now: int)
    requires Reachable(t.sys, wallets) && |t.changedAt| == |t.sys.db.rows| && GuardedSnapshot(t.sys, a).Some?
    ensures var snap := GuardedSnapshot(t.sys, a).value;
            && snap.id < |t.sys.db.rows|
            && (Failure(t.sys, a).None? && PassesTrigger(t, a, now)
                <==> snap == t.sys.db.rows[snap.id] && !IsBlock(a) && t.changedAt[snap.id] < now)
  {
    HandlersCommitIffSnapshotIsCurrent(t.sys, wallets, a);
    var snap := GuardedSnapshot(t.sys, a).value;
    assert Target(t.sys, a) == Some(snap.id);
    if snap == t.sys.db.rows[snap.id] {
      if IsBlock(a) {
        SecondUpdateIsRejected(snap, t.changedAt[snap.id], snap, a.now, now);
      } else {
        SnapshotIsWanted(t.sys, wallets, a);
        SingleUpdateIsLegal(t.sys, a);
        OneUpdateIsAccepted(snap, t.changedAt[snap.id], Step(t.sys, a).db.rows[snap.id], now);
      }
    }
  }

  lemma SnapshotIsWanted(s: Sys, wallets: map<nat, Wallet>, a: Action)
    requires Reachable(s, wallets) && GuardedSnapshot(s, a).Some?
    requires var snap := GuardedSnapshot(s, a).value; snap.id < |s.db.rows| && snap == s.db.rows[snap.id]
    ensures Guarded(s, a)
  {
    ReachableInv(s, wallets);
    assert DeliveryOk(s.db, s.deliveries[a.i]);
  }

  // ----- receipts -----

  /**
   A receipt whose transaction updates the message row: its status is known and the
   provider had the message when it was read.
   */
  predicate MovesRow(w: ReceiptWork) {
    w.snap.status == ProviderAccepted && w.opening.read.normalized != HookUnknown
  }

  /** The update a receipt makes is legal: it is the one case of the trigger's rule about the error code. */
  lemma ReceiptIsLegal(db: Db, o: OpenedReceipt, snap: Row, day: int, at: int)
    requires o.hook < |db.webhooks| && MovesRow(ReceiptWork(o, snap)) && snap.billing == Debited && RowOk(snap)
    requires snap.id < |db.rows| && db.rows[snap.id].id == snap.id
    ensures var r := ReceiptTx(db, o, snap, day, at);
            if Guard(db, snap) then MovesLegally(db, snap.id, r) else r == Err(VersionConflict)
  {
    ReceiptShape(db, o, snap, day, at);
  }

  /** The other receipts write no message row and never fail. */
  lemma OtherReceiptsPass(db: Db, o: OpenedReceipt, snap: Row, day: int, at: int)
    requires o.hook < |db.webhooks| && !MovesRow(ReceiptWork(o, snap)) && snap.billing == Debited && RowOk(snap)
    ensures var r := ReceiptTx(db, o, snap, day, at); r.Ok? && r.value.rows == db.rows
  {
    ReceiptShape(db, o, snap, day, at);
  }

  /**
   A receipt's transaction, too, fails exactly when it updates a row and its snapshot is
   not the whole current row.
   */
  lemma ReceiptsCommitIffSnapshotIsCurrent(s: Sys, wallets: map<nat, Wallet>, k: nat, day: int, at: int)
    requires Reachable(s, wallets) && k < |s.receipts| && s.receipts[k].opening.hook < |s.db.webhooks|
    ensures var w := s.receipts[k];
            && w.snap.id < |s.db.rows|
            && Failure(s, HandleReceipt(k, day, at))
               == if MovesRow(w) && w.snap != s.db.rows[w.snap.id] then Some(VersionConflict) else None
  {
    ReachableInv(s, wallets);
    var w := s.receipts[k];
    GuardMeansCurrent(s.db, wallets, w.snap);
    if MovesRow(w) {
      ReceiptIsLegal(s.db, w.opening, w.snap, day, at);
    } else {
      OtherReceiptsPass(s.db, w.opening, w.snap, day, at);
    }
  }

  /**
   Under the trigger a receipt that updates a row commits exactly when its snapshot is the
   whole current row and it began after the row was last changed; the others always do.
   */
  lemma {:induction false} ReceiptsUnderTriggerIff(
    wallets: map<nat, Wallet>, actions: seq<(Action, int)>, k: nat, day: int, at: int, now: int)
    requires Funded(wallets)
    ensures var t := StampedRun(wallets, actions);
            k < |t.sys.receipts| && t.sys.receipts[k].opening.hook < |t.sys.db.webhooks| ==>
              var w := t.sys.receipts[k];
              && w.snap.id < |t.sys.db.rows| == |t.changedAt|
              && (Failure(t.sys, HandleReceipt(k, day, at)).None? && PassesTrigger(t, HandleReceipt(k, day, at), now)
                  <==> (MovesRow(w) ==> w.snap == t.sys.db.rows[w.snap.id] && t.changedAt[w.snap.id] < now))
  {
    var t := StampedRun(wallets, actions);
    StampedRunsAreRuns(wallets, actions);
    if k < |t.sys.receipts| && t.sys.receipts[k].opening.hook < |t.sys.db.webhooks| {
      ReceiptPassesIff(t, wallets, k, day, at, now);
    }
  }

  lemma ReceiptPassesIff(t: Stamped, wallets: map<nat, Wallet>, k: nat, day: int, at: int, now: int)
    requires Reachable(t.sys, wallets) && |t.changedAt| == |t.sys.db.rows|
    requires k < |t.sys.receipts| && t.sys.receipts[k].opening.hook < |t.sys.db.webhooks|
    ensures var w := t.sys.receipts[k];
            && w.snap.id < |t.sys.db.rows|
            && (Failure(t.sys, HandleReceipt(k, day, at)).None? && PassesTrigger(t, HandleReceipt(k, day, at), now)
                <==> (MovesRow(w) ==> w.snap == t.sys.db.rows[w.snap.id] && t.changedAt[w.snap.id] < now))
  {
    var s, w, a := t.sys, t.sys.receipts[k], HandleReceipt(k, day, at);
    ReachableInv(s, wallets);
    ReceiptsCommitIffSnapshotIsCurrent(s, wallets, k, day, at);
    GuardMeansCurrent(s.db, wallets, w.snap);
    if Failure(s, a).None? {
      assert Step(s, a).db == ReceiptTx(s.db, w.opening, w.snap, day, at).value;
      if MovesRow(w) {
        ReceiptIsLegal(s.db, w.opening, w.snap, day, at);
        OneUpdateIsAccepted(s.db.rows[w.snap.id], t.changedAt[w.snap.id], Step(s, a).db.rows[w.snap.id], now);
      } else {
        OtherReceiptsPass(s.db, w.opening, w.snap, day, at);
      }
    }
  }

  // ----- a clock that moves on -----

  lemma StampsStayEarlier(t: Stamped, a: Action, now: int, later: int)
    requires now < later && forall m :: 0 <= m < |t.changedAt| ==> t.changedAt[m] < later
    ensures forall m :: 0 <= m < |StampedStep(t, a, now).changedAt| ==> StampedStep(t, a, now).changedAt[m] < later
  {
    if PassesTrigger(t, a, now) {
      var stamps := Stamps(t, Step(t.sys, a).db, now);
      assert forall m :: 0 <= m < |stamps| ==> stamps[m] < later;
    }
  }

  /** When a step begins later than every step before it, every stamp is earlier. */
  lemma {:induction false} StampsAreEarlier(wallets: map<nat, Wallet>, actions: seq<(Action, int)>, now: int)
    requires forall k :: 0 <= k < |actions| ==> actions[k].1 < now
    ensures var t := StampedRun(wallets, actions); forall m :: 0 <= m < |t.changedAt| ==> t.changedAt[m] < now
  {
    if actions != [] {
      var init, last := actions[..|actions| - 1], actions[|actions| - 1];
      StampsAreEarlier(wallets, init, now);
      assert last.1 < now && forall m :: 0 <= m < |StampedRun(wallets, init).changedAt| ==>
        StampedRun(wallets, init).changedAt[m] < now;
      StampsStayEarlier(StampedRun(wallets, init), last.0, last.1, now);
    }
  }

  /** So with a clock that moves on, blocks are the only transactions of handlers that the trigger rejects. */
  lemma {:induction false} OnlyBlocksAreRejected(
    wallets: map<nat, Wallet>, actions: seq<(Action, int)>, a: Action, now: int)
    requires Funded(wallets) && forall k :: 0 <= k < |actions| ==> actions[k].1 < now
    ensures var t := StampedRun(wallets, actions);
            GuardedSnapshot(t.sys, a).Some? ==>
              (PassesTrigger(t, a, now) <==> Failure(t.sys, a).Some? || !IsBlock(a))
  {
    var t := StampedRun(wallets, actions);
    StampsAreEarlier(wallets, actions, now);
    StampedRunsAreRuns(wallets, actions);
    if GuardedSnapshot(t.sys, a).Some? {
      CurrentCommitsIff(t, wallets, a, now);
      HandlersCommitIffSnapshotIsCurrent(t.sys, wallets, a);
    }
  }

  // ----- blocks -----

  lemma {:induction false} RunMore(wallets: map<nat, Wallet>, actions: seq<(Action, int)>, a: Action, now: int)
    ensures StampedRun(wallets, actions + [(a, now)]) == StampedStep(StampedRun(wallets, actions), a, now)
  {
    assert (actions + [(a, now)])[..|actions|] == actions;
  }

  lemma ReadsPass(t: Stamped, a: Action, now: int)
    requires a.Submit? || a.Load?
    ensures StampedStep(t, a, now).sys == Step(t.sys, a)
  {
  }

  lemma SubmitRun(wallets: map<nat, Wallet>) returns (actions: seq<(Action, int)>)
    requires Funded(wallets)
    ensures StampedRun(wallets, actions).sys == Parking.LoadedSys(wallets)
    ensures forall k :: 0 <= k < |actions| ==> actions[k].1 < 1
    ensures var t := StampedRun(wallets, actions);
            |t.changedAt| == |t.sys.db.rows| && forall m :: 0 <= m < |t.changedAt| ==> t.changedAt[m] < 1
  {
    var run := [(Parking.SUBMIT, 0)];
    RunMore(wallets, [], Parking.SUBMIT, 0);
    assert [] + [(Parking.SUBMIT, 0)] == run;
    RunMore(wallets, run, Load(0), 0);
    ReadsPass(StampedRun(wallets, []), Parking.SUBMIT, 0);
    ReadsPass(StampedRun(wallets, run), Load(0), 0);
    actions := run + [(Load(0), 0)];
    StampsAreEarlier(wallets, actions, 1);
    StampedRunsAreRuns(wallets, actions);
  }

  lemma RoutePasses(wallets: map<nat, Wallet>, t: Stamped)
    requires Funded(wallets) && t.sys == Parking.LoadedSys(wallets) && |t.changedAt| == 1 && t.changedAt[0] < 1
    ensures StampedStep(t, Parking.ROUTE_IT, 1).sys == Step(t.sys, Parking.ROUTE_IT)
  {
    Parking.LoadedSysIs(wallets);
    CurrentCommitsIff(t, wallets, Parking.ROUTE_IT, 1);
  }

  /** Two more steps of a run, both let through. */
  lemma {:induction false} TwoMore(
    wallets: map<nat, Wallet>, before: seq<(Action, int)>, a: Action, b: Action, now: int)
    returns (actions: seq<(Action, int)>)
    requires StampedStep(StampedRun(wallets, before), a, now).sys == Step(StampedRun(wallets, before).sys, a) && b.Load?
    requires forall k :: 0 <= k < |before| ==> before[k].1 < now + 1
    ensures StampedRun(wallets, actions).sys == Step(Step(StampedRun(wallets, before).sys, a), b)
    ensures forall k :: 0 <= k < |actions| ==> actions[k].1 < now + 1
  {
    var one := before + [(a, now)];
    RunMore(wallets, before, a, now);
    RunMore(wallets, one, b, now);
    ReadsPass(StampedRun(wallets, one), b, now);
    actions := one + [(b, now)];
  }

  /** One message submitted and routed, and its dispatch event read. */
  lemma RoutedRun(wallets: map<nat, Wallet>) returns (actions: seq<(Action, int)>)
    requires Funded(wallets)
    ensures StampedRun(wallets, actions).sys == Parking.RoutedSys(wallets)
    ensures forall k :: 0 <= k < |actions| ==> actions[k].1 < 2
  {
    var before := SubmitRun(wallets);
    Parking.LoadedSysIs(wallets);
    RoutePasses(wallets, StampedRun(wallets, before));
    actions := TwoMore(wallets, before, Parking.ROUTE_IT, Load(1), 1);
  }

  /**
   A run after which a block on the whole current row, with time moved on, is rejected:
   nothing else is wrong with it.
   */
  lemma CurrentBlockIsRejected(wallets: map<nat, Wallet>) returns (actions: seq<(Action, int)>, a: Action)
    requires Funded(wallets)
    ensures var t := StampedRun(wallets, actions);
            && IsBlock(a) && GuardedSnapshot(t.sys, a).Some?
            && var snap := GuardedSnapshot(t.sys, a).value;
            && snap.id < |t.sys.db.rows| == |t.changedAt| && snap == t.sys.db.rows[snap.id] && t.changedAt[snap.id] < 2
            && Failure(t.sys, a).None? && !PassesTrigger(t, a, 2)
  {
    actions := RoutedRun(wallets);
    a := Dispatch(1, Block("spam"), 0, 2);
    RoutedSnapshot(wallets);
    StampsAreEarlier(wallets, actions, 2);
    StampedRunsAreRuns(wallets, actions);
    CurrentBlockFails(StampedRun(wallets, actions), wallets, a, 2);
  }

  lemma RoutedSnapshot(wallets: map<nat, Wallet>)
    requires Funded(wallets)
    ensures var s := Parking.RoutedSys(wallets);
            && |s.db.rows| == 1 && s.db.rows[0].id == 0
            && GuardedSnapshot(s, Dispatch(1, Block("spam"), 0, 2)) == Some(s.db.rows[0])
  {
    Parking.RoutedSysIs(wallets);
  }

  lemma CurrentBlockFails(t: Stamped, wallets: map<nat, Wallet>, a: Action, now: int)
    requires Reachable(t.sys, wallets) && |t.changedAt| == |t.sys.db.rows| && IsBlock(a)
    requires GuardedSnapshot(t.sys, a).Some?
    requires var snap := GuardedSnapshot(t.sys, a).value; snap.id < |t.sys.db.rows| && snap == t.sys.db.rows[snap.id]
    ensures Failure(t.sys, a).None? && !PassesTrigger(t, a, now)
  {
    HandlersCommitIffSnapshotIsCurrent(t.sys, wallets, a);
    CurrentCommitsIff(t, wallets, a, now);
  }

  lemma FailedBlockIsCrash(s: Sys, i: nat, reason: string, day: int, blockedAt: int)
    requires i < |s.deliveries| && s.deliveries[i].phase.Loaded? && IsDispatch(s.deliveries[i].event.topic)
    requires Failure(s, Dispatch(i, Block(reason), day, blockedAt)).Some?
    ensures Step(s, Dispatch(i, Block(reason), day, blockedAt)) == Step(s, Crash(i))
  {
  }

  /**
   So a fraud block never takes effect: whatever its snapshot and whenever it begins, its
   handler is thrown out and its event delivered again.
   */
  lemma {:induction false} BlocksNeverTakeEffect(
    wallets: map<nat, Wallet>, actions: seq<(Action, int)>, i: nat, reason: string, day: int, blockedAt: int,
    now: int)
    requires Funded(wallets)
    ensures var t := StampedRun(wallets, actions);
            GuardedSnapshot(t.sys, Dispatch(i, Block(reason), day, blockedAt)).Some? ==>
              StampedStep(t, Dispatch(i, Block(reason), day, blockedAt), now).sys == Step(t.sys, Crash(i))
  {
    StampedRunsAreRuns(wallets, actions);
    var t := StampedRun(wallets, actions);
    if GuardedSnapshot(t.sys, Dispatch(i, Block(reason), day, blockedAt)).Some? {
      BlockIsCrash(t, wallets, i, reason, day, blockedAt, now);
    }
  }

  lemma BlockIsCrash(t: Stamped, wallets: map<nat, Wallet>, i: nat, reason: string, day: int, blockedAt: int, now: int)
    requires Reachable(t.sys, wallets) && |t.changedAt| == |t.sys.db.rows|
    requires i < |t.sys.deliveries| && t.sys.deliveries[i].phase.Loaded? && IsDispatch(t.sys.deliveries[i].event.topic)
    ensures StampedStep(t, Dispatch(i, Block(reason), day, blockedAt), now).sys == Step(t.sys, Crash(i))
  {
    var a := Dispatch(i, Block(reason), day, blockedAt);
    if Failure(t.sys, a).None? {
      CurrentCommitsIff(t, wallets, a, now);
    } else {
      FailedBlockIsCrash(t.sys, i, reason, day, blockedAt);
    }
  }

  // ----- no fraud release -----

  predicate IsFraudRelease(e: LedgerEntry) {
    e.key.ReleaseKey? && e.key.path == FraudPath
  }

  predicate NoFraudRelease(ledger: seq<LedgerEntry>) {
    forall k :: 0 <= k < |ledger| ==> !IsFraudRelease(ledger[k])
  }

  lemma MovementIsNotForFraud(db: Db, tenant: nat, amount: int, operation: BillingOperation, key: LedgerKey, msg: nat)
    requires NoFraudRelease(db.ledger) && (key.ReleaseKey? ==> key.path != FraudPath)
    ensures var r := ApplyWalletLedger(db, tenant, amount, operation, key, msg); r.Ok? ==>
            NoFraudRelease(r.value.ledger)
  {
  }

  lemma SubmitIsNotForFraud(s: Sys, submission: Submission, day: int)
    requires NoFraudRelease(s.db.ledger)
    ensures NoFraudRelease(Step(s, Submit(submission, day)).db.ledger)
  {
    var row := NewRow(|s.db.rows|, submission);
    var inserted := s.db.(rows := s.db.rows + [row], history := s.db.history[(row.id, 0) := row]);
    MovementIsNotForFraud(inserted, submission.tenant, submission.price, Reserve, ReserveKey(row.id), row.id);
  }

  lemma ResultIsNotForFraud(
    db: Db, event: Event, snap: Row, policy: RetryPolicy, next: Option<Route>, day: int, now: int)
    requires NoFraudRelease(db.ledger) && ResultTx(db, event, snap, policy, next, day, now).Ok?
    ensures NoFraudRelease(ResultTx(db, event, snap, policy, next, day, now).value.ledger)
  {
    if event.accepted {
      var sent := TransitionMessage(db, snap, ProviderAccepted, AcceptedFields(event), false, now).value.0;
      MovementIsNotForFraud(sent, snap.tenant, snap.price, Debit, DebitKey(snap.id), snap.id);
    } else if !event.uncertain && !ShouldRetry(event, snap, policy) {
      var failed := TransitionMessage(db, snap, Failed, FailedFields(event), false, now).value.0;
      MovementIsNotForFraud(failed, snap.tenant, snap.price, Release, ReleaseKey(snap.id, FinalPath), snap.id);
    }
  }

  lemma HandlersAreNotForFraud(s: Sys, a: Action)
    requires NoFraudRelease(s.db.ledger) && (a.RouteAccepted? || a.Dispatch? || a.HandleResult?) && !IsBlock(a)
    ensures NoFraudRelease(Step(s, a).db.ledger)
  {
    if a.HandleResult? && GuardedSnapshot(s, a).Some? && Failure(s, a).None? {
      ResultIsNotForFraud(s.db, s.deliveries[a.i].event, s.deliveries[a.i].phase.snap, a.policy, a.next, a.day, a.now);
    }
  }

  lemma OthersAreNotForFraud(s: Sys, wallets: map<nat, Wallet>, a: Action)
    requires Reachable(s, wallets) && NoFraudRelease(s.db.ledger) && !IsBlock(a)
    ensures NoFraudRelease(Step(s, a).db.ledger)
  {
    if a.Submit? {
      SubmitIsNotForFraud(s, a.submission, a.day);
    } else if a.RouteAccepted? || a.Dispatch? || a.HandleResult? {
      HandlersAreNotForFraud(s, a);
    } else if a.HandleReceipt? {
      ReceiptsMoveNoMoney(s, wallets, a.k, a.day, a.now);
    } else {
      QuietStepsMoveNoMoney(s, a);
    }
  }

  lemma QuietStepsMoveNoMoney(s: Sys, a: Action)
    requires !a.Submit? && !a.HandleReceipt? && !a.RouteAccepted? && !a.Dispatch? && !a.HandleResult?
    ensures Step(s, a).db.ledger == s.db.ledger
  {
  }

  lemma StampedStepIsNotForFraud(t: Stamped, wallets: map<nat, Wallet>, a: Action, now: int)
    requires Reachable(t.sys, wallets) && |t.changedAt| == |t.sys.db.rows| && NoFraudRelease(t.sys.db.ledger)
    ensures NoFraudRelease(StampedStep(t, a, now).sys.db.ledger)
  {
    if IsBlock(a) && GuardedSnapshot(t.sys, a).Some? {
      BlockIsCrash(t, wallets, a.i, a.verdict.reason, a.day, a.now, now);
      CrashKeepsTables(t.sys, a.i);
    } else if PassesTrigger(t, a, now) {
      if !IsBlock(a) {
        OthersAreNotForFraud(t.sys, wallets, a);
      }
    } else if a.RouteAccepted? || a.Dispatch? || a.HandleResult? {
      CrashKeepsTables(t.sys, a.i);
    }
  }

  /** In no run with the trigger is any reservation released for fraud. */
  lemma {:induction false} NothingIsReleasedForFraud(wallets: map<nat, Wallet>, actions: seq<(Action, int)>)
    requires Funded(wallets)
    ensures NoFraudRelease(StampedRun(wallets, actions).sys.db.ledger)
  {
    if actions != [] {
      var init, last := actions[..|actions| - 1], actions[|actions| - 1];
      StampedRunsAreRuns(wallets, init);
      NothingIsReleasedForFraud(wallets, init);
      StampedStepIsNotForFraud(StampedRun(wallets, init), wallets, last.0, last.1);
    }
  }
}
