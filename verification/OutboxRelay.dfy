/**
 The outbox relay with any number of workers. A worker claims due rows under a
 lease in one transaction, then publishes them one by one, each outcome recorded
 by an update that checks nothing but the row's identity.
 */
module OutboxRelay {
  import opened Ranges

  datatype Status = Pending | Publishing | Published | GaveUp

  datatype Row = Row(payload: string, status: Status, nextAttemptAt: int, retryCount: nat)

  const MAX_ATTEMPTS := 10

  // ----- the claim transaction -----

  function Reclaimed(r: Row, now: int): Row {
    if r.status == Publishing && r.nextAttemptAt <= now then r.(status := Pending) else r
  }

  function ReclaimAll(rows: seq<Row>, now: int): (after: seq<Row>)
    ensures |after| == |rows|
    ensures forall i :: 0 <= i < |rows| ==> after[i] == Reclaimed(rows[i], now)
  {
    seq(|rows|, i requires 0 <= i < |rows| => Reclaimed(rows[i], now))
  }

  predicate Due(r: Row, now: int) {
    r.status == Pending && r.nextAttemptAt <= now
  }

  /** A row the claim may take: pending or with a lapsed lease, and due. */
  predicate Claimable(r: Row, now: int) {
    (r.status == Pending || r.status == Publishing) && r.nextAttemptAt <= now
  }

  /** The first `limit` due rows from index `from` on that no other transaction has locked. */
  function Select(rows: seq<Row>, locked: set<nat>, limit: nat, now: int, from: nat): (ids: seq<nat>)
    requires from <= |rows|
    ensures |ids| <= limit
    ensures forall k :: 0 <= k < |ids| ==> from <= ids[k] < |rows| && Due(rows[ids[k]], now) && ids[k] !in locked
    ensures forall j, k :: 0 <= j < k < |ids| ==> ids[j] < ids[k]
    decreases |rows| - from
  {
    if from == |rows| || limit == 0 then []
    else if Due(rows[from], now) && from !in locked then [from] + Select(rows, locked, limit - 1, now, from + 1)
    else Select(rows, locked, limit, now, from + 1)
  }

  /** A due, unlocked row is passed over only when the batch is full of older ones. */
  lemma {:induction false} SelectionIsComplete(
    rows: seq<Row>, locked: set<nat>, limit: nat, now: int, from: nat, id: nat)
    requires from <= id < |rows| && Due(rows[id], now) && id !in locked
    ensures var ids := Select(rows, locked, limit, now, from);
            id in ids || (|ids| == limit && forall k :: 0 <= k < |ids| ==> ids[k] < id)
    decreases |rows| - from
  {
    if limit > 0 {
      if Due(rows[from], now) && from !in locked {
        if from < id {
          SelectionIsComplete(rows, locked, limit - 1, now, from + 1, id);
        }
      } else {
        SelectionIsComplete(rows, locked, limit, now, from + 1, id);
      }
    }
  }

  function Leased(r: Row, now: int, leaseMs: int): Row {
    r.(status := Publishing, nextAttemptAt := now + leaseMs)
  }

  /** Lease each of the selected rows. */
  function LeaseAll(rows: seq<Row>, ids: seq<nat>, now: int, leaseMs: int): (after: seq<Row>)
    ensures |after| == |rows|
    ensures forall i :: 0 <= i < |rows| ==> after[i] == if i in ids then Leased(rows[i], now, leaseMs) else rows[i]
  {
    seq(|rows|, i requires 0 <= i < |rows| => if i in ids then Leased(rows[i], now, leaseMs) else rows[i])
  }

  // ----- recording an outcome -----

  function BackoffMs(retryCount: nat): int {
    var seconds := (retryCount + 1) * 5;
    1000 * (if seconds > 300 then 300 else if seconds < 5 then 5 else seconds)
  }

  function Succeeded(r: Row): Row {
    r.(status := Published)
  }

  function Failed(r: Row, now: int): Row {
    r.(status := if r.retryCount + 1 >= MAX_ATTEMPTS then GaveUp else Pending,
       retryCount := r.retryCount + 1,
       nextAttemptAt := now + BackoffMs(r.retryCount))
  }

  // ----- the service -----

  class OutboxRelay {
    var rows: seq<Row>
    var broker: seq<string>

    constructor (rows: seq<Row>)
      ensures this.rows == rows && broker == []
    {
      this.rows, broker := rows, [];
    }

    /** The claim transaction of `flushBatch`. */
    method Claim(locked: set<nat>, batchSize: nat, leaseMs: int, now: int) returns (ids: seq<nat>)
      modifies this
      ensures ids == Select(ReclaimAll(old(rows), now), locked, batchSize, now, 0)
      ensures rows == LeaseAll(ReclaimAll(old(rows), now), ids, now, leaseMs) && broker == old(broker)
    {
      rows := ReclaimAll(rows, now);
      ghost var reclaimed := rows;
      ids := Select(rows, locked, batchSize, now, 0);
      var k := 0;
      while k < |ids|
        invariant 0 <= k <= |ids| && |rows| == |reclaimed| && broker == old(broker)
        invariant forall i :: 0 <= i < |rows| ==>
                  rows[i] == if i in ids[..k] then Leased(reclaimed[i], now, leaseMs) else reclaimed[i]
      {
        var id := ids[k];
        assert id !in ids[..k];
        rows := rows[id := rows[id].(status := Publishing, nextAttemptAt := now + leaseMs)];
        assert ids[..k + 1] == ids[..k] + [id];
        k := k + 1;
      }
      assert ids[..k] == ids;
    }

    /** Publish one claimed row and record the outcome. */
    method Publish(id: nat, ok: bool, now: int)
      requires id < |rows|
      modifies this
      ensures rows == old(rows)[id := Recorded(old(rows)[id], ok, now)]
      ensures broker == old(broker) + (if ok then [old(rows)[id].payload] else [])
    {
      var row := rows[id];
      if ok {
        broker := broker + [row.payload];
        rows := rows[id := row.(status := Published)];
      } else {
        var status := if row.retryCount + 1 >= MAX_ATTEMPTS then GaveUp else Pending;
        rows := rows[id := row.(status := status, retryCount := row.retryCount + 1,
          nextAttemptAt := now + BackoffMs(row.retryCount))];
      }
    }

    /**
     One whole flush by a worker nobody interferes with: `delivered` says which
     publishes succeed, `at` when each outcome is recorded.
     */
    method FlushBatch(
      locked: set<nat>, batchSize: nat, leaseMs: int, now: int, delivered: set<nat>, at: nat -> int)
      returns (ids: seq<nat>)
      modifies this
      ensures ids == Select(ReclaimAll(old(rows), now), locked, batchSize, now, 0)
      ensures rows == RecordAll(LeaseAll(ReclaimAll(old(rows), now), ids, now, leaseMs), ids, delivered, at)
      ensures broker == old(broker) + Payloads(LeaseAll(ReclaimAll(old(rows), now), ids, now, leaseMs), ids, delivered)
    {
      ids := Claim(locked, batchSize, leaseMs, now);
      PublishAll(ids, delivered, at);
    }

    /** The publishing loop of `flushBatch`. */
    method PublishAll(ids: seq<nat>, delivered: set<nat>, at: nat -> int)
      requires forall k :: 0 <= k < |ids| ==> ids[k] < |rows| && ids[k] !in ids[..k]
      modifies this
      ensures rows == RecordAll(old(rows), ids, delivered, at)
      ensures broker == old(broker) + Payloads(old(rows), ids, delivered)
    {
      ghost var claimed, sent := rows, broker;
      var k := 0;
      while k < |ids|
        invariant 0 <= k <= |ids|
        invariant rows == RecordAll(claimed, ids[..k], delivered, at)
        invariant broker == sent + Payloads(claimed, ids[..k], delivered)
      {
        RecordOneMore(claimed, ids, k, delivered, at);
        Publish(ids[k], ids[k] in delivered, at(ids[k]));
        k := k + 1;
      }
      assert ids[..k] == ids;
    }
  }

  function Recorded(r: Row, ok: bool, now: int): Row {
    if ok then Succeeded(r) else Failed(r, now)
  }

  /** Each claimed row with its outcome recorded. */
  function RecordAll(rows: seq<Row>, ids: seq<nat>, delivered: set<nat>, at: nat -> int): (after: seq<Row>)
    ensures |after| == |rows|
    ensures forall i :: 0 <= i < |rows| ==>
            after[i] == if i in ids then Recorded(rows[i], i in delivered, at(i)) else rows[i]
  {
    seq(|rows|, i requires 0 <= i < |rows| => if i in ids then Recorded(rows[i], i in delivered, at(i)) else rows[i])
  }

  lemma {:induction false} RecordOneMore(rows: seq<Row>, ids: seq<nat>, k: nat, delivered: set<nat>, at: nat -> int)
    requires k < |ids| && (forall j :: 0 <= j < |ids| ==> ids[j] < |rows|) && ids[k] !in ids[..k]
    ensures var id := ids[k];
            var before := RecordAll(rows, ids[..k], delivered, at);
            && before[id] == rows[id]
            && RecordAll(rows, ids[..k + 1], delivered, at) == before[id := Recorded(rows[id], id in delivered, at(id))]
            && Payloads(rows, ids[..k + 1], delivered) == Payloads(rows, ids[..k], delivered)
               + (if id in delivered then [rows[id].payload] else [])
  {
    assert ids[..k + 1] == ids[..k] + [ids[k]];
    assert ids[..k + 1][..k] == ids[..k];
  }

  /** What reaches the broker, in claim order. */
  function Payloads(rows: seq<Row>, ids: seq<nat>, delivered: set<nat>): seq<string>
    requires forall k :: 0 <= k < |ids| ==> ids[k] < |rows|
  {
    if ids == [] then []
    else
      var last := ids[|ids| - 1];
      Payloads(rows, ids[..|ids| - 1], delivered) + (if last in delivered then [rows[last].payload] else [])
  }

  // ----- many workers -----

  datatype HoldState = Claimed | Sent | Done

  /** A claimed row in a worker's hands, until its outcome is recorded or the worker is lost. */
  datatype Hold = Hold(worker: nat, id: nat, deadline: int, state: HoldState)

  /** `broker` counts deliveries and `failures` recorded failures, by row. */
  datatype Sys = Sys(rows: seq<Row>, holds: seq<Hold>, broker: multiset<nat>, failures: multiset<nat>)

  datatype Action =
    | Insert(payload: string, at: int)
    | Claim(worker: nat, locked: set<nat>, batchSize: nat, leaseMs: int, now: int)
    | Send(h: nat)
    | RecordSuccess(h: nat)
    | RecordFailure(h: nat, now: int)
    | Lose(h: nat)

  predicate Active(h: Hold) {
    h.state != Done
  }

  function HoldsFor(worker: nat, ids: seq<nat>, deadline: int): (holds: seq<Hold>)
    ensures |holds| == |ids|
    ensures forall k :: 0 <= k < |ids| ==> holds[k] == Hold(worker, ids[k], deadline, Claimed)
  {
    seq(|ids|, k requires 0 <= k < |ids| => Hold(worker, ids[k], deadline, Claimed))
  }

  function ClaimStep(s: Sys, worker: nat, locked: set<nat>, batchSize: nat, leaseMs: int, now: int): Sys {
    var reclaimed := ReclaimAll(s.rows, now);
    var ids := Select(reclaimed, locked, batchSize, now, 0);
    s.(rows := LeaseAll(reclaimed, ids, now, leaseMs), holds := s.holds + HoldsFor(worker, ids, now + leaseMs))
  }

  function Release(s: Sys, h: nat): seq<Hold>
    requires h < |s.holds|
  {
    s.holds[h := s.holds[h].(state := Done)]
  }

  function Step(s: Sys, a: Action): Sys {
    match a
    case Insert(payload, at) => s.(rows := s.rows + [Row(payload, Pending, at, 0)])
    case Claim(worker, locked, batchSize, leaseMs, now) => ClaimStep(s, worker, locked, batchSize, leaseMs, now)
    case Send(h) =>
      if h < |s.holds| && s.holds[h].state == Claimed
      then s.(holds := s.holds[h := s.holds[h].(state := Sent)], broker := s.broker + multiset{s.holds[h].id})
      else s
    case RecordSuccess(h) =>
      if h < |s.holds| && s.holds[h].state == Sent && s.holds[h].id < |s.rows|
      then s.(rows := s.rows[s.holds[h].id := Succeeded(s.rows[s.holds[h].id])], holds := Release(s, h))
      else s
    case RecordFailure(h, now) =>
      if h < |s.holds| && Active(s.holds[h]) && s.holds[h].id < |s.rows|
      then s.(rows := s.rows[s.holds[h].id := Failed(s.rows[s.holds[h].id], now)], holds := Release(s, h),
              failures := s.failures + multiset{s.holds[h].id})
      else s
    case Lose(h) =>
      if h < |s.holds| then s.(holds := Release(s, h)) else s
  }

  function Run(s: Sys, actions: seq<Action>): Sys
    decreases |actions|
  {
    if actions == [] then s else Run(Step(s, actions[0]), actions[1..])
  }

  function Start(): Sys {
    Sys([], [], multiset{}, multiset{})
  }

  ghost predicate RowOk(s: Sys, i: nat)
    requires i < |s.rows|
  {
    && s.rows[i].retryCount == s.failures[i]
    && (s.rows[i].status == Published ==> i in s.broker)
    && (s.rows[i].status == GaveUp ==> s.failures[i] >= MAX_ATTEMPTS)
  }

  ghost predicate HoldOk(s: Sys, h: Hold) {
    h.id < |s.rows| && (h.state == Sent ==> h.id in s.broker)
  }

  ghost predicate Inv(s: Sys) {
    && (forall i: nat :: i < |s.rows| ==> RowOk(s, i))
    && (forall i: nat :: i >= |s.rows| ==> s.failures[i] == 0)
    && (forall h :: 0 <= h < |s.holds| ==> HoldOk(s, s.holds[h]))
  }

  lemma ClaimKeeps(s: Sys, worker: nat, locked: set<nat>, batchSize: nat, leaseMs: int, now: int)
    requires Inv(s)
    ensures Inv(ClaimStep(s, worker, locked, batchSize, leaseMs, now))
  {
    var after := ClaimStep(s, worker, locked, batchSize, leaseMs, now);
    forall i: nat | i < |after.rows|
      ensures RowOk(after, i)
    {
      assert RowOk(s, i);
    }
    forall h | 0 <= h < |after.holds|
      ensures HoldOk(after, after.holds[h])
    {
      if h < |s.holds| {
        assert HoldOk(s, s.holds[h]);
      }
    }
  }

  lemma RecordKeeps(s: Sys, a: Action)
    requires Inv(s) && (a.Send? || a.RecordSuccess? || a.RecordFailure? || a.Lose?)
    ensures Inv(Step(s, a))
  {
    var after := Step(s, a);
    forall i: nat | i < |after.rows|
      ensures RowOk(after, i)
    {
      assert RowOk(s, i);
      if a.h < |s.holds| {
        assert HoldOk(s, s.holds[a.h]);
      }
    }
    forall h | 0 <= h < |after.holds|
      ensures HoldOk(after, after.holds[h])
    {
      assert HoldOk(s, s.holds[h]);
    }
    forall i: nat | i >= |after.rows|
      ensures after.failures[i] == 0
    {
      if a.h < |s.holds| {
        assert HoldOk(s, s.holds[a.h]);
      }
    }
  }

  lemma StepKeeps(s: Sys, a: Action)
    requires Inv(s)
    ensures Inv(Step(s, a))
  {
    match a
    case Claim(worker, locked, batchSize, leaseMs, now) => ClaimKeeps(s, worker, locked, batchSize, leaseMs, now);
    case Insert(_, _) =>
      forall i: nat | i < |Step(s, a).rows|
        ensures RowOk(Step(s, a), i)
      {
        assert i < |s.rows| ==> RowOk(s, i);
      }
      forall h | 0 <= h < |s.holds|
        ensures HoldOk(Step(s, a), s.holds[h])
      {
        assert HoldOk(s, s.holds[h]);
      }
    case _ => RecordKeeps(s, a);
  }

  lemma StepKeepsPayloads(s: Sys, a: Action)
    ensures |Step(s, a).rows| >= |s.rows|
    ensures forall i :: 0 <= i < |s.rows| ==> Step(s, a).rows[i].payload == s.rows[i].payload
  {
  }

  /** No row is ever lost and no payload changes. */
  lemma {:induction false} NoRowIsLost(s: Sys, actions: seq<Action>)
    ensures |Run(s, actions).rows| >= |s.rows|
    ensures forall i :: 0 <= i < |s.rows| ==> Run(s, actions).rows[i].payload == s.rows[i].payload
    decreases |actions|
  {
    if actions != [] {
      StepKeepsPayloads(s, actions[0]);
      NoRowIsLost(Step(s, actions[0]), actions[1..]);
    }
  }

  lemma {:induction false} RunKeeps(s: Sys, actions: seq<Action>)
    requires Inv(s)
    ensures Inv(Run(s, actions))
    decreases |actions|
  {
    if actions != [] {
      StepKeeps(s, actions[0]);
      RunKeeps(Step(s, actions[0]), actions[1..]);
    }
  }

  /**
   Whatever the workers do, late ones included: a published row did reach the
   broker, the retry count is the number of failures recorded, and a row is given
   up only after ten of them.
   */
  lemma {:induction false} PublishedWasDelivered(actions: seq<Action>, i: nat)
    requires i < |Run(Start(), actions).rows|
    ensures var s := Run(Start(), actions);
            && (s.rows[i].status == Published ==> i in s.broker)
            && s.rows[i].retryCount == s.failures[i]
            && (s.rows[i].status == GaveUp ==> s.failures[i] >= MAX_ATTEMPTS)
  {
    RunKeeps(Start(), actions);
    assert RowOk(Run(Start(), actions), i);
  }

  /**
   Once due and not locked, a row that is neither published nor given up is leased by the
   next claim, unless the batch is full of older rows.
   */
  lemma {:induction false} DueRowsAreClaimed(
    s: Sys, worker: nat, locked: set<nat>, batchSize: nat, leaseMs: int, now: int, id: nat)
    requires id < |s.rows| && Claimable(s.rows[id], now) && id !in locked
    ensures var ids := Select(ReclaimAll(s.rows, now), locked, batchSize, now, 0);
            var after := Step(s, Claim(worker, locked, batchSize, leaseMs, now));
            if id in ids then
              && after.rows[id].status == Publishing && after.rows[id].nextAttemptAt == now + leaseMs
              && Hold(worker, id, now + leaseMs, Claimed) in after.holds
            else |ids| == batchSize && forall k :: 0 <= k < |ids| ==> ids[k] < id
  {
    var ids := Select(ReclaimAll(s.rows, now), locked, batchSize, now, 0);
    SelectionIsComplete(ReclaimAll(s.rows, now), locked, batchSize, now, 0, id);
    if id in ids {
      HoldsForAll(s.holds, worker, ids, now + leaseMs, id);
    }
  }

  lemma HoldsForAll(holds: seq<Hold>, worker: nat, ids: seq<nat>, deadline: int, id: nat)
    requires id in ids
    ensures Hold(worker, id, deadline, Claimed) in holds + HoldsFor(worker, ids, deadline)
  {
    var k :| 0 <= k < |ids| && ids[k] == id;
    assert HoldsFor(worker, ids, deadline)[k] == Hold(worker, id, deadline, Claimed);
  }

  // ----- leases exclude -----

  /** Every lease still held has time left. */
  predicate NoneOverrun(s: Sys, now: int) {
    forall h :: 0 <= h < |s.holds| && Active(s.holds[h]) ==> now < s.holds[h].deadline
  }

  /** No worker overruns: when a claim is made every lease still held has time left. */
  predicate Punctual(s: Sys, a: Action) {
    a.Claim? ==> NoneOverrun(s, a.now)
  }

  predicate PunctualRun(s: Sys, actions: seq<Action>)
    decreases |actions|
  {
    actions != [] ==> Punctual(s, actions[0]) && PunctualRun(Step(s, actions[0]), actions[1..])
  }

  ghost predicate LeaseOk(s: Sys, h: Hold) {
    && h.id < |s.rows|
    && s.rows[h.id].status == Publishing
    && s.rows[h.id].nextAttemptAt == h.deadline
  }

  ghost predicate LeasesOk(s: Sys) {
    forall h :: 0 <= h < |s.holds| && Active(s.holds[h]) ==> LeaseOk(s, s.holds[h])
  }

  /** No row is in two hands. */
  ghost predicate Disjoint(holds: seq<Hold>) {
    forall g, h :: 0 <= g < h < |holds| && Active(holds[g]) && Active(holds[h]) ==> holds[g].id != holds[h].id
  }

  lemma ClaimExcludes(s: Sys, a: Action)
    requires LeasesOk(s) && Disjoint(s.holds) && a.Claim? && Punctual(s, a)
    ensures LeasesOk(Step(s, a)) && Disjoint(Step(s, a).holds)
  {
    var reclaimed := ReclaimAll(s.rows, a.now);
    var ids := Select(reclaimed, a.locked, a.batchSize, a.now, 0);
    var after := ClaimStep(s, a.worker, a.locked, a.batchSize, a.leaseMs, a.now);
    forall h | 0 <= h < |s.holds| && Active(s.holds[h])
      ensures s.holds[h].id !in ids && LeaseOk(after, s.holds[h])
    {
      assert LeaseOk(s, s.holds[h]);
      assert !Due(reclaimed[s.holds[h].id], a.now);
    }
    forall h | |s.holds| <= h < |after.holds|
      ensures LeaseOk(after, after.holds[h])
    {
      assert ids[h - |s.holds|] in ids;
    }
  }

  lemma OutcomeExcludes(s: Sys, a: Action)
    requires LeasesOk(s) && Disjoint(s.holds) && !a.Claim?
    ensures LeasesOk(Step(s, a)) && Disjoint(Step(s, a).holds)
  {
    var after := Step(s, a);
    forall h | 0 <= h < |after.holds| && Active(after.holds[h])
      ensures LeaseOk(after, after.holds[h])
    {
      assert LeaseOk(s, s.holds[h]);
    }
  }

  /** While no lease is overrun, no two workers ever hold the same row, in any run. */
  lemma {:induction false} LeasesExclude(s: Sys, actions: seq<Action>)
    requires LeasesOk(s) && Disjoint(s.holds) && PunctualRun(s, actions)
    ensures LeasesOk(Run(s, actions)) && Disjoint(Run(s, actions).holds)
    decreases |actions|
  {
    if actions != [] {
      if actions[0].Claim? {
        ClaimExcludes(s, actions[0]);
      } else {
        OutcomeExcludes(s, actions[0]);
      }
      LeasesExclude(Step(s, actions[0]), actions[1..]);
    }
  }

  /** A claim at `now` for one row, by a worker that finds every other row locked. */
  function LoneClaim(s: Sys, id: nat, now: int): Action {
    Claim(0, AllBut(|s.rows|, id), 1, 1000, now)
  }

  /** Such a claim takes the row of an overrun lease, which is then in two hands. */
  lemma OverrunIsShared(s: Sys, h: nat, now: int)
    requires LeasesOk(s) && h < |s.holds| && Active(s.holds[h]) && s.holds[h].deadline <= now
    ensures !Disjoint(Step(s, LoneClaim(s, s.holds[h].id, now)).holds)
  {
    var id := s.holds[h].id;
    assert LeaseOk(s, s.holds[h]);
    DueRowsAreClaimed(s, 0, AllBut(|s.rows|, id), 1, 1000, now, id);
    var ids := Select(ReclaimAll(s.rows, now), AllBut(|s.rows|, id), 1, now, 0);
    assert forall k :: 0 <= k < |ids| ==> ids[k] == id;
    assert |ids| == 1;
    var after := ClaimStep(s, 0, AllBut(|s.rows|, id), 1, 1000, now);
    assert after.holds[h] == s.holds[h] && after.holds[|s.holds|].id == id;
  }

  /**
   The condition is exact: every claim that could be made at `now` leaves each row in one
   hand if and only if no lease is overrun by then.
   */
  lemma ClaimsExcludeIffNoneOverrun(s: Sys, now: int)
    requires LeasesOk(s) && Disjoint(s.holds)
    ensures (forall a: Action :: a.Claim? && a.now == now ==> Disjoint(Step(s, a).holds)) <==> NoneOverrun(s, now)
  {
    if NoneOverrun(s, now) {
      forall a: Action | a.Claim? && a.now == now
        ensures Disjoint(Step(s, a).holds)
      {
        ClaimExcludes(s, a);
      }
    } else {
      var h :| 0 <= h < |s.holds| && Active(s.holds[h]) && s.holds[h].deadline <= now;
      OverrunIsShared(s, h, now);
    }
  }

  ghost predicate Held(s: Sys, i: nat) {
    exists h :: 0 <= h < |s.holds| && Active(s.holds[h]) && s.holds[h].id == i
  }

  /** A published row is safe from every next step exactly when no worker, late or not, still holds it. */
  lemma PublishedIsSafeIffNotHeld(s: Sys, i: nat)
    requires i < |s.rows| && s.rows[i].status == Published
    ensures (forall a :: Step(s, a).rows[i].status == Published) <==> !Held(s, i)
  {
    if Held(s, i) {
      var h :| 0 <= h < |s.holds| && Active(s.holds[h]) && s.holds[h].id == i;
      assert Step(s, RecordFailure(h, 0)).rows[i] == Failed(s.rows[i], 0);
    } else {
      forall a: Action
        ensures Step(s, a).rows[i].status == Published
      {
        NotHeldStays(s, a, i);
      }
    }
  }

  /** A published row nobody holds: the next step leaves it published, and held by nobody. */
  lemma NotHeldStays(s: Sys, a: Action, i: nat)
    requires i < |s.rows| && s.rows[i].status == Published && !Held(s, i)
    ensures i < |Step(s, a).rows| && Step(s, a).rows[i].status == Published && !Held(Step(s, a), i)
  {
    if a.Claim? {
      var reclaimed := ReclaimAll(s.rows, a.now);
      var ids := Select(reclaimed, a.locked, a.batchSize, a.now, 0);
      assert !Due(reclaimed[i], a.now);
      assert i !in ids;
      var after := ClaimStep(s, a.worker, a.locked, a.batchSize, a.leaseMs, a.now);
      forall h | 0 <= h < |after.holds| && Active(after.holds[h])
        ensures after.holds[h].id != i
      {
        assert h >= |s.holds| ==> ids[h - |s.holds|] in ids;
      }
    }
  }

  /** Once published and let go of, a row is published for ever, whatever any workers do. */
  lemma {:induction false} ReleasedStaysPublished(s: Sys, actions: seq<Action>, i: nat)
    requires i < |s.rows| && s.rows[i].status == Published && !Held(s, i)
    ensures i < |Run(s, actions).rows| && Run(s, actions).rows[i].status == Published
    decreases |actions|
  {
    if actions != [] {
      NotHeldStays(s, actions[0], i);
      ReleasedStaysPublished(Step(s, actions[0]), actions[1..], i);
    }
  }

  /** While no lease is overrun a published row is held by nobody, so in such runs published is final. */
  lemma {:induction false} PunctualPublishIsFinal(s: Sys, earlier: seq<Action>, later: seq<Action>, i: nat)
    requires LeasesOk(s) && Disjoint(s.holds) && PunctualRun(s, earlier)
    requires i < |Run(s, earlier).rows| && Run(s, earlier).rows[i].status == Published
    ensures !Held(Run(s, earlier), i)
    ensures i < |Run(Run(s, earlier), later).rows| && Run(Run(s, earlier), later).rows[i].status == Published
  {
    LeasesExclude(s, earlier);
    ReleasedStaysPublished(Run(s, earlier), later, i);
  }

  /**
   The condition is needed: a worker past its lease still holds the row another
   one claims, and its failure takes the row back after it was published, to pending
   or, on the tenth failure, to given up.
   */
  lemma OverrunUnpublishes(s: Sys, h: nat, now: int)
    requires h < |s.holds| && Active(s.holds[h]) && s.holds[h].id < |s.rows|
    requires s.rows[s.holds[h].id].status == Published
    ensures var row := Step(s, RecordFailure(h, now)).rows[s.holds[h].id];
            && row.status == (if s.rows[s.holds[h].id].retryCount + 1 < MAX_ATTEMPTS then Pending else GaveUp)
            && row.retryCount == s.rows[s.holds[h].id].retryCount + 1
  {
  }

  /** Such a state is reachable with two workers and one row. */
  lemma OverrunIsReachable() returns (actions: seq<Action>)
    ensures var s := Run(Start(), actions);
            |s.rows| == 1 && s.rows[0].status == Published && s.rows[0].retryCount == 0
            && |s.holds| == 2 && Active(s.holds[0]) && s.holds[0].id == 0
  {
    var c1 := Claim(1, {}, 1, 1000, 0);
    var c2 := Claim(2, {}, 1, 1000, 1000);
    var s1 := Step(Start(), Insert("sms", 0));
    var s2 := Step(s1, c1);
    ClaimOnly(s1, 1, 1000, 0);
    var s3 := Step(s2, c2);
    ClaimOnly(s2, 2, 1000, 1000);
    var s4 := Step(s3, Send(1));
    var s5 := Step(s4, RecordSuccess(1));
    actions := [Insert("sms", 0), c1, c2, Send(1), RecordSuccess(1)];
    assert actions == [Insert("sms", 0)] + ([c1] + ([c2] + ([Send(1)] + ([RecordSuccess(1)] + []))));
    RunMore(Start(), Insert("sms", 0), [c1] + ([c2] + ([Send(1)] + ([RecordSuccess(1)] + []))));
    RunMore(s1, c1, [c2] + ([Send(1)] + ([RecordSuccess(1)] + [])));
    RunMore(s2, c2, [Send(1)] + ([RecordSuccess(1)] + []));
    RunMore(s3, Send(1), [RecordSuccess(1)] + []);
    RunMore(s4, RecordSuccess(1), []);
  }

  lemma ClaimOnly(s: Sys, worker: nat, leaseMs: int, now: int)
    requires |s.rows| == 1 && Claimable(s.rows[0], now)
    ensures ClaimStep(s, worker, {}, 1, leaseMs, now)
         == s.(rows := [Leased(s.rows[0], now, leaseMs)], holds := s.holds + [Hold(worker, 0, now + leaseMs, Claimed)])
  {
    assert Select(ReclaimAll(s.rows, now), {}, 1, now, 0) == [0];
    assert HoldsFor(worker, [0], now + leaseMs) == [Hold(worker, 0, now + leaseMs, Claimed)];
  }

  lemma {:induction false} RunMore(s: Sys, a: Action, rest: seq<Action>)
    ensures Run(s, [a] + rest) == Run(Step(s, a), rest)
  {
    assert ([a] + rest)[1..] == rest;
  }

  // ----- what each step writes -----

  /** What a claim at `now` may make of a row. */
  predicate ClaimedOrLeft(before: Row, after: Row, taken: bool, leaseMs: int, now: int) {
    && after.payload == before.payload && after.retryCount == before.retryCount
    && if taken then
         && (before.status == Pending || before.status == Publishing) && before.nextAttemptAt <= now
         && after.status == Publishing && after.nextAttemptAt == now + leaseMs
       else
         && after.nextAttemptAt == before.nextAttemptAt
         && after.status
              == (if before.status == Publishing && before.nextAttemptAt <= now then Pending else before.status)
  }

  /**
   A claim takes due rows that nobody has locked, at most as many as asked for, the oldest
   first; of the others it only takes back the leases that have lapsed.
   */
  lemma {:induction false} ClaimEffect(
    s: Sys, worker: nat, locked: set<nat>, batchSize: nat, leaseMs: int, now: int) returns (ids: seq<nat>)
    ensures var after := Step(s, Claim(worker, locked, batchSize, leaseMs, now));
            && |after.rows| == |s.rows| && |ids| <= batchSize
            && after.broker == s.broker && after.failures == s.failures
            && (forall i: nat :: i < |s.rows| ==>
                  ClaimedOrLeft(s.rows[i], after.rows[i], i in ids, leaseMs, now) && (i in ids ==> i !in locked))
            && |after.holds| == |s.holds| + |ids| && after.holds[..|s.holds|] == s.holds
            && (forall k :: 0 <= k < |ids| ==>
                  ids[k] < |s.rows| && after.holds[|s.holds| + k] == Hold(worker, ids[k], now + leaseMs, Claimed))
            && (forall j, k :: 0 <= j < k < |ids| ==> ids[j] < ids[k])
            && (|ids| < batchSize ==>
                  forall i: nat :: i < |s.rows| && Claimable(s.rows[i], now) && i !in locked ==> i in ids)
  {
    ids := Select(ReclaimAll(s.rows, now), locked, batchSize, now, 0);
    forall i: nat | i < |s.rows| && Claimable(s.rows[i], now) && i !in locked && |ids| < batchSize
      ensures i in ids
    {
      DueRowsAreClaimed(s, worker, locked, batchSize, leaseMs, now, i);
    }
  }

  /** Nothing but row `i` changed. */
  predicate OnlyRow(before: seq<Row>, after: seq<Row>, i: nat) {
    |after| == |before| && forall j :: 0 <= j < |before| && j != i ==> after[j] == before[j]
  }

  /**
   In any run from the empty table, the n-th failure of a row makes it wait 5n seconds, five
   minutes at most, and gives it up from the tenth on.
   */
  lemma {:induction false} FailureBacksOff(actions: seq<Action>, h: nat, now: int)
    ensures var s := Run(Start(), actions);
            h < |s.holds| && Active(s.holds[h]) ==>
              var i, after := s.holds[h].id, Step(s, RecordFailure(h, now));
              && i < |s.rows| && OnlyRow(s.rows, after.rows, i) && after.failures[i] == s.failures[i] + 1
              && var n, row := after.failures[i], after.rows[i];
              && row.payload == s.rows[i].payload && row.retryCount == n
              && row.nextAttemptAt == now + (if n <= 60 then 5_000 * n else 300_000)
              && row.status == (if n >= 10 then GaveUp else Pending)
  {
    RunKeeps(Start(), actions);
    var s := Run(Start(), actions);
    if h < |s.holds| {
      assert HoldOk(s, s.holds[h]) && RowOk(s, s.holds[h].id);
    }
  }

  /** A send puts the row on the broker once; recording it marks the row and changes nothing else in it. */
  lemma SuccessEffect(s: Sys, h: nat)
    requires h < |s.holds| && s.holds[h].state == Claimed && s.holds[h].id < |s.rows|
    ensures var i, sent := s.holds[h].id, Step(s, Send(h));
            var after := Step(sent, RecordSuccess(h));
            && sent.rows == s.rows && sent.broker == s.broker + multiset{i}
            && OnlyRow(s.rows, after.rows, i) && after.broker == sent.broker && after.failures == s.failures
            && after.rows[i] == s.rows[i].(status := Published) && !Active(after.holds[h])
  {
  }
}
