/**
 What every committed transaction keeps true of the tables: rows move along the
 status graph one version at a time, billing follows status, each priced message
 has its ledger entries, and each wallet balances.
 */
module Settlement {
  import opened Wrappers
  import opened Sums
  import opened Messages
  import opened Store

  // ----- rows and their history -----

  predicate Terminal(status: Status) {
    AllowedTransitions(status) == {}
  }

  /** Billing is a function of how far the message got and whether the provider ever took it. */
  predicate RowOk(row: Row) {
    match row.status
    case Accepted | Routed | Submitting => row.billing == Reserved && row.sentAt.None? && row.providerMessageId.None?
    case ProviderAccepted | Delivered => row.billing == Debited && row.sentAt.Some?
    case Failed =>
      || (row.billing == Released && row.sentAt.None? && row.providerMessageId.None?)
      || (row.billing == Debited && row.sentAt.Some?)
  }

  predicate SameMessage(a: Row, b: Row) {
    a.id == b.id && a.submitDate == b.submitDate && a.tenant == b.tenant && a.content == b.content
    && a.price == b.price && a.parts == b.parts
  }

  /** `b` is the next version of `a`. */
  predicate Follows(a: Row, b: Row) {
    && SameMessage(a, b)
    && b.version == a.version + 1
    && !Terminal(a.status)
    && (b.status == a.status || b.status in AllowedTransitions(a.status))
    && a.attempts <= b.attempts <= a.attempts + 1
    && (b.billing == a.billing || a.billing == Reserved)
  }

  ghost predicate VersionAt(db: Db, m: nat, v: nat)
    requires m < |db.rows|
  {
    && (m, v) in db.history
    && var row := db.history[(m, v)];
    && row.version == v
    && SameMessage(row, db.rows[m])
    && RowOk(row)
    && (v > 0 ==> (m, v - 1) in db.history && Follows(db.history[(m, v - 1)], row))
    && (v == db.rows[m].version ==> row == db.rows[m])
  }

  ghost predicate HistoryOk(db: Db) {
    forall m: nat, v: nat :: m < |db.rows| && v <= db.rows[m].version ==> VersionAt(db, m, v)
  }

  ghost predicate RowsOk(db: Db) {
    forall m :: 0 <= m < |db.rows| ==>
      && db.rows[m].id == m
      && RowOk(db.rows[m])
      && (db.rows[m].price > 0 ==> db.rows[m].tenant in db.wallets)
  }

  // ----- ledger -----

  predicate KeyMatches(entry: LedgerEntry) {
    match entry.operation
    case Reserve => entry.key == ReserveKey(entry.msg)
    case Debit => entry.key == DebitKey(entry.msg)
    case Release => entry.key.ReleaseKey? && entry.key.msg == entry.msg
  }

  ghost predicate EntriesOk(db: Db) {
    forall k :: 0 <= k < |db.ledger| ==>
      var e := db.ledger[k];
      && KeyMatches(e)
      && e.msg < |db.rows|
      && e.tenant == db.rows[e.msg].tenant
      && e.amount == db.rows[e.msg].price > 0
      && e.balanceAfter == e.balanceBefore - e.amount
  }

  /** Counts the entries of one operation for one message. */
  function CountOf(m: nat, operation: BillingOperation): LedgerEntry -> int {
    (e: LedgerEntry) => if e.msg == m && e.operation == operation then 1 else 0
  }

  function Indicator(b: bool): int {
    if b then 1 else 0
  }

  ghost predicate LedgerAt(db: Db, m: nat)
    requires m < |db.rows|
  {
    var row := db.rows[m];
    && Sum(db.ledger, CountOf(m, Reserve)) == Indicator(row.price > 0)
    && Sum(db.ledger, CountOf(m, Debit)) == Indicator(row.price > 0 && row.billing == Debited)
    && Sum(db.ledger, CountOf(m, Release)) == Indicator(row.price > 0 && row.billing == Released)
  }

  ghost predicate LedgerOk(db: Db) {
    forall m: nat :: m < |db.rows| ==> LedgerAt(db, m)
  }

  // ----- wallets -----

  function Max(x: int, y: int): int {
    if x < y then y else x
  }

  /** What a message keeps reserved in the wallet of tenant `t`. */
  function HeldFor(t: nat): Row -> int {
    (r: Row) => if r.tenant == t && r.billing == Reserved then Max(r.price, 0) else 0
  }

  /** What an entry took out of the wallet of tenant `t` for good. */
  function DebitedFrom(t: nat): LedgerEntry -> int {
    (e: LedgerEntry) => if e.tenant == t && e.operation == Debit then e.amount else 0
  }

  ghost predicate WalletAt(db: Db, initial: map<nat, Wallet>, t: nat)
    requires t in db.wallets && t in initial
  {
    var w := db.wallets[t];
    && w.creditLimit == initial[t].creditLimit
    && w.reserved == Sum(db.rows, HeldFor(t))
    && w.available + w.reserved + Sum(db.ledger, DebitedFrom(t)) == initial[t].available
    && w.available + w.creditLimit >= 0
  }

  ghost predicate WalletsOk(db: Db, initial: map<nat, Wallet>) {
    && db.wallets.Keys == initial.Keys
    && forall t :: t in initial ==> WalletAt(db, initial, t)
  }

  ghost predicate Inv(db: Db, initial: map<nat, Wallet>) {
    RowsOk(db) && HistoryOk(db) && EntriesOk(db) && LedgerOk(db) && WalletsOk(db, initial)
  }

  predicate PastRouting(status: Status) {
    status != Accepted && status != Routed
  }

  /** Committed versions stay, and rows only move forward. */
  ghost predicate Grew(before: Db, after: Db) {
    && |before.rows| <= |after.rows|
    && (forall m :: 0 <= m < |before.rows| ==>
          && before.rows[m].version <= after.rows[m].version
          && (PastRouting(before.rows[m].status) ==> PastRouting(after.rows[m].status))
          && (Terminal(before.rows[m].status) ==> after.rows[m] == before.rows[m]))
    && (forall m: nat, v: nat :: m < |before.rows| && v <= before.rows[m].version && (m, v) in before.history ==>
          (m, v) in after.history && after.history[(m, v)] == before.history[(m, v)])
  }

  /** `after` is `before` with the one message `m` moved to a later version. */
  ghost predicate Advanced(before: Db, after: Db, initial: map<nat, Wallet>, m: nat) {
    && Inv(after, initial)
    && Grew(before, after)
    && m < |before.rows| == |after.rows|
    && after.rows == before.rows[m := after.rows[m]]
    && after.rows[m].version > before.rows[m].version
  }

  /** Tables without messages are in order when the wallets are. */
  lemma EmptyOk(db: Db, initial: map<nat, Wallet>)
    requires db.rows == [] && db.ledger == [] && db.wallets == initial
    requires forall t :: t in initial ==> initial[t].reserved == 0 && initial[t].available + initial[t].creditLimit >= 0
    ensures Inv(db, initial)
  {
    assert RowsOk(db) && HistoryOk(db) && EntriesOk(db) && LedgerOk(db);
    forall t | t in initial
      ensures WalletAt(db, initial, t)
    {
      assert Sum(db.rows, HeldFor(t)) == 0 && Sum(db.ledger, DebitedFrom(t)) == 0;
    }
  }

  // ----- single writes -----

  lemma HistoryAfterWrite(db: Db, m: nat, row: Row)
    requires RowsOk(db) && HistoryOk(db) && m < |db.rows|
    requires Follows(db.rows[m], row) && RowOk(row)
    ensures HistoryOk(WriteRow(db, m, row)) && RowsOk(WriteRow(db, m, row))
  {
    var after := WriteRow(db, m, row);
    forall k: nat, v: nat | k < |after.rows| && v <= after.rows[k].version
      ensures VersionAt(after, k, v)
    {
      if k != m || v < row.version {
        assert VersionAt(db, k, v);
      } else {
        assert VersionAt(db, m, (v - 1) as nat);
      }
    }
  }

  lemma SameHistory(before: Db, after: Db)
    requires HistoryOk(before) && after.rows == before.rows && after.history == before.history
    ensures HistoryOk(after)
  {
    forall m: nat, v: nat | m < |after.rows| && v <= after.rows[m].version
      ensures VersionAt(after, m, v)
    {
      assert VersionAt(before, m, v);
    }
  }

  lemma WriteGrows(db: Db, m: nat, row: Row)
    requires m < |db.rows| && Follows(db.rows[m], row)
    ensures Grew(db, WriteRow(db, m, row))
  {
  }

  lemma AdvancedTwice(a: Db, b: Db, c: Db, initial: map<nat, Wallet>, m: nat)
    requires Advanced(a, b, initial, m) && Advanced(b, c, initial, m) && !Terminal(a.rows[m].status)
    ensures Advanced(a, c, initial, m)
  {
    assert a.rows[m := b.rows[m]][m := c.rows[m]] == a.rows[m := c.rows[m]];
    forall k | 0 <= k < |a.rows|
      ensures PastRouting(a.rows[k].status) ==> PastRouting(c.rows[k].status)
      ensures Terminal(a.rows[k].status) ==> c.rows[k] == a.rows[k]
    {
      assert b.rows[k].version <= c.rows[k].version;
    }
  }

  /** The queueing that follows a row update in the same transaction. */
  lemma ThenEnqueue(before: Db, written: Db, after: Db, initial: map<nat, Wallet>, m: nat)
    requires Advanced(before, written, initial, m)
    requires after.rows == written.rows && after.history == written.history
    requires after.wallets == written.wallets && after.ledger == written.ledger
    ensures Advanced(before, after, initial, m)
  {
    Unrelated(written, after, initial);
  }

  /** A write that leaves billing alone keeps everything. */
  lemma PlainWrite(db: Db, initial: map<nat, Wallet>, m: nat, row: Row)
    requires Inv(db, initial) && m < |db.rows|
    requires Follows(db.rows[m], row) && RowOk(row) && row.billing == db.rows[m].billing
    ensures Advanced(db, WriteRow(db, m, row), initial, m)
  {
    HistoryAfterWrite(db, m, row);
    WriteGrows(db, m, row);
    var after := WriteRow(db, m, row);
    forall t | t in initial
      ensures WalletAt(after, initial, t)
    {
      assert WalletAt(db, initial, t);
      SumUpdate(db.rows, m, row, HeldFor(t));
    }
    forall k: nat | k < |after.rows|
      ensures LedgerAt(after, k)
    {
      assert LedgerAt(db, k);
    }
  }

  /** An existing settlement key means the message was settled: the idempotency check never hides a needed movement. */
  lemma UnsettledHasNoKey(db: Db, initial: map<nat, Wallet>, m: nat, operation: BillingOperation, key: LedgerKey)
    requires Inv(db, initial) && m < |db.rows|
    requires db.rows[m].billing == Reserved
    requires (operation == Debit && key == DebitKey(m)) || (operation == Release && key.ReleaseKey? && key.msg == m)
    ensures !LedgerExists(db.ledger, db.rows[m].tenant, key)
  {
    assert LedgerAt(db, m);
    forall k | 0 <= k < |db.ledger|
      ensures db.ledger[k].key != key
    {
      if db.ledger[k].msg == m {
        SumCoversMember(db.ledger, k, CountOf(m, operation));
      }
    }
  }

  /** The wallet always covers what the message holds. */
  lemma ReservationIsCovered(db: Db, initial: map<nat, Wallet>, m: nat)
    requires Inv(db, initial) && m < |db.rows|
    requires db.rows[m].billing == Reserved && db.rows[m].price > 0
    ensures db.rows[m].tenant in db.wallets
    ensures db.wallets[db.rows[m].tenant].reserved >= db.rows[m].price
  {
    var t := db.rows[m].tenant;
    assert WalletAt(db, initial, t);
    SumCoversMember(db.rows, m, HeldFor(t));
  }

  ghost predicate Settles(m: nat, row: Row, operation: BillingOperation, key: LedgerKey) {
    || (operation == Debit && row.billing == Debited && key == DebitKey(m))
    || (operation == Release && row.billing == Released && key.ReleaseKey? && key.msg == m)
  }

  predicate EntryOf(e: LedgerEntry, m: nat, row: Row, operation: BillingOperation, key: LedgerKey) {
    && e.msg == m && e.operation == operation && e.tenant == row.tenant && e.amount == row.price && e.key == key
    && e.balanceAfter == e.balanceBefore - e.amount
  }

  /** The wallet operation beside a settling write cannot fail and records one entry when there is a price. */
  lemma SettlingSucceeds(
    db: Db, initial: map<nat, Wallet>, m: nat, row: Row, operation: BillingOperation, key: LedgerKey)
    requires Inv(db, initial) && m < |db.rows|
    requires Follows(db.rows[m], row) && db.rows[m].billing == Reserved && Settles(m, row, operation, key)
    ensures !LedgerExists(db.ledger, row.tenant, key)
    ensures var written := WriteRow(db, m, row);
            var r := ApplyWalletLedger(written, row.tenant, row.price, operation, key, m);
            && r.Ok?
            && r.value.rows == written.rows && r.value.history == written.history
            && r.value.wallets.Keys == db.wallets.Keys
            && if row.price <= 0 then r.value.ledger == db.ledger
               else exists e: LedgerEntry ::
                      && EntryOf(e, m, row, operation, key)
                      && r.value.ledger == db.ledger + [e]
  {
    UnsettledHasNoKey(db, initial, m, operation, key);
    if row.price > 0 {
      ReservationIsCovered(db, initial, m);
      var after := ApplyWalletLedger(WriteRow(db, m, row), row.tenant, row.price, operation, key, m).value;
      assert after.ledger == db.ledger + [after.ledger[|db.ledger|]];
    }
  }

  /**
   Settling: the row leaves `Reserved` and the ledger operation follows. The pair
   always succeeds, moves exactly the price, and keeps everything.
   */
  lemma SettlingWrite(db: Db, initial: map<nat, Wallet>, m: nat, row: Row, operation: BillingOperation, key: LedgerKey)
    requires Inv(db, initial) && m < |db.rows|
    requires Follows(db.rows[m], row) && RowOk(row) && db.rows[m].billing == Reserved && Settles(m, row, operation, key)
    ensures var r := ApplyWalletLedger(WriteRow(db, m, row), row.tenant, row.price, operation, key, m);
            r.Ok? && Advanced(db, r.value, initial, m)
  {
    SettlingSucceeds(db, initial, m, row, operation, key);
    var written := WriteRow(db, m, row);
    var after := ApplyWalletLedger(written, row.tenant, row.price, operation, key, m).value;
    assert WalletsOk(after, initial) by {
      forall t | t in initial
        ensures WalletAt(after, initial, t)
      {
        SettledWallet(db, initial, m, row, operation, key, t);
      }
    }
    SettledEntries(db, m, row, operation, key, after);
    HistoryAfterWrite(db, m, row);
    SameHistory(written, after);
    WriteGrows(db, m, row);
  }

  lemma SettledEntries(db: Db, m: nat, row: Row, operation: BillingOperation, key: LedgerKey, after: Db)
    requires EntriesOk(db) && LedgerOk(db) && m < |db.rows| && Settles(m, row, operation, key)
    requires Follows(db.rows[m], row) && db.rows[m].billing == Reserved && after.rows == db.rows[m := row]
    requires if row.price <= 0 then after.ledger == db.ledger
             else exists e: LedgerEntry ::
                    && EntryOf(e, m, row, operation, key)
                    && after.ledger == db.ledger + [e]
    ensures EntriesOk(after) && LedgerOk(after)
  {
    forall k: nat | k < |after.rows|
      ensures LedgerAt(after, k)
    {
      assert LedgerAt(db, k);
      SettledLedger(db, m, row, after, k);
    }
  }

  /** What a settling operation does to the balances. */
  lemma SettledBalances(wallet: Wallet, operation: BillingOperation, amount: int)
    requires operation != Reserve && AfterOperation(wallet, operation, amount).Ok?
    ensures var after := AfterOperation(wallet, operation, amount).value;
            && after.creditLimit == wallet.creditLimit && after.reserved == wallet.reserved - amount
            && after.available == wallet.available + (if operation == Release then amount else 0)
  {
  }

  lemma SettledSums(db: Db, m: nat, row: Row, e: LedgerEntry, t: nat)
    requires m < |db.rows| && SameMessage(db.rows[m], row) && db.rows[m].billing == Reserved && row.billing != Reserved
    requires e.tenant == row.tenant && e.amount == row.price > 0
    ensures Sum(db.rows[m := row], HeldFor(t)) == Sum(db.rows, HeldFor(t)) - (if t == row.tenant then row.price else 0)
    ensures Sum(db.ledger + [e], DebitedFrom(t))
         == Sum(db.ledger, DebitedFrom(t)) + (if t == row.tenant && e.operation == Debit then row.price else 0)
  {
    SumUpdate(db.rows, m, row, HeldFor(t));
    SumAppend(db.ledger, e, DebitedFrom(t));
  }

  lemma SettledWallet(
    db: Db, initial: map<nat, Wallet>, m: nat, row: Row, operation: BillingOperation, key: LedgerKey, t: nat)
    requires m < |db.rows| && t in db.wallets && t in initial && WalletAt(db, initial, t)
    requires SameMessage(db.rows[m], row) && db.rows[m].billing == Reserved
    requires (operation == Debit && row.billing == Debited) || (operation == Release && row.billing == Released)
    requires !LedgerExists(db.ledger, row.tenant, key)
    requires ApplyWalletLedger(WriteRow(db, m, row), row.tenant, row.price, operation, key, m).Ok?
    ensures var after := ApplyWalletLedger(WriteRow(db, m, row), row.tenant, row.price, operation, key, m).value;
            t in after.wallets && WalletAt(after, initial, t)
  {
    if row.price > 0 {
      var before := db.wallets[row.tenant];
      var wallet := AfterOperation(before, operation, row.price).value;
      var e := EntryFor(before, wallet, row.tenant, row.price, operation, key, m);
      SettledBalances(before, operation, row.price);
      SettledSums(db, m, row, e, t);
    } else {
      SumUpdate(db.rows, m, row, HeldFor(t));
    }
  }

  lemma SettledLedger(db: Db, m: nat, row: Row, after: Db, k: nat)
    requires m < |db.rows| && k < |db.rows| && after.rows == db.rows[m := row]
    requires LedgerAt(db, k) && row.price == db.rows[m].price && db.rows[m].billing == Reserved
    requires
      if row.price <= 0 then after.ledger == db.ledger
      else
        && |after.ledger| == |db.ledger| + 1 && after.ledger[..|db.ledger|] == db.ledger
        && after.ledger[|db.ledger|].msg == m
        && after.ledger[|db.ledger|].operation == (if row.billing == Debited then Debit else Release)
    requires row.billing != Reserved
    ensures LedgerAt(after, k)
  {
    if row.price > 0 {
      var entry := after.ledger[|db.ledger|];
      assert after.ledger == db.ledger + [entry];
      CountsAfter(db.ledger, entry, k);
    }
  }

  // ----- transactions -----

  /** Outbox rows and receipts play no part in the invariant. */
  lemma Unrelated(before: Db, after: Db, initial: map<nat, Wallet>)
    requires Inv(before, initial)
    requires after.rows == before.rows && after.history == before.history
    requires after.wallets == before.wallets && after.ledger == before.ledger
    ensures Inv(after, initial)
  {
    SameHistory(before, after);
    forall m: nat | m < |after.rows|
      ensures LedgerAt(after, m)
    {
      assert LedgerAt(before, m);
    }
    forall t | t in initial
      ensures WalletAt(after, initial, t)
    {
      assert WalletAt(before, initial, t);
    }
  }

  lemma InsertKeepsHistory(db: Db, row: Row)
    requires RowsOk(db) && HistoryOk(db)
    requires row.id == |db.rows| && row.version == 0 && RowOk(row) && (row.price > 0 ==> row.tenant in db.wallets)
    ensures var inserted := db.(rows := db.rows + [row], history := db.history[(row.id, 0) := row]);
            RowsOk(inserted) && HistoryOk(inserted)
  {
    var inserted := db.(rows := db.rows + [row], history := db.history[(row.id, 0) := row]);
    forall k: nat, v: nat | k < |inserted.rows| && v <= inserted.rows[k].version
      ensures VersionAt(inserted, k, v)
    {
      if k < |db.rows| {
        assert VersionAt(db, k, v);
      }
    }
  }

  /** What one more entry adds to the counts of a message. */
  lemma {:induction false} CountsAfter(ledger: seq<LedgerEntry>, e: LedgerEntry, k: nat)
    ensures forall op ::
            Sum(ledger + [e], CountOf(k, op)) == Sum(ledger, CountOf(k, op))
            + Indicator(e.msg == k && e.operation == op)
  {
    forall op: BillingOperation
      ensures Sum(ledger + [e], CountOf(k, op)) == Sum(ledger, CountOf(k, op))
              + Indicator(e.msg == k && e.operation == op)
    {
      SumAppend(ledger, e, CountOf(k, op));
    }
  }

  /** Inserting a message and, when it costs anything, its reserve entry. */
  lemma ReservedLedger(db: Db, row: Row, after: Db, k: nat)
    requires EntriesOk(db) && (k < |db.rows| ==> LedgerAt(db, k)) && row.id == |db.rows| && row.billing == Reserved
    requires after.rows == db.rows + [row] && k < |after.rows|
    requires if row.price <= 0 then after.ledger == db.ledger
             else exists e: LedgerEntry :: e.msg == row.id && e.operation == Reserve && after.ledger == db.ledger + [e]
    ensures LedgerAt(after, k)
  {
    if k == |db.rows| {
      NoEntriesYet(db, k);
    }
    if row.price > 0 {
      var e: LedgerEntry :| e.msg == row.id && e.operation == Reserve && after.ledger == db.ledger + [e];
      CountsAfter(db.ledger, e, k);
    }
  }

  lemma NewMessageHasNoReserve(db: Db)
    requires EntriesOk(db)
    ensures forall t :: !LedgerExists(db.ledger, t, ReserveKey(|db.rows|))
  {
    forall k | 0 <= k < |db.ledger|
      ensures db.ledger[k].key != ReserveKey(|db.rows|)
    {
      assert KeyMatches(db.ledger[k]);
    }
  }

  lemma SubmitKeeps(db: Db, initial: map<nat, Wallet>, s: Submission, day: int)
    requires Inv(db, initial) && InsertTx(db, s, day).Ok?
    ensures Inv(InsertTx(db, s, day).value, initial)
  {
    var row := NewRow(|db.rows|, s);
    var inserted := db.(rows := db.rows + [row], history := db.history[(row.id, 0) := row]);
    NewMessageHasNoReserve(db);
    var after := ApplyWalletLedger(inserted, s.tenant, s.price, Reserve, ReserveKey(row.id), row.id).value;
    InsertKeepsHistory(db, row);
    SameHistory(inserted, after);
    forall t | t in initial
      ensures WalletAt(after, initial, t)
    {
      ReservedWallet(db, initial, row, after, t);
    }
    forall k: nat | k < |after.rows|
      ensures LedgerAt(after, k)
    {
      assert k < |db.rows| ==> LedgerAt(db, k);
      ReservedLedger(db, row, after, k);
    }
    Unrelated(after, InsertTx(db, s, day).value, initial);
  }

  lemma ReservedWallet(db: Db, initial: map<nat, Wallet>, row: Row, after: Db, t: nat)
    requires WalletsOk(db, initial) && t in initial && row.billing == Reserved && row.id == |db.rows|
    requires after.rows == db.rows + [row]
    requires if row.price <= 0 then after.ledger == db.ledger && after.wallets == db.wallets
             else
               && row.tenant in db.wallets
               && AfterOperation(db.wallets[row.tenant], Reserve, row.price).Ok?
               && var w := AfterOperation(db.wallets[row.tenant], Reserve, row.price).value;
               && after.wallets == db.wallets[row.tenant := w]
               && exists e: LedgerEntry :: e.operation == Reserve && after.ledger == db.ledger + [e]
    ensures WalletAt(after, initial, t)
  {
    assert WalletAt(db, initial, t);
    SumAppend(db.rows, row, HeldFor(t));
    if row.price > 0 {
      var e: LedgerEntry :| e.operation == Reserve && after.ledger == db.ledger + [e];
      SumAppend(db.ledger, e, DebitedFrom(t));
    }
  }

  lemma NoEntriesYet(db: Db, m: nat)
    requires EntriesOk(db) && m >= |db.rows|
    ensures forall op :: Sum(db.ledger, CountOf(m, op)) == 0
  {
    forall op: BillingOperation
      ensures Sum(db.ledger, CountOf(m, op)) == 0
    {
      SumZero(db.ledger, CountOf(m, op));
    }
  }

  /** A snapshot that passes the guard is the current row, in every column. */
  lemma GuardMeansCurrent(db: Db, initial: map<nat, Wallet>, snap: Row)
    requires Inv(db, initial) && WasCommitted(db, snap)
    ensures Guard(db, snap) <==> snap == db.rows[snap.id]
  {
    if Guard(db, snap) {
      assert VersionAt(db, snap.id, snap.version);
    }
  }

  /** `snap` is some version of its message that was once committed. */
  ghost predicate WasCommitted(db: Db, snap: Row) {
    && snap.id < |db.rows|
    && snap.version <= db.rows[snap.id].version
    && (snap.id, snap.version) in db.history
    && db.history[(snap.id, snap.version)] == snap
  }

  lemma RouteKeeps(db: Db, initial: map<nat, Wallet>, event: Event, snap: Row, route: Route, day: int, now: int)
    requires Inv(db, initial) && WasCommitted(db, snap) && snap.status == Accepted
    ensures var r := RouteTx(db, event, snap, route, day, now);
            (r.Err? ==> r.error == VersionConflict) && (r.Ok? <==> Guard(db, snap))
              && (r.Ok? ==> Advanced(db, r.value, initial, snap.id))
  {
    GuardMeansCurrent(db, initial, snap);
    if Guard(db, snap) {
      var row := Transitioned(snap, Routed,
                              NO_FIELDS.(providerId := Some(Some(route.providerId)),
                                smppConfigId := Some(route.smppConfigId),
                                         routeRuleId := Some(route.ruleId), cost := Some(route.unitCost * snap.parts),
                                         lastError := Some(None)), false, now);
      PlainWrite(db, initial, snap.id, row);
      ThenEnqueue(db, WriteRow(db, snap.id, row), RouteTx(db, event, snap, route, day, now).value, initial, snap.id);
    }
  }

  /** The two rows a block writes in one transaction. */
  function BlockSubmitting(snap: Row, now: int): Row {
    if snap.status == Routed then Transitioned(snap, Submitting, NO_FIELDS, true, now) else Patched(snap, NO_FIELDS)
  }

  function BlockFailed(snap: Row, now: int): Row {
    Transitioned(BlockSubmitting(snap, now), Failed, BLOCKED_FIELDS, false, now)
  }

  lemma BlockShape(db: Db, snap: Row, reason: string, now: int)
    requires Guard(db, snap) && snap == db.rows[snap.id] && (snap.status == Routed || snap.status == Submitting)
    ensures BlockTx(db, snap, reason, now)
         == ApplyWalletLedger(WriteRow(WriteRow(db, snap.id, BlockSubmitting(snap, now)), snap.id,
            BlockFailed(snap, now)),
                              snap.tenant, snap.price, Release, ReleaseKey(snap.id, FraudPath), snap.id)
  {
    var first := WriteRow(db, snap.id, BlockSubmitting(snap, now));
    assert Guard(first, BlockSubmitting(snap, now));
  }

  lemma BlockKeeps(db: Db, initial: map<nat, Wallet>, snap: Row, reason: string, now: int)
    requires Inv(db, initial) && WasCommitted(db, snap) && (snap.status == Routed || snap.status == Submitting)
    ensures var r := BlockTx(db, snap, reason, now);
            (r.Err? ==> r.error == VersionConflict) && (r.Ok? <==> Guard(db, snap))
              && (r.Ok? ==> Advanced(db, r.value, initial, snap.id))
  {
    GuardMeansCurrent(db, initial, snap);
    if Guard(db, snap) {
      var submitting, failed := BlockSubmitting(snap, now), BlockFailed(snap, now);
      var first := WriteRow(db, snap.id, submitting);
      BlockShape(db, snap, reason, now);
      PlainWrite(db, initial, snap.id, submitting);
      SettlingWrite(first, initial, snap.id, failed, Release, ReleaseKey(snap.id, FraudPath));
      AdvancedTwice(db, first, BlockTx(db, snap, reason, now).value, initial, snap.id);
    }
  }

  lemma ThrottleKeeps(db: Db, initial: map<nat, Wallet>, event: Event, snap: Row, day: int)
    requires Inv(db, initial) && WasCommitted(db, snap) && (snap.status == Routed || snap.status == Submitting)
    ensures var r := ThrottleTx(db, event, snap, day);
            (r.Err? ==> r.error == VersionConflict) && (r.Ok? <==> Guard(db, snap))
              && (r.Ok? ==> Advanced(db, r.value, initial, snap.id))
  {
    GuardMeansCurrent(db, initial, snap);
    if Guard(db, snap) {
      var row := Patched(snap, NO_FIELDS.(lastError := Some(Some("fraud_throttled"))));
      PlainWrite(db, initial, snap.id, row);
      ThenEnqueue(db, WriteRow(db, snap.id, row), ThrottleTx(db, event, snap, day).value, initial, snap.id);
    }
  }

  lemma BeginSubmitKeeps(db: Db, initial: map<nat, Wallet>, snap: Row, now: int)
    requires Inv(db, initial) && WasCommitted(db, snap) && (snap.status == Routed || snap.status == Submitting)
    ensures var r := BeginSubmitTx(db, snap, now);
            (r.Err? ==> r.error == VersionConflict) && (r.Ok? <==> Guard(db, snap))
              && (r.Ok? ==> Advanced(db, r.value.0, initial, snap.id))
  {
    GuardMeansCurrent(db, initial, snap);
    if Guard(db, snap) {
      PlainWrite(db, initial, snap.id, BeginSubmitTx(db, snap, now).value.1);
    }
  }

  lemma AcceptedResultKeeps(db: Db, initial: map<nat, Wallet>, event: Event, snap: Row, now: int)
    requires Inv(db, initial) && snap.id < |db.rows| && snap == db.rows[snap.id] && snap.status == Submitting
    ensures var r := AcceptedResultTx(db, event, snap, now);
            r.Ok? && Advanced(db, r.value, initial, snap.id)
  {
    var sent := Transitioned(snap, ProviderAccepted, AcceptedFields(event), false, now);
    SettlingWrite(db, initial, snap.id, sent, Debit, DebitKey(snap.id));
  }

  lemma FailedResultKeeps(db: Db, initial: map<nat, Wallet>, event: Event, snap: Row, now: int)
    requires Inv(db, initial) && snap.id < |db.rows| && snap == db.rows[snap.id] && snap.status == Submitting
    ensures var r := FailedResultTx(db, event, snap, now);
            r.Ok? && Advanced(db, r.value, initial, snap.id)
  {
    var failed := Transitioned(snap, Failed, FailedFields(event), false, now);
    SettlingWrite(db, initial, snap.id, failed, Release, ReleaseKey(snap.id, FinalPath));
  }

  lemma UncertainResultKeeps(db: Db, initial: map<nat, Wallet>, event: Event, snap: Row, day: int)
    requires Inv(db, initial) && snap.id < |db.rows| && snap == db.rows[snap.id] && snap.status == Submitting
    ensures var r := UncertainResultTx(db, event, snap, day);
            r.Ok? && Advanced(db, r.value, initial, snap.id)
  {
    var row := Patched(snap, NO_FIELDS.(lastError := Some(Some(event.errorCode.GetOr("unknown_submit_outcome")))));
    PlainWrite(db, initial, snap.id, row);
    ThenEnqueue(db, WriteRow(db, snap.id, row), UncertainResultTx(db, event, snap, day).value, initial, snap.id);
  }

  lemma RetryResultKeeps(db: Db, initial: map<nat, Wallet>, event: Event, snap: Row, next: Option<Route>, day: int)
    requires Inv(db, initial) && snap.id < |db.rows| && snap == db.rows[snap.id] && snap.status == Submitting
    ensures var r := RetryResultTx(db, event, snap, next, day);
            r.Ok? && Advanced(db, r.value, initial, snap.id)
  {
    var row := Patched(snap, RetryFields(event, snap, next));
    PlainWrite(db, initial, snap.id, row);
    ThenEnqueue(db, WriteRow(db, snap.id, row), RetryResultTx(db, event, snap, next, day).value, initial, snap.id);
  }

  lemma ResultKeeps(
    db: Db, initial: map<nat, Wallet>, event: Event, snap: Row, policy: RetryPolicy, next: Option<Route>,
    day: int, now: int)
    requires Inv(db, initial) && WasCommitted(db, snap) && snap.status == Submitting
    ensures var r := ResultTx(db, event, snap, policy, next, day, now);
            (r.Err? ==> r.error == VersionConflict) && (r.Ok? <==> Guard(db, snap))
              && (r.Ok? ==> Advanced(db, r.value, initial, snap.id))
  {
    GuardMeansCurrent(db, initial, snap);
    if Guard(db, snap) {
      AcceptedResultKeeps(db, initial, event, snap, now);
      UncertainResultKeeps(db, initial, event, snap, day);
      RetryResultKeeps(db, initial, event, snap, next, day);
      FailedResultKeeps(db, initial, event, snap, now);
    }
  }

  /** A transition and the receipt bookkeeping beside it. */
  lemma ReceiptWriteKeeps(db: Db, initial: map<nat, Wallet>, snap: Row, next: Status, fields: Fields, now: int)
    requires Inv(db, initial) && WasCommitted(db, snap) && snap.status == ProviderAccepted
    requires next == Delivered || (next == Failed && fields.billing == Some(Debited))
    requires fields.providerMessageId.None? && fields.attempts.None? && (next == Delivered ==> fields.billing.None?)
    ensures var r := TransitionMessage(db, snap, next, fields, false, now);
            && (r.Err? ==> r.error == VersionConflict)
            && (r.Ok? ==>
                 && Advanced(db, r.value.0, initial, snap.id)
                 && r.value.0.wallets == db.wallets && r.value.0.ledger == db.ledger)
  {
    GuardMeansCurrent(db, initial, snap);
    assert snap.id < |db.rows| && RowOk(db.rows[snap.id]);
    if Guard(db, snap) {
      PlainWrite(db, initial, snap.id, Transitioned(snap, next, fields, false, now));
    }
  }

  /** What a receipt transaction changes besides the one message. */
  lemma ReceiptShape(db: Db, o: OpenedReceipt, snap: Row, day: int, now: int)
    requires snap.billing == Debited && RowOk(snap) && o.hook < |db.webhooks|
    ensures var r := ReceiptTx(db, o, snap, day, now);
            var fields := NO_FIELDS.(lastError := Some(Some("dlr_failed")), billing := Some(Debited));
            if snap.status == ProviderAccepted && o.read.normalized == HookDelivered then
              var t := TransitionMessage(db, snap, Delivered, NO_FIELDS, false, now);
              r == if t.Err? then Err(t.error) else Ok(MarkMatched(t.value.0, o.hook, snap.tenant))
            else if snap.status == ProviderAccepted && o.read.normalized == HookFailed then
              var t := TransitionMessage(db, snap, Failed, fields, false, now);
              r == if t.Err? then Err(t.error) else Ok(MarkMatched(t.value.0, o.hook, snap.tenant))
            else
              r.Ok? && r.value.rows == db.rows && r.value.history == db.history
              && r.value.wallets == db.wallets && r.value.ledger == db.ledger
  {
  }

  /** Receipts only ever act on rows the provider had accepted, so they move no money. */
  lemma ReceiptKeeps(db: Db, initial: map<nat, Wallet>, o: OpenedReceipt, snap: Row, day: int, now: int)
    requires Inv(db, initial) && WasCommitted(db, snap) && RowOk(snap) && snap.billing == Debited
    requires o.hook < |db.webhooks|
    ensures var r := ReceiptTx(db, o, snap, day, now);
            && (r.Err? ==> r.error == VersionConflict)
            && (r.Ok? ==>
                  && Inv(r.value, initial) && r.value.wallets == db.wallets && r.value.ledger == db.ledger
                  && ((r.value.rows == db.rows && r.value.history == db.history)
                     || Advanced(db, r.value, initial, snap.id)))
  {
    ReceiptShape(db, o, snap, day, now);
    var r := ReceiptTx(db, o, snap, day, now);
    if snap.status == ProviderAccepted && !o.read.normalized.HookUnknown? {
      var next, fields := Delivered, NO_FIELDS;
      if o.read.normalized.HookFailed? {
        next, fields := Failed, NO_FIELDS.(lastError := Some(Some("dlr_failed")), billing := Some(Debited));
      }
      ReceiptWriteKeeps(db, initial, snap, next, fields, now);
      if r.Ok? {
        ThenEnqueue(db, TransitionMessage(db, snap, next, fields, false, now).value.0, r.value, initial, snap.id);
      }
    } else {
      Unrelated(db, r.value, initial);
    }
  }
}
