/**
 Matching a delivery receipt to a message (`correlateMessageForDlr`): an exact
 lookup by the provider's message id, then a scored fallback over rows sent near
 the event. Times are milliseconds.
 */
module Correlation {
  import opened Wrappers
  import opened Messages

  const SIX_HOURS := 21_600_000
  const QUARTER_HOUR := 900_000
  const ONE_DAY := 86_400_000

  predicate DirectMatch(row: Row, hook: Webhook) {
    && hook.providerMessageId.Some? && hook.providerMessageId.value != ""
    && row.providerId == Some(hook.providerId)
    && (hook.tenant.None? || hook.tenant.value == row.tenant)
    && row.providerMessageId == hook.providerMessageId
  }

  predicate Candidate(row: Row, hook: Webhook, now: int) {
    && hook.phoneNumber.Some?
    && row.providerId == Some(hook.providerId)
    && (hook.tenant.None? || hook.tenant.value == row.tenant)
    && row.content.phoneNumber == hook.phoneNumber.value
    && row.sentAt.Some?
    && (match hook.eventAt
        case Some(at) => at - SIX_HOURS <= row.sentAt.value <= at + SIX_HOURS
        case None => now - ONE_DAY <= row.sentAt.value <= now)
  }

  function Abs(x: int): nat {
    if x < 0 then -x else x
  }

  function TimeTerm(row: Row, hook: Webhook): nat {
    if hook.eventAt.None? || row.sentAt.None? then 0
    else if Abs(row.sentAt.value - hook.eventAt.value) <= QUARTER_HOUR then 3
    else if Abs(row.sentAt.value - hook.eventAt.value) <= SIX_HOURS then 1
    else 0
  }

  function Confidence(row: Row, hook: Webhook): nat {
    (if hook.senderId.Some? && row.content.sourceAddr == hook.senderId then 3 else 0)
    + (if hook.bodyHash.Some? && row.content.bodyHash == hook.bodyHash then 6 else 0)
    + (if hook.campaignId.Some? && row.content.campaignId == hook.campaignId then 4 else 0)
    + (if hook.routeRuleId.Some? && row.routeRuleId == hook.routeRuleId then 4 else 0)
    + TimeTerm(row, hook)
  }

  /** Descending send times, unsent rows last. */
  predicate SentNoEarlier(a: Row, b: Row) {
    b.sentAt.None? || (a.sentAt.Some? && a.sentAt.value >= b.sentAt.value)
  }

  /** The ORDER BY of the fallback query: confidence first, then the later send. */
  predicate RanksAtLeast(a: Row, b: Row, hook: Webhook) {
    || Confidence(a, hook) > Confidence(b, hook)
    || (Confidence(a, hook) == Confidence(b, hook)
        && SentNoEarlier(a, b))
  }

  /** What the query may return: at most five candidates, none outranked by one left out; ties fall either way. */
  ghost predicate IsFallbackResult(ranked: seq<Row>, table: seq<Row>, hook: Webhook, now: int) {
    && |ranked| <= 5
    && (forall r :: r in ranked ==> r in table && Candidate(r, hook, now))
    && (forall i, j :: 0 <= i < j < |ranked| ==> ranked[i] != ranked[j])
    && (forall i, j :: 0 <= i < j < |ranked| ==> RanksAtLeast(ranked[i], ranked[j], hook))
    && (|ranked| < 5 ==> forall c :: c in table && Candidate(c, hook, now) ==> c in ranked)
    && (forall c, r :: c in table && Candidate(c, hook, now) && c !in ranked && r in ranked ==>
       RanksAtLeast(r, c, hook))
  }

  /** The decision taken on the ranked rows. */
  function Decide(ranked: seq<Row>, hook: Webhook): Option<Row> {
    if |ranked| == 0 then None
    else if Confidence(ranked[0], hook) < 4 then None
    else if |ranked| > 1 && Confidence(ranked[1], hook) == Confidence(ranked[0], hook) then None
    else Some(ranked[0])
  }

  /**
   What `correlateMessageForDlr` may answer for a table: the exact match sent last when
   there is one, else the fallback decision.
   */
  ghost predicate Answer(table: seq<Row>, hook: Webhook, now: int, answer: Option<Row>) {
    if exists row :: row in table && DirectMatch(row, hook) then
      && answer.Some? && answer.value in table && DirectMatch(answer.value, hook)
      && forall r :: r in table && DirectMatch(r, hook) ==> SentNoEarlier(answer.value, r)
    else if hook.phoneNumber.None? then
      answer == None
    else
      exists ranked :: IsFallbackResult(ranked, table, hook, now) && answer == Decide(ranked, hook)
  }

  /** Candidate `r` is confident enough and strictly ahead of every other candidate of the whole table. */
  ghost predicate ClearWinner(r: Row, table: seq<Row>, hook: Webhook, now: int) {
    && r in table && Candidate(r, hook, now)
    && Confidence(r, hook) >= 4
    && forall c :: c in table && Candidate(c, hook, now) && c != r ==> Confidence(c, hook) < Confidence(r, hook)
  }

  lemma FallbackPicksExactlyTheClearWinner(ranked: seq<Row>, table: seq<Row>, hook: Webhook, now: int)
    requires IsFallbackResult(ranked, table, hook, now)
    ensures forall r :: Decide(ranked, hook) == Some(r) <==> ClearWinner(r, table, hook, now)
  {
    forall r
      ensures Decide(ranked, hook) == Some(r) <==> ClearWinner(r, table, hook, now)
    {
      if ClearWinner(r, table, hook, now) {
        WinnerIsFirst(r, ranked, table, hook, now);
      }
      if Decide(ranked, hook) == Some(r) {
        forall c | c in table && Candidate(c, hook, now) && c != r
          ensures Confidence(c, hook) < Confidence(r, hook)
        {
          OthersTrailTheChoice(c, ranked, table, hook, now);
        }
      }
    }
  }

  lemma WinnerIsFirst(r: Row, ranked: seq<Row>, table: seq<Row>, hook: Webhook, now: int)
    requires IsFallbackResult(ranked, table, hook, now) && ClearWinner(r, table, hook, now)
    ensures |ranked| > 0 && ranked[0] == r
    ensures |ranked| > 1 ==> Confidence(ranked[1], hook) < Confidence(r, hook)
  {
    assert |ranked| > 0;
    assert ranked[0] in ranked;
    assert r !in ranked ==> RanksAtLeast(ranked[0], r, hook);
    if r in ranked {
      var k :| 0 <= k < |ranked| && ranked[k] == r;
      assert k == 0 || RanksAtLeast(ranked[0], ranked[k], hook);
    }
    if |ranked| > 1 {
      assert ranked[1] in ranked && ranked[0] != ranked[1];
    }
  }

  lemma OthersTrailTheChoice(c: Row, ranked: seq<Row>, table: seq<Row>, hook: Webhook, now: int)
    requires IsFallbackResult(ranked, table, hook, now) && Decide(ranked, hook).Some?
    requires c in table && Candidate(c, hook, now) && c != ranked[0]
    ensures Confidence(c, hook) < Confidence(ranked[0], hook)
  {
    if c in ranked {
      var k :| 0 <= k < |ranked| && ranked[k] == c;
      assert k >= 1 && RanksAtLeast(ranked[0], ranked[1], hook);
      assert k == 1 || RanksAtLeast(ranked[1], ranked[k], hook);
    } else {
      assert |ranked| >= 5;
      assert ranked[1] in ranked && ranked[0] in ranked;
      assert RanksAtLeast(ranked[0], ranked[1], hook) && RanksAtLeast(ranked[1], c, hook);
    }
  }

  /**
   Two executions of the query, over the table in any two row orders and with ties broken
   differently, decide alike.
   */
  lemma DecisionIgnoresRowOrder(
    ranked1: seq<Row>, table1: seq<Row>, ranked2: seq<Row>, table2: seq<Row>, hook: Webhook, now: int)
    requires IsFallbackResult(ranked1, table1, hook, now) && IsFallbackResult(ranked2, table2, hook, now)
    requires forall r :: r in table1 <==> r in table2
    ensures Decide(ranked1, hook) == Decide(ranked2, hook)
  {
    FallbackPicksExactlyTheClearWinner(ranked1, table1, hook, now);
    FallbackPicksExactlyTheClearWinner(ranked2, table2, hook, now);
    if Decide(ranked1, hook).Some? {
      assert ClearWinner(Decide(ranked1, hook).value, table2, hook, now);
    }
    if Decide(ranked2, hook).Some? {
      assert ClearWinner(Decide(ranked2, hook).value, table1, hook, now);
    }
  }

  /** With an event time the window equals the outer scoring band, so no candidate scores zero for time. */
  lemma EveryDatedCandidateScoresForTime(row: Row, hook: Webhook, now: int)
    requires hook.eventAt.Some? && Candidate(row, hook, now)
    ensures 1 <= TimeTerm(row, hook) <= 3 && Confidence(row, hook) >= 1
  {
  }

  /** Whatever the algorithm answers carries the provider's id or a send time. */
  lemma AnswerWasSent(table: seq<Row>, hook: Webhook, now: int, answer: Option<Row>)
    requires Answer(table, hook, now, answer) && answer.Some?
    ensures answer.value in table
    ensures DirectMatch(answer.value, hook) || Candidate(answer.value, hook, now)
  {
    if !exists row :: row in table && DirectMatch(row, hook) {
      var ranked :| IsFallbackResult(ranked, table, hook, now) && answer == Decide(ranked, hook);
      assert ranked[0] in ranked;
    }
  }

  // ----- every receipt has an answer -----

  /** The candidates of a table, each once, in an order the query may return them in. */
  ghost predicate IsRanking(all: seq<Row>, table: seq<Row>, hook: Webhook, now: int) {
    && (forall r :: r in all <==> r in table && Candidate(r, hook, now))
    && (forall i, j :: 0 <= i < j < |all| ==> all[i] != all[j] && RanksAtLeast(all[i], all[j], hook))
  }

  lemma {:induction false} RankOneMore(
    all: seq<Row>, table: seq<Row>, r: Row, hook: Webhook, now: int) returns (more: seq<Row>)
    requires IsRanking(all, table, hook, now) && r !in all && Candidate(r, hook, now)
    ensures IsRanking(more, table + [r], hook, now)
  {
    var k := 0;
    while k < |all| && RanksAtLeast(all[k], r, hook)
      invariant 0 <= k <= |all|
      invariant forall i :: 0 <= i < k ==> RanksAtLeast(all[i], r, hook)
    {
      k := k + 1;
    }
    more := all[..k] + [r] + all[k..];
    assert forall i :: k <= i < |all| ==> RanksAtLeast(r, all[i], hook) by {
      forall i | k <= i < |all|
        ensures RanksAtLeast(r, all[i], hook)
      {
        assert RanksAtLeast(r, all[k], hook) && (i == k || RanksAtLeast(all[k], all[i], hook));
      }
    }
    assert forall c :: c in more <==> c in all || c == r by {
      assert all == all[..k] + all[k..];
    }
    forall i, j | 0 <= i < j < |more|
      ensures more[i] != more[j] && RanksAtLeast(more[i], more[j], hook)
    {
      assert i < k ==> more[i] == all[i];
      assert i > k ==> more[i] == all[i - 1];
      assert j < k ==> more[j] == all[j];
      assert j > k ==> more[j] == all[j - 1];
    }
  }

  lemma {:induction false} Ranked(table: seq<Row>, hook: Webhook, now: int) returns (all: seq<Row>)
    ensures IsRanking(all, table, hook, now)
  {
    all := [];
    if table != [] {
      var init, last := table[..|table| - 1], table[|table| - 1];
      assert table == init + [last];
      all := Ranked(init, hook, now);
      if Candidate(last, hook, now) && last !in all {
        all := RankOneMore(all, init, last, hook, now);
      }
    }
  }

  lemma FallbackExists(table: seq<Row>, hook: Webhook, now: int) returns (ranked: seq<Row>)
    ensures IsFallbackResult(ranked, table, hook, now)
  {
    var all := Ranked(table, hook, now);
    ranked := if |all| <= 5 then all else all[..5];
    forall c, r | c in table && Candidate(c, hook, now) && c !in ranked && r in ranked
      ensures RanksAtLeast(r, c, hook)
    {
      var i :| 0 <= i < |ranked| && ranked[i] == r;
      var j :| 0 <= j < |all| && all[j] == c;
      assert j < |ranked| ==> ranked[j] == c;
      assert all[i] == r;
    }
  }

  lemma {:induction false} LatestDirect(table: seq<Row>, hook: Webhook) returns (latest: Row)
    requires exists row :: row in table && DirectMatch(row, hook)
    ensures latest in table && DirectMatch(latest, hook)
    ensures forall r :: r in table && DirectMatch(r, hook) ==> SentNoEarlier(latest, r)
  {
    var init, last := table[..|table| - 1], table[|table| - 1];
    assert table == init + [last];
    if exists row :: row in init && DirectMatch(row, hook) {
      latest := LatestDirect(init, hook);
      if DirectMatch(last, hook) && !SentNoEarlier(latest, last) {
        latest := last;
      }
    } else {
      latest := last;
    }
  }

  /** Whatever the table and the receipt, there is an answer. */
  lemma AnswerExists(table: seq<Row>, hook: Webhook, now: int) returns (answer: Option<Row>)
    ensures Answer(table, hook, now, answer)
  {
    if exists row :: row in table && DirectMatch(row, hook) {
      var latest := LatestDirect(table, hook);
      answer := Some(latest);
    } else if hook.phoneNumber.None? {
      answer := None;
    } else {
      var ranked := FallbackExists(table, hook, now);
      answer := Decide(ranked, hook);
    }
  }

  // ----- what counts as evidence -----

  predicate SameHash(row: Row, hook: Webhook) {
    hook.bodyHash.Some? && row.content.bodyHash == hook.bodyHash
  }

  predicate SameCampaign(row: Row, hook: Webhook) {
    hook.campaignId.Some? && row.content.campaignId == hook.campaignId
  }

  predicate SameRule(row: Row, hook: Webhook) {
    hook.routeRuleId.Some? && row.routeRuleId == hook.routeRuleId
  }

  predicate SameSender(row: Row, hook: Webhook) {
    hook.senderId.Some? && row.content.sourceAddr == hook.senderId
  }

  /** The event time is given and within 15 minutes of the send. */
  predicate SentNear(row: Row, hook: Webhook) {
    hook.eventAt.Some? && row.sentAt.Some?
    && hook.eventAt.value - 900_000 <= row.sentAt.value <= hook.eventAt.value + 900_000
  }

  /** One message is in reach: the sender alone needs an event time beside it, anything else is enough. */
  predicate Evident(row: Row, hook: Webhook) {
    SameHash(row, hook) || SameCampaign(row, hook) || SameRule(row, hook)
    || (SameSender(row, hook) && hook.eventAt.Some?)
  }

  /** No row carries the provider's own id, and the candidates are exactly those given. */
  ghost predicate OnlyCandidates(rows: set<Row>, table: seq<Row>, hook: Webhook, now: int) {
    && (forall c :: c in table && Candidate(c, hook, now) <==> c in rows)
    && (forall c :: c in table ==> !DirectMatch(c, hook))
  }

  lemma FallbackAnswer(table: seq<Row>, hook: Webhook, now: int, answer: Option<Row>)
    requires Answer(table, hook, now, answer) && hook.phoneNumber.Some?
    requires forall c :: c in table ==> !DirectMatch(c, hook)
    ensures forall r :: answer == Some(r) <==> ClearWinner(r, table, hook, now)
  {
    var ranked :| IsFallbackResult(ranked, table, hook, now) && answer == Decide(ranked, hook);
    FallbackPicksExactlyTheClearWinner(ranked, table, hook, now);
  }

  /** A sole candidate is answered exactly when something besides its phone number speaks for it. */
  lemma SoleCandidate(table: seq<Row>, hook: Webhook, now: int, answer: Option<Row>, row: Row)
    requires Answer(table, hook, now, answer) && OnlyCandidates({row}, table, hook, now)
    ensures answer == if Evident(row, hook) then Some(row) else None
  {
    assert row in {row};
    FallbackAnswer(table, hook, now, answer);
    assert ClearWinner(row, table, hook, now) <==> Evident(row, hook);
    if answer.Some? {
      assert ClearWinner(answer.value, table, hook, now);
    }
  }

  /**
   A table with one message: the exact condition, column by column, under which the receipt
   is the message's.
   */
  lemma SoleMessage(row: Row, hook: Webhook, now: int, answer: Option<Row>)
    requires Answer([row], hook, now, answer)
    ensures answer == Some(row) <==>
              && row.providerId == Some(hook.providerId)
              && (hook.tenant == None || hook.tenant == Some(row.tenant))
              && ((hook.providerMessageId.GetOr("") != "" && row.providerMessageId == hook.providerMessageId)
                  || (&& hook.phoneNumber == Some(row.content.phoneNumber) && row.sentAt.Some?
                      && (if hook.eventAt.Some?
                          then hook.eventAt.value - 6 * 3_600_000 <= row.sentAt.value
                               <= hook.eventAt.value + 6 * 3_600_000
                          else now - 24 * 3_600_000 <= row.sentAt.value <= now)
                      && Evident(row, hook)))
    ensures answer in {None, Some(row)}
  {
    AnswerMeetsTable([row], hook, now, answer);
    assert row in [row];
    if !DirectMatch(row, hook) && hook.phoneNumber.Some? {
      if Candidate(row, hook, now) {
        SoleCandidate([row], hook, now, answer, row);
      } else {
        FallbackAnswer([row], hook, now, answer);
        assert !ClearWinner(row, [row], hook, now);
      }
    }
  }

  lemma AnswerMeetsTable(table: seq<Row>, hook: Webhook, now: int, answer: Option<Row>)
    requires Answer(table, hook, now, answer)
    ensures answer.Some? ==> answer.value in table
  {
    if answer.Some? {
      AnswerWasSent(table, hook, now, answer);
    }
  }

  lemma {:induction false} TwoCandidates(table: seq<Row>, hook: Webhook, now: int, answer: Option<Row>, a: Row, b: Row)
    requires Answer(table, hook, now, answer) && OnlyCandidates({a, b}, table, hook, now) && a != b
    ensures Confidence(a, hook) > Confidence(b, hook) ==> answer == if Confidence(a, hook) >= 4 then Some(a) else None
    ensures Confidence(a, hook) == Confidence(b, hook) ==> answer == None
  {
    assert a in {a, b} && b in {a, b};
    FallbackAnswer(table, hook, now, answer);
    if answer.Some? {
      assert ClearWinner(answer.value, table, hook, now);
      assert answer.value in {a, b};
    }
    if Confidence(a, hook) > Confidence(b, hook) && Confidence(a, hook) >= 4 {
      assert ClearWinner(a, table, hook, now);
    }
  }

  /** The two rows stand alike as to sender and nearness of the send. */
  predicate AlikeOtherwise(a: Row, b: Row, hook: Webhook) {
    (SameSender(a, hook) <==> SameSender(b, hook)) && (SentNear(a, hook) <==> SentNear(b, hook))
  }

  /** The body's hash beats the campaign alone and the route rule alone. */
  lemma HashBeatsOneOther(table: seq<Row>, hook: Webhook, now: int, answer: Option<Row>, a: Row, b: Row)
    requires Answer(table, hook, now, answer) && OnlyCandidates({a, b}, table, hook, now) && AlikeOtherwise(a, b, hook)
    requires SameHash(a, hook) && !SameCampaign(a, hook) && !SameRule(a, hook)
    requires !SameHash(b, hook) && !(SameCampaign(b, hook) && SameRule(b, hook))
    ensures answer == Some(a)
  {
    assert a in {a, b} && b in {a, b};
    TwoCandidates(table, hook, now, answer, a, b);
  }

  /** The campaign and the rule together beat the hash. */
  lemma CampaignAndRuleBeatHash(table: seq<Row>, hook: Webhook, now: int, answer: Option<Row>, a: Row, b: Row)
    requires Answer(table, hook, now, answer) && OnlyCandidates({a, b}, table, hook, now) && AlikeOtherwise(a, b, hook)
    requires !SameHash(a, hook) && SameCampaign(a, hook) && SameRule(a, hook)
    requires SameHash(b, hook) && !SameCampaign(b, hook) && !SameRule(b, hook)
    ensures answer == Some(a)
  {
    assert a in {a, b} && b in {a, b};
    TwoCandidates(table, hook, now, answer, a, b);
  }

  /** The campaign and the rule weigh the same: one against the other decides nothing. */
  lemma CampaignTiesWithRule(table: seq<Row>, hook: Webhook, now: int, answer: Option<Row>, a: Row, b: Row)
    requires Answer(table, hook, now, answer) && OnlyCandidates({a, b}, table, hook, now) && AlikeOtherwise(a, b, hook)
    requires (SameHash(a, hook) <==> SameHash(b, hook))
    requires SameCampaign(a, hook) && !SameRule(a, hook) && !SameCampaign(b, hook) && SameRule(b, hook)
    ensures answer == None
  {
    assert a in {a, b} && b in {a, b};
    TwoCandidates(table, hook, now, answer, a, b);
  }

  /**
   The hash against a better sender and a nearer send: the sender alone is outweighed, and
   so are both together, since every dated candidate scores something for time.
   */
  lemma HashBeatsSender(table: seq<Row>, hook: Webhook, now: int, answer: Option<Row>, a: Row, b: Row)
    requires Answer(table, hook, now, answer) && OnlyCandidates({a, b}, table, hook, now)
    requires SameHash(a, hook) && !SameHash(b, hook)
    requires (SameCampaign(a, hook) <==> SameCampaign(b, hook)) && (SameRule(a, hook) <==> SameRule(b, hook))
    ensures answer == Some(a)
  {
    assert a in {a, b} && b in {a, b};
    TwoCandidates(table, hook, now, answer, a, b);
  }

  /** A hash on a far send ties with a campaign, or a rule, on a near one. */
  lemma FarHashTiesWithNearCampaign(table: seq<Row>, hook: Webhook, now: int, answer: Option<Row>, a: Row, b: Row)
    requires Answer(table, hook, now, answer) && OnlyCandidates({a, b}, table, hook, now)
    requires SameHash(a, hook) && !SameCampaign(a, hook) && !SameRule(a, hook)
    requires !SameHash(b, hook) && (SameCampaign(b, hook) <==> !SameRule(b, hook))
    requires (SameSender(a, hook) <==> SameSender(b, hook)) && !SentNear(a, hook) && SentNear(b, hook)
    ensures answer == None
  {
    assert a in {a, b} && b in {a, b};
    TwoCandidates(table, hook, now, answer, a, b);
  }

  /** One more agreement, or a nearer send, wins between rows that otherwise stand alike, once it is evidence enough. */
  lemma MoreEvidenceWins(table: seq<Row>, hook: Webhook, now: int, answer: Option<Row>, a: Row, b: Row)
    requires Answer(table, hook, now, answer) && OnlyCandidates({a, b}, table, hook, now) && a != b
    requires (SameHash(b, hook) ==> SameHash(a, hook)) && (SameCampaign(b, hook) ==> SameCampaign(a, hook))
    requires (SameRule(b, hook) ==> SameRule(a, hook)) && (SameSender(b, hook) ==> SameSender(a, hook))
    requires SentNear(b, hook) ==> SentNear(a, hook)
    ensures var same := && AlikeOtherwise(a, b, hook) && (SameHash(a, hook) <==> SameHash(b, hook))
                        && (SameCampaign(a, hook) <==> SameCampaign(b, hook))
                        && (SameRule(a, hook) <==> SameRule(b, hook));
            answer == if !same && Evident(a, hook) then Some(a) else None
  {
    assert a in {a, b} && b in {a, b};
    TwoCandidates(table, hook, now, answer, a, b);
  }

  /** The sender outweighs the nearer send, once there is an event time. */
  lemma SenderBeatsNearness(table: seq<Row>, hook: Webhook, now: int, answer: Option<Row>, a: Row, b: Row)
    requires Answer(table, hook, now, answer) && OnlyCandidates({a, b}, table, hook, now)
    requires SameSender(a, hook) && !SameSender(b, hook)
    requires (SameHash(a, hook) <==> SameHash(b, hook)) && (SameCampaign(a, hook) <==> SameCampaign(b, hook))
    requires (SameRule(a, hook) <==> SameRule(b, hook))
    ensures answer == if Evident(a, hook) then Some(a) else None
  {
    assert a in {a, b} && b in {a, b};
    TwoCandidates(table, hook, now, answer, a, b);
  }

  /** The campaign, or the rule, outweighs the sender, unless the sender's row alone was sent near the event. */
  lemma CampaignAgainstSender(table: seq<Row>, hook: Webhook, now: int, answer: Option<Row>, a: Row, b: Row)
    requires Answer(table, hook, now, answer) && OnlyCandidates({a, b}, table, hook, now)
    requires SameCampaign(a, hook) <==> !SameRule(a, hook)
    requires !SameCampaign(b, hook) && !SameRule(b, hook) && (SameHash(a, hook) <==> SameHash(b, hook))
    requires !SameSender(a, hook) && SameSender(b, hook)
    ensures answer == Some(if SentNear(b, hook) && !SentNear(a, hook) then b else a)
  {
    assert a in {a, b} && b in {a, b};
    TwoCandidates(table, hook, now, answer, a, b);
    TwoCandidates(table, hook, now, answer, b, a);
  }
}
