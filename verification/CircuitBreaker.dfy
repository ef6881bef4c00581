/**
 The provider circuit breaker: a snapshot and a probe marker per provider, both
 keys of a store that drops them at their expiry. Each call is atomic, but it reads
 the clock several times, and the store has its own: times are milliseconds.
 */
module CircuitBreaker {
  import opened Wrappers

  datatype State = Closed | Open | HalfOpen

  datatype Snapshot = Snapshot(
    state: State,
    failureCount: nat,
    successCount: nat,
    lastChangedAt: int,
    nextProbeAt: Option<int>,
    lastReason: Option<string>)

  datatype Config = Config(failureThreshold: int, openSeconds: int, halfOpenProbeSeconds: int)

  predicate Valid(c: Config) {
    c.failureThreshold >= 1 && c.openSeconds >= 1 && c.halfOpenProbeSeconds >= 1
  }

  /** A key without an expiry never goes away. */
  datatype Entry = Entry(snapshot: Snapshot, expiresAt: Option<int>)

  /** The two keys of one provider. */
  datatype Keys = Keys(entry: Option<Entry>, probeUntil: Option<int>)

  /**
   The instants of one call, in order: the store answers the first read, the call
   reads the clock, reads it again for the time to live, the store writes the
   snapshot, answers the second read, and decides about the probe marker. A call
   that skips a step has no use for its instant.
   */
  datatype Times = Times(read: int, at: int, mid: int, stored: int, reread: int, probe: int)

  predicate InOrder(t: Times) {
    t.read <= t.at <= t.mid <= t.stored <= t.reread <= t.probe
  }

  function Max(x: int, y: int): int {
    if x < y then y else x
  }

  function CeilSeconds(ms: int): int {
    -((-ms) / 1000)
  }

  function DefaultSnapshot(now: int): Snapshot {
    Snapshot(Closed, 0, 0, now, None, None)
  }

  predicate IsStored(k: Keys, now: int) {
    k.entry.Some? && (k.entry.value.expiresAt.None? || now < k.entry.value.expiresAt.value)
  }

  function GetSnapshot(k: Keys, now: int): Snapshot {
    if IsStored(k, now) then k.entry.value.snapshot else DefaultSnapshot(now)
  }

  function SnapshotTtlSeconds(c: Config, s: Snapshot, mid: int): int {
    if s.state == Closed then Max(c.openSeconds, c.halfOpenProbeSeconds)
    else if s.nextProbeAt.Some? then Max(1, CeilSeconds(s.nextProbeAt.value - mid))
    else if s.state == HalfOpen then c.halfOpenProbeSeconds
    else c.openSeconds
  }

  /** A time to live of zero seconds stores the key without an expiry. */
  function Put(k: Keys, s: Snapshot, ttlSeconds: int, stored: int): Keys {
    k.(entry := Some(Entry(s, if ttlSeconds != 0 then Some(stored + ttlSeconds * 1000) else None)))
  }

  function Persist(c: Config, k: Keys, s: Snapshot, t: Times): Keys {
    Put(k, s, SnapshotTtlSeconds(c, s, t.mid), t.stored)
  }

  function SetState(c: Config, k: Keys, state: State, ttlSeconds: int, reason: Option<string>, t: Times): Keys {
    var s := Snapshot(state, if state == Closed then 0 else 1, if state == Closed then 1 else 0, t.at,
                      if state == Open then Some(t.at + ttlSeconds * 1000) else None, reason);
    Put(k, s, Max(ttlSeconds, SnapshotTtlSeconds(c, s, t.mid)), t.stored)
  }

  function RegisterFailure(c: Config, k: Keys, reason: Option<string>, t: Times): Keys {
    var s := GetSnapshot(k, t.read);
    var state := if s.failureCount + 1 >= c.failureThreshold then Open else s.state;
    Persist(c, k, Snapshot(state, s.failureCount + 1, 0, t.at,
                           if state == Open then Some(t.at + c.openSeconds * 1000) else s.nextProbeAt, reason), t)
  }

  function RegisterSuccess(c: Config, k: Keys, t: Times): Keys {
    Persist(c, k, Snapshot(Closed, 0, 1, t.at, None, None), t).(probeUntil := None)
  }

  /** The snapshot read is open and its probe time has come. */
  predicate ProbeDue(k: Keys, t: Times) {
    var s := GetSnapshot(k, t.read);
    s.state == Open && s.nextProbeAt.Some? && s.nextProbeAt.value <= t.at
  }

  /** The open snapshot turned half-open once its probe time has come. */
  function AfterProbeCheck(c: Config, k: Keys, t: Times): Keys {
    if ProbeDue(k, t) then
      Persist(c, k, GetSnapshot(k, t.read).(state := HalfOpen, lastChangedAt := t.at,
                                            nextProbeAt := Some(t.at + c.halfOpenProbeSeconds * 1000)), t)
    else k
  }

  predicate ProbeHeld(k: Keys, now: int) {
    k.probeUntil.Some? && now < k.probeUntil.value
  }

  function AllowDispatch(c: Config, k: Keys, t: Times): (Keys, bool) {
    if GetSnapshot(k, t.read).state == Closed then (k, true)
    else
      var checked := AfterProbeCheck(c, k, t);
      match GetSnapshot(checked, t.reread).state
      case Closed => (checked, true)
      case Open => (checked, false)
      case HalfOpen =>
        if ProbeHeld(checked, t.probe) then (checked, false)
        else (checked.(probeUntil := Some(t.probe + c.halfOpenProbeSeconds * 1000)), true)
  }

  // ----- the service -----

  class CircuitBreakerService {
    const config: Config
    var snapshots: map<nat, Entry>
    var probes: map<nat, int>

    constructor (config: Config)
      ensures this.config == config && snapshots == map[] && probes == map[]
    {
      this.config, snapshots, probes := config, map[], map[];
    }

    function KeysOf(provider: nat): Keys
      reads this
    {
      Keys(if provider in snapshots then Some(snapshots[provider]) else None,
           if provider in probes then Some(probes[provider]) else None)
    }

    twostate predicate OthersUnchanged(provider: nat)
      reads this
    {
      forall p: nat :: p != provider ==> KeysOf(p) == old(KeysOf(p))
    }

    method Current(provider: nat, now: int) returns (s: Snapshot)
      ensures s == GetSnapshot(KeysOf(provider), now)
    {
      s := DefaultSnapshot(now);
      if provider in snapshots {
        var entry := snapshots[provider];
        if entry.expiresAt.None? || now < entry.expiresAt.value {
          s := entry.snapshot;
        }
      }
    }

    method SetJson(provider: nat, s: Snapshot, ttlSeconds: int, stored: int)
      modifies this
      ensures KeysOf(provider) == Put(old(KeysOf(provider)), s, ttlSeconds, stored) && OthersUnchanged(provider)
    {
      if ttlSeconds != 0 {
        snapshots := snapshots[provider := Entry(s, Some(stored + ttlSeconds * 1000))];
        return;
      }
      snapshots := snapshots[provider := Entry(s, None)];
    }

    method Set(provider: nat, state: State, ttlSeconds: int, reason: Option<string>, t: Times)
      modifies this
      ensures KeysOf(provider) == SetState(config, old(KeysOf(provider)), state, ttlSeconds, reason, t)
      ensures OthersUnchanged(provider)
    {
      var nextProbeAt := if state == Open then Some(t.at + ttlSeconds * 1000) else None;
      var failures, successes := if state == Closed then 0 else 1, if state == Closed then 1 else 0;
      var s := Snapshot(state, failures, successes, t.at, nextProbeAt, reason);
      SetJson(provider, s, Max(ttlSeconds, SnapshotTtlSeconds(config, s, t.mid)), t.stored);
    }

    method Fail(provider: nat, reason: Option<string>, t: Times)
      modifies this
      ensures KeysOf(provider) == RegisterFailure(config, old(KeysOf(provider)), reason, t)
      ensures OthersUnchanged(provider)
    {
      var s := Current(provider, t.read);
      var failureCount := s.failureCount + 1;
      var nextState := if failureCount >= config.failureThreshold then Open else s.state;
      var nextProbeAt := if nextState == Open then Some(t.at + config.openSeconds * 1000) else s.nextProbeAt;
      var next := Snapshot(nextState, failureCount, 0, t.at, nextProbeAt, reason);
      SetJson(provider, next, SnapshotTtlSeconds(config, next, t.mid), t.stored);
    }

    method Succeed(provider: nat, t: Times)
      modifies this
      ensures KeysOf(provider) == RegisterSuccess(config, old(KeysOf(provider)), t) && OthersUnchanged(provider)
    {
      var next := Snapshot(Closed, 0, 1, t.at, None, None);
      SetJson(provider, next, SnapshotTtlSeconds(config, next, t.mid), t.stored);
      label stored:
      probes := probes - {provider};
      assert forall p: nat :: p != provider ==> KeysOf(p) == old@stored(KeysOf(p));
    }

    method Allow(provider: nat, t: Times) returns (allowed: bool)
      modifies this
      ensures (KeysOf(provider), allowed) == AllowDispatch(config, old(KeysOf(provider)), t)
      ensures OthersUnchanged(provider)
    {
      var s := Current(provider, t.read);
      if s.state == Closed {
        return true;
      }
      if s.state == Open && s.nextProbeAt.Some? && s.nextProbeAt.value <= t.at {
        var nextProbeAt := Some(t.at + config.halfOpenProbeSeconds * 1000);
        var probing := s.(state := HalfOpen, lastChangedAt := t.at, nextProbeAt := nextProbeAt);
        SetJson(provider, probing, SnapshotTtlSeconds(config, probing, t.mid), t.stored);
      }
      var latest := Current(provider, t.reread);
      if latest.state == Closed {
        return true;
      }
      if latest.state == Open {
        return false;
      }
      if provider in probes && t.probe < probes[provider] {
        return false;
      }
      label granting:
      var until := t.probe + config.halfOpenProbeSeconds * 1000;
      probes := probes[provider := until];
      assert KeysOf(provider) == old@granting(KeysOf(provider)).(probeUntil := Some(until));
      assert forall p: nat :: p != provider ==> KeysOf(p) == old@granting(KeysOf(p));
      return true;
    }
  }

  // ----- runs -----

  datatype Event =
    | Failure(reason: Option<string>, t: Times)
    | Success(t: Times)
    | Override(state: State, ttlSeconds: int, reason: Option<string>, t: Times)
    | Ask(t: Times)

  function Apply(c: Config, k: Keys, e: Event): Keys {
    match e
    case Failure(reason, t) => RegisterFailure(c, k, reason, t)
    case Success(t) => RegisterSuccess(c, k, t)
    case Override(state, ttl, reason, t) => SetState(c, k, state, ttl, reason, t)
    case Ask(t) => AllowDispatch(c, k, t).0
  }

  function ApplyAll(c: Config, k: Keys, events: seq<Event>): Keys
    decreases |events|
  {
    if events == [] then k else ApplyAll(c, Apply(c, k, events[0]), events[1..])
  }

  // ----- hold-off -----

  /** The stored snapshot is open with probe time `p` and outlives it. */
  predicate OpenUntil(k: Keys, p: int) {
    && k.entry.Some?
    && k.entry.value.snapshot.state == Open
    && k.entry.value.snapshot.nextProbeAt == Some(p)
    && k.entry.value.expiresAt.Some? && p <= k.entry.value.expiresAt.value
  }

  /** The failure reaches the threshold, or finds the breaker open. */
  predicate Opens(c: Config, k: Keys, t: Times) {
    GetSnapshot(k, t.read).failureCount + 1 >= c.failureThreshold || GetSnapshot(k, t.read).state == Open
  }

  /** Every write of `open` opens until its probe time: rounding up never lets the key expire early. */
  lemma OpeningHolds(c: Config, k: Keys, ttlSeconds: int, reason: Option<string>, t: Times)
    requires Valid(c) && InOrder(t)
    ensures OpenUntil(SetState(c, k, Open, ttlSeconds, reason, t), t.at + ttlSeconds * 1000)
    ensures Opens(c, k, t) <==> OpenUntil(RegisterFailure(c, k, reason, t), t.at + c.openSeconds * 1000)
  {
  }

  /** The probe time after further failures, each of which moves it. */
  function Deadline(c: Config, p: int, events: seq<Event>): int
    decreases |events|
  {
    if events == [] then p
    else Deadline(c, if events[0].Failure? then events[0].t.at + c.openSeconds * 1000 else p, events[1..])
  }

  /** Only failures and questions, each over with its reads before the probe time then in force. */
  predicate WithinHoldOff(c: Config, p: int, events: seq<Event>)
    decreases |events|
  {
    events != [] ==>
      && (events[0].Failure? || events[0].Ask?)
      && InOrder(events[0].t)
      && (if events[0].Failure? then events[0].t.read < p else events[0].t.reread < p)
      && WithinHoldOff(c, if events[0].Failure? then events[0].t.at + c.openSeconds * 1000 else p, events[1..])
  }

  /** Until the latest probe time nothing is let through, however many failures push that time out. */
  lemma {:induction false} HoldOff(c: Config, k: Keys, p: int, events: seq<Event>)
    requires Valid(c) && OpenUntil(k, p) && WithinHoldOff(c, p, events)
    ensures OpenUntil(ApplyAll(c, k, events), Deadline(c, p, events))
    ensures forall t :: InOrder(t) && t.reread < Deadline(c, p, events) ==>
            !AllowDispatch(c, ApplyAll(c, k, events), t).1
    decreases |events|
  {
    if events != [] {
      var next := Apply(c, k, events[0]);
      if events[0].Failure? {
        OpeningHolds(c, k, 0, events[0].reason, events[0].t);
        HoldOff(c, next, events[0].t.at + c.openSeconds * 1000, events[1..]);
      } else {
        HoldOff(c, next, p, events[1..]);
      }
    }
  }

  // ----- how an open period ends -----

  /** When the half-open snapshot stored by a question is dropped. */
  function HalfOpenUntil(c: Config, t: Times): int {
    t.stored + Max(1, CeilSeconds(t.at + c.halfOpenProbeSeconds * 1000 - t.mid)) * 1000
  }

  /**
   How an open period ends, exactly. A question that finds the key gone is let
   through. One that finds it before the probe time is refused, unless the key goes
   before it looks again. One that finds it from the probe time on makes it half-open,
   and is let through exactly when no probe is held or that snapshot is gone as well.
   */
  lemma OpenPeriodEnds(c: Config, k: Keys, p: int, t: Times)
    requires Valid(c) && OpenUntil(k, p) && InOrder(t)
    ensures ProbeDue(k, t) <==> t.read < k.entry.value.expiresAt.value && p <= t.at
    ensures ProbeDue(k, t) <==> AfterProbeCheck(c, k, t) != k
    ensures ProbeDue(k, t) ==> IsStored(AfterProbeCheck(c, k, t), t.stored)
                               && GetSnapshot(AfterProbeCheck(c, k, t), t.stored).state == HalfOpen
    ensures AllowDispatch(c, k, t).1 <==>
            if t.read >= k.entry.value.expiresAt.value then true
            else if t.at < p then t.reread >= k.entry.value.expiresAt.value
            else !ProbeHeld(k, t.probe) || t.reread >= HalfOpenUntil(c, t)
  {
  }

  /**
   A breaker opened by a failure keeps its key as long after its probe time as the
   write took to reach the store: in that gap, and only there, a question makes it
   half-open. Later it is simply closed again.
   */
  lemma FailuresProbeOnlyInTheGap(c: Config, k: Keys, reason: Option<string>, t: Times, q: Times)
    requires Valid(c) && Opens(c, k, t) && InOrder(t) && InOrder(q) && q.at >= t.at + c.openSeconds * 1000
    ensures var k2 := RegisterFailure(c, k, reason, t);
            var gone := t.stored + Max(1, CeilSeconds(t.at + c.openSeconds * 1000 - t.mid)) * 1000;
            && gone >= t.at + c.openSeconds * 1000
            && (t.mid < t.at + 1000 ==> gone == t.stored + c.openSeconds * 1000)
            && (ProbeDue(k2, q) <==> q.read < gone)
            && (q.read >= gone ==> AllowDispatch(c, k2, q) == (k2, true) && GetSnapshot(k2, q.read).state == Closed)
  {
  }

  /** Without the delay there is no gap, and no breaker opened by failures is ever half-open. */
  lemma NoDelayNoProbe(c: Config, k: Keys, reason: Option<string>, t: Times, q: Times)
    requires Valid(c) && Opens(c, k, t) && InOrder(t) && t.stored == t.at && InOrder(q) && q.at == q.read
    ensures !ProbeDue(RegisterFailure(c, k, reason, t), q)
  {
  }

  /**
   The gap is real: a question just inside it stores `half_open` and is granted a probe,
   whenever the write was delayed at all.
   */
  lemma DelayedOpeningProbes(c: Config, k: Keys, reason: Option<string>, t: Times)
    requires Valid(c) && Opens(c, k, t) && InOrder(t) && t.at < t.stored < t.at + 1000
    requires !ProbeHeld(k, t.at + c.openSeconds * 1000)
    ensures var k2 := RegisterFailure(c, k, reason, t);
            var now := t.at + c.openSeconds * 1000;
            var (k3, allowed) := AllowDispatch(c, k2, Times(now, now, now, now, now, now));
            && allowed && GetSnapshot(k3, now).state == HalfOpen
            && k3.probeUntil == Some(now + c.halfOpenProbeSeconds * 1000)
  {
  }

  /** Overrides to open: the same gap, and a whole second of it when no open time was asked for. */
  lemma OverridesProbeOnlyInTheGap(c: Config, k: Keys, ttlSeconds: int, reason: Option<string>, t: Times, q: Times)
    requires Valid(c) && InOrder(t) && InOrder(q) && q.at >= t.at + ttlSeconds * 1000
    ensures var k2 := SetState(c, k, Open, ttlSeconds, reason, t);
            var gone := t.stored + Max(1, ttlSeconds) * 1000;
            && (ProbeDue(k2, q) <==> q.read < gone)
            && (q.read >= gone ==> AllowDispatch(c, k2, q) == (k2, true) && GetSnapshot(k2, q.read).state == Closed)
  {
  }

  // ----- tripping -----

  /** A closed snapshot is always below the threshold. */
  predicate ClosedBelowThreshold(c: Config, k: Keys) {
    k.entry.Some? && k.entry.value.snapshot.state == Closed ==> k.entry.value.snapshot.failureCount < c.failureThreshold
  }

  lemma {:induction false} ClosedStaysBelowThreshold(c: Config, k: Keys, events: seq<Event>)
    requires Valid(c) && ClosedBelowThreshold(c, k)
    ensures ClosedBelowThreshold(c, ApplyAll(c, k, events))
    decreases |events|
  {
    if events != [] {
      ClosedStaysBelowThreshold(c, Apply(c, k, events[0]), events[1..]);
    }
  }

  function Failures(times: seq<Times>): seq<Event> {
    if times == [] then [] else [Failure(None, times[0])] + Failures(times[1..])
  }

  /** Each failure reads the snapshot before the store forgets the one stored by the failure before it. */
  predicate CloseTogether(c: Config, times: seq<Times>) {
    forall i :: 0 <= i < |times| - 1 ==>
      times[i + 1].read < times[i].stored + Max(c.openSeconds, c.halfOpenProbeSeconds) * 1000
  }

  /** A live closed snapshot that has counted `n` failures. */
  predicate Counted(c: Config, k: Keys, n: nat, now: int) {
    var s := GetSnapshot(k, now);
    s.state == Closed && s.failureCount == n
  }

  /**
   Failures in close succession trip a closed breaker at exactly the threshold: not
   one earlier, and the one that reaches it opens.
   */
  lemma {:induction false} TripsAtThreshold(c: Config, k: Keys, n: nat, times: seq<Times>)
    requires Valid(c) && times != [] && Counted(c, k, n, times[0].read) && CloseTogether(c, times)
    requires (forall i :: 0 <= i < |times| ==> InOrder(times[i])) && n + |times| <= c.failureThreshold
    ensures var last := times[|times| - 1];
            var s := GetSnapshot(ApplyAll(c, k, Failures(times)), last.stored);
            && s.failureCount == n + |times|
            && s.state == (if n + |times| == c.failureThreshold then Open else Closed)
            && (s.state == Open ==> OpenUntil(ApplyAll(c, k, Failures(times)), last.at + c.openSeconds * 1000))
    decreases |times|
  {
    var next := RegisterFailure(c, k, None, times[0]);
    assert Failures(times)[1..] == Failures(times[1..]);
    if |times| > 1 {
      assert times[1].read < times[0].stored + Max(c.openSeconds, c.halfOpenProbeSeconds) * 1000;
      assert CloseTogether(c, times[1..]) by {
        forall i | 0 <= i < |times[1..]| - 1
          ensures times[1..][i + 1].read < times[1..][i].stored + Max(c.openSeconds, c.halfOpenProbeSeconds) * 1000
        {
          assert times[i + 2].read < times[i + 1].stored + Max(c.openSeconds, c.halfOpenProbeSeconds) * 1000;
        }
      }
      TripsAtThreshold(c, next, n + 1, times[1..]);
    } else {
      assert Failures(times[1..]) == [];
    }
  }

  // ----- probes -----

  predicate GrantsProbe(c: Config, k: Keys, e: Event) {
    e.Ask? && AllowDispatch(c, k, e.t).1 && GetSnapshot(AllowDispatch(c, k, e.t).0, e.t.reread).state == HalfOpen
  }

  /** The times at which a run grants a probe. */
  function ProbeTimes(c: Config, k: Keys, events: seq<Event>): seq<int>
    decreases |events|
  {
    if events == [] then []
    else
      (if GrantsProbe(c, k, events[0]) then [events[0].t.probe] else [])
      + ProbeTimes(c, Apply(c, k, events[0]), events[1..])
  }

  /** Only a granted probe moves the probe marker, and only once the last one has lapsed. */
  lemma ProbeMarker(c: Config, k: Keys, e: Event)
    requires Valid(c) && !e.Success? && InOrder(e.t)
    ensures if GrantsProbe(c, k, e) then
              && Apply(c, k, e).probeUntil == Some(e.t.probe + c.halfOpenProbeSeconds * 1000)
              && (k.probeUntil.Some? ==> e.t.probe >= k.probeUntil.value)
            else Apply(c, k, e).probeUntil == k.probeUntil
  {
  }

  /**
   At most one probe per probe period: without a success in between, probes are
   never closer than the probe period, whatever failures and overrides occur.
   */
  lemma {:induction false} ProbesAreSpaced(c: Config, k: Keys, events: seq<Event>)
    requires Valid(c) && forall e :: e in events ==> !e.Success? && InOrder(e.t)
    ensures var times := ProbeTimes(c, k, events);
            && (k.probeUntil.Some? && times != [] ==> times[0] >= k.probeUntil.value)
            && forall i :: 0 <= i < |times| - 1 ==> times[i + 1] >= times[i] + c.halfOpenProbeSeconds * 1000
    decreases |events|
  {
    if events != [] {
      ProbeMarker(c, k, events[0]);
      ProbesAreSpaced(c, Apply(c, k, events[0]), events[1..]);
    }
  }

  // ----- recovering -----

  /** Whatever it was before, a success leaves the breaker closed, with nothing counted and no probe outstanding. */
  lemma SuccessCloses(c: Config, k: Keys, t: Times, q: Times)
    requires Valid(c) && InOrder(t) && InOrder(q) && t.stored <= q.read
    ensures var after := RegisterSuccess(c, k, t);
            && GetSnapshot(after, q.read).state == Closed && GetSnapshot(after, q.read).failureCount == 0
            && after.probeUntil == None
            && AllowDispatch(c, after, q) == (after, true)
  {
  }

  /** Nothing stored, or closed with at most `n` failures counted. */
  predicate Calm(k: Keys, n: nat) {
    k.entry.Some? ==> k.entry.value.snapshot.state == Closed && k.entry.value.snapshot.failureCount <= n
  }

  /** No override, and at no point `failureThreshold` failures since the last success, `n` of them before this. */
  predicate FailuresStayFew(c: Config, n: nat, events: seq<Event>)
    decreases |events|
  {
    events == []
    || match events[0]
       case Failure(_, _) => n + 1 < c.failureThreshold && FailuresStayFew(c, n + 1, events[1..])
       case Success(_) => FailuresStayFew(c, 0, events[1..])
       case Ask(_) => FailuresStayFew(c, n, events[1..])
       case Override(_, _, _, _) => false
  }

  /** A calm breaker lets everything through as long as failures between successes stay below the threshold. */
  lemma {:induction false} CalmLetsThrough(c: Config, k: Keys, n: nat, events: seq<Event>, q: Times)
    requires Valid(c) && Calm(k, n) && FailuresStayFew(c, n, events)
    ensures AllowDispatch(c, ApplyAll(c, k, events), q) == (ApplyAll(c, k, events), true)
    decreases |events|
  {
    if events != [] {
      var next := Apply(c, k, events[0]);
      match events[0] {
        case Failure(_, _) => CalmLetsThrough(c, next, n + 1, events[1..], q);
        case Success(_) => CalmLetsThrough(c, next, 0, events[1..], q);
        case Ask(_) => CalmLetsThrough(c, next, n, events[1..], q);
      }
    }
  }

  /**
   So after a success the breaker, open, half-open or overridden as it may have been, lets
   every dispatch through until `failureThreshold` failures have come without another
   success.
   */
  lemma {:induction false} SuccessRecovers(c: Config, k: Keys, t: Times, events: seq<Event>, q: Times)
    requires Valid(c) && FailuresStayFew(c, 0, events)
    ensures AllowDispatch(c, ApplyAll(c, RegisterSuccess(c, k, t), events), q).1
  {
    CalmLetsThrough(c, RegisterSuccess(c, k, t), 0, events, q);
  }

  /**
   A failure that meets the half-open snapshot of a question reopens the breaker for the
   whole open time when the threshold is reached, and otherwise leaves it half-open.
   */
  lemma FailedProbe(c: Config, k: Keys, q: Times, reason: Option<string>, t: Times)
    requires Valid(c) && InOrder(q) && InOrder(t) && ProbeDue(k, q)
    requires q.stored <= t.read < HalfOpenUntil(c, q)
    ensures var before := GetSnapshot(k, q.read);
            var after := RegisterFailure(c, AfterProbeCheck(c, k, q), reason, t);
            if before.failureCount + 1 >= c.failureThreshold then OpenUntil(after, t.at + c.openSeconds * 1000)
            else
              && after.entry.Some?
              && after.entry.value.snapshot == Snapshot(HalfOpen, before.failureCount + 1, 0, t.at,
                   Some(q.at + c.halfOpenProbeSeconds * 1000), reason)
  {
  }

  /** An override to closed lets everything through; one to half-open lets a probe at a time through until it lapses. */
  lemma OverrideTakesEffect(c: Config, k: Keys, ttlSeconds: int, reason: Option<string>, t: Times, q: Times)
    requires Valid(c) && InOrder(t) && InOrder(q) && t.stored <= q.read
    ensures var closed := SetState(c, k, Closed, ttlSeconds, reason, t);
            GetSnapshot(closed, q.read).failureCount == 0 && AllowDispatch(c, closed, q) == (closed, true)
    ensures var half := SetState(c, k, HalfOpen, ttlSeconds, reason, t);
            var gone := t.stored + Max(ttlSeconds, c.halfOpenProbeSeconds) * 1000;
            && (GetSnapshot(half, q.read).state == HalfOpen <==> q.read < gone)
            && (AllowDispatch(c, half, q).1 <==> q.reread >= gone || !ProbeHeld(k, q.probe))
            && AllowDispatch(c, half, q).0.probeUntil
                 == (if q.reread < gone && !ProbeHeld(k, q.probe) then Some(q.probe + c.halfOpenProbeSeconds * 1000)
                     else k.probeUntil)
  {
  }
}
