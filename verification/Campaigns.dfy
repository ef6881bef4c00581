/**
 The campaign scheduler. Times are whole milliseconds. The cron library is a
 parameter: `next(cron, timezone, t)` is the occurrence after `t`, or None when the
 library throws.
 */
module Campaigns {
  import opened Wrappers
  import opened Sums
  import opened Ranges

  type CronNext = (string, string, int) -> Option<int>

  datatype CampaignStatus = Scheduled | Cancelled | Other

  datatype Campaign = Campaign(tenant: string, status: CampaignStatus)

  datatype Schedule = Schedule(
    tenant: string, campaign: nat, group: Option<nat>, upload: Option<nat>,
    cron: Option<string>, timezone: string, nextRunAt: int, shardCount: nat, active: bool)

  datatype Source = Api | ContactGroup | Upload

  datatype JobStatus = PendingJob | QueuedJob

  /** `schedule` and `occurrence` say which run of which schedule the job was made for; the job row itself does not. */
  datatype Job = Job(
    tenant: string, campaign: nat, source: Source, status: JobStatus, total: nat, shardCount: nat,
    schedule: nat, occurrence: Option<int>)

  datatype Db = Db(campaigns: seq<Campaign>, schedules: seq<Schedule>, jobs: seq<Job>)

  /** The contact tables the scheduler reads: group sizes and valid rows of uploads, by id. */
  datatype Audience = Audience(groupSize: map<nat, nat>, uploadRows: map<nat, nat>)

  const BATCH := 25
  const CENTURY := 100 * 365 * 24 * 60 * 60 * 1000

  // ----- scheduling -----

  /** An id or expression that is set and not one of the values taken for unset. */
  predicate Given(id: Option<nat>) {
    id.Some? && id.value != 0
  }

  predicate Recurring(cron: Option<string>) {
    cron.Some? && cron.value != ""
  }

  function ComputeNextRunAt(
    next: CronNext, cron: Option<string>, timezone: string, reference: int, includeReference: bool): Option<int> {
    if !Recurring(cron) then Some(reference)
    else next(cron.value, timezone, if includeReference then reference - 1000 else reference)
  }

  datatype Request = Request(
    campaign: Option<nat>, group: Option<nat>, upload: Option<nat>, cron: Option<string>, startAt: int,
      shardCount: Option<nat>)

  datatype Error = NoAudience | GroupNotFound | UploadNotFound | InvalidCron

  datatype Result<T> = Ok(value: T) | Err(error: Error)

  /** `owned` holds the tenant's groups and uploads. */
  function ScheduleTx(
    db: Db, next: CronNext, owned: Audience, tenant: string, timezone: string, r: Request): Result<Db> {
    if !Given(r.group) && !Given(r.upload) then Err(NoAudience)
    else if Given(r.group) && r.group.value !in owned.groupSize then Err(GroupNotFound)
    else if Given(r.upload) && r.upload.value !in owned.uploadRows then Err(UploadNotFound)
    else
      var first := ComputeNextRunAt(next, r.cron, timezone, r.startAt, true);
      if first.None? then Err(InvalidCron)
      else
        var campaign := if Given(r.campaign) then r.campaign.value else |db.campaigns| + 1;
        var campaigns := if Given(r.campaign) then db.campaigns else db.campaigns + [Campaign(tenant, Scheduled)];
        var shards := r.shardCount.GetOr(4);
        Ok(Db(campaigns,
              db.schedules + [Schedule(tenant, campaign, r.group, r.upload, r.cron, timezone, first.value, shards,
                true)],
              db.jobs + [Job(tenant, campaign, Api, PendingJob, 0, shards, |db.schedules|, None)]))
  }

  function SetActiveTx(db: Db, tenant: string, id: nat, active: bool): Option<Db> {
    if id < |db.schedules| && db.schedules[id].tenant == tenant
    then Some(db.(schedules := db.schedules[id := db.schedules[id].(active := active)]))
    else None
  }

  function Deactivated(s: Schedule, tenant: string, campaign: nat): Schedule {
    if s.tenant == tenant && s.campaign == campaign then s.(active := false) else s
  }

  /** Campaign ids count from 1. */
  function CancelTx(db: Db, tenant: string, campaign: nat): Option<Db> {
    if 0 < campaign <= |db.campaigns| && db.campaigns[campaign - 1].tenant == tenant
    then Some(db.(
      campaigns := db.campaigns[campaign - 1 := db.campaigns[campaign - 1].(status := Cancelled)],
      schedules := seq(|db.schedules|, i requires 0 <= i < |db.schedules| => Deactivated(db.schedules[i], tenant,
        campaign))))
    else None
  }

  // ----- materialising -----

  predicate Due(s: Schedule, now: int) {
    s.active && s.nextRunAt <= now
  }

  /** What the unordered, limited, lock-skipping query may return. */
  predicate Selected(db: Db, picks: seq<nat>, locked: set<nat>, now: int) {
    && |picks| <= BATCH
    && (forall k :: 0 <= k < |picks| ==>
         picks[k] < |db.schedules| && Due(db.schedules[picks[k]], now) && picks[k] !in locked)
    && (forall j, k :: 0 <= j < k < |picks| ==> picks[j] != picks[k])
    && (|picks| < BATCH ==> forall i :: 0 <= i < |db.schedules| && Due(db.schedules[i], now) && i !in locked ==>
       i in picks)
  }

  function JobFor(s: Schedule, id: nat, audience: Audience): Job {
    var source := if Given(s.group) then ContactGroup else if Given(s.upload) then Upload else Api;
    var total :=
      if Given(s.group) then if s.group.value in audience.groupSize then audience.groupSize[s.group.value] else 0
      else if Given(s.upload) && s.upload.value in audience.uploadRows then audience.uploadRows[s.upload.value]
      else 0;
    Job(s.tenant, s.campaign, source, QueuedJob, total, s.shardCount, id, Some(s.nextRunAt))
  }

  function Advance(next: CronNext, s: Schedule, clock: int): Option<int> {
    if Recurring(s.cron) then ComputeNextRunAt(next, s.cron, s.timezone, s.nextRunAt, false) else Some(clock + CENTURY)
  }

  function MaterializeOne(db: Db, next: CronNext, audience: Audience, id: nat, clock: int): Option<Db>
    requires id < |db.schedules|
  {
    var s := db.schedules[id];
    var at := Advance(next, s, clock);
    if at.None? then None
    else Some(db.(
      jobs := db.jobs + [JobFor(s, id, audience)],
      schedules := db.schedules[id := s.(nextRunAt := at.value, active := s.cron.Some?)]))
  }

  /** The loop over the selected schedules; the process clock may differ from one to the next. */
  function MaterializeAll(
    db: Db, next: CronNext, audience: Audience, picks: seq<nat>, clock: nat -> int): (r: Option<Db>)
    requires forall k :: 0 <= k < |picks| ==> picks[k] < |db.schedules|
    ensures r.Some? ==> |r.value.schedules| == |db.schedules|
    decreases |picks|
  {
    if picks == [] then Some(db)
    else
      var before := MaterializeAll(db, next, audience, picks[..|picks| - 1], clock);
      var id := picks[|picks| - 1];
      if before.None? then None else MaterializeOne(before.value, next, audience, id, clock(id))
  }

  // ----- the service -----

  class CampaignsService {
    var campaigns: seq<Campaign>
    var schedules: seq<Schedule>
    var jobs: seq<Job>
    const next: CronNext

    constructor (next: CronNext)
      ensures Contents() == Empty() && this.next == next
    {
      campaigns, schedules, jobs, this.next := [], [], [], next;
    }

    function Contents(): Db
      reads this
    {
      Db(campaigns, schedules, jobs)
    }

    method ScheduleCampaign(owned: Audience, tenant: string, timezone: string, r: Request) returns (result: Result<nat>)
      modifies this
      ensures var tx := ScheduleTx(old(Contents()), next, owned, tenant, timezone, r);
              match tx
              case Err(e) => result == Err(e) && Contents() == old(Contents())
              case Ok(db) => result == Ok(old(|schedules|)) && Contents() == db
    {
      if !Given(r.group) && !Given(r.upload) {
        return Err(NoAudience);
      }
      if Given(r.group) && r.group.value !in owned.groupSize {
        return Err(GroupNotFound);
      }
      if Given(r.upload) && r.upload.value !in owned.uploadRows {
        return Err(UploadNotFound);
      }
      var first := ComputeNextRunAt(next, r.cron, timezone, r.startAt, true);
      if first.None? {
        return Err(InvalidCron);
      }
      var campaign: nat;
      if Given(r.campaign) {
        campaign := r.campaign.value;
      } else {
        campaigns := campaigns + [Campaign(tenant, Scheduled)];
        campaign := |campaigns|;
      }
      var shards := r.shardCount.GetOr(4);
      result := Ok(|schedules|);
      jobs := jobs + [Job(tenant, campaign, Api, PendingJob, 0, shards, |schedules|, None)];
      schedules := schedules
        + [Schedule(tenant, campaign, r.group, r.upload, r.cron, timezone, first.value, shards, true)];
    }

    method SetScheduleActive(tenant: string, id: nat, active: bool) returns (found: bool)
      modifies this`schedules
      ensures var tx := SetActiveTx(old(Contents()), tenant, id, active);
              found == tx.Some? && Contents() == tx.GetOr(old(Contents()))
    {
      found := id < |schedules| && schedules[id].tenant == tenant;
      if found {
        schedules := schedules[id := schedules[id].(active := active)];
      }
    }

    method CancelCampaign(tenant: string, campaign: nat) returns (found: bool)
      modifies this`campaigns, this`schedules
      ensures var tx := CancelTx(old(Contents()), tenant, campaign);
              found == tx.Some? && Contents() == tx.GetOr(old(Contents()))
    {
      found := 0 < campaign <= |campaigns| && campaigns[campaign - 1].tenant == tenant;
      if found {
        campaigns := campaigns[campaign - 1 := campaigns[campaign - 1].(status := Cancelled)];
        var i := 0;
        while i < |schedules|
          invariant 0 <= i <= |schedules| == old(|schedules|)
          invariant campaigns == CancelTx(old(Contents()), tenant, campaign).value.campaigns
          invariant forall j :: 0 <= j < |schedules| ==>
            schedules[j] == if j < i then Deactivated(old(schedules)[j], tenant, campaign) else old(schedules)[j]
        {
          if schedules[i].tenant == tenant && schedules[i].campaign == campaign {
            schedules := schedules[i := schedules[i].(active := false)];
          }
          i := i + 1;
        }
        assert schedules == CancelTx(old(Contents()), tenant, campaign).value.schedules;
      }
    }

    /** `picks` is what the query returned; a cron failure rolls the whole batch back. */
    method MaterializeDueSchedules(audience: Audience, picks: seq<nat>, clock: nat -> int) returns (committed: bool)
      requires forall k :: 0 <= k < |picks| ==> picks[k] < |schedules|
      modifies this`schedules, this`jobs
      ensures var tx := MaterializeAll(old(Contents()), next, audience, picks, clock);
              committed == tx.Some? && Contents() == tx.GetOr(old(Contents()))
    {
      var before := Contents();
      var k := 0;
      while k < |picks|
        invariant 0 <= k <= |picks| && |schedules| == |before.schedules| && before == old(Contents())
        invariant MaterializeAll(before, next, audience, picks[..k], clock) == Some(Contents())
      {
        assert picks[..k + 1][..k] == picks[..k];
        var s := schedules[picks[k]];
        jobs := jobs + [JobFor(s, picks[k], audience)];
        var at := if Recurring(s.cron) then ComputeNextRunAt(next, s.cron, s.timezone, s.nextRunAt, false)
          else Some(clock(picks[k]) + CENTURY);
        if at.None? {
          schedules, jobs := before.schedules, before.jobs;
          FailureIsFinal(before, next, audience, picks, k + 1, clock);
          return false;
        }
        schedules := schedules[picks[k] := s.(nextRunAt := at.value, active := s.cron.Some?)];
        k := k + 1;
      }
      assert picks[..k] == picks;
      committed := true;
    }
  }

  lemma {:induction false} FailureIsFinal(
    db: Db, next: CronNext, audience: Audience, picks: seq<nat>, k: nat, clock: nat -> int)
    requires k <= |picks| && forall k :: 0 <= k < |picks| ==> picks[k] < |db.schedules|
    requires MaterializeAll(db, next, audience, picks[..k], clock) == None
    ensures MaterializeAll(db, next, audience, picks, clock) == None
    decreases |picks|
  {
    if k < |picks| {
      assert picks[..|picks| - 1][..k] == picks[..k];
      FailureIsFinal(db, next, audience, picks[..|picks| - 1], k, clock);
    } else {
      assert picks[..k] == picks;
    }
  }

  function Empty(): Db {
    Db([], [], [])
  }

  // ----- runs -----

  datatype Action =
    | Create(owned: Audience, tenant: string, timezone: string, request: Request)
    | SetActive(tenant: string, id: nat, active: bool)
    | Cancel(tenant: string, campaign: nat)
    | Materialize(audience: Audience, picks: seq<nat>, locked: set<nat>, now: int, clock: nat -> int)

  /** One transaction: a failing one changes nothing, and neither does a batch the query cannot return. */
  function Step(db: Db, next: CronNext, a: Action): Db {
    match a
    case Create(owned, tenant, timezone, request) =>
      var r := ScheduleTx(db, next, owned, tenant, timezone, request);
      if r.Ok? then r.value else db
    case SetActive(tenant, id, active) => SetActiveTx(db, tenant, id, active).GetOr(db)
    case Cancel(tenant, campaign) => CancelTx(db, tenant, campaign).GetOr(db)
    case Materialize(audience, picks, locked, now, clock) =>
      if Selected(db, picks, locked, now) then MaterializeAll(db, next, audience, picks, clock).GetOr(db) else db
  }

  function Run(db: Db, next: CronNext, actions: seq<Action>): Db
    decreases |actions|
  {
    if actions == [] then db else Run(Step(db, next, actions[0]), next, actions[1..])
  }

  /** The occurrences materialised for a schedule, oldest first. */
  function RunsOf(jobs: seq<Job>, id: nat): seq<int> {
    if jobs == [] then []
    else
      var last := jobs[|jobs| - 1];
      RunsOf(jobs[..|jobs| - 1], id)
        + (if last.schedule == id && last.occurrence.Some? then [last.occurrence.value] else [])
  }

  lemma {:induction false} RunsOfMore(jobs: seq<Job>, job: Job, id: nat)
    ensures RunsOf(jobs + [job], id)
         == RunsOf(jobs, id) + (if job.schedule == id && job.occurrence.Some? then [job.occurrence.value] else [])
  {
    assert (jobs + [job])[..|jobs|] == jobs;
  }

  // ----- what one batch does to one schedule -----

  /** A batch commits exactly when the cron library takes every recurring schedule in it. */
  predicate Advances(db: Db, next: CronNext, id: nat, clock: nat -> int)
    requires id < |db.schedules|
  {
    Advance(next, db.schedules[id], clock(id)).Some?
  }

  predicate Distinct(picks: seq<nat>) {
    forall j, k :: 0 <= j < k < |picks| ==> picks[j] != picks[k]
  }

  /** What materialising one schedule does to another, or to itself. */
  lemma {:induction false} OneEffect(db: Db, next: CronNext, audience: Audience, pick: nat, clock: int, id: nat)
    requires pick < |db.schedules| && id < |db.schedules|
    ensures var r := MaterializeOne(db, next, audience, pick, clock);
            && (r.Some? <==> Advance(next, db.schedules[pick], clock).Some?)
            && (r.Some? ==>
                  var s, s' := db.schedules[id], r.value.schedules[id];
                  if id == pick then
                    && RunsOf(r.value.jobs, id) == RunsOf(db.jobs, id) + [s.nextRunAt]
                    && Some(s'.nextRunAt) == Advance(next, s, clock)
                    && s' == s.(nextRunAt := s'.nextRunAt, active := s.cron.Some?)
                  else RunsOf(r.value.jobs, id) == RunsOf(db.jobs, id) && s' == s)
  {
    RunsOfMore(db.jobs, JobFor(db.schedules[pick], pick, audience), id);
  }

  /** Each selected schedule gets exactly one job, for its due time, and moves on once; the others are untouched. */
  lemma {:induction false} BatchEffect(
    db: Db, next: CronNext, audience: Audience, picks: seq<nat>, clock: nat -> int, id: nat)
    requires Distinct(picks) && (forall k :: 0 <= k < |picks| ==> picks[k] < |db.schedules|) && id < |db.schedules|
    ensures var r := MaterializeAll(db, next, audience, picks, clock);
            && (r.Some? <==> forall k :: 0 <= k < |picks| ==> Advances(db, next, picks[k], clock))
            && (r.Some? ==>
                  var s, s' := db.schedules[id], r.value.schedules[id];
                  if id in picks then
                    && RunsOf(r.value.jobs, id) == RunsOf(db.jobs, id) + [s.nextRunAt]
                    && Some(s'.nextRunAt) == Advance(next, s, clock(id))
                    && s' == s.(nextRunAt := s'.nextRunAt, active := s.cron.Some?)
                  else RunsOf(r.value.jobs, id) == RunsOf(db.jobs, id) && s' == s)
    decreases |picks|
  {
    if picks != [] {
      var init, last := picks[..|picks| - 1], picks[|picks| - 1];
      assert picks == init + [last] && last !in init;
      BatchEffect(db, next, audience, init, clock, id);
      BatchEffect(db, next, audience, init, clock, last);
      var before := MaterializeAll(db, next, audience, init, clock);
      if before.Some? {
        assert before.value.schedules[last] == db.schedules[last];
        OneEffect(before.value, next, audience, last, clock(last), id);
      }
    }
  }

  // ----- every occurrence, once and in order -----

  /** What has run, then what runs next. */
  function Trail(db: Db, id: nat): seq<int>
    requires id < |db.schedules|
  {
    RunsOf(db.jobs, id) + [db.schedules[id].nextRunAt]
  }

  /** Each entry is the cron's successor of the one before. */
  predicate IsChain(next: CronNext, cron: string, timezone: string, trail: seq<int>) {
    forall k :: 0 < k < |trail| ==> next(cron, timezone, trail[k - 1]) == Some(trail[k])
  }

  predicate SameTerms(s: Schedule, s': Schedule) {
    s' == s.(nextRunAt := s'.nextRunAt, active := s'.active)
  }

  /** No job is filed under a schedule that does not exist yet. */
  predicate JobsOk(db: Db) {
    forall j :: 0 <= j < |db.jobs| ==> db.jobs[j].schedule < |db.schedules|
  }

  lemma {:induction false} NoRunsYet(jobs: seq<Job>, id: nat)
    requires forall j :: 0 <= j < |jobs| ==> jobs[j].schedule < id
    ensures RunsOf(jobs, id) == []
  {
    if jobs != [] {
      NoRunsYet(jobs[..|jobs| - 1], id);
    }
  }

  lemma {:induction false} BatchKeepsJobsOk(
    db: Db, next: CronNext, audience: Audience, picks: seq<nat>, clock: nat -> int)
    requires JobsOk(db) && forall k :: 0 <= k < |picks| ==> picks[k] < |db.schedules|
    ensures var r := MaterializeAll(db, next, audience, picks, clock); r.Some? ==> JobsOk(r.value)
    decreases |picks|
  {
    if picks != [] {
      BatchKeepsJobsOk(db, next, audience, picks[..|picks| - 1], clock);
    }
  }

  lemma StepKeepsJobsOk(db: Db, next: CronNext, a: Action)
    requires JobsOk(db)
    ensures JobsOk(Step(db, next, a)) && |Step(db, next, a).schedules| >= |db.schedules|
  {
    if a.Materialize? && Selected(db, a.picks, a.locked, a.now) {
      BatchKeepsJobsOk(db, next, a.audience, a.picks, a.clock);
    }
  }

  lemma {:induction false} JobsAreFiledUnderSchedules(db: Db, next: CronNext, actions: seq<Action>)
    requires JobsOk(db)
    ensures JobsOk(Run(db, next, actions))
    decreases |actions|
  {
    if actions != [] {
      StepKeepsJobsOk(db, next, actions[0]);
      JobsAreFiledUnderSchedules(Step(db, next, actions[0]), next, actions[1..]);
    }
  }

  /** What one transaction may do to an existing schedule and the jobs made for it. */
  lemma {:induction false} StepOnSchedule(db: Db, next: CronNext, a: Action, id: nat)
    requires id < |db.schedules|
    ensures var after := Step(db, next, a);
            && |after.schedules| >= |db.schedules|
            && var s, s' := db.schedules[id], after.schedules[id];
            && SameTerms(s, s')
            && if RunsOf(after.jobs, id) == RunsOf(db.jobs, id) then
                 && s'.nextRunAt == s.nextRunAt && (s'.active && !s.active ==> a == SetActive(s.tenant, id, true))
                 && (s.active && !s'.active ==>
                      a == SetActive(s.tenant, id, false) || a == Cancel(s.tenant, s.campaign))
               else
                 && a.Materialize? && id in a.picks && Due(s, a.now)
                 && RunsOf(after.jobs, id) == RunsOf(db.jobs, id) + [s.nextRunAt]
                 && Some(s'.nextRunAt) == Advance(next, s, a.clock(id)) && s'.active == s.cron.Some?
  {
    match a
    case Create(owned, tenant, timezone, request) =>
      var r := ScheduleTx(db, next, owned, tenant, timezone, request);
      if r.Ok? {
        RunsOfMore(db.jobs, r.value.jobs[|db.jobs|], id);
      }
    case Materialize(audience, picks, locked, now, clock) =>
      if Selected(db, picks, locked, now) {
        BatchEffect(db, next, audience, picks, clock, id);
      }
    case _ =>
  }

  /**
   Over any run, pauses, cancellations, failed batches and late ticks included, a
   recurring schedule's trail only grows, each new entry being the successor of the last.
   */
  lemma {:induction false} TrailsOnlyGrow(db: Db, next: CronNext, actions: seq<Action>, id: nat)
    requires id < |db.schedules| && Recurring(db.schedules[id].cron)
    requires IsChain(next, db.schedules[id].cron.value, db.schedules[id].timezone, Trail(db, id))
    ensures var after := Run(db, next, actions);
            && |after.schedules| >= |db.schedules|
            && SameTerms(db.schedules[id], after.schedules[id])
            && Trail(db, id) <= Trail(after, id)
            && IsChain(next, db.schedules[id].cron.value, db.schedules[id].timezone, Trail(after, id))
    decreases |actions|
  {
    if actions != [] {
      StepOnSchedule(db, next, actions[0], id);
      TrailsOnlyGrow(Step(db, next, actions[0]), next, actions[1..], id);
    }
  }

  /** `next` steps through the times at which the cron expression fires, missing none. */
  ghost predicate StepsThrough(next: CronNext, fires: (string, string, int) -> bool) {
    forall cron, timezone, t :: StepsFrom(next, fires, cron, timezone, t)
  }

  ghost predicate StepsFrom(
    next: CronNext, fires: (string, string, int) -> bool, cron: string, timezone: string, t: int) {
    var n := next(cron, timezone, t);
    n.Some? ==>
      && t < n.value && fires(cron, timezone, n.value)
      && forall u :: t < u < n.value ==> !fires(cron, timezone, u)
  }

  /** A chain lists the firings from its first entry to its last: all of them, in order, each once. */
  lemma {:induction false} ChainsListFirings(
    next: CronNext, fires: (string, string, int) -> bool, cron: string, timezone: string, trail: seq<int>)
    requires StepsThrough(next, fires) && trail != [] && fires(cron, timezone, trail[0])
    requires IsChain(next, cron, timezone, trail)
    ensures forall j, k :: 0 <= j < k < |trail| ==> trail[j] < trail[k]
    ensures forall t :: trail[0] <= t <= trail[|trail| - 1] ==> (fires(cron, timezone, t) <==> t in trail)
    decreases |trail|
  {
    if |trail| > 1 {
      var init := trail[..|trail| - 1];
      ChainsListFirings(next, fires, cron, timezone, init);
      assert StepsFrom(next, fires, cron, timezone, init[|init| - 1]);
      assert trail == init + [trail[|trail| - 1]];
    }
  }

  /**
   The jobs made for a schedule are for exactly the firings from `first` up to, not
   including, its next run: in order, one each.
   */
  ghost predicate RunsAreFirings(
    db: Db, fires: (string, string, int) -> bool, id: nat, cron: string, timezone: string, first: int)
    requires id < |db.schedules|
  {
    var runs, upTo := RunsOf(db.jobs, id), db.schedules[id].nextRunAt;
    && first <= upTo
    && (forall j, k :: 0 <= j < k < |runs| ==> runs[j] < runs[k])
    && (forall t :: t in runs ==> first <= t < upTo)
    && (forall t :: first <= t < upTo ==> (fires(cron, timezone, t) <==> t in runs))
  }

  lemma TrailsListFirings(
    db: Db, next: CronNext, fires: (string, string, int) -> bool, id: nat, cron: string, timezone: string)
    requires StepsThrough(next, fires) && id < |db.schedules| && fires(cron, timezone, Trail(db, id)[0])
    requires IsChain(next, cron, timezone, Trail(db, id))
    ensures RunsAreFirings(db, fires, id, cron, timezone, Trail(db, id)[0])
  {
    var trail := Trail(db, id);
    ChainsListFirings(next, fires, cron, timezone, trail);
    assert forall k :: 0 <= k < |RunsOf(db.jobs, id)| ==> RunsOf(db.jobs, id)[k] == trail[k];
    assert forall t :: t in trail <==> t in RunsOf(db.jobs, id) || t == trail[|trail| - 1];
  }

  /** A new schedule is a trail of one entry, the first firing after the second before its start. */
  lemma NewTrail(db: Db, next: CronNext, owned: Audience, tenant: string, timezone: string, r: Request)
    requires JobsOk(db) && Recurring(r.cron) && ScheduleTx(db, next, owned, tenant, timezone, r).Ok?
    ensures var made := Step(db, next, Create(owned, tenant, timezone, r));
            && |made.schedules| == |db.schedules| + 1
            && made.schedules[|db.schedules|].cron == r.cron && made.schedules[|db.schedules|].timezone == timezone
            && Some(Trail(made, |db.schedules|)[0]) == next(r.cron.value, timezone, r.startAt - 1000)
            && |Trail(made, |db.schedules|)| == 1
  {
    var made := Step(db, next, Create(owned, tenant, timezone, r));
    NoRunsYet(db.jobs, |db.schedules|);
    RunsOfMore(db.jobs, made.jobs[|db.jobs|], |db.schedules|);
  }

  /**
   In any run from the empty tables: once a recurring schedule is made, whatever
   happens later, the jobs made for it are for every firing from its first run up to
   its next one, in order and one job each.
   */
  lemma {:induction false} EveryOccurrenceOnce(
    earlier: seq<Action>, next: CronNext, fires: (string, string, int) -> bool,
    owned: Audience, tenant: string, timezone: string, r: Request, later: seq<Action>)
    requires StepsThrough(next, fires) && Recurring(r.cron)
    requires ScheduleTx(Run(Empty(), next, earlier), next, owned, tenant, timezone, r).Ok?
    ensures var before := Run(Empty(), next, earlier);
            var after := Run(Step(before, next, Create(owned, tenant, timezone, r)), next, later);
            && |before.schedules| < |after.schedules|
            && RunsAreFirings(after, fires, |before.schedules|, r.cron.value, timezone,
               next(r.cron.value, timezone, r.startAt - 1000).value)
  {
    JobsAreFiledUnderSchedules(Empty(), next, earlier);
    var before := Run(Empty(), next, earlier);
    NewTrail(before, next, owned, tenant, timezone, r);
    var made := Step(before, next, Create(owned, tenant, timezone, r));
    assert StepsFrom(next, fires, r.cron.value, timezone, r.startAt - 1000);
    TrailsOnlyGrow(made, next, later, |before.schedules|);
    TrailsListFirings(Run(made, next, later), next, fires, |before.schedules|, r.cron.value, timezone);
  }

  /** The first run is before the requested start exactly when the cron fires in the second before it. */
  lemma FirstRunMayPrecedeStart(
    next: CronNext, fires: (string, string, int) -> bool, cron: string, timezone: string, startAt: int)
    requires StepsThrough(next, fires) && cron != "" && next(cron, timezone, startAt - 1000).Some?
    ensures var first := ComputeNextRunAt(next, Some(cron), timezone, startAt, true);
            && first.Some?
            && (first.value < startAt <==> exists t :: startAt - 1000 < t < startAt && fires(cron, timezone, t))
            && (first.value > startAt ==> !fires(cron, timezone, startAt))
  {
    assert StepsFrom(next, fires, cron, timezone, startAt - 1000);
  }

  // ----- schedules that run once -----

  /** Every tick's database clock stays behind a century after every process clock used. */
  ghost predicate WithinCentury(actions: seq<Action>, limit: int) {
    forall k :: 0 <= k < |actions| && actions[k].Materialize? ==>
      actions[k].now < limit && forall i: nat :: limit <= actions[k].clock(i) + CENTURY
  }

  /**
   A schedule without a recurrence is materialised at most once within a century, for the
   time it was set for, however often it is reactivated.
   */
  lemma {:induction false} OneTimeRunsOnce(db: Db, next: CronNext, actions: seq<Action>, limit: int, id: nat)
    requires id < |db.schedules| && !Recurring(db.schedules[id].cron) && WithinCentury(actions, limit)
    requires RunsOf(db.jobs, id) == [] || db.schedules[id].nextRunAt >= limit
    ensures var after := Run(db, next, actions);
            && |after.schedules| >= |db.schedules|
            && var runs, runs' := RunsOf(db.jobs, id), RunsOf(after.jobs, id);
            runs' == runs || (runs == [] && runs' == [db.schedules[id].nextRunAt])
    decreases |actions|
  {
    if actions != [] {
      StepOnSchedule(db, next, actions[0], id);
      OneTimeRunsOnce(Step(db, next, actions[0]), next, actions[1..], limit, id);
    }
  }

  /** While nobody reactivates it, an inactive schedule gets no job and keeps its next run. */
  lemma {:induction false} InactiveStaysQuiet(db: Db, next: CronNext, actions: seq<Action>, id: nat)
    requires id < |db.schedules| && !db.schedules[id].active
    requires forall k :: 0 <= k < |actions| ==> actions[k] != SetActive(db.schedules[id].tenant, id, true)
    ensures var after := Run(db, next, actions);
            && |after.schedules| >= |db.schedules|
            && after.schedules[id] == db.schedules[id] && RunsOf(after.jobs, id) == RunsOf(db.jobs, id)
    decreases |actions|
  {
    if actions != [] {
      StepOnSchedule(db, next, actions[0], id);
      InactiveStaysQuiet(Step(db, next, actions[0]), next, actions[1..], id);
    }
  }

  /** Cancelling silences every schedule of the campaign. */
  lemma {:induction false} CancelSilences(
    db: Db, next: CronNext, tenant: string, campaign: nat, actions: seq<Action>, id: nat)
    requires id < |db.schedules| && db.schedules[id].tenant == tenant && db.schedules[id].campaign == campaign
    requires CancelTx(db, tenant, campaign).Some?
    requires forall k :: 0 <= k < |actions| ==> actions[k] != SetActive(tenant, id, true)
    ensures var after := Run(Step(db, next, Cancel(tenant, campaign)), next, actions);
            && |after.schedules| >= |db.schedules|
            && !after.schedules[id].active && RunsOf(after.jobs, id) == RunsOf(db.jobs, id)
  {
    InactiveStaysQuiet(Step(db, next, Cancel(tenant, campaign)), next, actions, id);
  }

  lemma {:induction false} BatchKeepsCampaigns(
    db: Db, next: CronNext, audience: Audience, picks: seq<nat>, clock: nat -> int)
    requires forall k :: 0 <= k < |picks| ==> picks[k] < |db.schedules|
    ensures var r := MaterializeAll(db, next, audience, picks, clock); r.Some? ==> r.value.campaigns == db.campaigns
    decreases |picks|
  {
    if picks != [] {
      BatchKeepsCampaigns(db, next, audience, picks[..|picks| - 1], clock);
    }
  }

  lemma {:induction false} LoneSelection(db: Db, id: nat, now: int)
    requires id < |db.schedules| && Due(db.schedules[id], now)
    ensures Selected(db, [id], AllBut(|db.schedules|, id), now)
  {
    forall i | 0 <= i < |db.schedules| && i !in AllBut(|db.schedules|, id)
      ensures i in [id]
    {
      assert i == id;
    }
  }

  /** A tick in which every other schedule is locked selects a due schedule alone. */
  lemma {:induction false} LoneTickRuns(
    db: Db, next: CronNext, audience: Audience, id: nat, now: int, clock: nat -> int)
    requires id < |db.schedules| && Due(db.schedules[id], now) && Advances(db, next, id, clock)
    ensures var after := Step(db, next, Materialize(audience, [id], AllBut(|db.schedules|, id), now, clock));
            && RunsOf(after.jobs, id) == RunsOf(db.jobs, id) + [db.schedules[id].nextRunAt]
            && after.campaigns == db.campaigns
  {
    LoneSelection(db, id, now);
    BatchEffect(db, next, audience, [id], clock, id);
    BatchKeepsCampaigns(db, next, audience, [id], clock);
    assert id in [id];
  }

  /**
   With `CancelSilences`: a cancelled campaign's schedule makes jobs again exactly
   when someone reactivates it. Only the schedule is checked, so once reactivated and
   due it runs, for a campaign that is still cancelled.
   */
  lemma {:induction false} ReactivatedAfterCancelRuns(
    db: Db, next: CronNext, audience: Audience, tenant: string, campaign: nat, id: nat, now: int, clock: nat -> int)
    requires CancelTx(db, tenant, campaign).Some?
    requires id < |db.schedules| && db.schedules[id].tenant == tenant && db.schedules[id].campaign == campaign
    requires db.schedules[id].nextRunAt <= now && Advances(db, next, id, clock)
    ensures var resumed := Step(Step(db, next, Cancel(tenant, campaign)), next, SetActive(tenant, id, true));
            var locked := AllBut(|db.schedules|, id);
            var after := Step(resumed, next, Materialize(audience, [id], locked, now, clock));
            && campaign - 1 < |after.campaigns| && after.campaigns[campaign - 1].status == Cancelled
            && RunsOf(after.jobs, id) == RunsOf(db.jobs, id) + [db.schedules[id].nextRunAt]
  {
    var resumed := Step(Step(db, next, Cancel(tenant, campaign)), next, SetActive(tenant, id, true));
    assert resumed.schedules[id] == db.schedules[id].(active := true) && resumed.jobs == db.jobs;
    assert Advance(next, resumed.schedules[id], clock(id)) == Advance(next, db.schedules[id], clock(id));
    LoneTickRuns(resumed, next, audience, id, now, clock);
  }

  // ----- catching up -----

  ghost predicate Later(next: CronNext) {
    forall cron, timezone, t :: next(cron, timezone, t).Some? ==> next(cron, timezone, t).value > t
  }

  /** How many occurrences from `at` on are due. */
  ghost function DueFrom(next: CronNext, cron: string, timezone: string, at: int, now: int): (n: nat)
    requires Later(next)
    decreases if at <= now then now - at + 1 else 0
  {
    if at > now then 0
    else if next(cron, timezone, at).None? then 1
    else 1 + DueFrom(next, cron, timezone, next(cron, timezone, at).value, now)
  }

  /** The runs a schedule still owes at a fixed clock. */
  ghost function Owed(next: CronNext, s: Schedule, now: int): nat
    requires Later(next)
  {
    if !s.active then 0
    else if Recurring(s.cron) then DueFrom(next, s.cron.value, s.timezone, s.nextRunAt, now)
    else if s.nextRunAt <= now then 1 else 0
  }

  ghost function Backlog(db: Db, next: CronNext, now: int): int
    requires Later(next)
  {
    Sum(db.schedules, s => Owed(next, s, now))
  }

  /** Every selected schedule pays off exactly one of the runs it owes. */
  lemma {:induction false} BatchPaysOff(
    db: Db, next: CronNext, audience: Audience, picks: seq<nat>, clock: nat -> int, now: int)
    requires Later(next) && Distinct(picks)
    requires forall k :: 0 <= k < |picks| ==>
             picks[k] < |db.schedules| && Due(db.schedules[picks[k]], now) && now < clock(picks[k]) + CENTURY
    requires MaterializeAll(db, next, audience, picks, clock).Some?
    ensures Backlog(MaterializeAll(db, next, audience, picks, clock).value, next, now)
            == Backlog(db, next, now) - |picks|
    decreases |picks|
  {
    if picks != [] {
      var init, id := picks[..|picks| - 1], picks[|picks| - 1];
      BatchPaysOff(db, next, audience, init, clock, now);
      BatchEffect(db, next, audience, init, clock, id);
      var before := MaterializeAll(db, next, audience, init, clock).value;
      var s := before.schedules[id];
      assert id !in init;
      var s' := MaterializeOne(before, next, audience, id, clock(id)).value.schedules[id];
      assert Owed(next, s', now) == Owed(next, s, now) - 1;
      SumUpdate(before.schedules, id, s', s => Owed(next, s, now));
    }
  }

  /** Nothing is owed exactly when nothing is due. */
  lemma OwedMeansDue(db: Db, next: CronNext, now: int)
    requires Later(next)
    ensures Backlog(db, next, now) >= 0
    ensures Backlog(db, next, now) == 0 <==> forall i :: 0 <= i < |db.schedules| ==> !Due(db.schedules[i], now)
  {
    var w := (s: Schedule) => Owed(next, s, now);
    if |db.schedules| > 0 {
      SumCoversMember(db.schedules, 0, w);
    }
    if i :| 0 <= i < |db.schedules| && Due(db.schedules[i], now) {
      SumCoversMember(db.schedules, i, w);
    } else {
      SumZero(db.schedules, w);
    }
  }

  /** A run of ticks at one clock reading that nothing disturbs: no row is locked and every batch commits. */
  ghost predicate Undisturbed(db: Db, next: CronNext, actions: seq<Action>, now: int)
    decreases |actions|
  {
    actions != [] ==>
      && actions[0].Materialize? && actions[0].now == now && actions[0].locked == {}
      && Selected(db, actions[0].picks, {}, now)
      && MaterializeAll(db, next, actions[0].audience, actions[0].picks, actions[0].clock).Some?
      && (forall k :: 0 <= k < |actions[0].picks| ==> now < actions[0].clock(actions[0].picks[k]) + CENTURY)
      && Undisturbed(Step(db, next, actions[0]), next, actions[1..], now)
  }

  /** Each tick shrinks the backlog, so once there have been as many ticks as owed runs nothing is due any more. */
  lemma {:induction false} CatchesUp(db: Db, next: CronNext, actions: seq<Action>, now: int)
    requires Later(next) && Undisturbed(db, next, actions, now)
    ensures var left, owed := Backlog(Run(db, next, actions), next, now), Backlog(db, next, now);
            && 0 <= left <= owed
            && (left == 0 || left <= owed - |actions|)
            && (|actions| >= owed ==> forall i :: 0 <= i < |Run(db, next, actions).schedules| ==>
               !Due(Run(db, next, actions).schedules[i], now))
    decreases |actions|
  {
    OwedMeansDue(db, next, now);
    if actions != [] {
      var a := actions[0];
      BatchPaysOff(db, next, a.audience, a.picks, a.clock, now);
      OwedMeansDue(Step(db, next, a), next, now);
      CatchesUp(Step(db, next, a), next, actions[1..], now);
    }
    OwedMeansDue(Run(db, next, actions), next, now);
  }

  // ----- what each transaction writes -----

  /** The job is for the schedule as it stood: whose it is, how it is split, whom it reaches and how many they are. */
  predicate MadeFor(job: Job, s: Schedule, id: nat, audience: Audience) {
    && job.tenant == s.tenant && job.campaign == s.campaign && job.shardCount == s.shardCount
    && job.status == QueuedJob && job.schedule == id && job.occurrence == Some(s.nextRunAt)
    && if s.group.GetOr(0) != 0 then
         && job.source == ContactGroup
         && job.total == (if s.group.value in audience.groupSize then audience.groupSize[s.group.value] else 0)
       else if s.upload.GetOr(0) != 0 then
         && job.source == Upload
         && job.total == (if s.upload.value in audience.uploadRows then audience.uploadRows[s.upload.value] else 0)
       else job.source == Api && job.total == 0
  }

  /** A batch that commits adds one job for each schedule selected, in their order, made for it as it stood before. */
  lemma {:induction false} BatchJobs(
    db: Db, next: CronNext, audience: Audience, picks: seq<nat>, clock: nat -> int)
    requires Distinct(picks) && forall k :: 0 <= k < |picks| ==> picks[k] < |db.schedules|
    ensures var r := MaterializeAll(db, next, audience, picks, clock);
            r.Some? ==>
              && |r.value.jobs| == |db.jobs| + |picks| && r.value.jobs[..|db.jobs|] == db.jobs
              && forall k :: 0 <= k < |picks| ==>
                   MadeFor(r.value.jobs[|db.jobs| + k], db.schedules[picks[k]], picks[k], audience)
    decreases |picks|
  {
    if picks != [] {
      var init, last := picks[..|picks| - 1], picks[|picks| - 1];
      BatchJobs(db, next, audience, init, clock);
      BatchEffect(db, next, audience, init, clock, last);
      var before := MaterializeAll(db, next, audience, init, clock);
      var r := MaterializeAll(db, next, audience, picks, clock);
      if r.Some? {
        assert before.value.schedules[last] == db.schedules[last];
        assert r.value.jobs[..|before.value.jobs|] == before.value.jobs;
        assert MadeFor(r.value.jobs[|before.value.jobs|], db.schedules[last], last, audience);
      }
    }
  }

  /** Jobs and the schedules they are filed under agree on whose campaign it is and on the shards. */
  predicate JobsMatch(db: Db) {
    forall j :: 0 <= j < |db.jobs| ==> JobMatches(db.jobs[j], db.schedules)
  }

  predicate JobMatches(job: Job, schedules: seq<Schedule>) {
    && job.schedule < |schedules|
    && var s := schedules[job.schedule];
    && job.tenant == s.tenant && job.campaign == s.campaign && job.shardCount == s.shardCount
    && (job.occurrence.Some? <==> job.status == QueuedJob)
  }

  lemma {:induction false} StepKeepsTerms(db: Db, next: CronNext, a: Action)
    ensures var after := Step(db, next, a);
            |db.schedules| <= |after.schedules|
            && forall id :: 0 <= id < |db.schedules| ==> SameTerms(db.schedules[id], after.schedules[id])
  {
    forall id | 0 <= id < |db.schedules|
      ensures |db.schedules| <= |Step(db, next, a).schedules|
      ensures SameTerms(db.schedules[id], Step(db, next, a).schedules[id])
    {
      StepOnSchedule(db, next, a, id);
    }
    if db.schedules == [] && a.Materialize? && Selected(db, a.picks, a.locked, a.now) {
      assert a.picks == [] || a.picks[0] < |db.schedules|;
    }
  }

  lemma {:induction false} StepKeepsJobsMatch(db: Db, next: CronNext, a: Action)
    requires JobsMatch(db)
    ensures JobsMatch(Step(db, next, a))
  {
    var after := Step(db, next, a);
    StepKeepsTerms(db, next, a);
    if a.Materialize? && Selected(db, a.picks, a.locked, a.now) {
      BatchJobs(db, next, a.audience, a.picks, a.clock);
    }
    forall j | 0 <= j < |after.jobs|
      ensures JobMatches(after.jobs[j], after.schedules)
    {
      if j < |db.jobs| {
        assert after.jobs[j] == db.jobs[j] && JobMatches(db.jobs[j], db.schedules);
        assert SameTerms(db.schedules[db.jobs[j].schedule], after.schedules[db.jobs[j].schedule]);
      } else if a.Materialize? {
        var k := j - |db.jobs|;
        assert MadeFor(after.jobs[|db.jobs| + k], db.schedules[a.picks[k]], a.picks[k], a.audience);
        assert SameTerms(db.schedules[a.picks[k]], after.schedules[a.picks[k]]);
      }
    }
  }

  /** In every run each job, a schedule's first or a later one, is for that schedule's tenant and campaign. */
  lemma {:induction false} JobsNameTheirSchedule(next: CronNext, actions: seq<Action>)
    ensures JobsMatch(Run(Empty(), next, actions))
  {
    JobsKeepMatching(Empty(), next, actions);
  }

  lemma {:induction false} JobsKeepMatching(db: Db, next: CronNext, actions: seq<Action>)
    requires JobsMatch(db)
    ensures JobsMatch(Run(db, next, actions))
    decreases |actions|
  {
    if actions != [] {
      StepKeepsJobsMatch(db, next, actions[0]);
      JobsKeepMatching(Step(db, next, actions[0]), next, actions[1..]);
    }
  }

  /** The id is set to something other than zero. */
  predicate Names(id: Option<nat>) {
    id.GetOr(0) != 0
  }

  /** When a request first runs: by its cron expression from a second before the start on, or at the start itself. */
  function FirstRun(next: CronNext, timezone: string, r: Request): Option<int> {
    if r.cron.GetOr("") != "" then next(r.cron.value, timezone, r.startAt - 1000) else Some(r.startAt)
  }

  /** The new schedule is the request, its campaign the one named or a new one, and one job waits for it. */
  predicate IsScheduled(before: Db, after: Db, next: CronNext, tenant: string, timezone: string, r: Request) {
    && |after.schedules| == |before.schedules| + 1 && after.schedules[..|before.schedules|] == before.schedules
    && |after.jobs| == |before.jobs| + 1 && after.jobs[..|before.jobs|] == before.jobs
    && var s, job := after.schedules[|before.schedules|], after.jobs[|before.jobs|];
    && s.tenant == tenant && s.timezone == timezone && s.active
    && s.group == r.group && s.upload == r.upload && s.cron == r.cron
    && s.shardCount == (if r.shardCount.Some? then r.shardCount.value else 4)
    && Some(s.nextRunAt) == FirstRun(next, timezone, r)
    && job.tenant == tenant && job.campaign == s.campaign && job.shardCount == s.shardCount
    && job.source == Api && job.status == PendingJob && job.total == 0 && job.occurrence == None
    && if Names(r.campaign) then s.campaign == r.campaign.value && after.campaigns == before.campaigns
       else
         && s.campaign == |after.campaigns| == |before.campaigns| + 1
         && after.campaigns[..|before.campaigns|] == before.campaigns
         && after.campaigns[s.campaign - 1] == Campaign(tenant, Scheduled)
  }

  /** A request is refused for the first of four reasons that applies, and otherwise recorded as it is. */
  lemma CreateEffect(db: Db, next: CronNext, owned: Audience, tenant: string, timezone: string, r: Request)
    ensures var refused := if !Names(r.group) && !Names(r.upload) then Some(NoAudience)
                           else if Names(r.group) && r.group.value !in owned.groupSize then Some(GroupNotFound)
                           else if Names(r.upload) && r.upload.value !in owned.uploadRows then Some(UploadNotFound)
                           else if FirstRun(next, timezone, r).None? then Some(InvalidCron)
                           else None;
            var tx, after := ScheduleTx(db, next, owned, tenant, timezone, r),
                             Step(db, next, Create(owned, tenant, timezone, r));
            if refused.Some? then tx == Err(refused.value) && after == db
            else tx.Ok? && IsScheduled(db, after, next, tenant, timezone, r)
  {
  }

  /** Only the flag of the tenant's own schedule changes. */
  lemma SetActiveEffect(db: Db, next: CronNext, tenant: string, id: nat, active: bool)
    ensures var after := Step(db, next, SetActive(tenant, id, active));
            && after.campaigns == db.campaigns && after.jobs == db.jobs && |after.schedules| == |db.schedules|
            && forall i :: 0 <= i < |db.schedules| ==>
                 var s := db.schedules[i];
                 after.schedules[i] == if i == id && s.tenant == tenant then s.(active := active) else s
    ensures SetActiveTx(db, tenant, id, active).Some? <==> id < |db.schedules| && db.schedules[id].tenant == tenant
  {
  }

  /** Cancelling a campaign of the tenant marks it and pauses exactly its schedules; any other call changes nothing. */
  lemma CancelEffect(db: Db, next: CronNext, tenant: string, campaign: nat)
    ensures var after := Step(db, next, Cancel(tenant, campaign));
            var owns := 1 <= campaign <= |db.campaigns| && db.campaigns[campaign - 1].tenant == tenant;
            && (CancelTx(db, tenant, campaign).Some? <==> owns)
            && |after.campaigns| == |db.campaigns| && |after.schedules| == |db.schedules| && after.jobs == db.jobs
            && (forall c :: 0 <= c < |db.campaigns| ==>
                  && after.campaigns[c].tenant == db.campaigns[c].tenant
                  && after.campaigns[c].status
                       == (if owns && c == campaign - 1 then Cancelled else db.campaigns[c].status))
            && forall i :: 0 <= i < |db.schedules| ==>
                 var s := db.schedules[i];
                 after.schedules[i]
                   == if owns && s.tenant == tenant && s.campaign == campaign then s.(active := false) else s
  {
  }

  /**
   A tick makes at most 25 jobs, for due schedules nobody has locked and for all of them
   when it makes fewer; each moves to its next firing, or, without a recurrence, a hundred
   years on from the clock.
   */
  lemma {:induction false} TickEffect(db: Db, next: CronNext, a: Action, id: nat)
    requires a.Materialize? && id < |db.schedules|
    ensures var after := Step(db, next, a);
            && |db.jobs| <= |after.jobs| <= |db.jobs| + 25 && |after.schedules| == |db.schedules|
            && var s, s', due := db.schedules[id], after.schedules[id],
                 db.schedules[id].active && db.schedules[id].nextRunAt <= a.now && id !in a.locked;
            && (|db.jobs| < |after.jobs| < |db.jobs| + 25 && due ==> RunsOf(after.jobs, id) != RunsOf(db.jobs, id))
            && if RunsOf(after.jobs, id) == RunsOf(db.jobs, id) then s' == s
               else
                 && due && RunsOf(after.jobs, id) == RunsOf(db.jobs, id) + [s.nextRunAt]
                 && s'.active == s.cron.Some?
                 && Some(s'.nextRunAt) == if s.cron.GetOr("") != "" then next(s.cron.value, s.timezone, s.nextRunAt)
                                          else Some(a.clock(id) + 36_500 * 86_400_000)
  {
    if Selected(db, a.picks, a.locked, a.now) {
      BatchEffect(db, next, a.audience, a.picks, a.clock, id);
      BatchJobs(db, next, a.audience, a.picks, a.clock);
    }
  }
}
