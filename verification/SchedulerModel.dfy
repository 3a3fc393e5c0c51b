/** The collection scheduler (adaptive-scheduler.ts, scheduling-policy.ts) as a
    state and one function for each of its atomic steps. A step runs without
    interruption; between steps anything else may run. */
module SchedulerModel {
  import opened Domain
  import opened Texts

  // --- Scheduling policy -----------------------------------------------------

  datatype Intervals = Intervals(gt24h: nat, h6to24: nat, h1to6: nat, lt1h: nat)

  const HOUR_MS: int := 3_600_000

  /** scheduling-policy.ts, `getDetailInterval`: None once the event has started or
      when its start does not parse. */
  function DetailInterval(startsAt: Option<int>, now: int, v: Intervals): Option<nat> {
    if startsAt.None? then None
    else
      var remaining := startsAt.value - now;
      if remaining <= 0 then None
      else if remaining > 24 * HOUR_MS then Some(v.gt24h)
      else if remaining >= 6 * HOUR_MS then Some(v.h6to24)
      else if remaining >= HOUR_MS then Some(v.h1to6)
      else Some(v.lt1h)
  }

  /** scheduling-policy.ts, `backoff`: the last step repeats. */
  function Backoff(failures: nat, steps: seq<nat>): nat
    requires steps != []
  {
    var i := if failures == 0 then 0 else failures - 1;
    steps[if i < |steps| then i else |steps| - 1]
  }

  /** The bands and their bounds: exactly 24 and 6 hours belong to the band between
      them, exactly one hour to the band above it. */
  lemma {:induction false} DetailIntervalBands(startsAt: Option<int>, now: int, v: Intervals)
    ensures DetailInterval(startsAt, now, v).Some? <==> startsAt.Some? && startsAt.value > now
    ensures startsAt.Some? ==>
              var r, i := startsAt.value - now, DetailInterval(startsAt, now, v);
              && (r > 86_400_000 ==> i == Some(v.gt24h))
              && (21_600_000 <= r <= 86_400_000 ==> i == Some(v.h6to24))
              && (3_600_000 <= r < 21_600_000 ==> i == Some(v.h1to6))
              && (0 < r < 3_600_000 ==> i == Some(v.lt1h))
  {
  }

  /** The n-th failure in a row waits the n-th step, later ones the last. */
  lemma {:induction false} BackoffSteps(n: nat, steps: seq<nat>)
    requires steps != [] && n >= 1
    ensures n <= |steps| ==> Backoff(n, steps) == steps[n - 1]
    ensures n > |steps| ==> Backoff(n, steps) == steps[|steps| - 1]
  {
  }

  datatype Config = Config(
    names: seq<string>,
    startupDelayMs: nat,
    listIntervalMs: nat,
    detail: Intervals,
    failureThreshold: nat,
    cooldownMs: nat,
    backoffMs: seq<nat>)
  {
    predicate Valid() { backoffMs != [] && failureThreshold >= 1 }
  }

  // --- State -----------------------------------------------------------------

  datatype Attempt = Attempt(
    lastAttemptAt: Option<int>,
    lastSuccessAt: Option<int>,
    nextRunAt: Option<int>,
    failureCount: nat,
    lastError: Option<string>,
    currentlyRunning: bool,
    jitter: nat)

  const BLANK: Attempt := Attempt(None, None, None, 0, None, false, 0)

  /** One event's schedule. `uid` names the object: an entry that is deleted and
      created again is a new object, and a job keeps the object it started with. */
  datatype Detail = Detail(
    attempt: Attempt,
    esport: Esport,
    startsAt: Option<int>,
    preGameStopped: bool,
    uid: nat)

  datatype ProviderState = ProviderState(
    list: Attempt,
    consecutiveFailures: nat,
    cooldownUntil: Option<int>,
    contextReady: bool,
    activeJobs: int,
    effectiveConcurrency: int)

  datatype Job = ListJob(provider: string) | DetailJob(provider: string, eventId: string, esport: Esport)

  type JobId = (string, string)

  function IdOf(job: Job): JobId {
    match job
    case ListJob(p) => (p, "list")
    case DetailJob(p, id, _) => (p, id)
  }

  datatype AbortReason = TimedOut | Shutdown

  /** A launched job: launch time, schedule object it writes to, commit flag and
      the reason of its abort signal, if any. */
  datatype Running = Running(job: Job, at: int, uid: nat, committing: bool, abort: Option<AbortReason>)

  /** What an observer of the scheduler sees, oldest first. */
  datatype Entry =
    | Started(job: Job, at: int, startsAt: Option<int>)
    | Succeeded(job: Job, at: int)
    | Failed(job: Job, at: int, reset: bool, failures: nat, cooldown: Option<int>)
    | EventOver(job: Job, at: int)
    | Cancelled(job: Job, at: int)
    | Reconciled(provider: string, added: set<Key>, at: int)
    | CommitBegun(job: Job, at: int)
    | Aborted(ids: set<JobId>, at: int)
    | StopRequested(at: int)

  datatype State = State(
    providers: map<string, ProviderState>,
    details: map<Key, Detail>,
    catalog: map<Key, Event>,
    jobs: map<JobId, Running>,
    enabled: bool,
    stopping: bool,
    generation: nat,
    trace: seq<Entry>)

  function Initial(g: Config): State {
    State(map p | p in g.names :: ProviderState(BLANK, 0, None, false, 0, 1),
          map[], map[], map[], false, false, 0, [])
  }

  /** Random numbers drawn by one step: one for the attempt itself and one for
      each new detail (or, at start, for each provider). */
  datatype Draws = Draws(own: nat, forNew: string -> nat)

  // --- Recalculation ---------------------------------------------------------

  predicate EligibleAt(e: Event, now: int) {
    && e.inPlay != Some(true)
    && (e.status.Scheduled? || e.status.Suspended?)
    && e.startsAt.Some? && e.startsAt.value > now
  }

  function RecalculatedDetail(g: Config, d: Detail, e: Option<Event>, now: int): Detail {
    var a := d.attempt;
    if e.None? || d.preGameStopped || !EligibleAt(e.value, now) then
      d.(attempt := a.(nextRunAt := None))
    else if a.failureCount == 0 then
      var interval := DetailInterval(d.startsAt, now, g.detail);
      var next := if a.lastAttemptAt.None? then (if a.nextRunAt.Some? then a.nextRunAt.value else now)
                  else a.lastAttemptAt.value + (if interval.Some? then interval.value else 0);
      d.(attempt := a.(nextRunAt := Some(next)))
    else d
  }

  function Lookup<K, V>(m: map<K, V>, k: K): Option<V> {
    if k in m then Some(m[k]) else None
  }

  function Recalculate(g: Config, s: State, now: int): State {
    s.(details := map k | k in s.details :: RecalculatedDetail(g, s.details[k], Lookup(s.catalog, k), now))
  }

  // --- Attempts of a running job ---------------------------------------------

  function AttemptOf(s: State, r: Running): Attempt
    requires r.job.provider in s.providers
  {
    match r.job
    case ListJob(p) => s.providers[p].list
    case DetailJob(p, id, _) => if (p, id) in s.details && s.details[(p, id)].uid == r.uid then s.details[(p, id)].attempt else BLANK
  }

  /** Writes the attempt a job was launched on. A detail object no longer in the
      map is written without any visible effect. */
  function SetAttempt(s: State, r: Running, a: Attempt): State
    requires r.job.provider in s.providers
  {
    match r.job
    case ListJob(p) => s.(providers := s.providers[p := s.providers[p].(list := a)])
    case DetailJob(p, id, _) =>
      if (p, id) in s.details && s.details[(p, id)].uid == r.uid
      then s.(details := s.details[(p, id) := s.details[(p, id)].(attempt := a)])
      else s
  }

  function SetProvider(s: State, p: string, ps: ProviderState): State {
    s.(providers := s.providers[p := ps])
  }

  function Note(s: State, e: Entry): State { s.(trace := s.trace + [e]) }

  // --- Launching -------------------------------------------------------------

  predicate Due(a: Attempt, now: int) {
    !a.currentlyRunning && a.nextRunAt.Some? && now >= a.nextRunAt.value + a.jitter
  }

  function SortTime(d: Detail): int { if d.startsAt.Some? then d.startsAt.value else 0 }

  predicate Before(details: map<Key, Detail>, k: Key, l: Key)
    requires k in details && l in details
  {
    || SortTime(details[k]) < SortTime(details[l])
    || (SortTime(details[k]) == SortTime(details[l]) && TextBefore(k.1, l.1))
  }

  predicate DueDetail(details: map<Key, Detail>, p: string, now: int, k: Key) {
    k in details && k.0 == p && Due(details[k].attempt, now)
  }

  /** First of the provider's due details in start order, then identifier order. */
  ghost predicate IsNext(details: map<Key, Detail>, p: string, now: int, k: Key) {
    && DueDetail(details, p, now, k)
    && forall l :: DueDetail(details, p, now, l) ==> l == k || Before(details, k, l)
  }

  ghost function NextDetail(details: map<Key, Detail>, p: string, now: int): Option<Key> {
    if exists k :: IsNext(details, p, now, k) then var k :| IsNext(details, p, now, k); Some(k) else None
  }

  function Launch(s: State, job: Job, at: int): State
    requires job.provider in s.providers
  {
    var id, p := IdOf(job), job.provider;
    if id in s.jobs then s
    else
      var key := (p, id.1);
      var uid := if job.DetailJob? && key in s.details then s.details[key].uid else 0;
      var r := Running(job, at, uid, false, None);
      var startsAt := if job.DetailJob? && key in s.details then s.details[key].startsAt else None;
      var s1 := SetAttempt(s, r, AttemptOf(s, r).(currentlyRunning := true, lastAttemptAt := Some(at)));
      var ps := s1.providers[p];
      Note(SetProvider(s1, p, ps.(activeJobs := ps.activeJobs + 1)).(jobs := s1.jobs[id := r]), Started(job, at, startsAt))
  }

  /** End of a cooldown: the next job is a discovery probe. */
  function Probe(s: State, p: string, now: int): State
    requires p in s.providers
  {
    var ps := s.providers[p];
    SetProvider(s, p, ps.(cooldownUntil := None, contextReady := false,
                          list := ps.list.(nextRunAt := Some(now), jitter := 0)))
  }

  ghost function TickProvider(s: State, p: string, now: int): State
    requires p in s.providers
  {
    var ps := s.providers[p];
    if ps.activeJobs >= ps.effectiveConcurrency || (ps.cooldownUntil.Some? && now < ps.cooldownUntil.value) then s
    else
      var s1 := if ps.cooldownUntil.Some? then Probe(s, p, now) else s;
      if Due(s1.providers[p].list, now) then Launch(s1, ListJob(p), now)
      else if !s1.providers[p].contextReady then s1
      else
        var next := NextDetail(s1.details, p, now);
        if next.None? then s1
        else Launch(s1, DetailJob(p, next.value.1, s1.details[next.value].esport), now)
  }

  ghost function TickProviders(s: State, names: seq<string>, now: int): State
    decreases |names|
  {
    if names == [] then s
    else
      var before := TickProviders(s, names[..|names| - 1], now);
      var p := names[|names| - 1];
      if p in before.providers then TickProvider(before, p, now) else before
  }

  ghost function Tick(g: Config, s: State, now: int): State {
    if !s.enabled || s.stopping then s
    else TickProviders(Recalculate(g, s, now), g.names, now)
  }

  // --- Lifecycle -------------------------------------------------------------

  function Start(g: Config, s: State, now: int, d: Draws): State {
    if s.enabled || s.stopping then s
    else
      s.(enabled := true,
         providers := map p | p in s.providers ::
           s.providers[p].(list := s.providers[p].list.(nextRunAt := Some(now + g.startupDelayMs), jitter := d.forNew(p))))
  }

  /** The listing by identifier; a repeated identifier keeps its last event. */
  function Listing(provider: string, events: seq<Event>): map<Key, Event> {
    if events == [] then map[]
    else
      var n := |events| - 1;
      Listing(provider, events[..n])[(provider, events[n].eventId) := events[n]]
  }

  function RefreshedDetail(prior: Option<Detail>, e: Event, uid: nat, jitter: nat): Detail {
    match prior
    case None => Detail(BLANK.(jitter := jitter), e.esport, e.startsAt, false, uid)
    case Some(d) => d.(preGameStopped := d.preGameStopped && d.startsAt == e.startsAt, startsAt := e.startsAt, esport := e.esport)
  }

  /** Catalogued events of the provider that its new listing no longer has. */
  function Dropped(s: State, p: string, next: map<Key, Event>): set<Key> {
    set k | k in s.catalog && s.catalog[k].provider == p && k !in next
  }

  function NewCatalog(s: State, p: string, next: map<Key, Event>): map<Key, Event> {
    map k | k in (s.catalog.Keys - Dropped(s, p, next)) + next.Keys :: if k in next then next[k] else s.catalog[k]
  }

  function NewDetails(s: State, p: string, next: map<Key, Event>, forNew: string -> nat): map<Key, Detail> {
    map k | k in (s.details.Keys - Dropped(s, p, next)) + next.Keys ::
      if k in next then RefreshedDetail(Lookup(s.details, k), next[k], s.generation, forNew(k.1)) else s.details[k]
  }

  /** Replaces one provider's catalog by a listing and recalculates. */
  function Reconcile(g: Config, s: State, p: string, events: seq<Event>, now: int, forNew: string -> nat): State {
    var next := Listing(p, events);
    var s1 := s.(catalog := NewCatalog(s, p, next), details := NewDetails(s, p, next, forNew), generation := s.generation + 1);
    Note(Recalculate(g, s1, now), Reconciled(p, next.Keys - s.details.Keys, now))
  }

  function Own(events: seq<Event>, p: string): seq<Event> {
    if events == [] then []
    else
      var n := |events| - 1;
      if events[n].provider == p then Own(events[..n], p) + [events[n]] else Own(events[..n], p)
  }

  function ReconcileAll(g: Config, s: State, names: seq<string>, events: seq<Event>, now: int, forNew: string -> nat): State
    decreases |names|
  {
    if names == [] then s
    else
      var p := names[|names| - 1];
      Reconcile(g, ReconcileAll(g, s, names[..|names| - 1], events, now, forNew), p, Own(events, p), now, forNew)
  }

  /** Refused while the scheduler runs; the source throws and changes nothing. */
  function RestoreCatalog(g: Config, s: State, events: seq<Event>, now: int, forNew: string -> nat): State {
    if s.enabled || s.jobs.Keys != {} then s
    else ReconcileAll(g, s, g.names, events, now, forNew)
  }

  // --- Signals to a running job ----------------------------------------------

  /** The job's `beginCommit` callback; refused once the signal is aborted. */
  function BeginCommit(s: State, id: JobId, now: int): State {
    if id !in s.jobs || s.jobs[id].abort.Some? || s.jobs[id].committing then s
    else Note(s.(jobs := s.jobs[id := s.jobs[id].(committing := true)]), CommitBegun(s.jobs[id].job, now))
  }

  /** The job's timer; cleared when the job begins to commit. */
  function FireTimeout(s: State, id: JobId, now: int): State {
    if id !in s.jobs || s.jobs[id].committing || s.jobs[id].abort.Some? then s
    else Note(s.(jobs := s.jobs[id := s.jobs[id].(abort := Some(TimedOut))]), Aborted({id}, now))
  }

  function RequestStop(s: State, now: int): State {
    if s.stopping then s
    else Note(s.(stopping := true, enabled := false), StopRequested(now))
  }

  function Abortable(s: State): set<JobId> {
    set id | id in s.jobs && !s.jobs[id].committing && s.jobs[id].abort.None?
  }

  /** The shutdown grace period ends: every job that is not committing is aborted. */
  function EndGrace(s: State, now: int): State {
    if !s.stopping then s
    else
      Note(s.(jobs := map id | id in s.jobs ::
                        if id in Abortable(s) then s.jobs[id].(abort := Some(Shutdown)) else s.jobs[id]),
           Aborted(Abortable(s), now))
  }

  // --- Completion ------------------------------------------------------------

  datatype Fault = EventStarted | Transport(name: string) | Ordinary(name: string)

  datatype Outcome = Returned(events: seq<Event>) | Threw(fault: Fault)

  /** The `finally` block. */
  function Settle(s: State, id: JobId): State
    requires id in s.jobs && s.jobs[id].job.provider in s.providers
  {
    var r := s.jobs[id];
    var p := r.job.provider;
    var s1 := SetAttempt(s, r, AttemptOf(s, r).(currentlyRunning := false));
    SetProvider(s1, p, s1.providers[p].(activeJobs := s1.providers[p].activeJobs - 1)).(jobs := s1.jobs - {id})
  }

  function StartOf(s: State, r: Running): Option<int> {
    if r.job.DetailJob? && (r.job.provider, r.job.eventId) in s.details then s.details[(r.job.provider, r.job.eventId)].startsAt else None
  }

  /** A success's attempt: next run counted from the launch. */
  function Credited(g: Config, s: State, r: Running, now: int, d: Draws): Attempt
    requires r.job.provider in s.providers
  {
    var interval := if r.job.ListJob? then Some(g.listIntervalMs) else DetailInterval(StartOf(s, r), now, g.detail);
    AttemptOf(s, r).(lastSuccessAt := Some(now), failureCount := 0, lastError := None, jitter := d.own,
                     nextRunAt := if interval.None? then None else Some(r.at + interval.value))
  }

  /** What a success does after the catalog is reconciled. */
  function Credit(g: Config, s: State, id: JobId, now: int, d: Draws): State
    requires id in s.jobs && s.jobs[id].job.provider in s.providers
  {
    var r := s.jobs[id];
    var s1 := SetAttempt(s, r, Credited(g, s, r, now, d));
    SetProvider(s1, r.job.provider, s1.providers[r.job.provider].(consecutiveFailures := 0, cooldownUntil := None))
  }

  function AfterListing(g: Config, s: State, id: JobId, events: seq<Event>, now: int, d: Draws): State
    requires id in s.jobs && s.jobs[id].job.provider in s.providers
  {
    var p := s.jobs[id].job.provider;
    var t := Reconcile(g, s, p, events, now, d.forNew);
    SetProvider(t, p, t.providers[p].(contextReady := true))
  }

  function Succeed(g: Config, s: State, id: JobId, events: seq<Event>, now: int, d: Draws): State
    requires id in s.jobs && s.jobs[id].job.provider in s.providers
  {
    var s1 := if s.jobs[id].job.DetailJob? then s else AfterListing(g, s, id, events, now, d);
    Note(Settle(Credit(g, s1, id, now, d), id), Succeeded(s.jobs[id].job, now))
  }

  /** The detail turned out to have started: stopped, not failed. */
  function Halted(s: State, id: JobId): State
    requires id in s.jobs && s.jobs[id].job.provider in s.providers
  {
    var r := s.jobs[id];
    var s1 := SetAttempt(s, r, AttemptOf(s, r).(nextRunAt := None));
    if r.job.DetailJob? && id in s1.details && s1.details[id].uid == r.uid
    then s1.(details := s1.details[id := s1.details[id].(preGameStopped := true)]) else s1
  }

  function StopDetail(s: State, id: JobId, now: int): State
    requires id in s.jobs && s.jobs[id].job.provider in s.providers
  {
    Note(Settle(Halted(s, id), id), EventOver(s.jobs[id].job, now))
  }

  function Max(a: int, b: int): int { if a >= b then a else b }

  /** A listing failure, an abort or a transport fault closes the provider's context. */
  predicate ResetsContext(r: Running, fault: Fault) {
    r.job.ListJob? || r.abort.Some? || fault.Transport?
  }

  function FailedAttempt(g: Config, a: Attempt, r: Running, fault: Fault, now: int, own: nat): Attempt
    requires g.Valid() && !fault.EventStarted?
  {
    a.(failureCount := a.failureCount + 1,
       lastError := Some(if r.abort == Some(TimedOut) then "timeout" else fault.name),
       jitter := own,
       nextRunAt := Some(now + Backoff(a.failureCount + 1, g.backoffMs)))
  }

  /** The provider's share of a failure: perhaps a new discovery and a cooldown. */
  function Charged(g: Config, ps: ProviderState, reset: bool, now: int, failures: nat): ProviderState
    requires g.Valid()
  {
    var consecutive := ps.consecutiveFailures + 1;
    var earliest := if ps.list.nextRunAt.Some? then ps.list.nextRunAt.value else 0;
    ps.(consecutiveFailures := consecutive,
        contextReady := ps.contextReady && !reset,
        list := if reset then ps.list.(nextRunAt := Some(Max(earliest, now + Backoff(failures, g.backoffMs)))) else ps.list,
        cooldownUntil := if consecutive >= g.failureThreshold then Some(now + g.cooldownMs) else ps.cooldownUntil)
  }

  function Penalised(g: Config, s: State, id: JobId, fault: Fault, now: int, own: nat): State
    requires g.Valid() && id in s.jobs && s.jobs[id].job.provider in s.providers && !fault.EventStarted?
  {
    var r := s.jobs[id];
    var a := FailedAttempt(g, AttemptOf(s, r), r, fault, now, own);
    var s1 := SetAttempt(s, r, a);
    SetProvider(s1, r.job.provider, Charged(g, s1.providers[r.job.provider], ResetsContext(r, fault), now, a.failureCount))
  }

  function Fail(g: Config, s: State, id: JobId, fault: Fault, now: int, own: nat): State
    requires g.Valid() && id in s.jobs && s.jobs[id].job.provider in s.providers && !fault.EventStarted?
  {
    var r := s.jobs[id];
    var s1 := Penalised(g, s, id, fault, now, own);
    Note(Settle(s1, id), Failed(r.job, now, ResetsContext(r, fault), AttemptOf(s, r).failureCount + 1,
                                s1.providers[r.job.provider].cooldownUntil))
  }

  function Cancel(s: State, id: JobId, now: int): State
    requires id in s.jobs && s.jobs[id].job.provider in s.providers
  {
    Note(Settle(s, id), Cancelled(s.jobs[id].job, now))
  }

  /** A job's promise settles. A result that arrives after an abort is discarded
      unless the job was already committing. */
  function Complete(g: Config, s: State, id: JobId, outcome: Outcome, now: int, d: Draws): State
    requires g.Valid() && id in s.jobs && s.jobs[id].job.provider in s.providers
  {
    var r := s.jobs[id];
    if outcome.Returned? && (r.committing || r.abort.None?) then Succeed(g, s, id, outcome.events, now, d)
    else
      var fault := if outcome.Threw? then outcome.fault else Ordinary("Error");
      if fault.EventStarted? then StopDetail(s, id, now)
      else if s.stopping && r.abort == Some(Shutdown) then Cancel(s, id, now)
      else Fail(g, s, id, fault, now, d.own)
  }
}
