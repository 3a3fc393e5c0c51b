/** Reading a scheduler's trace: what the past says about a provider, a detail
    and a job, and which entries a trace may continue with. */
module SchedulerTrace {
  import opened Domain
  import opened SchedulerModel

  type Trace = seq<Entry>

  function JobOf(e: Entry): Option<Job> {
    match e
    case Started(job, _, _) => Some(job)
    case Succeeded(job, _) => Some(job)
    case Failed(job, _, _, _, _) => Some(job)
    case EventOver(job, _) => Some(job)
    case Cancelled(job, _) => Some(job)
    case CommitBegun(job, _) => Some(job)
    case _ => None
  }

  predicate Concerns(e: Entry, p: string) { JobOf(e).Some? && JobOf(e).value.provider == p }

  predicate OfDetail(e: Entry, k: Key) {
    JobOf(e).Some? && JobOf(e).value.DetailJob? && (JobOf(e).value.provider, JobOf(e).value.eventId) == k
  }

  predicate OfJob(e: Entry, id: JobId) { JobOf(e).Some? && IdOf(JobOf(e).value) == id }

  // --- One entry's effect on each summary ------------------------------------

  function CoolingStep(c: Option<int>, e: Entry, p: string): Option<int> {
    if !Concerns(e, p) then c
    else if e.Started? then None
    else if e.Failed? then e.cooldown
    else c
  }

  function ReadyStep(r: bool, e: Entry, p: string): bool {
    if !Concerns(e, p) then r
    else if e.Succeeded? then r || e.job.ListJob?
    else if e.Failed? then r && !e.reset
    else r
  }

  function BusyStep(b: bool, e: Entry, p: string): bool {
    if !Concerns(e, p) then b
    else if e.Started? then true
    else if e.CommitBegun? then b
    else false
  }

  function LastStartStep(l: Option<int>, e: Entry, k: Key): Option<int> {
    if e.Reconciled? && k in e.added then None
    else if OfDetail(e, k) && e.Started? then Some(e.at)
    else l
  }

  /** The latest unrecovered failure of a detail: when, and how many in a row. */
  datatype Setback = Setback(at: int, failures: nat)

  function SetbackStep(b: Option<Setback>, e: Entry, k: Key): Option<Setback> {
    if e.Reconciled? && k in e.added then None
    else if OfDetail(e, k) && e.Failed? then Some(Setback(e.at, e.failures))
    else if OfDetail(e, k) && e.Succeeded? then None
    else b
  }

  /** How a detail's latest attempt stands. */
  datatype Ending = Underway | Done | Broken | Over | CutShort

  function EndingStep(x: Option<Ending>, e: Entry, k: Key): Option<Ending> {
    if e.Reconciled? && k in e.added then None
    else if !OfDetail(e, k) then x
    else match e
      case Started(_, _, _) => Some(Underway)
      case Succeeded(_, _) => Some(Done)
      case Failed(_, _, _, _, _) => Some(Broken)
      case EventOver(_, _) => Some(Over)
      case Cancelled(_, _) => Some(CutShort)
      case _ => x
  }

  function FailuresStep(n: nat, e: Entry, p: string): nat {
    if !Concerns(e, p) then n
    else if e.Succeeded? then 0
    else if e.Failed? then n + 1
    else n
  }

  function CommittedStep(c: bool, e: Entry, id: JobId): bool {
    if OfJob(e, id) && e.Started? then false
    else if OfJob(e, id) && e.CommitBegun? then true
    else c
  }

  function AbortedStep(a: bool, e: Entry, id: JobId): bool {
    if OfJob(e, id) && e.Started? then false
    else if e.Aborted? && id in e.ids then true
    else a
  }

  // --- Summaries of a whole trace --------------------------------------------

  /** The cooldown in force: set by the last failure, lifted by the next launch. */
  function Cooling(t: Trace, p: string): Option<int> {
    if t == [] then None else CoolingStep(Cooling(t[..|t| - 1], p), t[|t| - 1], p)
  }

  /** A listing succeeded since the last failure that closed the context. */
  function Ready(t: Trace, p: string): bool {
    if t == [] then false else ReadyStep(Ready(t[..|t| - 1], p), t[|t| - 1], p)
  }

  /** A job of the provider was launched and has not ended. */
  function Busy(t: Trace, p: string): bool {
    if t == [] then false else BusyStep(Busy(t[..|t| - 1], p), t[|t| - 1], p)
  }

  /** Latest launch of the detail since it entered the catalog. */
  function LastStart(t: Trace, k: Key): Option<int> {
    if t == [] then None else LastStartStep(LastStart(t[..|t| - 1], k), t[|t| - 1], k)
  }

  function LatestSetback(t: Trace, k: Key): Option<Setback> {
    if t == [] then None else SetbackStep(LatestSetback(t[..|t| - 1], k), t[|t| - 1], k)
  }

  /** The detail's latest attempt since it entered the catalog. */
  function LatestEnding(t: Trace, k: Key): Option<Ending> {
    if t == [] then None else EndingStep(LatestEnding(t[..|t| - 1], k), t[|t| - 1], k)
  }

  /** The provider's failures since its last success. */
  function Failures(t: Trace, p: string): nat {
    if t == [] then 0 else FailuresStep(Failures(t[..|t| - 1], p), t[|t| - 1], p)
  }

  /** Since its launch the job has begun to commit. */
  function Committed(t: Trace, id: JobId): bool {
    if t == [] then false else CommittedStep(Committed(t[..|t| - 1], id), t[|t| - 1], id)
  }

  /** Since its launch the job's signal was aborted. */
  function WasAborted(t: Trace, id: JobId): bool {
    if t == [] then false else AbortedStep(WasAborted(t[..|t| - 1], id), t[|t| - 1], id)
  }

  predicate Stopped(t: Trace) { exists e :: e in t && e.StopRequested? }

  lemma {:induction false} Push(t: Trace, e: Entry)
    ensures forall p :: Cooling(t + [e], p) == CoolingStep(Cooling(t, p), e, p)
    ensures forall p :: Ready(t + [e], p) == ReadyStep(Ready(t, p), e, p)
    ensures forall p :: Busy(t + [e], p) == BusyStep(Busy(t, p), e, p)
    ensures forall k :: LastStart(t + [e], k) == LastStartStep(LastStart(t, k), e, k)
    ensures forall k :: LatestSetback(t + [e], k) == SetbackStep(LatestSetback(t, k), e, k)
    ensures forall k :: LatestEnding(t + [e], k) == EndingStep(LatestEnding(t, k), e, k)
    ensures forall p :: Failures(t + [e], p) == FailuresStep(Failures(t, p), e, p)
    ensures forall id :: Committed(t + [e], id) == CommittedStep(Committed(t, id), e, id)
    ensures forall id :: WasAborted(t + [e], id) == AbortedStep(WasAborted(t, id), e, id)
    ensures Stopped(t + [e]) <==> Stopped(t) || e.StopRequested?
  {
    assert (t + [e])[..|t|] == t;
    if Stopped(t) {
      var x :| x in t && x.StopRequested?;
      assert x in t + [e];
    }
    if e.StopRequested? { assert e in t + [e]; }
  }

  // --- Admissible traces -----------------------------------------------------

  /** A detail may be launched only before its event starts and while it is not
      running; with a failure on record only if its last attempt is that failure and
      the backoff has passed since, otherwise not before the interval of its current
      band has passed since its last launch. */
  predicate Spaced(g: Config, t: Trace, k: Key, at: int, startsAt: Option<int>)
    requires g.Valid()
  {
    && DetailInterval(startsAt, at, g.detail).Some?
    && LatestEnding(t, k) != Some(Underway)
    && match LatestSetback(t, k)
       case Some(b) => at >= b.at + Backoff(b.failures, g.backoffMs) && LatestEnding(t, k) == Some(Broken)
       case None => LastStart(t, k).Some? ==> at >= LastStart(t, k).value + DetailInterval(startsAt, at, g.detail).value
  }

  predicate MayStart(g: Config, t: Trace, job: Job, at: int, startsAt: Option<int>)
    requires g.Valid()
  {
    && !Stopped(t)
    && !Busy(t, job.provider)
    && (Cooling(t, job.provider).Some? ==> at >= Cooling(t, job.provider).value && job.ListJob?)
    && (job.DetailJob? ==> Ready(t, job.provider) && Spaced(g, t, (job.provider, job.eventId), at, startsAt))
  }

  predicate MayFail(g: Config, t: Trace, job: Job, at: int, reset: bool, failures: nat, cooldown: Option<int>) {
    && Busy(t, job.provider)
    && (job.ListJob? || WasAborted(t, IdOf(job)) ==> reset)
    && cooldown == (if Failures(t, job.provider) + 1 >= g.failureThreshold then Some(at + g.cooldownMs) else None)
    && (job.DetailJob? ==>
          var before := LatestSetback(t, (job.provider, job.eventId));
          failures == 1 + if before.Some? then before.value.failures else 0)
  }

  predicate Allowed(g: Config, t: Trace, e: Entry)
    requires g.Valid()
  {
    match e
    case Started(job, at, startsAt) => MayStart(g, t, job, at, startsAt)
    case Failed(job, at, reset, failures, cooldown) => MayFail(g, t, job, at, reset, failures, cooldown)
    case Succeeded(job, _) => Busy(t, job.provider) && (WasAborted(t, IdOf(job)) ==> Committed(t, IdOf(job)))
    case EventOver(job, _) => Busy(t, job.provider)
    case Cancelled(job, _) => Busy(t, job.provider) && Stopped(t) && WasAborted(t, IdOf(job))
    case CommitBegun(job, _) => Busy(t, job.provider) && !WasAborted(t, IdOf(job)) && !Committed(t, IdOf(job))
    case Aborted(ids, _) => forall id :: id in ids ==> Busy(t, id.0) && !Committed(t, id)
    case Reconciled(_, _, _) => true
    case StopRequested(_) => !Stopped(t)
  }

  predicate Chronological(t: Trace) {
    forall i, j :: 0 <= i < j < |t| ==> t[i].at <= t[j].at
  }

  /** Every entry is admissible after what precedes it. */
  predicate Admissible(g: Config, t: Trace)
    requires g.Valid()
  {
    forall j :: 0 <= j < |t| ==> Allowed(g, t[..j], t[j])
  }

  lemma {:induction false} AdmissiblePush(g: Config, t: Trace, e: Entry)
    requires g.Valid() && Admissible(g, t) && Allowed(g, t, e)
    ensures Admissible(g, t + [e])
  {
    forall j | 0 <= j < |t + [e]| ensures Allowed(g, (t + [e])[..j], (t + [e])[j]) {
      if j < |t| {
        assert (t + [e])[..j] == t[..j] && (t + [e])[j] == t[j];
      } else {
        assert (t + [e])[..j] == t;
      }
    }
  }

  // --- What admissibility means over a whole trace ---------------------------

  ghost predicate StartsOf(e: Entry, p: string) { e.Started? && e.job.provider == p }

  /** The provider is not launched between positions i and j. */
  ghost predicate Quiet(t: Trace, p: string, i: int, j: int)
    requires 0 <= i <= j <= |t|
  {
    forall m :: i < m < j ==> !StartsOf(t[m], p)
  }

  /** With one job at a time, a failure's cooldown stays in force until a launch. */
  lemma {:induction false} CooldownPersists(g: Config, t: Trace, p: string, i: nat, j: nat, until: int)
    requires g.Valid() && Admissible(g, t) && i < j <= |t|
    requires t[i].Failed? && t[i].job.provider == p && t[i].cooldown == Some(until) && Quiet(t, p, i, j)
    ensures Cooling(t[..j], p) == Some(until) && !Busy(t[..j], p)
  {
    assert t[..j][..j - 1] == t[..j - 1];
    if i < j - 1 {
      CooldownPersists(g, t, p, i, j - 1, until);
      assert Allowed(g, t[..j - 1], t[j - 1]);
      assert !StartsOf(t[j - 1], p);
    }
  }

  /** A failure opens the circuit exactly when it is at least the threshold-th failure
      of its provider since the provider's last success. */
  lemma {:induction false} CircuitOpensIff(g: Config, t: Trace, i: nat)
    requires g.Valid() && Admissible(g, t) && i < |t| && t[i].Failed?
    ensures t[i].cooldown.Some? <==> Failures(t[..i + 1], t[i].job.provider) >= g.failureThreshold
    ensures t[i].cooldown.Some? ==> t[i].cooldown.value == t[i].at + g.cooldownMs
  {
    assert Allowed(g, t[..i], t[i]);
    assert t[..i + 1] == t[..i] + [t[i]];
    Push(t[..i], t[i]);
  }

  /** A failure that opens the circuit keeps the provider idle until the cooldown
      ends, and the first job afterwards is a listing. */
  lemma {:induction false} CircuitBreaker(g: Config, t: Trace, p: string, i: nat, j: nat, until: int)
    requires g.Valid() && Admissible(g, t) && Chronological(t) && i < j < |t|
    requires t[i].Failed? && t[i].job.provider == p && t[i].cooldown == Some(until) && StartsOf(t[j], p)
    ensures t[j].at >= until == t[i].at + g.cooldownMs
    ensures Quiet(t, p, i, j) ==> t[j].job.ListJob?
  {
    assert Allowed(g, t[..i], t[i]);
    if Quiet(t, p, i, j) {
      CooldownPersists(g, t, p, i, j, until);
      assert Allowed(g, t[..j], t[j]);
    } else {
      var m :| i < m < j && StartsOf(t[m], p);
      CircuitBreaker(g, t, p, i, m, until);
    }
  }

  ghost predicate ListedBetween(t: Trace, p: string, i: int, j: int)
    requires 0 <= i <= j <= |t|
  {
    exists m :: i < m < j && t[m].Succeeded? && t[m].job == ListJob(p)
  }

  lemma {:induction false} ContextStaysClosed(t: Trace, p: string, i: nat, j: nat)
    requires i < j <= |t| && t[i].Failed? && t[i].job.provider == p && t[i].reset
    requires !ListedBetween(t, p, i, j)
    ensures !Ready(t[..j], p)
  {
    assert t[..j][..j - 1] == t[..j - 1];
    if i < j - 1 {
      ContextStaysClosed(t, p, i, j - 1);
    }
  }

  /** After a failure that closes the context, no detail of the provider is
      launched before one of its listings has succeeded. */
  lemma {:induction false} ListingBeforeDetail(g: Config, t: Trace, p: string, i: nat, j: nat)
    requires g.Valid() && Admissible(g, t) && i < j < |t|
    requires t[i].Failed? && t[i].job.provider == p && t[i].reset
    requires StartsOf(t[j], p) && t[j].job.DetailJob?
    ensures ListedBetween(t, p, i, j)
  {
    assert Allowed(g, t[..j], t[j]);
    if !ListedBetween(t, p, i, j) {
      ContextStaysClosed(t, p, i, j);
    }
  }

  ghost predicate Ends(e: Entry, p: string) {
    Concerns(e, p) && !e.Started? && !e.CommitBegun?
  }

  lemma {:induction false} BusyUntilEnd(t: Trace, p: string, i: nat, j: nat)
    requires i < j <= |t| && StartsOf(t[i], p)
    requires forall m :: i < m < j ==> !Ends(t[m], p)
    ensures Busy(t[..j], p)
  {
    assert t[..j][..j - 1] == t[..j - 1];
    if i < j - 1 { BusyUntilEnd(t, p, i, j - 1); }
  }

  /** Jobs of one provider never overlap: one ends before the next starts. */
  lemma {:induction false} NoOverlap(g: Config, t: Trace, p: string, i: nat, j: nat)
    requires g.Valid() && Admissible(g, t) && i < j < |t| && StartsOf(t[i], p) && StartsOf(t[j], p)
    ensures exists m :: i < m < j && Ends(t[m], p)
  {
    assert Allowed(g, t[..j], t[j]);
    if forall m :: i < m < j ==> !Ends(t[m], p) {
      BusyUntilEnd(t, p, i, j);
    }
  }

  /** The detail is launched at i and j, stays catalogued, and not launched between. */
  ghost predicate ConsecutiveLaunches(t: Trace, k: Key, i: int, j: int) {
    && 0 <= i < j < |t|
    && t[i].Started? && OfDetail(t[i], k) && t[j].Started? && OfDetail(t[j], k)
    && (forall m :: i < m < j ==> !(t[m].Started? && OfDetail(t[m], k)))
    && (forall m :: i < m < j ==> !(t[m].Reconciled? && k in t[m].added))
  }

  lemma {:induction false} LaunchRemembered(t: Trace, k: Key, i: nat, j: nat)
    requires i < j <= |t| && t[i].Started? && OfDetail(t[i], k)
    requires forall m :: i < m < j ==> !(t[m].Started? && OfDetail(t[m], k))
    requires forall m :: i < m < j ==> !(t[m].Reconciled? && k in t[m].added)
    ensures LastStart(t[..j], k) == Some(t[i].at)
  {
    assert t[..j][..j - 1] == t[..j - 1];
    if i < j - 1 { LaunchRemembered(t, k, i, j - 1); }
  }

  lemma {:induction false} FailureRemembered(t: Trace, k: Key, m: nat, j: nat)
    requires m < j <= |t| && t[m].Failed? && OfDetail(t[m], k)
    requires forall n :: m < n < j ==> !(OfDetail(t[n], k) && (t[n].Failed? || t[n].Succeeded?))
    requires forall n :: m < n < j ==> !(t[n].Reconciled? && k in t[n].added)
    ensures LatestSetback(t[..j], k) == Some(Setback(t[m].at, t[m].failures))
  {
    assert t[..j][..j - 1] == t[..j - 1];
    if m < j - 1 { FailureRemembered(t, k, m, j - 1); }
  }

  /** Without a failure of the detail in between, a failure on record is an old one. */
  lemma {:induction false} NoNewSetback(t: Trace, k: Key, i: nat, j: nat)
    requires i < j <= |t| && t[i].Started? && OfDetail(t[i], k)
    requires forall n :: i < n < j ==> !(OfDetail(t[n], k) && t[n].Failed?)
    ensures LatestEnding(t[..j], k) != Some(Broken)
  {
    assert t[..j][..j - 1] == t[..j - 1];
    if i < j - 1 { NoNewSetback(t, k, i, j - 1); }
  }

  /** The detail's failures since it last succeeded or entered the catalog. */
  function FailuresInRow(t: Trace, k: Key): nat {
    if t == [] then 0
    else
      var rest, e := FailuresInRow(t[..|t| - 1], k), t[|t| - 1];
      if (e.Reconciled? && k in e.added) || (OfDetail(e, k) && e.Succeeded?) then 0
      else if OfDetail(e, k) && e.Failed? then rest + 1
      else rest
  }

  lemma {:induction false} SetbackCounts(g: Config, t: Trace, k: Key)
    requires g.Valid() && Admissible(g, t)
    ensures FailuresInRow(t, k) == if LatestSetback(t, k).Some? then LatestSetback(t, k).value.failures else 0
  {
    if t != [] {
      var n := |t| - 1;
      assert Admissible(g, t[..n]) by {
        forall j | 0 <= j < n ensures Allowed(g, t[..n][..j], t[..n][j]) { assert t[..n][..j] == t[..j] && Allowed(g, t[..j], t[j]); }
      }
      SetbackCounts(g, t[..n], k);
      assert Allowed(g, t[..n], t[n]);
    }
  }

  /** A failure of a detail carries the number of its failures in a row. */
  lemma {:induction false} FailureCounted(g: Config, t: Trace, k: Key, m: nat)
    requires g.Valid() && Admissible(g, t) && m < |t| && t[m].Failed? && OfDetail(t[m], k)
    ensures t[m].failures == FailuresInRow(t[..m + 1], k) >= 1
  {
    assert t[..m + 1][..m] == t[..m];
    assert Allowed(g, t[..m], t[m]);
    assert Admissible(g, t[..m]) by {
      forall j | 0 <= j < m ensures Allowed(g, t[..m][..j], t[..m][j]) { assert t[..m][..j] == t[..j] && Allowed(g, t[..j], t[j]); }
    }
    SetbackCounts(g, t[..m], k);
  }

  /** `wait` is at least the interval for an event that starts in r milliseconds:
      beyond a day, down to six hours, down to one, and less. */
  predicate WaitsOutBand(v: Intervals, r: int, wait: int) {
    && r > 0
    && (r > 86_400_000 ==> wait >= v.gt24h)
    && (21_600_000 <= r <= 86_400_000 ==> wait >= v.h6to24)
    && (3_600_000 <= r < 21_600_000 ==> wait >= v.h1to6)
    && (r < 3_600_000 ==> wait >= v.lt1h)
  }

  /** `wait` is at least the step for the n-th failure in a row; the last repeats. */
  predicate WaitsOutBackoff(steps: seq<nat>, n: nat, wait: int) {
    && n >= 1 && steps != []
    && (n <= |steps| ==> wait >= steps[n - 1])
    && (n > |steps| ==> wait >= steps[|steps| - 1])
  }

  /** Launch spacing. If the attempt launched at i did not fail, however it ended, the
      next launch waits for the interval of the band in force at that next launch. */
  lemma {:induction false} SpacingWithoutFailure(g: Config, t: Trace, k: Key, i: nat, j: nat)
    requires g.Valid() && Admissible(g, t) && ConsecutiveLaunches(t, k, i, j)
    requires forall n :: i < n < j ==> !(OfDetail(t[n], k) && t[n].Failed?)
    ensures t[j].startsAt.Some? && WaitsOutBand(g.detail, t[j].startsAt.value - t[j].at, t[j].at - t[i].at)
  {
    assert Allowed(g, t[..j], t[j]);
    LaunchRemembered(t, k, i, j);
    NoNewSetback(t, k, i, j);
    DetailIntervalBands(t[j].startsAt, t[j].at, g.detail);
  }

  /** If it failed, the next launch waits for the backoff of that failure. */
  lemma {:induction false} SpacingAfterFailure(g: Config, t: Trace, k: Key, i: nat, m: nat, j: nat)
    requires g.Valid() && Admissible(g, t) && ConsecutiveLaunches(t, k, i, j)
    requires i < m < j && t[m].Failed? && OfDetail(t[m], k)
    requires forall n :: m < n < j ==> !(OfDetail(t[n], k) && (t[n].Failed? || t[n].Succeeded?))
    ensures t[m].failures == FailuresInRow(t[..m + 1], k)
    ensures WaitsOutBackoff(g.backoffMs, FailuresInRow(t[..m + 1], k), t[j].at - t[m].at)
  {
    assert Allowed(g, t[..j], t[j]);
    FailureRemembered(t, k, m, j);
    FailureCounted(g, t, k, m);
    BackoffSteps(t[m].failures, g.backoffMs);
  }

  /** The failure of the detail at m is the last thing that happened to it before j. */
  ghost predicate LastFailure(t: Trace, k: Key, m: nat, j: nat)
    requires m < j <= |t|
  {
    t[m].Failed? && OfDetail(t[m], k) && forall n :: m < n < j ==> !(OfDetail(t[n], k) && (t[n].Failed? || t[n].Succeeded?))
  }

  /** The launches at i and j are far enough apart: by the band in which the event is
      at j if no attempt failed in between, and after the n-th failure in a row by the
      n-th backoff step. */
  ghost predicate WellSpaced(g: Config, t: Trace, k: Key, i: nat, j: nat)
    requires i < j < |t|
  {
    && ((forall n :: i < n < j ==> !(OfDetail(t[n], k) && t[n].Failed?)) ==>
          t[j].Started? && t[j].startsAt.Some? && WaitsOutBand(g.detail, t[j].startsAt.value - t[j].at, t[j].at - t[i].at))
    && forall m :: i < m < j && LastFailure(t, k, m, j) ==>
         WaitsOutBackoff(g.backoffMs, FailuresInRow(t[..m + 1], k), t[j].at - t[m].at)
  }

  lemma {:induction false} Spacing(g: Config, t: Trace, k: Key, i: nat, j: nat)
    requires g.Valid() && Admissible(g, t) && ConsecutiveLaunches(t, k, i, j)
    ensures WellSpaced(g, t, k, i, j)
  {
    if forall n :: i < n < j ==> !(OfDetail(t[n], k) && t[n].Failed?) { SpacingWithoutFailure(g, t, k, i, j); }
    forall m | i < m < j && LastFailure(t, k, m, j)
      ensures WaitsOutBackoff(g.backoffMs, FailuresInRow(t[..m + 1], k), t[j].at - t[m].at)
    {
      SpacingAfterFailure(g, t, k, i, m, j);
    }
  }

  lemma {:induction false} CommitRemembered(t: Trace, id: JobId, i: nat, j: nat)
    requires i < j <= |t| && t[i].CommitBegun? && OfJob(t[i], id)
    requires forall m :: i < m < j ==> !(t[m].Started? && OfJob(t[m], id))
    ensures Committed(t[..j], id)
  {
    assert t[..j][..j - 1] == t[..j - 1];
    if i < j - 1 { CommitRemembered(t, id, i, j - 1); }
  }

  lemma {:induction false} AbortRemembered(t: Trace, id: JobId, i: nat, j: nat)
    requires i < j <= |t| && t[i].Aborted? && id in t[i].ids
    requires forall m :: i < m < j ==> !(t[m].Started? && OfJob(t[m], id))
    ensures WasAborted(t[..j], id)
  {
    assert t[..j][..j - 1] == t[..j - 1];
    if i < j - 1 { AbortRemembered(t, id, i, j - 1); }
  }

  /** Within one launch of a job, a commit and an abort exclude each other. */
  lemma {:induction false} CommitExcludesAbort(g: Config, t: Trace, id: JobId, i: nat, j: nat)
    requires g.Valid() && Admissible(g, t) && i < |t| && j < |t|
    requires t[i].CommitBegun? && OfJob(t[i], id) && t[j].Aborted? && id in t[j].ids
    ensures i < j ==> exists m :: i < m < j && t[m].Started? && OfJob(t[m], id)
    ensures j < i ==> exists m :: j < m < i && t[m].Started? && OfJob(t[m], id)
  {
    assert Allowed(g, t[..i], t[i]) && Allowed(g, t[..j], t[j]);
    if i < j && forall m :: i < m < j ==> !(t[m].Started? && OfJob(t[m], id)) {
      CommitRemembered(t, id, i, j);
    }
    if j < i && forall m :: j < m < i ==> !(t[m].Started? && OfJob(t[m], id)) {
      AbortRemembered(t, id, j, i);
    }
  }

  /** Nothing is launched after a stop was requested. */
  lemma {:induction false} NoLaunchAfterStop(g: Config, t: Trace, i: nat, j: nat)
    requires g.Valid() && Admissible(g, t) && i < j < |t| && t[i].StopRequested?
    ensures !t[j].Started?
  {
    assert Allowed(g, t[..j], t[j]);
    assert t[..j][i] == t[i] && t[i] in t[..j];
  }
}
