/** Every run of the scheduler, under any interleaving of its steps with a clock
    that never goes back, keeps the invariant and leaves an admissible trace. */
module SchedulerRuns {
  import opened Domain
  import opened SchedulerModel
  import opened SchedulerInvariants
  import opened SchedulerTrace

  // --- Runs ------------------------------------------------------------------

  datatype Step =
    | StartUp(draws: Draws)
    | Ticks
    | Commits(id: JobId)
    | TimesOut(id: JobId)
    | Completes(id: JobId, outcome: Outcome, draws: Draws)
    | Stops
    | GraceEnds
    | Restores(events: seq<Event>, draws: Draws)

  datatype Move = Move(step: Step, now: int)

  ghost function Next(g: Config, s: State, m: Move): State
    requires g.Valid()
  {
    match m.step
    case StartUp(d) => Start(g, s, m.now, d)
    case Ticks => Tick(g, s, m.now)
    case Commits(id) => BeginCommit(s, id, m.now)
    case TimesOut(id) => FireTimeout(s, id, m.now)
    case Completes(id, outcome, d) =>
      if id in s.jobs && s.jobs[id].job.provider in s.providers then Complete(g, s, id, outcome, m.now, d) else s
    case Stops => RequestStop(s, m.now)
    case GraceEnds => EndGrace(s, m.now)
    case Restores(events, d) => RestoreCatalog(g, s, events, m.now, d.forNew)
  }

  /** What the job runner guarantees: a listing returns its own provider's events,
      and only detail jobs report that their event has started. */
  ghost predicate Possible(s: State, step: Step) {
    step.Completes? ==>
      && step.id in s.jobs
      && (step.outcome.Returned? ==> OwnEvents(step.outcome.events, s.jobs[step.id].job.provider))
      && (step.outcome == Threw(EventStarted) ==> s.jobs[step.id].job.DetailJob?)
  }

  ghost function Execute(g: Config, moves: seq<Move>): State
    requires g.Valid()
  {
    if moves == [] then Initial(g) else Next(g, Execute(g, moves[..|moves| - 1]), moves[|moves| - 1])
  }

  ghost predicate Legal(g: Config, moves: seq<Move>)
    requires g.Valid()
  {
    moves == [] ||
    (var n := |moves| - 1;
     && Legal(g, moves[..n])
     && Possible(Execute(g, moves[..n]), moves[n].step)
     && (n > 0 ==> moves[n - 1].now <= moves[n].now))
  }

  // --- How the state reflects the trace --------------------------------------

  ghost predicate ProvidersReflect(s: State) {
    forall p :: p in s.providers ==>
      && Cooling(s.trace, p) == s.providers[p].cooldownUntil
      && Failures(s.trace, p) == s.providers[p].consecutiveFailures
      && (s.providers[p].contextReady ==> Ready(s.trace, p))
  }

  ghost predicate BusyReflects(s: State) {
    forall p :: Busy(s.trace, p) <==> HasJob(s, p)
  }

  /** A failed attempt is either parked or due exactly after its backoff. */
  ghost predicate DetailReflects(g: Config, t: Trace, k: Key, a: Attempt)
    requires g.Valid()
  {
    && LastStart(t, k) == a.lastAttemptAt
    && a.failureCount == (if LatestSetback(t, k).Some? then LatestSetback(t, k).value.failures else 0)
    && (LatestSetback(t, k).Some? ==>
          && a.failureCount > 0
          && (a.nextRunAt.Some? ==>
                a.nextRunAt.value == LatestSetback(t, k).value.at + Backoff(a.failureCount, g.backoffMs)))
  }

  /** A detail is running as the trace says, and one that failed before is parked unless
      its last attempt is the failure. */
  ghost predicate EndingReflects(t: Trace, k: Key, a: Attempt) {
    && (a.currentlyRunning <==> LatestEnding(t, k) == Some(Underway))
    && (a.failureCount > 0 && a.nextRunAt.Some? && !a.currentlyRunning && !Stopped(t) ==> LatestEnding(t, k) == Some(Broken))
  }

  ghost predicate EndingsReflect(s: State) {
    forall k :: k in s.details ==> EndingReflects(s.trace, k, s.details[k].attempt)
  }

  ghost predicate DetailsReflect(g: Config, s: State)
    requires g.Valid()
  {
    forall k :: k in s.details ==> DetailReflects(g, s.trace, k, s.details[k].attempt)
  }

  ghost predicate SignalsReflect(s: State) {
    forall id :: id in s.jobs ==>
      && (s.jobs[id].committing <==> Committed(s.trace, id))
      && (s.jobs[id].abort.Some? <==> WasAborted(s.trace, id))
  }

  ghost predicate Reflects(g: Config, s: State)
    requires g.Valid()
  {
    && ProvidersReflect(s)
    && BusyReflects(s)
    && DetailsReflect(g, s)
    && EndingsReflect(s)
    && SignalsReflect(s)
    && (s.stopping <==> Stopped(s.trace))
  }

  /** The invariant together with what it says about the past. */
  ghost predicate Sound(g: Config, s: State)
    requires g.Valid()
  {
    && Inv(g, s)
    && s.providers.Keys == (set p | p in g.names)
    && Reflects(g, s)
    && Admissible(g, s.trace)
  }

  lemma {:induction false} InitialSound(g: Config)
    requires g.Valid()
    ensures Sound(g, Initial(g))
  {
    InitialInv(g);
  }

  // --- Steps that add nothing to the trace -----------------------------------

  /** Reschedules at most: nothing but next run times, jitters and context loss. */
  ghost predicate SilentDetail(a: Attempt, b: Attempt) {
    && b.lastAttemptAt == a.lastAttemptAt && b.failureCount == a.failureCount && b.currentlyRunning == a.currentlyRunning
    && (a.failureCount > 0 ==> b.nextRunAt == a.nextRunAt || b.nextRunAt.None?)
  }

  lemma {:induction false} SilentReflects(g: Config, s: State, t: State)
    requires g.Valid() && Reflects(g, s)
    requires t.trace == s.trace && t.jobs == s.jobs && t.stopping == s.stopping
    requires t.providers.Keys == s.providers.Keys && t.details.Keys == s.details.Keys
    requires forall p :: p in s.providers ==> t.providers[p].cooldownUntil == s.providers[p].cooldownUntil
                                               && t.providers[p].consecutiveFailures == s.providers[p].consecutiveFailures
                                               && (t.providers[p].contextReady ==> s.providers[p].contextReady)
    requires forall k :: k in s.details ==> SilentDetail(s.details[k].attempt, t.details[k].attempt)
    ensures Reflects(g, t)
  {
    forall p | p in t.providers
      ensures Cooling(t.trace, p) == t.providers[p].cooldownUntil && Failures(t.trace, p) == t.providers[p].consecutiveFailures && (t.providers[p].contextReady ==> Ready(t.trace, p))
    {
      assert p in s.providers;
    }
    forall k | k in t.details ensures DetailReflects(g, t.trace, k, t.details[k].attempt) {
      assert k in s.details;
    }
    forall k | k in t.details ensures EndingReflects(t.trace, k, t.details[k].attempt) {
      assert k in s.details && EndingReflects(s.trace, k, s.details[k].attempt);
    }
    forall p ensures Busy(t.trace, p) <==> HasJob(t, p) {
      assert HasJob(s, p) == HasJob(t, p);
    }
  }

  lemma {:induction false} RecalculatedSilent(g: Config, d: Detail, e: Option<Event>, now: int)
    ensures SilentDetail(d.attempt, RecalculatedDetail(g, d, e, now).attempt)
  {
  }

  lemma {:induction false} RecalculateReflects(g: Config, s: State, now: int)
    requires g.Valid() && Reflects(g, s)
    ensures Reflects(g, Recalculate(g, s, now))
  {
    forall k | k in s.details
      ensures SilentDetail(s.details[k].attempt, Recalculate(g, s, now).details[k].attempt)
    {
      RecalculatedSilent(g, s.details[k], Lookup(s.catalog, k), now);
    }
    SilentReflects(g, s, Recalculate(g, s, now));
  }

  lemma {:induction false} StartSound(g: Config, s: State, now: int, d: Draws)
    requires g.Valid() && Sound(g, s)
    ensures Sound(g, Start(g, s, now, d))
  {
    StartInv(g, s, now, d);
    SilentReflects(g, s, Start(g, s, now, d));
    assert Start(g, s, now, d).providers.Keys == s.providers.Keys;
  }

  // --- Ticks -----------------------------------------------------------------

  /** After a recalculation at `now`, every pending next run time is current. */
  ghost predicate Timely(g: Config, d: Detail, now: int) {
    !d.attempt.currentlyRunning && d.attempt.nextRunAt.Some? ==>
      var interval := DetailInterval(d.startsAt, now, g.detail);
      && interval.Some?
      && (d.attempt.failureCount == 0 && d.attempt.lastAttemptAt.Some? ==>
            d.attempt.nextRunAt.value == d.attempt.lastAttemptAt.value + interval.value)
  }

  ghost predicate Current(g: Config, s: State, now: int) {
    forall k :: k in s.details ==> Timely(g, s.details[k], now)
  }

  lemma {:induction false} RecalculateCurrent(g: Config, s: State, now: int)
    requires Catalogued(s)
    ensures Current(g, Recalculate(g, s, now), now)
  {
    forall k | k in s.details
      ensures Timely(g, Recalculate(g, s, now).details[k], now)
    {
      RecalculatedTimely(g, s.details[k], s.catalog[k], now);
    }
  }

  lemma {:induction false} RecalculatedTimely(g: Config, d: Detail, e: Event, now: int)
    requires d.startsAt == e.startsAt
    ensures Timely(g, RecalculatedDetail(g, d, Some(e), now), now)
  {
  }

  lemma {:induction false} ProbeReflects(g: Config, s: State, p: string, now: int)
    requires g.Valid() && Sound(g, s) && p in s.providers && !HasJob(s, p) && s.enabled && !s.stopping
    requires s.providers[p].cooldownUntil.Some? && now >= s.providers[p].cooldownUntil.value
    ensures Sound(g, Launch(Probe(s, p, now), ListJob(p), now))
    ensures forall k :: k in s.details ==> k in Launch(Probe(s, p, now), ListJob(p), now).details
    ensures Launch(Probe(s, p, now), ListJob(p), now).details == s.details
  {
    var s1 := Probe(s, p, now);
    var t := Launch(s1, ListJob(p), now);
    ProbeInv(g, s, p, now);
    LaunchInv(g, s1, ListJob(p), now);
    LaunchShape(s1, ListJob(p), now);
    var e := Started(ListJob(p), now, None);
    assert t.trace == s.trace + [e] && t.details == s.details;
    LaunchReflects(g, s, t, e, (p, "list"));
  }

  /** A launch recorded as entry e of job id, with everything else as before. */
  ghost predicate Launched(s: State, t: State, e: Entry, id: JobId) {
    && e.Started? && IdOf(e.job) == id && t.trace == s.trace + [e] && t.stopping == s.stopping
    && id !in s.jobs && t.jobs.Keys == s.jobs.Keys + {id}
    && !t.jobs[id].committing && t.jobs[id].abort.None?
    && (forall j :: j in s.jobs ==> t.jobs[j] == s.jobs[j])
    && t.providers.Keys == s.providers.Keys && id.0 in s.providers
    && (forall q :: q in s.providers && q != id.0 ==> t.providers[q] == s.providers[q])
    && t.providers[id.0].cooldownUntil.None? && t.providers[id.0].consecutiveFailures == s.providers[id.0].consecutiveFailures
    && (t.providers[id.0].contextReady ==> s.providers[id.0].contextReady)
    && t.details.Keys == s.details.Keys
    && (e.job.ListJob? ==> t.details == s.details)
    && (e.job.DetailJob? ==>
          && id in s.details
          && t.details == s.details[id := t.details[id]]
          && t.details[id].attempt == s.details[id].attempt.(currentlyRunning := true, lastAttemptAt := Some(e.at)))
  }

  lemma {:induction false} LaunchedProviders(s: State, t: State, e: Entry, id: JobId)
    requires ProvidersReflect(s) && BusyReflects(s) && Launched(s, t, e, id)
    ensures ProvidersReflect(t) && BusyReflects(t)
  {
    Push(s.trace, e);
    forall q | q in t.providers
      ensures Cooling(t.trace, q) == t.providers[q].cooldownUntil && Failures(t.trace, q) == t.providers[q].consecutiveFailures && (t.providers[q].contextReady ==> Ready(t.trace, q))
    {
      assert q in s.providers.Keys;
    }
    forall q ensures Busy(t.trace, q) <==> HasJob(t, q) {
      LaunchedJobs(s, t, id, q);
    }
  }

  lemma {:induction false} LaunchedDetails(g: Config, s: State, t: State, e: Entry, id: JobId)
    requires g.Valid() && DetailsReflect(g, s) && Launched(s, t, e, id)
    ensures DetailsReflect(g, t)
  {
    Push(s.trace, e);
    forall k | k in t.details ensures DetailReflects(g, t.trace, k, t.details[k].attempt) {
      assert k in s.details.Keys && DetailReflects(g, s.trace, k, s.details[k].attempt);
    }
  }

  lemma {:induction false} LaunchedEndings(s: State, t: State, e: Entry, id: JobId)
    requires EndingsReflect(s) && Launched(s, t, e, id)
    ensures EndingsReflect(t)
  {
    Push(s.trace, e);
    forall k | k in t.details ensures EndingReflects(t.trace, k, t.details[k].attempt) {
      assert k in s.details.Keys && EndingReflects(s.trace, k, s.details[k].attempt);
    }
  }

  lemma {:induction false} LaunchedSignals(s: State, t: State, e: Entry, id: JobId)
    requires SignalsReflect(s) && Launched(s, t, e, id)
    ensures SignalsReflect(t)
  {
    Push(s.trace, e);
    forall j | j in t.jobs
      ensures t.jobs[j].committing <==> Committed(t.trace, j)
      ensures t.jobs[j].abort.Some? <==> WasAborted(t.trace, j)
    {
      assert j in t.jobs.Keys;
    }
  }

  lemma {:induction false} LaunchReflects(g: Config, s: State, t: State, e: Entry, id: JobId)
    requires g.Valid() && Sound(g, s) && Inv(g, t) && Launched(s, t, e, id)
    requires MayStart(g, s.trace, e.job, e.at, e.startsAt)
    ensures Sound(g, t)
  {
    LaunchedProviders(s, t, e, id);
    LaunchedDetails(g, s, t, e, id);
    LaunchedEndings(s, t, e, id);
    LaunchedSignals(s, t, e, id);
    Push(s.trace, e);
    AdmissiblePush(g, s.trace, e);
  }

  lemma {:induction false} ListLaunchSound(g: Config, s: State, p: string, now: int)
    requires g.Valid() && Sound(g, s) && p in s.providers && !HasJob(s, p) && !s.stopping
    requires s.providers[p].cooldownUntil.None?
    ensures Sound(g, Launch(s, ListJob(p), now))
    ensures Launch(s, ListJob(p), now).details == s.details
  {
    var t := Launch(s, ListJob(p), now);
    LaunchInv(g, s, ListJob(p), now);
    LaunchShape(s, ListJob(p), now);
    LaunchReflects(g, s, t, Started(ListJob(p), now, None), (p, "list"));
  }

  lemma {:induction false} DetailLaunchSound(g: Config, s: State, k: Key, now: int)
    requires g.Valid() && Sound(g, s) && k.0 in s.providers && !HasJob(s, k.0) && !s.stopping
    requires s.providers[k.0].cooldownUntil.None? && s.providers[k.0].contextReady
    requires k in s.details && Due(s.details[k].attempt, now) && Timely(g, s.details[k], now)
    ensures Sound(g, Launch(s, DetailJob(k.0, k.1, s.details[k].esport), now))
    ensures var t := Launch(s, DetailJob(k.0, k.1, s.details[k].esport), now);
            t.details == s.details[k := s.details[k].(attempt := s.details[k].attempt.(currentlyRunning := true, lastAttemptAt := Some(now)))]
  {
    var job := DetailJob(k.0, k.1, s.details[k].esport);
    var t := Launch(s, job, now);
    LaunchInv(g, s, job, now);
    LaunchShape(s, job, now);
    var e := Started(job, now, s.details[k].startsAt);
    assert DetailReflects(g, s.trace, k, s.details[k].attempt) && EndingReflects(s.trace, k, s.details[k].attempt);
    assert Spaced(g, s.trace, k, now, s.details[k].startsAt);
    LaunchReflects(g, s, t, e, k);
  }

  lemma {:induction false} TickProviderSound(g: Config, s: State, p: string, now: int)
    requires g.Valid() && Sound(g, s) && p in s.providers && s.enabled && !s.stopping && Current(g, s, now)
    ensures var t := TickProvider(s, p, now);
            Sound(g, t) && Current(g, t, now) && t.enabled && !t.stopping
  {
    var ps := s.providers[p];
    assert ProviderOk(s, p);
    if !(ps.activeJobs >= ps.effectiveConcurrency || (ps.cooldownUntil.Some? && now < ps.cooldownUntil.value)) {
      if ps.cooldownUntil.Some? {
        ProbeInv(g, s, p, now);
        ProbeReflects(g, s, p, now);
      } else {
        IdleTickSound(g, s, p, now);
      }
    }
  }

  lemma {:induction false} IdleTickSound(g: Config, s: State, p: string, now: int)
    requires g.Valid() && Sound(g, s) && p in s.providers && s.enabled && !s.stopping && Current(g, s, now)
    requires !HasJob(s, p) && s.providers[p].cooldownUntil.None?
    ensures var t := TickProvider(s, p, now);
            Sound(g, t) && Current(g, t, now) && t.enabled && !t.stopping
  {
    assert s.providers[p].activeJobs == 0 && s.providers[p].effectiveConcurrency == 1 by { assert ProviderOk(s, p); }
    if Due(s.providers[p].list, now) {
      ListLaunchSound(g, s, p, now);
    } else if s.providers[p].contextReady {
      NextDetailMeans(s.details, p, now);
      var next := NextDetail(s.details, p, now);
      if next.Some? {
        var k := next.value;
        assert Timely(g, s.details[k], now);
        DetailLaunchSound(g, s, k, now);
        RunningStaysCurrent(g, s, k, now);
      }
    }
  }

  lemma {:induction false} RunningStaysCurrent(g: Config, s: State, k: Key, now: int)
    requires Current(g, s, now) && k in s.details
    ensures Current(g, s.(details := s.details[k := s.details[k].(attempt := s.details[k].attempt.(currentlyRunning := true, lastAttemptAt := Some(now)))]), now)
  {
  }

  lemma {:induction false} TickProvidersSound(g: Config, s: State, names: seq<string>, now: int)
    requires g.Valid() && Sound(g, s) && s.enabled && !s.stopping && Current(g, s, now)
    ensures var t := TickProviders(s, names, now);
            Sound(g, t) && Current(g, t, now) && t.enabled && !t.stopping
    decreases |names|
  {
    if names != [] {
      var n := |names| - 1;
      TickProvidersSound(g, s, names[..n], now);
      var before := TickProviders(s, names[..n], now);
      if names[n] in before.providers { TickProviderSound(g, before, names[n], now); }
    }
  }

  lemma {:induction false} TickSound(g: Config, s: State, now: int)
    requires g.Valid() && Sound(g, s)
    ensures Sound(g, Tick(g, s, now))
  {
    if s.enabled && !s.stopping {
      var s1 := Recalculate(g, s, now);
      RecalculateInv(g, s, now);
      RecalculateReflects(g, s, now);
      RecalculateCurrent(g, s, now);
      TickProvidersSound(g, s1, g.names, now);
    }
  }

  // --- Signals ---------------------------------------------------------------

  ghost predicate SignalsAs(s: State, t: State, e: Entry) {
    && Signalled(s, t) && t.trace == s.trace + [e]
    && (e.CommitBegun? || e.Aborted?)
    && forall id :: id in s.jobs ==>
         && (t.jobs[id].committing <==> s.jobs[id].committing || (e.CommitBegun? && IdOf(e.job) == id))
         && (t.jobs[id].abort.Some? <==> s.jobs[id].abort.Some? || (e.Aborted? && id in e.ids))
  }

  lemma {:induction false} SignalReflects(g: Config, s: State, t: State, e: Entry)
    requires g.Valid() && Reflects(g, s) && SignalsAs(s, t, e)
    ensures Reflects(g, t)
  {
    Push(s.trace, e);
    forall q ensures Busy(t.trace, q) <==> HasJob(t, q) { SignalledHasJob(s, t, q); }
    forall id | id in t.jobs
      ensures t.jobs[id].committing <==> Committed(t.trace, id)
      ensures t.jobs[id].abort.Some? <==> WasAborted(t.trace, id)
    {
      assert id in s.jobs.Keys;
    }
    forall k | k in t.details ensures DetailReflects(g, t.trace, k, t.details[k].attempt) {
      assert DetailReflects(g, s.trace, k, s.details[k].attempt);
    }
    forall k | k in t.details ensures EndingReflects(t.trace, k, t.details[k].attempt) {
      assert EndingReflects(s.trace, k, s.details[k].attempt);
    }
  }

  lemma {:induction false} SignalSound(g: Config, s: State, t: State, e: Entry)
    requires g.Valid() && Sound(g, s) && SignalsAs(s, t, e) && Allowed(g, s.trace, e)
    ensures Sound(g, t)
  {
    SignalledInv(g, s, t);
    SignalReflects(g, s, t, e);
    AdmissiblePush(g, s.trace, e);
  }

  lemma {:induction false} MarkSignalsAs(s: State, id: JobId, r: Running, e: Entry)
    requires NoBoth(s) && id in s.jobs && SignalOnly(s.jobs[id], r) && IdOf(s.jobs[id].job) == id
    requires (e == CommitBegun(s.jobs[id].job, e.at) && r == s.jobs[id].(committing := true))
          || (e == Aborted({id}, e.at) && r == s.jobs[id].(abort := Some(TimedOut)))
    ensures SignalsAs(s, Note(s.(jobs := s.jobs[id := r]), e), e)
  {
    MarkSignalled(s, id, r, e);
  }

  lemma {:induction false} BeginCommitSound(g: Config, s: State, id: JobId, now: int)
    requires g.Valid() && Sound(g, s)
    ensures Sound(g, BeginCommit(s, id, now))
  {
    if id in s.jobs && s.jobs[id].abort.None? && !s.jobs[id].committing {
      SoundJobFacts(g, s, id);
      LinkedNoBoth(s);
      MarkSignalsAs(s, id, s.jobs[id].(committing := true), CommitBegun(s.jobs[id].job, now));
      SignalSound(g, s, BeginCommit(s, id, now), CommitBegun(s.jobs[id].job, now));
    }
  }

  lemma {:induction false} FireTimeoutSound(g: Config, s: State, id: JobId, now: int)
    requires g.Valid() && Sound(g, s)
    ensures Sound(g, FireTimeout(s, id, now))
  {
    if id in s.jobs && s.jobs[id].abort.None? && !s.jobs[id].committing {
      SoundJobFacts(g, s, id);
      LinkedNoBoth(s);
      MarkSignalsAs(s, id, s.jobs[id].(abort := Some(TimedOut)), Aborted({id}, now));
      SignalSound(g, s, FireTimeout(s, id, now), Aborted({id}, now));
    }
  }

  lemma {:induction false} EndGraceSignalsAs(s: State, now: int)
    requires NoBoth(s) && s.stopping
    ensures SignalsAs(s, EndGrace(s, now), Aborted(Abortable(s), now))
  {
    assert EndGrace(s, now).jobs.Keys == s.jobs.Keys;
  }

  lemma {:induction false} AbortableAllowed(g: Config, s: State, now: int)
    requires g.Valid() && Sound(g, s)
    ensures Allowed(g, s.trace, Aborted(Abortable(s), now))
  {
    forall id | id in Abortable(s) ensures Busy(s.trace, id.0) && !Committed(s.trace, id) {
      SoundJobFacts(g, s, id);
    }
  }

  lemma {:induction false} EndGraceSound(g: Config, s: State, now: int)
    requires g.Valid() && Sound(g, s)
    ensures Sound(g, EndGrace(s, now))
  {
    if s.stopping {
      LinkedNoBoth(s);
      EndGraceSignalsAs(s, now);
      AbortableAllowed(g, s, now);
      SignalSound(g, s, EndGrace(s, now), Aborted(Abortable(s), now));
    }
  }

  lemma {:induction false} RequestStopSound(g: Config, s: State, now: int)
    requires g.Valid() && Sound(g, s)
    ensures Sound(g, RequestStop(s, now))
  {
    if !s.stopping {
      var t, e := RequestStop(s, now), StopRequested(now);
      RequestStopInv(g, s, now);
      Push(s.trace, e);
      AdmissiblePush(g, s.trace, e);
      forall q ensures Busy(t.trace, q) <==> HasJob(t, q) { assert HasJob(s, q) == HasJob(t, q); }
      forall k | k in t.details ensures DetailReflects(g, t.trace, k, t.details[k].attempt) {
        assert DetailReflects(g, s.trace, k, s.details[k].attempt);
      }
      forall k | k in t.details ensures EndingReflects(t.trace, k, t.details[k].attempt) {
        assert EndingReflects(s.trace, k, s.details[k].attempt);
      }
    }
  }

  // --- Reconciliation --------------------------------------------------------

  lemma {:induction false} ReconcileDetailsReflect(g: Config, s: State, p: string, events: seq<Event>, now: int, forNew: string -> nat)
    requires g.Valid() && Catalogued(s) && DetailsReflect(g, s)
    ensures DetailsReflect(g, Reconcile(g, s, p, events, now, forNew))
  {
    var t := Reconcile(g, s, p, events, now, forNew);
    var e := t.trace[|s.trace|];
    assert t.trace == s.trace + [e];
    Push(s.trace, e);
    forall k | k in t.details ensures DetailReflects(g, t.trace, k, t.details[k].attempt) {
      ReconciledDetail(g, s, p, events, now, forNew, k);
      if k in s.details {
        assert DetailReflects(g, s.trace, k, s.details[k].attempt);
      } else {
        assert k in e.added;
      }
    }
  }

  lemma {:induction false} ReconcileEndings(g: Config, s: State, p: string, events: seq<Event>, now: int, forNew: string -> nat)
    requires g.Valid() && Catalogued(s) && EndingsReflect(s)
    ensures EndingsReflect(Reconcile(g, s, p, events, now, forNew))
  {
    var t := Reconcile(g, s, p, events, now, forNew);
    var e := t.trace[|s.trace|];
    assert t.trace == s.trace + [e];
    Push(s.trace, e);
    forall k | k in t.details ensures EndingReflects(t.trace, k, t.details[k].attempt) {
      ReconciledDetail(g, s, p, events, now, forNew, k);
      if k in s.details {
        assert EndingReflects(s.trace, k, s.details[k].attempt);
        ReconciledSilent(g, s, p, events, now, forNew, k);
      } else {
        assert k in e.added;
      }
    }
  }

  lemma {:induction false} ReconciledSilent(g: Config, s: State, p: string, events: seq<Event>, now: int, forNew: string -> nat, k: Key)
    requires Catalogued(s) && k in Reconcile(g, s, p, events, now, forNew).details && k in s.details
    ensures SilentDetail(s.details[k].attempt, Reconcile(g, s, p, events, now, forNew).details[k].attempt)
  {
    ListingMeans(p, events);
    var next := Listing(p, events);
    NewDetail(s, p, next, forNew, k);
    RecalculatedSilent(g, NewDetails(s, p, next, forNew)[k], Lookup(NewCatalog(s, p, next), k), now);
  }

  lemma {:induction false} ReconcileSound(g: Config, s: State, p: string, events: seq<Event>, now: int, forNew: string -> nat)
    requires g.Valid() && Sound(g, s) && p in s.providers && OwnEvents(events, p) && NoDetailJob(s, p)
    ensures Sound(g, Reconcile(g, s, p, events, now, forNew))
  {
    var t := Reconcile(g, s, p, events, now, forNew);
    var e := t.trace[|s.trace|];
    assert t.trace == s.trace + [e] && e.Reconciled?;
    ReconcileInv(g, s, p, events, now, forNew);
    ReconcileDetailsReflect(g, s, p, events, now, forNew);
    ReconcileEndings(g, s, p, events, now, forNew);
    Push(s.trace, e);
    AdmissiblePush(g, s.trace, e);
    forall q ensures Busy(t.trace, q) <==> HasJob(t, q) { assert HasJob(s, q) == HasJob(t, q); }
  }

  lemma {:induction false} ReconcileAllSound(g: Config, s: State, names: seq<string>, events: seq<Event>, now: int, forNew: string -> nat)
    requires g.Valid() && Sound(g, s) && s.jobs == map[] && (forall p :: p in names ==> p in s.providers)
    ensures Sound(g, ReconcileAll(g, s, names, events, now, forNew))
    decreases |names|
  {
    if names != [] {
      var n := |names| - 1;
      ReconcileAllSound(g, s, names[..n], events, now, forNew);
      ReconcileAllInv(g, s, names[..n], events, now, forNew);
      OwnMeans(events, names[n]);
      ReconcileSound(g, ReconcileAll(g, s, names[..n], events, now, forNew), names[n], Own(events, names[n]), now, forNew);
    }
  }

  lemma {:induction false} RestoreSound(g: Config, s: State, events: seq<Event>, now: int, forNew: string -> nat)
    requires g.Valid() && Sound(g, s)
    ensures Sound(g, RestoreCatalog(g, s, events, now, forNew))
  {
    if !s.enabled && s.jobs.Keys == {} {
      assert s.jobs == map[];
      forall p | p in g.names ensures p in s.providers { assert p in s.providers.Keys; }
      ReconcileAllSound(g, s, g.names, events, now, forNew);
    }
  }

  // --- Completion ------------------------------------------------------------

  /** The job of id ended with entry e, and the other entries are as before. */
  ghost predicate Ended(s: State, t: State, e: Entry, id: JobId) {
    && id in s.jobs && IdOf(s.jobs[id].job) == id && JobOf(e) == Some(s.jobs[id].job)
    && (e.Succeeded? || e.Failed? || e.EventOver? || e.Cancelled?)
    && t.trace == s.trace + [e] && t.jobs == s.jobs - {id} && t.stopping == s.stopping
    && t.providers.Keys == s.providers.Keys && id.0 in s.providers
    && (forall q :: q in s.providers && q != id.0 ==> t.providers[q] == s.providers[q])
    && t.providers[id.0].cooldownUntil == CoolingStep(s.providers[id.0].cooldownUntil, e, id.0)
    && t.providers[id.0].consecutiveFailures == FailuresStep(s.providers[id.0].consecutiveFailures, e, id.0)
    && (t.providers[id.0].contextReady ==> ReadyStep(s.providers[id.0].contextReady, e, id.0))
    && t.details.Keys == s.details.Keys
    && (s.jobs[id].job.ListJob? ==> t.details == s.details)
    && (forall k :: k in s.details && k != id ==> t.details[k] == s.details[k])
  }

  lemma {:induction false} EndedProviders(s: State, t: State, e: Entry, id: JobId)
    requires ProvidersReflect(s) && Ended(s, t, e, id)
    ensures ProvidersReflect(t)
  {
    Push(s.trace, e);
    forall q | q in t.providers
      ensures Cooling(t.trace, q) == t.providers[q].cooldownUntil && Failures(t.trace, q) == t.providers[q].consecutiveFailures && (t.providers[q].contextReady ==> Ready(t.trace, q))
    {
      assert q in s.providers.Keys;
    }
  }

  lemma {:induction false} EndedJobs(s: State, t: State, e: Entry, id: JobId)
    requires BusyReflects(s) && SignalsReflect(s) && OneJob(s) && Ended(s, t, e, id)
    ensures BusyReflects(t) && SignalsReflect(t)
  {
    Push(s.trace, e);
    forall q ensures Busy(t.trace, q) <==> HasJob(t, q) {
      if j :| j in s.jobs && j.0 == q && q != id.0 { assert j in t.jobs; }
      assert HasJob(t, q) ==> HasJob(s, q);
    }
  }

  /** What soundness says about one running job. */
  ghost predicate JobFacts(g: Config, s: State, id: JobId)
    requires g.Valid()
  {
    && Anchored(s, id)
    && Busy(s.trace, id.0)
    && s.providers[id.0].cooldownUntil.None?
    && (s.jobs[id].committing <==> Committed(s.trace, id))
    && (s.jobs[id].abort.Some? <==> WasAborted(s.trace, id))
    && (s.jobs[id].job.DetailJob? ==>
          && id in s.details && s.details[id].uid == s.jobs[id].uid
          && DetailReflects(g, s.trace, id, s.details[id].attempt))
    && Failures(s.trace, id.0) == s.providers[id.0].consecutiveFailures
    && (s.stopping <==> Stopped(s.trace))
  }

  lemma {:induction false} SoundJobFacts(g: Config, s: State, id: JobId)
    requires g.Valid() && Sound(g, s) && id in s.jobs
    ensures JobFacts(g, s, id)
  {
    LinkedAnchored(s, id);
    BusyNotCooling(g, s, id);
    assert HasJob(s, id.0);
    assert JobLinked(s, id);
  }

  /** u adjusts only the job's own attempt and provider, as entry e records. */
  ghost predicate Adjusts(g: Config, s: State, u: State, e: Entry, id: JobId)
    requires g.Valid()
  {
    && SettlesLike(s, u, id)
    && JobOf(e) == Some(s.jobs[id].job) && (e.Succeeded? || e.Failed? || e.EventOver? || e.Cancelled?)
    && id.0 in s.providers
    && u.providers[id.0].cooldownUntil == CoolingStep(s.providers[id.0].cooldownUntil, e, id.0)
    && u.providers[id.0].consecutiveFailures == FailuresStep(s.providers[id.0].consecutiveFailures, e, id.0)
    && (u.providers[id.0].contextReady ==> ReadyStep(s.providers[id.0].contextReady, e, id.0))
    && (s.jobs[id].job.DetailJob? ==>
          id in u.details && DetailReflects(g, s.trace + [e], id, u.details[id].attempt)
          && EndingReflects(s.trace + [e], id, u.details[id].attempt.(currentlyRunning := false)))
  }

  lemma {:induction false} AdjustedEnds(g: Config, s: State, u: State, e: Entry, id: JobId)
    requires g.Valid() && JobFacts(g, s, id) && Adjusts(g, s, u, e, id)
    ensures s.jobs[id].job.provider in u.providers && Ended(s, Note(Settle(u, id), e), e, id)
    ensures s.jobs[id].job.DetailJob? ==>
              && id in Settle(u, id).details
              && DetailReflects(g, s.trace + [e], id, Settle(u, id).details[id].attempt)
              && EndingReflects(s.trace + [e], id, Settle(u, id).details[id].attempt)
  {
    SettleShape(u, id);
    SettleDetailMap(u, id);
  }

  lemma {:induction false} EndedDetails(g: Config, s: State, t: State, e: Entry, id: JobId)
    requires g.Valid() && DetailsReflect(g, s) && Ended(s, t, e, id)
    requires s.jobs[id].job.DetailJob? ==> id in t.details && DetailReflects(g, s.trace + [e], id, t.details[id].attempt)
    ensures DetailsReflect(g, t)
  {
    Push(s.trace, e);
    forall k | k in t.details ensures DetailReflects(g, t.trace, k, t.details[k].attempt) {
      assert k in s.details.Keys && DetailReflects(g, s.trace, k, s.details[k].attempt);
    }
  }

  lemma {:induction false} EndedEndings(s: State, t: State, e: Entry, id: JobId)
    requires EndingsReflect(s) && Ended(s, t, e, id)
    requires s.jobs[id].job.DetailJob? ==> id in t.details && EndingReflects(s.trace + [e], id, t.details[id].attempt)
    ensures EndingsReflect(t)
  {
    Push(s.trace, e);
    forall k | k in t.details ensures EndingReflects(t.trace, k, t.details[k].attempt) {
      assert k in s.details.Keys && EndingReflects(s.trace, k, s.details[k].attempt);
    }
  }

  /** The end of a job, however it ends. */
  lemma {:induction false} FinishSound(g: Config, s: State, u: State, e: Entry, id: JobId)
    requires g.Valid() && Sound(g, s) && JobFacts(g, s, id) && Adjusts(g, s, u, e, id) && Allowed(g, s.trace, e)
    requires s.jobs[id].job.provider in u.providers && Inv(g, Note(Settle(u, id), e))
    ensures Sound(g, Note(Settle(u, id), e))
  {
    var t := Note(Settle(u, id), e);
    AdjustedEnds(g, s, u, e, id);
    EndedProviders(s, t, e, id);
    EndedJobs(s, t, e, id);
    EndedDetails(g, s, t, e, id);
    EndedEndings(s, t, e, id);
    Push(s.trace, e);
    AdmissiblePush(g, s.trace, e);
  }

  lemma {:induction false} SucceedSound(g: Config, s: State, id: JobId, events: seq<Event>, now: int, d: Draws)
    requires g.Valid() && Sound(g, s) && id in s.jobs && s.jobs[id].job.provider in s.providers
    requires OwnEvents(events, s.jobs[id].job.provider)
    requires s.jobs[id].committing || s.jobs[id].abort.None?
    ensures Sound(g, Succeed(g, s, id, events, now, d))
  {
    SoundJobFacts(g, s, id);
    SucceedInv(g, s, id, events, now, d);
    var e := Succeeded(s.jobs[id].job, now);
    if s.jobs[id].job.ListJob? {
      ListSucceedSound(g, s, id, events, now, d);
    } else {
      CreditAdjusts(g, s, id, now, d);
      FinishSound(g, s, Credit(g, s, id, now, d), e, id);
    }
  }

  lemma {:induction false} CreditAdjusts(g: Config, s: State, id: JobId, now: int, d: Draws)
    requires g.Valid() && JobFacts(g, s, id)
    ensures Adjusts(g, s, Credit(g, s, id, now, d), Succeeded(s.jobs[id].job, now), id)
    ensures Credit(g, s, id, now, d).jobs == s.jobs
  {
    CreditRetains(g, s, id, now, d);
    Push(s.trace, Succeeded(s.jobs[id].job, now));
  }

  lemma {:induction false} ListSucceedSound(g: Config, s: State, id: JobId, events: seq<Event>, now: int, d: Draws)
    requires g.Valid() && Sound(g, s) && JobFacts(g, s, id) && s.jobs[id].job.ListJob? && OwnEvents(events, id.0)
    requires s.jobs[id].committing || s.jobs[id].abort.None?
    requires Inv(g, Succeed(g, s, id, events, now, d))
    ensures Sound(g, Succeed(g, s, id, events, now, d))
  {
    var s0 := Reconcile(g, s, id.0, events, now, d.forNew);
    assert NoDetailJob(s, id.0);
    ReconcileSound(g, s, id.0, events, now, d.forNew);
    assert s0.jobs == s.jobs && s0.providers == s.providers;
    SoundJobFacts(g, s0, id);
    var s1 := AfterListing(g, s, id, events, now, d);
    assert s1 == SetProvider(s0, id.0, s0.providers[id.0].(contextReady := true));
    ReadyCreditAdjusts(g, s0, s1, id, now, d);
    FinishSound(g, s0, Credit(g, s1, id, now, d), Succeeded(s.jobs[id].job, now), id);
  }

  lemma {:induction false} ReadyCreditAdjusts(g: Config, s0: State, s1: State, id: JobId, now: int, d: Draws)
    requires g.Valid() && JobFacts(g, s0, id) && s0.jobs[id].job.ListJob?
    requires s1 == SetProvider(s0, id.0, s0.providers[id.0].(contextReady := true))
    ensures Adjusts(g, s0, Credit(g, s1, id, now, d), Succeeded(s0.jobs[id].job, now), id)
  {
    CreditRetains(g, s1, id, now, d);
    SameProvidersUpdate(s0.providers, id.0, s1.providers[id.0]);
    Push(s0.trace, Succeeded(s0.jobs[id].job, now));
  }

  lemma {:induction false} FailSound(g: Config, s: State, id: JobId, fault: Fault, now: int, own: nat)
    requires g.Valid() && Sound(g, s) && id in s.jobs && s.jobs[id].job.provider in s.providers && !fault.EventStarted?
    ensures Sound(g, Fail(g, s, id, fault, now, own))
  {
    SoundJobFacts(g, s, id);
    FailInv(g, s, id, fault, now, own);
    PenaltyAdjusts(g, s, id, fault, now, own);
    FinishSound(g, s, Penalised(g, s, id, fault, now, own), FailureEntry(g, s, id, fault, now, own), id);
  }

  ghost function FailureEntry(g: Config, s: State, id: JobId, fault: Fault, now: int, own: nat): Entry
    requires g.Valid() && id in s.jobs && s.jobs[id].job.provider in s.providers && !fault.EventStarted?
  {
    Failed(s.jobs[id].job, now, ResetsContext(s.jobs[id], fault), AttemptOf(s, s.jobs[id]).failureCount + 1,
           Penalised(g, s, id, fault, now, own).providers[s.jobs[id].job.provider].cooldownUntil)
  }

  lemma {:induction false} PenaltyAdjusts(g: Config, s: State, id: JobId, fault: Fault, now: int, own: nat)
    requires g.Valid() && JobFacts(g, s, id) && !fault.EventStarted?
    ensures var u, e := Penalised(g, s, id, fault, now, own), FailureEntry(g, s, id, fault, now, own);
            Adjusts(g, s, u, e, id) && Allowed(g, s.trace, e) && u.jobs == s.jobs
  {
    PenalisedRetains(g, s, id, fault, now, own);
    Push(s.trace, FailureEntry(g, s, id, fault, now, own));
  }

  lemma {:induction false} StopDetailSound(g: Config, s: State, id: JobId, now: int)
    requires g.Valid() && Sound(g, s) && id in s.jobs && s.jobs[id].job.DetailJob? && s.jobs[id].job.provider in s.providers
    ensures Sound(g, StopDetail(s, id, now))
  {
    SoundJobFacts(g, s, id);
    StopDetailInv(g, s, id, now);
    HaltAdjusts(g, s, id, now);
    FinishSound(g, s, Halted(s, id), EventOver(s.jobs[id].job, now), id);
  }

  lemma {:induction false} HaltAdjusts(g: Config, s: State, id: JobId, now: int)
    requires g.Valid() && JobFacts(g, s, id) && s.jobs[id].job.DetailJob?
    ensures Adjusts(g, s, Halted(s, id), EventOver(s.jobs[id].job, now), id) && Halted(s, id).jobs == s.jobs
  {
    HaltedRetains(s, id);
    Push(s.trace, EventOver(s.jobs[id].job, now));
  }

  lemma {:induction false} CancelSound(g: Config, s: State, id: JobId, now: int)
    requires g.Valid() && Sound(g, s) && id in s.jobs && s.jobs[id].job.provider in s.providers
    requires s.stopping && s.jobs[id].abort.Some?
    ensures Sound(g, Cancel(s, id, now))
  {
    SoundJobFacts(g, s, id);
    CancelInv(g, s, id, now);
    CancelAdjusts(g, s, id, now);
    FinishSound(g, s, s, Cancelled(s.jobs[id].job, now), id);
  }

  lemma {:induction false} CancelAdjusts(g: Config, s: State, id: JobId, now: int)
    requires g.Valid() && JobFacts(g, s, id) && s.stopping
    ensures Adjusts(g, s, s, Cancelled(s.jobs[id].job, now), id)
  {
    Push(s.trace, Cancelled(s.jobs[id].job, now));
  }

  lemma {:induction false} CompleteSound(g: Config, s: State, id: JobId, outcome: Outcome, now: int, d: Draws)
    requires g.Valid() && Sound(g, s) && Possible(s, Completes(id, outcome, d)) && s.jobs[id].job.provider in s.providers
    ensures Sound(g, Complete(g, s, id, outcome, now, d))
  {
    var r := s.jobs[id];
    if outcome.Returned? && (r.committing || r.abort.None?) {
      SucceedSound(g, s, id, outcome.events, now, d);
    } else {
      var fault := if outcome.Threw? then outcome.fault else Ordinary("Error");
      if fault.EventStarted? {
        StopDetailSound(g, s, id, now);
      } else if s.stopping && r.abort == Some(Shutdown) {
        CancelSound(g, s, id, now);
      } else {
        FailSound(g, s, id, fault, now, d.own);
      }
    }
  }

  // --- Every run -------------------------------------------------------------

  lemma {:induction false} CompletesSound(g: Config, s: State, id: JobId, outcome: Outcome, now: int, d: Draws)
    requires g.Valid() && Sound(g, s) && Possible(s, Completes(id, outcome, d))
    ensures Sound(g, if s.jobs[id].job.provider in s.providers then Complete(g, s, id, outcome, now, d) else s)
  {
    if s.jobs[id].job.provider in s.providers { CompleteSound(g, s, id, outcome, now, d); }
  }

  /** The steps that only signal. */
  lemma {:induction false} SignalStepSound(g: Config, s: State, m: Move)
    requires g.Valid() && Sound(g, s) && (m.step.Commits? || m.step.TimesOut? || m.step.Stops? || m.step.GraceEnds?)
    ensures Sound(g, Next(g, s, m))
  {
    match m.step
    case Commits(id) => BeginCommitSound(g, s, id, m.now);
    case TimesOut(id) => FireTimeoutSound(g, s, id, m.now);
    case Stops => RequestStopSound(g, s, m.now);
    case GraceEnds => EndGraceSound(g, s, m.now);
  }

  lemma {:induction false} NextSound(g: Config, s: State, m: Move)
    requires g.Valid() && Sound(g, s) && Possible(s, m.step)
    ensures Sound(g, Next(g, s, m))
  {
    match m.step
    case StartUp(d) => StartSound(g, s, m.now, d);
    case Ticks => TickSound(g, s, m.now);
    case Completes(id, outcome, d) => CompletesSound(g, s, id, outcome, m.now, d);
    case Restores(events, d) => RestoreSound(g, s, events, m.now, d.forNew);
    case _ => SignalStepSound(g, s, m);
  }

  /** Over every run: the invariant holds and the trace is admissible. */
  lemma {:induction false} RunSound(g: Config, moves: seq<Move>)
    requires g.Valid() && Legal(g, moves)
    ensures Sound(g, Execute(g, moves))
  {
    if moves == [] {
      InitialSound(g);
    } else {
      var n := |moves| - 1;
      RunSound(g, moves[..n]);
      NextSound(g, Execute(g, moves[..n]), moves[n]);
    }
  }

  lemma {:induction false} LegalPush(g: Config, moves: seq<Move>, m: Move)
    requires g.Valid() && Legal(g, moves) && Possible(Execute(g, moves), m.step)
    requires moves != [] ==> moves[|moves| - 1].now <= m.now
    ensures Legal(g, moves + [m]) && Execute(g, moves + [m]) == Next(g, Execute(g, moves), m)
  {
    var longer := moves + [m];
    assert longer[..|longer| - 1] == moves && longer[|longer| - 1] == m;
  }

  lemma {:induction false} RunSafe(g: Config, moves: seq<Move>)
    requires g.Valid() && Legal(g, moves)
    ensures Inv(g, Execute(g, moves)) && Admissible(g, Execute(g, moves).trace)
  {
    RunSound(g, moves);
  }
}
