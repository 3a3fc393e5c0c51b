/** Further results about runs: time order of the trace, draining at shutdown,
    which details get scheduled and which never run again. */
module SchedulerOutcomes {
  import opened Domain
  import opened Texts
  import opened SchedulerModel
  import opened SchedulerInvariants
  import opened SchedulerTrace
  import opened SchedulerRuns

  // --- Time ------------------------------------------------------------------

  /** t's trace extends s's by entries stamped `now`. */
  ghost predicate Stamped(s: State, t: State, now: int) {
    && s.trace <= t.trace
    && forall j :: |s.trace| <= j < |t.trace| ==> t.trace[j].at == now
  }

  lemma {:induction false} StampedTransitive(s: State, t: State, u: State, now: int)
    requires Stamped(s, t, now) && Stamped(t, u, now)
    ensures Stamped(s, u, now)
  {
    forall j | |s.trace| <= j < |u.trace| ensures u.trace[j].at == now {
      if j < |t.trace| { assert u.trace[j] == t.trace[j]; }
    }
  }

  lemma {:induction false} LaunchStamped(s: State, job: Job, at: int)
    requires job.provider in s.providers
    ensures Stamped(s, Launch(s, job, at), at)
  {
  }

  lemma {:induction false} TickProvidersStamped(s: State, names: seq<string>, now: int)
    ensures Stamped(s, TickProviders(s, names, now), now)
    decreases |names|
  {
    if names != [] {
      var n := |names| - 1;
      TickProvidersStamped(s, names[..n], now);
      var before := TickProviders(s, names[..n], now);
      if names[n] in before.providers {
        TickProviderStamped(before, names[n], now);
        StampedTransitive(s, before, TickProvider(before, names[n], now), now);
      }
    }
  }

  lemma {:induction false} TickProviderStamped(s: State, p: string, now: int)
    requires p in s.providers
    ensures Stamped(s, TickProvider(s, p, now), now)
  {
    var ps := s.providers[p];
    if ps.activeJobs < ps.effectiveConcurrency && (ps.cooldownUntil.Some? ==> now >= ps.cooldownUntil.value) {
      var s1 := if ps.cooldownUntil.Some? then Probe(s, p, now) else s;
      assert s1.trace == s.trace && p in s1.providers;
      if Due(s1.providers[p].list, now) {
        LaunchStamped(s1, ListJob(p), now);
      } else if s1.providers[p].contextReady && NextDetail(s1.details, p, now).Some? {
        NextDetailMeans(s1.details, p, now);
        var k := NextDetail(s1.details, p, now).value;
        LaunchStamped(s1, DetailJob(p, k.1, s1.details[k].esport), now);
      }
    }
  }

  lemma {:induction false} ReconcileAllStamped(g: Config, s: State, names: seq<string>, events: seq<Event>, now: int, forNew: string -> nat)
    ensures Stamped(s, ReconcileAll(g, s, names, events, now, forNew), now)
    decreases |names|
  {
    if names != [] {
      var n := |names| - 1;
      ReconcileAllStamped(g, s, names[..n], events, now, forNew);
      var before := ReconcileAll(g, s, names[..n], events, now, forNew);
      StampedTransitive(s, before, ReconcileAll(g, s, names, events, now, forNew), now);
    }
  }

  /** t differs from s neither in its jobs nor in its on/off state, and its trace
      has at most entries stamped `now` more. */
  ghost predicate Steady(s: State, t: State, now: int) {
    t.jobs == s.jobs && t.enabled == s.enabled && t.stopping == s.stopping && Stamped(s, t, now)
  }

  /** The job has left the table and nothing else of the above has changed. */
  ghost predicate Finishes(s: State, t: State, id: JobId, now: int) {
    t.jobs == s.jobs - {id} && t.enabled == s.enabled && t.stopping == s.stopping && Stamped(s, t, now)
  }

  lemma {:induction false} AdjustSteady(s: State, r: Running, a: Attempt, now: int)
    requires r.job.provider in s.providers
    ensures Steady(s, SetAttempt(s, r, a), now)
  {
  }

  lemma {:induction false} SettleFinishes(s: State, u: State, id: JobId, e: Entry, now: int)
    requires id in s.jobs && s.jobs[id].job.provider in u.providers && Steady(s, u, now) && e.at == now
    ensures Finishes(s, Note(Settle(u, id), e), id, now)
  {
    var r := u.jobs[id];
    AdjustSteady(u, r, AttemptOf(u, r).(currentlyRunning := false), now);
    var t := Settle(u, id);
    assert t.trace == u.trace && t.jobs == u.jobs - {id};
    StampedTransitive(s, u, Note(t, e), now);
  }

  lemma {:induction false} CreditSteady(g: Config, s: State, u: State, id: JobId, now: int, d: Draws)
    requires id in u.jobs && u.jobs[id].job.provider in u.providers && Steady(s, u, now)
    ensures u.jobs[id].job.provider in Credit(g, u, id, now, d).providers && Steady(s, Credit(g, u, id, now, d), now)
  {
    var r := u.jobs[id];
    AdjustSteady(u, r, Credited(g, u, r, now, d), now);
  }

  lemma {:induction false} SucceedFinishes(g: Config, s: State, id: JobId, events: seq<Event>, now: int, d: Draws)
    requires id in s.jobs && s.jobs[id].job.provider in s.providers
    ensures Finishes(s, Succeed(g, s, id, events, now, d), id, now)
  {
    var u := if s.jobs[id].job.DetailJob? then s else AfterListing(g, s, id, events, now, d);
    assert Steady(s, u, now);
    CreditSteady(g, s, u, id, now, d);
    SettleFinishes(s, Credit(g, u, id, now, d), id, Succeeded(s.jobs[id].job, now), now);
  }

  lemma {:induction false} StopDetailFinishes(s: State, id: JobId, now: int)
    requires id in s.jobs && s.jobs[id].job.provider in s.providers
    ensures Finishes(s, StopDetail(s, id, now), id, now)
  {
    var r := s.jobs[id];
    AdjustSteady(s, r, AttemptOf(s, r).(nextRunAt := None), now);
    SettleFinishes(s, Halted(s, id), id, EventOver(r.job, now), now);
  }

  lemma {:induction false} FailFinishes(g: Config, s: State, id: JobId, fault: Fault, now: int, own: nat)
    requires g.Valid() && id in s.jobs && s.jobs[id].job.provider in s.providers && !fault.EventStarted?
    ensures Finishes(s, Fail(g, s, id, fault, now, own), id, now)
  {
    var r := s.jobs[id];
    AdjustSteady(s, r, FailedAttempt(g, AttemptOf(s, r), r, fault, now, own), now);
    var u := Penalised(g, s, id, fault, now, own);
    assert Steady(s, u, now);
    SettleFinishes(s, u, id, Failed(r.job, now, ResetsContext(r, fault), AttemptOf(s, r).failureCount + 1,
                                    u.providers[r.job.provider].cooldownUntil), now);
  }

  /** However a job ends, it leaves the table and only entries of that moment are added. */
  lemma {:induction false} CompleteFinishes(g: Config, s: State, id: JobId, outcome: Outcome, now: int, d: Draws)
    requires g.Valid() && id in s.jobs && s.jobs[id].job.provider in s.providers
    ensures Finishes(s, Complete(g, s, id, outcome, now, d), id, now)
  {
    var r := s.jobs[id];
    if outcome.Returned? && (r.committing || r.abort.None?) {
      SucceedFinishes(g, s, id, outcome.events, now, d);
    } else {
      var fault := if outcome.Threw? then outcome.fault else Ordinary("Error");
      if fault.EventStarted? {
        StopDetailFinishes(s, id, now);
      } else if s.stopping && r.abort == Some(Shutdown) {
        SettleFinishes(s, s, id, Cancelled(r.job, now), now);
      } else {
        FailFinishes(g, s, id, fault, now, d.own);
      }
    }
  }

  lemma {:induction false} SignalsSteady(s: State, id: JobId, now: int)
    ensures Stamped(s, BeginCommit(s, id, now), now)
    ensures Stamped(s, FireTimeout(s, id, now), now)
    ensures Stamped(s, RequestStop(s, now), now)
    ensures Stamped(s, EndGrace(s, now), now)
  {
  }

  lemma {:induction false} NextStamped(g: Config, s: State, m: Move)
    requires g.Valid()
    ensures Stamped(s, Next(g, s, m), m.now)
  {
    match m.step
    case Ticks => TickProvidersStamped(Recalculate(g, s, m.now), g.names, m.now);
    case Completes(id, outcome, d) =>
      if id in s.jobs && s.jobs[id].job.provider in s.providers { CompleteFinishes(g, s, id, outcome, m.now, d); }
    case Restores(events, d) => ReconcileAllStamped(g, s, g.names, events, m.now, d.forNew);
    case _ => OtherStamped(g, s, m);
  }

  lemma {:induction false} OtherStamped(g: Config, s: State, m: Move)
    requires g.Valid() && !m.step.Ticks? && !m.step.Completes? && !m.step.Restores?
    ensures Stamped(s, Next(g, s, m), m.now)
  {
    match m.step
    case Commits(id) => SignalsSteady(s, id, m.now);
    case TimesOut(id) => SignalsSteady(s, id, m.now);
    case Stops => SignalsSteady(s, ("", ""), m.now);
    case GraceEnds => SignalsSteady(s, ("", ""), m.now);
    case StartUp(_) =>
  }

  /** A run's trace is in time order and ends no later than its last move. */
  lemma {:induction false} RunChronological(g: Config, moves: seq<Move>)
    requires g.Valid() && Legal(g, moves)
    ensures Chronological(Execute(g, moves).trace)
    ensures moves != [] ==> forall e :: e in Execute(g, moves).trace ==> e.at <= moves[|moves| - 1].now
    ensures moves == [] ==> Execute(g, moves).trace == []
  {
    if moves != [] {
      var n := |moves| - 1;
      RunChronological(g, moves[..n]);
      var s, t := Execute(g, moves[..n]), Execute(g, moves);
      NextStamped(g, s, moves[n]);
      assert forall e :: e in s.trace ==> e.at <= moves[n].now by {
        if n > 0 { assert moves[..n][n - 1] == moves[n - 1]; }
      }
      forall i, j | 0 <= i < j < |t.trace| ensures t.trace[i].at <= t.trace[j].at {
        if i < |s.trace| {
          assert t.trace[i] == s.trace[i] && s.trace[i] in s.trace;
          if j < |s.trace| { assert t.trace[j] == s.trace[j]; }
        }
      }
      forall e | e in t.trace ensures e.at <= moves[n].now {
        var j :| 0 <= j < |t.trace| && t.trace[j] == e;
        if j < |s.trace| { assert t.trace[j] == s.trace[j] && s.trace[j] in s.trace; }
      }
    }
  }

  // --- Shutdown --------------------------------------------------------------

  /** Still stopping, and with no job that was not there before. */
  ghost predicate Draining(s: State, t: State) {
    t.stopping && !t.enabled && t.jobs.Keys <= s.jobs.Keys
  }

  lemma {:induction false} SignalsDrain(s: State, id: JobId, now: int)
    requires s.stopping && !s.enabled
    ensures Draining(s, BeginCommit(s, id, now)) && Draining(s, FireTimeout(s, id, now))
    ensures Draining(s, RequestStop(s, now)) && Draining(s, EndGrace(s, now))
  {
  }

  lemma {:induction false} ReconcileAllJobs(g: Config, s: State, names: seq<string>, events: seq<Event>, now: int, forNew: string -> nat)
    ensures var t := ReconcileAll(g, s, names, events, now, forNew);
            t.jobs == s.jobs && t.stopping == s.stopping && t.enabled == s.enabled
    decreases |names|
  {
    if names != [] { ReconcileAllJobs(g, s, names[..|names| - 1], events, now, forNew); }
  }

  /** While stopping, no step adds a job and no step resumes the scheduler. */
  lemma {:induction false} StoppingDrains(g: Config, s: State, m: Move)
    requires g.Valid() && s.stopping && !s.enabled
    ensures Draining(s, Next(g, s, m))
  {
    match m.step
    case Completes(id, outcome, d) =>
      if id in s.jobs && s.jobs[id].job.provider in s.providers {
        CompleteFinishes(g, s, id, outcome, m.now, d);
      }
    case Restores(events, d) => ReconcileAllJobs(g, s, g.names, events, m.now, d.forNew);
    case Commits(id) => SignalsDrain(s, id, m.now);
    case TimesOut(id) => SignalsDrain(s, id, m.now);
    case Stops => SignalsDrain(s, ("", ""), m.now);
    case GraceEnds => SignalsDrain(s, ("", ""), m.now);
    case StartUp(_) =>
    case Ticks =>
  }

  lemma {:induction false} StoppedIsDisabled(g: Config, moves: seq<Move>)
    requires g.Valid() && Legal(g, moves)
    ensures Execute(g, moves).stopping ==> !Execute(g, moves).enabled
  {
    RunSound(g, moves);
  }

  lemma {:induction false} KeepsDraining(g: Config, moves: seq<Move>, from: nat)
    requires g.Valid() && Legal(g, moves) && from <= |moves| && Execute(g, moves[..from]).stopping
    ensures Draining(Execute(g, moves[..from]), Execute(g, moves))
  {
    if from == |moves| {
      assert moves[..from] == moves;
      StoppedIsDisabled(g, moves);
    } else {
      var n := |moves| - 1;
      assert moves[..n][..from] == moves[..from];
      KeepsDraining(g, moves[..n], from);
      StoppingDrains(g, Execute(g, moves[..n]), moves[n]);
    }
  }

  /** `stop` waits for the jobs present when it drains: once stopping, when all of
      those have ended, no job at all is left. */
  lemma {:induction false} StopReturnsDrained(g: Config, moves: seq<Move>, from: nat)
    requires g.Valid() && Legal(g, moves) && from <= |moves| && Execute(g, moves[..from]).stopping
    requires Execute(g, moves[..from]).jobs.Keys !! Execute(g, moves).jobs.Keys
    ensures Execute(g, moves).jobs == map[] && Execute(g, moves).stopping && !Execute(g, moves).enabled
  {
    KeepsDraining(g, moves, from);
    assert Execute(g, moves).jobs.Keys == {};
  }

  /** Launch spacing over every run. Between two consecutive launches of a catalogued
      detail whose attempt did not fail lies the interval of the band that its start is
      in at the second one; after the n-th failure in a row the next launch waits the
      n-th backoff step, or the last. */
  lemma {:induction false} LaunchSpacing(g: Config, moves: seq<Move>, k: Key, i: nat, j: nat)
    requires g.Valid() && Legal(g, moves) && ConsecutiveLaunches(Execute(g, moves).trace, k, i, j)
    ensures WellSpaced(g, Execute(g, moves).trace, k, i, j)
  {
    RunSafe(g, moves);
    Spacing(g, Execute(g, moves).trace, k, i, j);
  }

  // --- Launches --------------------------------------------------------------

  /** The entries t adds to s's trace, none of them a launch. */
  ghost predicate NoLaunches(s: State, t: State) {
    s.trace <= t.trace && forall n :: |s.trace| <= n < |t.trace| ==> !t.trace[n].Started?
  }

  lemma {:induction false} SettleTrace(s: State, id: JobId)
    requires id in s.jobs && s.jobs[id].job.provider in s.providers
    ensures Settle(s, id).trace == s.trace
  {
  }

  lemma {:induction false} CreditTrace(g: Config, s: State, id: JobId, now: int, d: Draws)
    requires id in s.jobs && s.jobs[id].job.provider in s.providers
    ensures var t := Credit(g, s, id, now, d);
            t.trace == s.trace && t.jobs == s.jobs && s.jobs[id].job.provider in t.providers
  {
  }

  lemma {:induction false} SucceedLaunchesNothing(g: Config, s: State, id: JobId, events: seq<Event>, now: int, d: Draws)
    requires id in s.jobs && s.jobs[id].job.provider in s.providers
    ensures NoLaunches(s, Succeed(g, s, id, events, now, d))
  {
    var s1 := if s.jobs[id].job.DetailJob? then s else AfterListing(g, s, id, events, now, d);
    CreditTrace(g, s1, id, now, d);
    SettleTrace(Credit(g, s1, id, now, d), id);
  }

  lemma {:induction false} FailLaunchesNothing(g: Config, s: State, id: JobId, fault: Fault, now: int, own: nat)
    requires g.Valid() && id in s.jobs && s.jobs[id].job.provider in s.providers && !fault.EventStarted?
    ensures NoLaunches(s, Fail(g, s, id, fault, now, own))
  {
    SettleTrace(Penalised(g, s, id, fault, now, own), id);
  }

  lemma {:induction false} StopLaunchesNothing(s: State, id: JobId, now: int)
    requires id in s.jobs && s.jobs[id].job.provider in s.providers
    ensures NoLaunches(s, StopDetail(s, id, now)) && NoLaunches(s, Cancel(s, id, now))
  {
    SettleTrace(s, id);
    SettleTrace(Halted(s, id), id);
  }

  /** The end of a job launches nothing. */
  lemma {:induction false} CompleteLaunchesNothing(g: Config, s: State, id: JobId, outcome: Outcome, now: int, d: Draws)
    requires g.Valid() && id in s.jobs && s.jobs[id].job.provider in s.providers
    ensures NoLaunches(s, Complete(g, s, id, outcome, now, d))
  {
    var r := s.jobs[id];
    if outcome.Returned? && (r.committing || r.abort.None?) {
      SucceedLaunchesNothing(g, s, id, outcome.events, now, d);
    } else {
      var fault := if outcome.Threw? then outcome.fault else Ordinary("Error");
      StopLaunchesNothing(s, id, now);
      if !fault.EventStarted? { FailLaunchesNothing(g, s, id, fault, now, d.own); }
    }
  }

  // --- Which details run -----------------------------------------------------

  /** Recalculation schedules an eligible, unstopped detail exactly when it has no
      failure on record or was still scheduled. */
  lemma {:induction false} EligibleScheduledIff(g: Config, s: State, now: int, k: Key)
    requires Catalogued(s) && k in s.details
    requires EligibleAt(s.catalog[k], now) && !s.details[k].preGameStopped
    ensures var a, b := s.details[k].attempt, Recalculate(g, s, now).details[k].attempt;
            b.nextRunAt.Some? <==> a.failureCount == 0 || a.nextRunAt.Some?
  {
  }

  /** A failed attempt that lost its next run time. */
  ghost predicate Stuck(s: State, k: Key) {
    && k in s.details
    && s.details[k].attempt.failureCount > 0
    && s.details[k].attempt.nextRunAt.None?
    && !s.details[k].attempt.currentlyRunning
  }

  /** A failed detail gets stuck as soon as it is recalculated while ineligible. */
  lemma {:induction false} IneligibleFailureSticks(g: Config, s: State, now: int, k: Key)
    requires Catalogued(s) && k in s.details
    requires s.details[k].attempt.failureCount > 0 && !s.details[k].attempt.currentlyRunning
    ensures (s.details[k].preGameStopped || !EligibleAt(s.catalog[k], now)) ==> Stuck(Recalculate(g, s, now), k)
    ensures Stuck(s, k) ==> Stuck(Recalculate(g, s, now), k)
  {
  }

  /** The same schedule object, or none. */
  ghost predicate SameObject(s: State, t: State, k: Key) {
    k in s.details && k in t.details && t.details[k].uid == s.details[k].uid
  }

  /** A schedule without a due time is never the next one. */
  lemma {:induction false} StuckNotNext(details: map<Key, Detail>, p: string, now: int, k: Key)
    requires k in details && details[k].attempt.nextRunAt.None?
    ensures NextDetail(details, p, now) != Some(k)
  {
    NextDetailMeans(details, p, now);
  }

  lemma {:induction false} TickProviderStuck(s: State, p: string, now: int, k: Key)
    requires p in s.providers && Stuck(s, k)
    ensures TickProvider(s, p, now).details.Keys == s.details.Keys
    ensures TickProvider(s, p, now).details[k] == s.details[k]
  {
    var ps := s.providers[p];
    var s1 := if ps.cooldownUntil.Some? then Probe(s, p, now) else s;
    StuckNotNext(s1.details, p, now, k);
  }

  lemma {:induction false} TickProvidersStuck(s: State, names: seq<string>, now: int, k: Key)
    requires Stuck(s, k)
    ensures k in TickProviders(s, names, now).details && TickProviders(s, names, now).details[k] == s.details[k]
    decreases |names|
  {
    if names != [] {
      var n := |names| - 1;
      TickProvidersStuck(s, names[..n], now, k);
      var before := TickProviders(s, names[..n], now);
      if names[n] in before.providers { TickProviderStuck(before, names[n], now, k); }
    }
  }

  lemma {:induction false} ReconcileStuck(g: Config, s: State, p: string, events: seq<Event>, now: int, forNew: string -> nat, k: Key)
    requires Catalogued(s) && Stuck(s, k) && k in Reconcile(g, s, p, events, now, forNew).details
    ensures Stuck(Reconcile(g, s, p, events, now, forNew), k)
  {
    ReconciledDetail(g, s, p, events, now, forNew, k);
  }

  ghost predicate Spares(s: State, t: State, k: Key) {
    k in s.details && k in t.details && t.details[k] == s.details[k]
  }

  /** A job writes no detail but its own. */
  ghost predicate Foreign(r: Running, id: JobId, k: Key) {
    IdOf(r.job) == id && (r.job.ListJob? || k != id)
  }

  lemma {:induction false} AdjustSpares(s: State, r: Running, id: JobId, a: Attempt, k: Key)
    requires r.job.provider in s.providers && Foreign(r, id, k) && k in s.details
    ensures Spares(s, SetAttempt(s, r, a), k)
  {
  }

  lemma {:induction false} SettleSpares(s: State, id: JobId, e: Entry, k: Key)
    requires id in s.jobs && s.jobs[id].job.provider in s.providers && Foreign(s.jobs[id], id, k) && k in s.details
    ensures Spares(s, Note(Settle(s, id), e), k)
  {
    AdjustSpares(s, s.jobs[id], id, AttemptOf(s, s.jobs[id]).(currentlyRunning := false), k);
  }

  lemma {:induction false} CreditSpares(g: Config, s: State, id: JobId, e: Entry, now: int, d: Draws, k: Key)
    requires id in s.jobs && s.jobs[id].job.provider in s.providers && Foreign(s.jobs[id], id, k) && k in s.details
    ensures var t := Credit(g, s, id, now, d);
            t.jobs == s.jobs && s.jobs[id].job.provider in t.providers && Spares(s, Note(Settle(t, id), e), k)
  {
    AdjustSpares(s, s.jobs[id], id, Credited(g, s, s.jobs[id], now, d), k);
    SettleSpares(Credit(g, s, id, now, d), id, e, k);
  }

  lemma {:induction false} FailSpares(g: Config, s: State, id: JobId, fault: Fault, now: int, own: nat, k: Key)
    requires g.Valid() && id in s.jobs && s.jobs[id].job.provider in s.providers && !fault.EventStarted?
    requires Foreign(s.jobs[id], id, k) && k in s.details
    ensures Spares(s, Fail(g, s, id, fault, now, own), k)
  {
    var r := s.jobs[id];
    AdjustSpares(s, r, id, FailedAttempt(g, AttemptOf(s, r), r, fault, now, own), k);
    var u := Penalised(g, s, id, fault, now, own);
    SettleSpares(u, id, Failed(r.job, now, ResetsContext(r, fault), AttemptOf(s, r).failureCount + 1,
                               u.providers[r.job.provider].cooldownUntil), k);
  }

  lemma {:induction false} StopDetailSpares(s: State, id: JobId, now: int, k: Key)
    requires id in s.jobs && s.jobs[id].job.provider in s.providers && Foreign(s.jobs[id], id, k) && k in s.details
    ensures Spares(s, StopDetail(s, id, now), k)
  {
    AdjustSpares(s, s.jobs[id], id, AttemptOf(s, s.jobs[id]).(nextRunAt := None), k);
    SettleSpares(Halted(s, id), id, EventOver(s.jobs[id].job, now), k);
  }

  lemma {:induction false} SucceedStuck(g: Config, s: State, id: JobId, events: seq<Event>, now: int, d: Draws, k: Key)
    requires Catalogued(s) && id in s.jobs && s.jobs[id].job.provider in s.providers && Foreign(s.jobs[id], id, k)
    requires Stuck(s, k) && k in Succeed(g, s, id, events, now, d).details
    ensures Stuck(Succeed(g, s, id, events, now, d), k)
  {
    var r := s.jobs[id];
    var e := Succeeded(r.job, now);
    if r.job.DetailJob? {
      CreditSpares(g, s, id, e, now, d, k);
    } else {
      var t := AfterListing(g, s, id, events, now, d);
      ListSettleKeys(g, t, id, e, now, d, k);
      ReconcileStuck(g, s, r.job.provider, events, now, d.forNew, k);
      CreditSpares(g, t, id, e, now, d, k);
    }
  }

  lemma {:induction false} ListSettleKeys(g: Config, s: State, id: JobId, e: Entry, now: int, d: Draws, k: Key)
    requires id in s.jobs && s.jobs[id].job.ListJob? && s.jobs[id].job.provider in s.providers
    ensures var t := Credit(g, s, id, now, d);
            t.jobs == s.jobs && s.jobs[id].job.provider in t.providers && Note(Settle(t, id), e).details == s.details
  {
  }

  lemma {:induction false} RunningNotStuck(s: State, id: JobId, k: Key)
    requires Core(s) && id in s.jobs && Stuck(s, k)
    ensures Catalogued(s) && s.jobs[id].job.provider in s.providers && Foreign(s.jobs[id], id, k)
  {
    assert JobLinked(s, id);
  }

  lemma {:induction false} CompleteStuck(g: Config, s: State, id: JobId, outcome: Outcome, now: int, d: Draws, k: Key)
    requires g.Valid() && Catalogued(s) && Stuck(s, k)
    requires id in s.jobs && s.jobs[id].job.provider in s.providers && Foreign(s.jobs[id], id, k)
    requires k in Complete(g, s, id, outcome, now, d).details
    ensures Stuck(Complete(g, s, id, outcome, now, d), k)
  {
    var r := s.jobs[id];
    if outcome.Returned? && (r.committing || r.abort.None?) {
      SucceedStuck(g, s, id, outcome.events, now, d, k);
    } else {
      var fault := if outcome.Threw? then outcome.fault else Ordinary("Error");
      if fault.EventStarted? {
        StopDetailSpares(s, id, now, k);
      } else if s.stopping && r.abort == Some(Shutdown) {
        SettleSpares(s, id, Cancelled(r.job, now), k);
      } else {
        FailSpares(g, s, id, fault, now, d.own, k);
      }
    }
  }

  lemma {:induction false} ReconcileAllStuck(g: Config, s: State, names: seq<string>, events: seq<Event>, now: int, forNew: string -> nat, k: Key)
    requires Inv(g, s) && s.jobs.Keys == {} && Stuck(s, k)
    requires forall p :: p in names ==> p in s.providers
    ensures var t := ReconcileAll(g, s, names, events, now, forNew);
            t.generation >= s.generation && (k in t.details ==> Stuck(t, k) || t.details[k].uid >= s.generation)
    decreases |names|
  {
    if names != [] {
      var n := |names| - 1;
      ReconcileAllStuck(g, s, names[..n], events, now, forNew, k);
      ReconcileAllInv(g, s, names[..n], events, now, forNew);
      var before := ReconcileAll(g, s, names[..n], events, now, forNew);
      var t := ReconcileAll(g, s, names, events, now, forNew);
      if k in t.details {
        ReconciledDetail(g, before, names[n], Own(events, names[n]), now, forNew, k);
        if k in before.details && Stuck(before, k) {
          ReconcileStuck(g, before, names[n], Own(events, names[n]), now, forNew, k);
        }
      }
    }
  }

  lemma {:induction false} TickStuck(g: Config, s: State, now: int, k: Key)
    requires Catalogued(s) && Stuck(s, k)
    ensures Stuck(Tick(g, s, now), k)
  {
    if s.enabled && !s.stopping {
      IneligibleFailureSticks(g, s, now, k);
      TickProvidersStuck(Recalculate(g, s, now), g.names, now, k);
    }
  }

  lemma {:induction false} SignalsSpare(s: State, id: JobId, now: int, k: Key)
    requires Stuck(s, k)
    ensures Stuck(BeginCommit(s, id, now), k) && Stuck(FireTimeout(s, id, now), k)
    ensures Stuck(RequestStop(s, now), k) && Stuck(EndGrace(s, now), k)
  {
  }

  lemma {:induction false} RestoreStuck(g: Config, s: State, events: seq<Event>, now: int, forNew: string -> nat, k: Key)
    requires Inv(g, s) && s.providers.Keys == (set p | p in g.names) && Stuck(s, k)
    requires SameObject(s, RestoreCatalog(g, s, events, now, forNew), k)
    ensures Stuck(RestoreCatalog(g, s, events, now, forNew), k)
  {
    if !s.enabled && s.jobs.Keys == {} {
      assert s.details[k].uid < s.generation;
      ReconcileAllStuck(g, s, g.names, events, now, forNew, k);
    }
  }

  lemma {:induction false} StartStuck(g: Config, s: State, now: int, d: Draws, k: Key)
    requires Stuck(s, k)
    ensures Stuck(Start(g, s, now, d), k)
  {
  }

  lemma {:induction false} NextStuck(g: Config, s: State, m: Move, k: Key)
    requires g.Valid() && Inv(g, s) && s.providers.Keys == (set p | p in g.names) && Possible(s, m.step)
    requires Stuck(s, k) && SameObject(s, Next(g, s, m), k)
    ensures Stuck(Next(g, s, m), k)
  {
    match m.step
    case Ticks => TickStuck(g, s, m.now, k);
    case Completes(id, outcome, d) =>
      RunningNotStuck(s, id, k);
      CompleteStuck(g, s, id, outcome, m.now, d, k);
    case Restores(events, d) => RestoreStuck(g, s, events, m.now, d.forNew, k);
    case _ => OtherStuck(g, s, m, k);
  }

  lemma {:induction false} OtherStuck(g: Config, s: State, m: Move, k: Key)
    requires g.Valid() && Stuck(s, k) && !m.step.Ticks? && !m.step.Completes? && !m.step.Restores?
    ensures Stuck(Next(g, s, m), k)
  {
    match m.step
    case Commits(id) => SignalsSpare(s, id, m.now, k);
    case TimesOut(id) => SignalsSpare(s, id, m.now, k);
    case Stops => SignalsSpare(s, ("", ""), m.now, k);
    case GraceEnds => SignalsSpare(s, ("", ""), m.now, k);
    case StartUp(d) => StartStuck(g, s, m.now, d, k);
  }

  lemma {:induction false} NextStuckInRun(g: Config, moves: seq<Move>, k: Key)
    requires g.Valid() && Legal(g, moves) && moves != []
    requires Stuck(Execute(g, moves[..|moves| - 1]), k)
    requires SameObject(Execute(g, moves[..|moves| - 1]), Execute(g, moves), k)
    ensures Stuck(Execute(g, moves), k)
  {
    RunSound(g, moves[..|moves| - 1]);
    NextStuck(g, Execute(g, moves[..|moves| - 1]), moves[|moves| - 1], k);
  }

  /** The detail's schedule object lives through these steps of the run. */
  ghost predicate Lives(g: Config, moves: seq<Move>, from: nat, k: Key)
    requires g.Valid()
  {
    forall j :: from <= j < |moves| ==> LivesAt(g, moves, j, k)
  }

  ghost predicate LivesAt(g: Config, moves: seq<Move>, j: nat, k: Key)
    requires g.Valid() && j < |moves|
  {
    SameObject(Execute(g, moves[..j]), Execute(g, moves[..j + 1]), k)
  }

  lemma {:induction false} LivesInFront(g: Config, moves: seq<Move>, n: nat, j: nat, k: Key)
    requires g.Valid() && j < n <= |moves|
    ensures LivesAt(g, moves[..n], j, k) <==> LivesAt(g, moves, j, k)
  {
    assert moves[..n][..j] == moves[..j] && moves[..n][..j + 1] == moves[..j + 1];
  }

  lemma {:induction false} LivesFront(g: Config, moves: seq<Move>, from: nat, k: Key)
    requires g.Valid() && from < |moves| && Lives(g, moves, from, k)
    ensures Lives(g, moves[..|moves| - 1], from, k)
    ensures SameObject(Execute(g, moves[..|moves| - 1]), Execute(g, moves), k)
  {
    var n := |moves| - 1;
    assert LivesAt(g, moves, n, k) && moves[..n + 1] == moves;
    forall j | from <= j < n ensures LivesAt(g, moves[..n], j, k) { LivesInFront(g, moves, n, j, k); }
  }

  lemma {:induction false} FrontLegal(g: Config, moves: seq<Move>)
    requires g.Valid() && Legal(g, moves) && moves != []
    ensures Legal(g, moves[..|moves| - 1])
  {
  }

  /** Once stuck, a detail stays stuck for as long as its entry lives: no later
      rescheduling, listing or success of another job revives it. */
  lemma {:induction false} StuckForever(g: Config, moves: seq<Move>, from: nat, k: Key)
    requires g.Valid() && Legal(g, moves) && from <= |moves| && Stuck(Execute(g, moves[..from]), k)
    requires Lives(g, moves, from, k)
    ensures Stuck(Execute(g, moves), k)
  {
    if from == |moves| {
      assert moves[..from] == moves;
    } else {
      var front := moves[..|moves| - 1];
      FrontLegal(g, moves);
      LivesFront(g, moves, from, k);
      assert front[..from] == moves[..from];
      StuckForever(g, front, from, k);
      NextStuckInRun(g, moves, k);
    }
  }

  // --- The chosen detail -----------------------------------------------------

  /** At most one detail comes first. */
  lemma {:induction false} NextUnique(details: map<Key, Detail>, p: string, now: int, k: Key, l: Key)
    requires IsNext(details, p, now, k) && IsNext(details, p, now, l)
    ensures k == l
  {
    if k != l {
      TextOrder(k.1, l.1);
    }
  }

  /** Of a set of due details one comes before all others. */
  lemma {:induction false} FirstOf(details: map<Key, Detail>, p: string, keys: set<Key>) returns (k: Key)
    requires keys != {} && forall l :: l in keys ==> l in details && l.0 == p
    ensures k in keys && forall l :: l in keys ==> l == k || Before(details, k, l)
    decreases keys
  {
    var any :| any in keys;
    var rest := keys - {any};
    if rest == {} {
      k := any;
      forall l | l in keys ensures l == k { assert l !in rest; }
    } else {
      var f := FirstOf(details, p, rest);
      TextOrder(any.1, f.1);
      k := if Before(details, f, any) then f else any;
      forall l | l in keys ensures l == k || Before(details, k, l) {
        if l != any && l != f {
          assert l in rest && Before(details, f, l);
          if k == any { BeforeTransitive(details, k, f, l); }
        }
      }
    }
  }

  lemma {:induction false} BeforeTransitive(details: map<Key, Detail>, k: Key, l: Key, m: Key)
    requires k in details && l in details && m in details && Before(details, k, l) && Before(details, l, m)
    ensures Before(details, k, m)
  {
    if SortTime(details[k]) == SortTime(details[l]) == SortTime(details[m]) {
      TextTransitive(k.1, l.1, m.1);
    }
  }

  /** If any detail of the provider is due, one is chosen. */
  lemma {:induction false} NextExists(details: map<Key, Detail>, p: string, now: int)
    requires exists k :: DueDetail(details, p, now, k)
    ensures exists k :: IsNext(details, p, now, k)
  {
    var due := set k | k in details && DueDetail(details, p, now, k);
    var some :| DueDetail(details, p, now, some);
    assert some in due;
    var k := FirstOf(details, p, due);
    assert IsNext(details, p, now, k);
  }

  /** What a search for the earliest due detail has to find. */
  lemma {:induction false} NextIs(details: map<Key, Detail>, p: string, now: int, next: Option<Key>)
    requires next.Some? ==> IsNext(details, p, now, next.value)
    requires next.None? ==> forall k :: !DueDetail(details, p, now, k)
    ensures next == NextDetail(details, p, now)
  {
    NextDetailMeans(details, p, now);
    if next.Some? {
      NextUnique(details, p, now, next.value, NextDetail(details, p, now).value);
    }
  }

  /** A tick never leaves an idle, ready provider without work it could do: a due
      listing runs first, otherwise the earliest due detail does. */
  lemma {:induction false} TickServes(s: State, p: string, now: int)
    requires Core(s) && p in s.providers && !HasJob(s, p) && s.providers[p].cooldownUntil.None?
    ensures Due(s.providers[p].list, now) ==>
              exists id :: id in TickProvider(s, p, now).jobs && TickProvider(s, p, now).jobs[id].job == ListJob(p)
    ensures !Due(s.providers[p].list, now) && s.providers[p].contextReady && (exists k :: DueDetail(s.details, p, now, k)) ==>
              exists k :: IsNext(s.details, p, now, k) && k in TickProvider(s, p, now).jobs
                          && TickProvider(s, p, now).jobs[k].job == DetailJob(p, k.1, s.details[k].esport)
  {
    assert ProviderOk(s, p);
    if Due(s.providers[p].list, now) {
      assert (p, "list") in TickProvider(s, p, now).jobs;
    } else if s.providers[p].contextReady && exists k :: DueDetail(s.details, p, now, k) {
      NextExists(s.details, p, now);
      NextDetailMeans(s.details, p, now);
      var k := NextDetail(s.details, p, now).value;
      assert k in TickProvider(s, p, now).jobs;
    }
  }
}
