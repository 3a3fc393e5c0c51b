/** Details that fail and then lose their next run: exactly which steps do that, that
    such a detail is never launched again, and a run that gets there. */
module StuckDetails {
  import opened Domain
  import opened SchedulerModel
  import opened SchedulerInvariants
  import opened SchedulerTrace
  import opened SchedulerRuns
  import opened SchedulerOutcomes

  // --- Which steps make a detail stuck ---------------------------------------

  /** The detail has a failure on record and is not running. */
  ghost predicate FailedIdle(s: State, k: Key) {
    k in s.details && s.details[k].attempt.failureCount > 0 && !s.details[k].attempt.currentlyRunning
  }

  /** Stopped, or its event is not eligible now. */
  predicate Barred(s: State, now: int, k: Key) {
    k in s.details && k in s.catalog && (s.details[k].preGameStopped || !EligibleAt(s.catalog[k], now))
  }

  /** The same once the provider's listing is in: a new start lifts the stop. */
  predicate BarredBy(s: State, p: string, events: seq<Event>, now: int, k: Key) {
    var next := Listing(p, events);
    if k in next then
      k in s.details && ((s.details[k].preGameStopped && s.details[k].startsAt == next[k].startsAt) || !EligibleAt(next[k], now))
    else Barred(s, now, k)
  }

  /** Some of the reconciliations of a restore finds the detail barred. */
  ghost predicate RestoreBars(g: Config, s: State, names: seq<string>, events: seq<Event>, now: int, forNew: string -> nat, k: Key)
    decreases |names|
  {
    names != [] &&
    (var n := |names| - 1;
     || RestoreBars(g, s, names[..n], events, now, forNew, k)
     || BarredBy(ReconcileAll(g, s, names[..n], events, now, forNew), names[n], Own(events, names[n]), now, k))
  }

  predicate Succeeds(r: Running, outcome: Outcome) { outcome.Returned? && (r.committing || r.abort.None?) }

  /** The job of the detail itself ends without clearing its failures and without a
      next run: its event has started, or shutdown cancels an attempt already barred. */
  ghost predicate EndsStuck(s: State, r: Running, outcome: Outcome, k: Key) {
    && k in s.details && s.details[k].attempt.failureCount > 0 && !Succeeds(r, outcome)
    && (outcome == Threw(EventStarted)
        || (s.stopping && r.abort == Some(Shutdown) && s.details[k].attempt.nextRunAt.None?))
  }

  /** The detail's own job ends so, or a successful listing finds it barred. */
  ghost predicate CompleteSticks(s: State, id: JobId, outcome: Outcome, now: int, k: Key)
    requires id in s.jobs
  {
    var r := s.jobs[id];
    if r.job.DetailJob? then id == k && EndsStuck(s, r, outcome, k)
    else Succeeds(r, outcome) && FailedIdle(s, k) && BarredBy(s, r.job.provider, outcome.events, now, k)
  }

  /** The steps that make a detail stuck, in terms of the state before. */
  ghost predicate MakesStuck(g: Config, s: State, m: Move, k: Key) {
    match m.step
    case Ticks => s.enabled && !s.stopping && FailedIdle(s, k) && Barred(s, m.now, k)
    case Completes(id, outcome, _) =>
      id in s.jobs && CompleteSticks(s, id, outcome, m.now, k)
    case Restores(events, d) =>
      !s.enabled && s.jobs.Keys == {} && FailedIdle(s, k) && RestoreBars(g, s, g.names, events, m.now, d.forNew, k)
    case _ => false
  }

  lemma {:induction false} RecalculateStuckIff(g: Config, s: State, now: int, k: Key)
    requires Catalogued(s) && k in s.details
    ensures Stuck(Recalculate(g, s, now), k) <==> Stuck(s, k) || (FailedIdle(s, k) && Barred(s, now, k))
    ensures FailedIdle(Recalculate(g, s, now), k) <==> FailedIdle(s, k)
  {
  }

  lemma {:induction false} ReconcileStuckIff(g: Config, s: State, p: string, events: seq<Event>, now: int, forNew: string -> nat, k: Key)
    requires Catalogued(s) && k in s.details && k in Reconcile(g, s, p, events, now, forNew).details
    ensures var t := Reconcile(g, s, p, events, now, forNew);
            && (Stuck(t, k) <==> Stuck(s, k) || (FailedIdle(s, k) && BarredBy(s, p, events, now, k)))
            && (FailedIdle(t, k) <==> FailedIdle(s, k))
  {
    var next := Listing(p, events);
    ListingMeans(p, events);
    NewDetail(s, p, next, forNew, k);
    var s1 := s.(catalog := NewCatalog(s, p, next), details := NewDetails(s, p, next, forNew), generation := s.generation + 1);
    RecalculatedStuck(g, s1.details[k], Lookup(s1.catalog, k), now);
  }

  /** One schedule object recalculated. */
  lemma {:induction false} RecalculatedStuck(g: Config, d: Detail, e: Option<Event>, now: int)
    ensures var a := RecalculatedDetail(g, d, e, now).attempt;
            && a.failureCount == d.attempt.failureCount && a.currentlyRunning == d.attempt.currentlyRunning
            && (d.attempt.failureCount > 0 ==>
                  (a.nextRunAt.None? <==> d.attempt.nextRunAt.None? || e.None? || d.preGameStopped || !EligibleAt(e.value, now)))
  {
  }

  lemma {:induction false} LaunchLeaves(s: State, job: Job, at: int, k: Key)
    requires job.provider in s.providers && k in s.details
    ensures var t := Launch(s, job, at);
            && t.details.Keys == s.details.Keys && t.providers.Keys == s.providers.Keys
            && (t.details[k] == s.details[k] || t.details[k].attempt.currentlyRunning)
  {
  }

  lemma {:induction false} TurnLeaves(s: State, s1: State, p: string, job: Option<Job>, now: int, k: Key)
    requires p in s.providers && k in s.details && k.0 in s.providers
    requires s1 == s || s1 == Probe(s, p, now)
    ensures var t := AfterTurn(s1, job, now);
            && t.details.Keys == s.details.Keys && t.providers.Keys == s.providers.Keys
            && (t.details[k] == s.details[k] || t.details[k].attempt.currentlyRunning)
  {
    if job.Some? && job.value.provider in s1.providers { LaunchLeaves(s1, job.value, now, k); }
  }

  /** A tick after its recalculation launches the detail or leaves it alone. */
  lemma {:induction false} TickProviderLeaves(s: State, p: string, now: int, k: Key)
    requires p in s.providers && k in s.details && k.0 in s.providers
    ensures var t := TickProvider(s, p, now);
            && t.details.Keys == s.details.Keys && t.providers.Keys == s.providers.Keys
            && (t.details[k] == s.details[k] || t.details[k].attempt.currentlyRunning)
  {
    var s1, job := TurnIs(s, p, now);
    TurnLeaves(s, s1, p, job, now, k);
  }

  lemma {:induction false} TickProvidersLeave(s: State, names: seq<string>, now: int, k: Key)
    requires k in s.details && k.0 in s.providers
    ensures var t := TickProviders(s, names, now);
            && t.details.Keys == s.details.Keys && t.providers.Keys == s.providers.Keys
            && (t.details[k] == s.details[k] || t.details[k].attempt.currentlyRunning)
    decreases |names|
  {
    if names != [] {
      var n := |names| - 1;
      TickProvidersLeave(s, names[..n], now, k);
      var before := TickProviders(s, names[..n], now);
      if names[n] in before.providers { TickProviderLeaves(before, names[n], now, k); }
    }
  }

  lemma {:induction false} TickStuckIff(g: Config, s: State, now: int, k: Key)
    requires Catalogued(s) && k in s.details
    ensures Stuck(Tick(g, s, now), k) <==> Stuck(s, k) || (s.enabled && !s.stopping && FailedIdle(s, k) && Barred(s, now, k))
  {
    if s.enabled && !s.stopping {
      var u := Recalculate(g, s, now);
      RecalculateStuckIff(g, s, now, k);
      TickProvidersLeave(u, g.names, now, k);
      if Stuck(u, k) { TickProvidersStuck(u, g.names, now, k); }
    }
  }

  lemma {:induction false} RestoreStuckIff(g: Config, s: State, names: seq<string>, events: seq<Event>, now: int, forNew: string -> nat, k: Key)
    requires Inv(g, s) && s.jobs.Keys == {} && k in s.details && forall p :: p in names ==> p in s.providers
    requires var t := ReconcileAll(g, s, names, events, now, forNew); k in t.details && t.details[k].uid < s.generation
    ensures var t := ReconcileAll(g, s, names, events, now, forNew);
            && (Stuck(t, k) <==> Stuck(s, k) || (FailedIdle(s, k) && RestoreBars(g, s, names, events, now, forNew, k)))
            && (FailedIdle(t, k) <==> FailedIdle(s, k))
    decreases |names|
  {
    if names != [] {
      var n := |names| - 1;
      var u := ReconcileAll(g, s, names[..n], events, now, forNew);
      ReconcileAllInv(g, s, names[..n], events, now, forNew);
      GenerationGrows(g, s, names[..n], events, now, forNew);
      ReconciledDetail(g, u, names[n], Own(events, names[n]), now, forNew, k);
      RestoreStuckIff(g, s, names[..n], events, now, forNew, k);
      ReconcileStuckIff(g, u, names[n], Own(events, names[n]), now, forNew, k);
    }
  }

  lemma {:induction false} GenerationGrows(g: Config, s: State, names: seq<string>, events: seq<Event>, now: int, forNew: string -> nat)
    ensures ReconcileAll(g, s, names, events, now, forNew).generation >= s.generation
    decreases |names|
  {
    if names != [] { GenerationGrows(g, s, names[..|names| - 1], events, now, forNew); }
  }

  /** The end of another job that does not succeed leaves the detail alone. */
  lemma {:induction false} ForeignFault(g: Config, s: State, id: JobId, outcome: Outcome, now: int, d: Draws, k: Key)
    requires g.Valid() && Catalogued(s) && k in s.details
    requires id in s.jobs && s.jobs[id].job.provider in s.providers && Foreign(s.jobs[id], id, k) && !Succeeds(s.jobs[id], outcome)
    requires k in Complete(g, s, id, outcome, now, d).details
    ensures Stuck(Complete(g, s, id, outcome, now, d), k) <==> Stuck(s, k)
  {
    var r, fault := s.jobs[id], if outcome.Threw? then outcome.fault else Ordinary("Error");
    if fault.EventStarted? {
      StopDetailSpares(s, id, now, k);
    } else if s.stopping && r.abort == Some(Shutdown) {
      SettleSpares(s, id, Cancelled(r.job, now), k);
    } else {
      FailSpares(g, s, id, fault, now, d.own, k);
    }
  }

  /** A listing that succeeds recalculates it. */
  lemma {:induction false} ListingStuckIff(g: Config, s: State, id: JobId, outcome: Outcome, now: int, d: Draws, k: Key)
    requires g.Valid() && Catalogued(s) && k in s.details
    requires id in s.jobs && s.jobs[id].job.ListJob? && s.jobs[id].job.provider in s.providers && Succeeds(s.jobs[id], outcome)
    requires k in Complete(g, s, id, outcome, now, d).details
    ensures Stuck(Complete(g, s, id, outcome, now, d), k)
            <==> Stuck(s, k) || (FailedIdle(s, k) && BarredBy(s, s.jobs[id].job.provider, outcome.events, now, k))
  {
    var r := s.jobs[id];
    ListSettleKeys(g, AfterListing(g, s, id, outcome.events, now, d), id, Succeeded(r.job, now), now, d, k);
    ReconcileStuckIff(g, s, r.job.provider, outcome.events, now, d.forNew, k);
  }

  /** The end of another job leaves the detail alone, unless it is a listing that succeeds. */
  lemma {:induction false} ForeignStuckIff(g: Config, s: State, id: JobId, outcome: Outcome, now: int, d: Draws, k: Key)
    requires g.Valid() && Catalogued(s) && k in s.details
    requires id in s.jobs && s.jobs[id].job.provider in s.providers && Foreign(s.jobs[id], id, k)
    requires k in Complete(g, s, id, outcome, now, d).details
    ensures var r := s.jobs[id];
            Stuck(Complete(g, s, id, outcome, now, d), k)
            <==> Stuck(s, k) || (r.job.ListJob? && Succeeds(r, outcome) && FailedIdle(s, k) && BarredBy(s, r.job.provider, outcome.events, now, k))
  {
    var r := s.jobs[id];
    if !Succeeds(r, outcome) {
      ForeignFault(g, s, id, outcome, now, d, k);
    } else if r.job.ListJob? {
      ListingStuckIff(g, s, id, outcome, now, d, k);
    } else {
      CreditSpares(g, s, id, Succeeded(r.job, now), now, d, k);
    }
  }

  lemma {:induction false} OwnSuccess(g: Config, s: State, id: JobId, events: seq<Event>, now: int, d: Draws)
    requires Anchored(s, id) && s.jobs[id].job.DetailJob? && id in s.details && s.details[id].uid == s.jobs[id].uid
    ensures !Stuck(Succeed(g, s, id, events, now, d), id)
  {
    CreditRetains(g, s, id, now, d);
    SettleDetailMap(Credit(g, s, id, now, d), id);
  }

  lemma {:induction false} OwnFailure(g: Config, s: State, id: JobId, fault: Fault, now: int, own: nat)
    requires g.Valid() && Anchored(s, id) && s.jobs[id].job.DetailJob? && id in s.details && s.details[id].uid == s.jobs[id].uid && !fault.EventStarted?
    requires s.providers[id.0].cooldownUntil.None?
    ensures !Stuck(Fail(g, s, id, fault, now, own), id)
  {
    PenalisedRetains(g, s, id, fault, now, own);
    SettleDetailMap(Penalised(g, s, id, fault, now, own), id);
  }

  lemma {:induction false} OwnStop(s: State, id: JobId, now: int)
    requires Anchored(s, id) && s.jobs[id].job.DetailJob? && id in s.details && s.details[id].uid == s.jobs[id].uid
    ensures Stuck(StopDetail(s, id, now), id) <==> s.details[id].attempt.failureCount > 0
    ensures Stuck(Cancel(s, id, now), id) <==> s.details[id].attempt.failureCount > 0 && s.details[id].attempt.nextRunAt.None?
  {
    HaltedRetains(s, id);
    SettleDetailMap(Halted(s, id), id);
    SettleDetailMap(s, id);
  }

  lemma {:induction false} OwnStuckIff(g: Config, s: State, id: JobId, outcome: Outcome, now: int, d: Draws)
    requires g.Valid() && Inv(g, s) && id in s.jobs && s.jobs[id].job.DetailJob? && s.jobs[id].job.provider in s.providers
    ensures Stuck(Complete(g, s, id, outcome, now, d), id) <==> EndsStuck(s, s.jobs[id], outcome, id)
  {
    LinkedAnchored(s, id);
    BusyNotCooling(g, s, id);
    assert JobLinked(s, id);
    var r := s.jobs[id];
    OwnStop(s, id, now);
    if Succeeds(r, outcome) {
      OwnSuccess(g, s, id, outcome.events, now, d);
    } else {
      var fault := if outcome.Threw? then outcome.fault else Ordinary("Error");
      if !fault.EventStarted? { OwnFailure(g, s, id, fault, now, d.own); }
    }
  }

  lemma {:induction false} CompleteStuckIff(g: Config, s: State, id: JobId, outcome: Outcome, now: int, d: Draws, k: Key)
    requires g.Valid() && Inv(g, s) && Possible(s, Completes(id, outcome, d)) && k in s.details
    requires s.jobs[id].job.provider in s.providers && k in Complete(g, s, id, outcome, now, d).details
    ensures Stuck(Complete(g, s, id, outcome, now, d), k) <==> Stuck(s, k) || CompleteSticks(s, id, outcome, now, k)
  {
    if s.jobs[id].job.DetailJob? && id == k {
      OwnStuckIff(g, s, id, outcome, now, d);
    } else {
      ForeignJob(g, s, id, k);
      ForeignStuckIff(g, s, id, outcome, now, d, k);
    }
  }

  lemma {:induction false} ForeignJob(g: Config, s: State, id: JobId, k: Key)
    requires Inv(g, s) && id in s.jobs && (s.jobs[id].job.ListJob? || id != k)
    ensures Catalogued(s) && Foreign(s.jobs[id], id, k)
  {
    assert JobLinked(s, id);
  }

  lemma {:induction false} SignalsLeave(s: State, id: JobId, now: int, d: Draws, g: Config)
    ensures BeginCommit(s, id, now).details == s.details && FireTimeout(s, id, now).details == s.details
    ensures RequestStop(s, now).details == s.details && EndGrace(s, now).details == s.details
    ensures Start(g, s, now, d).details == s.details
  {
  }

  lemma {:induction false} OtherStuckIff(g: Config, s: State, m: Move, k: Key)
    requires g.Valid() && !m.step.Ticks? && !m.step.Completes? && !m.step.Restores?
    ensures Next(g, s, m).details == s.details && !MakesStuck(g, s, m, k)
  {
    var none := Draws(0, e => 0);
    match m.step
    case Commits(id) => SignalsLeave(s, id, m.now, none, g);
    case TimesOut(id) => SignalsLeave(s, id, m.now, none, g);
    case Stops => SignalsLeave(s, ("", ""), m.now, none, g);
    case GraceEnds => SignalsLeave(s, ("", ""), m.now, none, g);
    case StartUp(d) => SignalsLeave(s, ("", ""), m.now, d, g);
  }

  lemma {:induction false} RestoreCatalogStuckIff(g: Config, s: State, events: seq<Event>, d: Draws, now: int, k: Key)
    requires Inv(g, s) && s.providers.Keys == (set p | p in g.names) && SameObject(s, RestoreCatalog(g, s, events, now, d.forNew), k)
    ensures Stuck(RestoreCatalog(g, s, events, now, d.forNew), k) <==> Stuck(s, k) || MakesStuck(g, s, Move(Restores(events, d), now), k)
  {
    if !s.enabled && s.jobs.Keys == {} {
      assert s.details[k].uid < s.generation;
      RestoreStuckIff(g, s, g.names, events, now, d.forNew, k);
    }
  }

  /** A step leaves a detail stuck iff it was stuck or the step is one of those above. */
  lemma {:induction false} StuckIff(g: Config, s: State, m: Move, k: Key)
    requires g.Valid() && Inv(g, s) && s.providers.Keys == (set p | p in g.names) && Possible(s, m.step)
    requires SameObject(s, Next(g, s, m), k)
    ensures Stuck(Next(g, s, m), k) <==> Stuck(s, k) || MakesStuck(g, s, m, k)
  {
    if m.step.Ticks? {
      TickStuckIff(g, s, m.now, k);
    } else if m.step.Completes? {
      assert JobLinked(s, m.step.id);
      CompleteStuckIff(g, s, m.step.id, m.step.outcome, m.now, m.step.draws, k);
    } else if m.step.Restores? {
      RestoreCatalogStuckIff(g, s, m.step.events, m.step.draws, m.now, k);
    } else {
      OtherStuckIff(g, s, m, k);
    }
  }

  /** Some step of the run from there on makes the detail stuck. */
  ghost predicate SomeStepSticks(g: Config, moves: seq<Move>, from: nat, k: Key)
    requires g.Valid()
  {
    from < |moves| &&
    (var n := |moves| - 1;
     SomeStepSticks(g, moves[..n], from, k) || MakesStuck(g, Execute(g, moves[..n]), moves[n], k))
  }

  /** While its entry lives, a detail is stuck at the end of a run iff it was stuck at
      the beginning or one of the steps in between made it so. */
  lemma {:induction false} StuckBySteps(g: Config, moves: seq<Move>, from: nat, k: Key)
    requires g.Valid() && Legal(g, moves) && from <= |moves| && Lives(g, moves, from, k)
    ensures Stuck(Execute(g, moves), k) <==> Stuck(Execute(g, moves[..from]), k) || SomeStepSticks(g, moves, from, k)
  {
    if from == |moves| {
      assert moves[..from] == moves;
    } else {
      var n := |moves| - 1;
      assert moves[..n][..from] == moves[..from];
      LivesFront(g, moves, from, k);
      StuckBySteps(g, moves[..n], from, k);
      LastStepStuckIff(g, moves, k);
    }
  }

  lemma {:induction false} LastStepStuckIff(g: Config, moves: seq<Move>, k: Key)
    requires g.Valid() && Legal(g, moves) && moves != []
    requires SameObject(Execute(g, moves[..|moves| - 1]), Execute(g, moves), k)
    ensures var n := |moves| - 1;
            Stuck(Execute(g, moves), k) <==> Stuck(Execute(g, moves[..n]), k) || MakesStuck(g, Execute(g, moves[..n]), moves[n], k)
  {
    var n := |moves| - 1;
    RunSound(g, moves[..n]);
    StuckIff(g, Execute(g, moves[..n]), moves[n], k);
  }

  // --- A stuck detail is never launched --------------------------------------

  /** t adds to s's trace no launch of the detail. */
  ghost predicate Unlaunched(s: State, t: State, k: Key) {
    s.trace <= t.trace && forall n :: |s.trace| <= n < |t.trace| ==> !(t.trace[n].Started? && OfDetail(t.trace[n], k))
  }

  lemma {:induction false} UnlaunchedThen(s: State, t: State, u: State, k: Key)
    requires Unlaunched(s, t, k) && Unlaunched(t, u, k)
    ensures Unlaunched(s, u, k)
  {
    forall n | |s.trace| <= n < |u.trace| ensures !(u.trace[n].Started? && OfDetail(u.trace[n], k)) {
      if n < |t.trace| { assert u.trace[n] == t.trace[n]; }
    }
  }

  lemma {:induction false} LaunchOther(s: State, job: Job, at: int, k: Key)
    requires job.provider in s.providers && (job.DetailJob? ==> (job.provider, job.eventId) != k)
    ensures Unlaunched(s, Launch(s, job, at), k)
  {
  }

  lemma {:induction false} TickProviderUnlaunched(s: State, p: string, now: int, k: Key)
    requires p in s.providers && Stuck(s, k)
    ensures Unlaunched(s, TickProvider(s, p, now), k)
  {
    var ps := s.providers[p];
    var s1 := if ps.cooldownUntil.Some? then Probe(s, p, now) else s;
    LaunchOther(s1, ListJob(p), now, k);
    StuckNotNext(s1.details, p, now, k);
    NextDetailMeans(s1.details, p, now);
    var next := NextDetail(s1.details, p, now);
    if next.Some? { LaunchOther(s1, DetailJob(p, next.value.1, s1.details[next.value].esport), now, k); }
  }

  lemma {:induction false} TickProvidersUnlaunched(s: State, names: seq<string>, now: int, k: Key)
    requires Stuck(s, k)
    ensures Unlaunched(s, TickProviders(s, names, now), k)
    decreases |names|
  {
    if names != [] {
      var n := |names| - 1;
      TickProvidersUnlaunched(s, names[..n], now, k);
      TickProvidersStuck(s, names[..n], now, k);
      var before := TickProviders(s, names[..n], now);
      if names[n] in before.providers {
        TickProviderUnlaunched(before, names[n], now, k);
        UnlaunchedThen(s, before, TickProvider(before, names[n], now), k);
      }
    }
  }

  lemma {:induction false} TickUnlaunched(g: Config, s: State, now: int, k: Key)
    requires Catalogued(s) && Stuck(s, k)
    ensures Unlaunched(s, Tick(g, s, now), k)
  {
    if s.enabled && !s.stopping {
      IneligibleFailureSticks(g, s, now, k);
      TickProvidersUnlaunched(Recalculate(g, s, now), g.names, now, k);
    }
  }

  lemma {:induction false} ReconcileAllLaunchesNothing(g: Config, s: State, names: seq<string>, events: seq<Event>, now: int, forNew: string -> nat)
    ensures NoLaunches(s, ReconcileAll(g, s, names, events, now, forNew))
    decreases |names|
  {
    if names != [] {
      var t := ReconcileAll(g, s, names[..|names| - 1], events, now, forNew);
      ReconcileAllLaunchesNothing(g, s, names[..|names| - 1], events, now, forNew);
      assert ReconcileAll(g, s, names, events, now, forNew).trace[..|t.trace|] == t.trace;
    }
  }

  lemma {:induction false} SignalsLaunchNothing(g: Config, s: State, id: JobId, now: int, d: Draws)
    ensures NoLaunches(s, BeginCommit(s, id, now)) && NoLaunches(s, FireTimeout(s, id, now))
    ensures NoLaunches(s, RequestStop(s, now)) && NoLaunches(s, EndGrace(s, now))
    ensures NoLaunches(s, Start(g, s, now, d))
  {
  }

  lemma {:induction false} OtherUnlaunched(g: Config, s: State, m: Move)
    requires g.Valid() && !m.step.Ticks? && !m.step.Completes?
    ensures NoLaunches(s, Next(g, s, m))
  {
    var none := Draws(0, e => 0);
    match m.step
    case Restores(events, d) => ReconcileAllLaunchesNothing(g, s, g.names, events, m.now, d.forNew);
    case Commits(id) => SignalsLaunchNothing(g, s, id, m.now, none);
    case TimesOut(id) => SignalsLaunchNothing(g, s, id, m.now, none);
    case Stops => SignalsLaunchNothing(g, s, ("", ""), m.now, none);
    case GraceEnds => SignalsLaunchNothing(g, s, ("", ""), m.now, none);
    case StartUp(d) => SignalsLaunchNothing(g, s, ("", ""), m.now, d);
  }

  /** No step but a tick launches anything, and a tick never launches a stuck detail. */
  lemma {:induction false} NextUnlaunched(g: Config, s: State, m: Move, k: Key)
    requires g.Valid() && Inv(g, s) && Possible(s, m.step) && Stuck(s, k)
    ensures Unlaunched(s, Next(g, s, m), k)
  {
    if m.step.Ticks? {
      TickUnlaunched(g, s, m.now, k);
    } else if m.step.Completes? {
      assert JobLinked(s, m.step.id);
      CompleteLaunchesNothing(g, s, m.step.id, m.step.outcome, m.now, m.step.draws);
    } else {
      OtherUnlaunched(g, s, m);
    }
  }

  /** Once stuck, a detail is not launched again for as long as its entry lives. */
  lemma {:induction false} StuckNeverLaunched(g: Config, moves: seq<Move>, from: nat, k: Key)
    requires g.Valid() && Legal(g, moves) && from <= |moves| && Lives(g, moves, from, k)
    requires Stuck(Execute(g, moves[..from]), k)
    ensures Unlaunched(Execute(g, moves[..from]), Execute(g, moves), k) && Stuck(Execute(g, moves), k)
  {
    if from == |moves| {
      assert moves[..from] == moves;
    } else {
      var n := |moves| - 1;
      assert moves[..n][..from] == moves[..from];
      LivesFront(g, moves, from, k);
      StuckNeverLaunched(g, moves[..n], from, k);
      RunSound(g, moves[..n]);
      NextUnlaunched(g, Execute(g, moves[..n]), moves[n], k);
      UnlaunchedThen(Execute(g, moves[..from]), Execute(g, moves[..n]), Execute(g, moves), k);
      LastStepStuckIff(g, moves, k);
    }
  }
}
