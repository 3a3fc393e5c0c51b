/** The scheduler itself (adaptive-scheduler.ts): one queue whose fields are updated
    in place by interleaved steps. Each method is proved to take the step that the
    model describes. */
module AdaptiveScheduling {
  import opened Domain
  import Texts
  import M = SchedulerModel
  import SchedulerInvariants
  import SchedulerTrace
  import SchedulerRuns
  import SchedulerOutcomes

  lemma {:induction false} NewCatalogIs(s: M.State, p: string, next: map<Key, Event>, c: map<Key, Event>)
    requires c.Keys == (s.catalog - M.Dropped(s, p, next)).Keys + next.Keys
    requires forall k :: k in c ==> c[k] == if k in next then next[k] else (s.catalog - M.Dropped(s, p, next))[k]
    ensures c == M.NewCatalog(s, p, next)
  {
  }

  lemma {:induction false} NewDetailsIs(s: M.State, p: string, next: map<Key, Event>, forNew: string -> nat, ds: map<Key, M.Detail>)
    requires ds.Keys == (s.details - M.Dropped(s, p, next)).Keys + next.Keys
    requires forall k :: k in ds ==>
               ds[k] == if k in next then M.RefreshedDetail(M.Lookup(s.details - M.Dropped(s, p, next), k), next[k], s.generation, forNew(k.1))
                        else (s.details - M.Dropped(s, p, next))[k]
    ensures ds == M.NewDetails(s, p, next, forNew)
  {
    forall k | k in ds ensures k in M.NewDetails(s, p, next, forNew) && ds[k] == M.NewDetails(s, p, next, forNew)[k] {
      if k in next {
        assert k !in M.Dropped(s, p, next);
        assert M.Lookup(s.details - M.Dropped(s, p, next), k) == M.Lookup(s.details, k);
      }
    }
  }

  /** The listed events outside `todo` are catalogued. */
  ghost predicate CatalogedSoFar(c0: map<Key, Event>, c: map<Key, Event>, next: map<Key, Event>, todo: set<Key>) {
    && c.Keys == c0.Keys + (next.Keys - todo)
    && forall k :: k in c ==> c[k] == if k in next && k !in todo then next[k] else c0[k]
  }

  ghost predicate RefreshedSoFar(ds0: map<Key, M.Detail>, ds: map<Key, M.Detail>, next: map<Key, Event>, todo: set<Key>, uid: nat, forNew: string -> nat) {
    && ds.Keys == ds0.Keys + (next.Keys - todo)
    && forall k :: k in ds ==>
         ds[k] == if k in next && k !in todo then M.RefreshedDetail(M.Lookup(ds0, k), next[k], uid, forNew(k.1)) else ds0[k]
  }

  lemma {:induction false} CatalogOne(c0: map<Key, Event>, c: map<Key, Event>, next: map<Key, Event>, todo: set<Key>, k: Key)
    requires CatalogedSoFar(c0, c, next, todo) && k in todo && k in next
    ensures CatalogedSoFar(c0, c[k := next[k]], next, todo - {k})
  {
  }

  lemma {:induction false} RefreshOne(ds0: map<Key, M.Detail>, ds: map<Key, M.Detail>, next: map<Key, Event>, todo: set<Key>, uid: nat, forNew: string -> nat, k: Key)
    requires RefreshedSoFar(ds0, ds, next, todo, uid, forNew) && k in todo && k in next
    ensures RefreshedSoFar(ds0, ds[k := M.RefreshedDetail(M.Lookup(ds, k), next[k], uid, forNew(k.1))], next, todo - {k}, uid, forNew)
  {
    assert k in ds <==> k in ds0;
    assert M.Lookup(ds, k) == M.Lookup(ds0, k);
  }

  class AdaptiveScheduler {
    const config: M.Config
    var providers: map<string, M.ProviderState>
    var details: map<Key, M.Detail>
    var catalog: map<Key, Event>
    var jobs: map<M.JobId, M.Running>
    var enabled: bool
    var stopping: bool
    /** Counts catalog replacements, to name the schedule objects they create. */
    var generation: nat
    ghost var trace: seq<M.Entry>
    /** The steps taken so far. */
    ghost var moves: seq<SchedulerRuns.Move>

    ghost function Abs(): M.State
      reads this
    {
      M.State(providers, details, catalog, jobs, enabled, stopping, generation, trace)
    }

    /** The object's state is the outcome of a legal run. */
    ghost predicate Valid()
      reads this
    {
      config.Valid() && SchedulerRuns.Legal(config, moves) && Abs() == SchedulerRuns.Execute(config, moves)
    }

    constructor (config: M.Config)
      requires config.Valid()
      ensures Valid() && this.config == config && moves == []
    {
      this.config := config;
      providers := map p | p in config.names :: M.ProviderState(M.BLANK, 0, None, false, 0, 1);
      details, catalog, jobs := map[], map[], map[];
      enabled, stopping, generation := false, false, 0;
      trace, moves := [], [];
    }

    method Start(now: int, draws: M.Draws)
      modifies this
      ensures Abs() == M.Start(config, old(Abs()), now, draws) && moves == old(moves)
    {
      if enabled || stopping { return; }
      enabled := true;
      var todo := providers.Keys;
      while todo != {}
        invariant todo <= providers.Keys == old(providers).Keys
        invariant forall p :: p in providers ==>
                    providers[p] == if p in todo then old(providers)[p]
                                    else old(providers)[p].(list := old(providers)[p].list.(nextRunAt := Some(now + config.startupDelayMs), jitter := draws.forNew(p)))
        invariant Abs() == old(Abs()).(enabled := true, providers := providers) && moves == old(moves)
        decreases todo
      {
        var p :| p in todo;
        providers := providers[p := providers[p].(list := providers[p].list.(nextRunAt := Some(now + config.startupDelayMs), jitter := draws.forNew(p)))];
        todo := todo - {p};
      }
      assert providers == M.Start(config, old(Abs()), now, draws).providers;
    }

    method Recalculate(now: int)
      modifies this`details
      ensures Abs() == M.Recalculate(config, old(Abs()), now)
    {
      var todo := details.Keys;
      while todo != {}
        invariant todo <= details.Keys == old(details).Keys
        invariant forall k :: k in details ==>
                    details[k] == if k in todo then old(details)[k]
                                  else M.RecalculatedDetail(config, old(details)[k], M.Lookup(catalog, k), now)
        decreases todo
      {
        var k :| k in todo;
        var d := details[k];
        var a := d.attempt;
        if k !in catalog || d.preGameStopped || !M.EligibleAt(catalog[k], now) {
          details := details[k := d.(attempt := a.(nextRunAt := None))];
        } else if a.failureCount == 0 {
          var next := now;
          if a.lastAttemptAt.Some? {
            var interval := M.DetailInterval(d.startsAt, now, config.detail);
            next := a.lastAttemptAt.value + (if interval.Some? then interval.value else 0);
          } else if a.nextRunAt.Some? {
            next := a.nextRunAt.value;
          }
          details := details[k := d.(attempt := a.(nextRunAt := Some(next)))];
        }
        todo := todo - {k};
      }
      assert details == M.Recalculate(config, old(Abs()), now).details;
    }

    /** The earliest due detail of the provider, ties broken by identifier. */
    method EarliestDue(p: string, now: int) returns (next: Option<Key>)
      ensures next == M.NextDetail(details, p, now)
    {
      next := None;
      var todo := details.Keys;
      while todo != {}
        invariant todo <= details.Keys
        invariant next.None? ==> forall l :: M.DueDetail(details, p, now, l) ==> l in todo
        invariant next.Some? ==> M.DueDetail(details, p, now, next.value)
        invariant next.Some? ==> forall l :: M.DueDetail(details, p, now, l) && l !in todo ==>
                                               l == next.value || M.Before(details, next.value, l)
        decreases todo
      {
        var k :| k in todo;
        if k.0 == p && M.Due(details[k].attempt, now) {
          if next.None? {
            next := Some(k);
          } else {
            var best := next.value;
            Texts.TextOrder(k.1, best.1);
            if M.Before(details, k, best) {
              forall l | M.DueDetail(details, p, now, l) && l !in todo && l != best ensures M.Before(details, k, l) {
                SchedulerOutcomes.BeforeTransitive(details, k, best, l);
              }
              next := Some(k);
            }
          }
        }
        todo := todo - {k};
      }
      assert next.Some? ==> M.IsNext(details, p, now, next.value);
      SchedulerOutcomes.NextIs(details, p, now, next);
    }

    /** The attempt record a job was launched on. */
    function AttemptOf(r: M.Running): (a: M.Attempt)
      requires r.job.provider in providers
      reads this
      ensures a == M.AttemptOf(Abs(), r)
    {
      match r.job
      case ListJob(p) => providers[p].list
      case DetailJob(p, id, _) =>
        if (p, id) in details && details[(p, id)].uid == r.uid then details[(p, id)].attempt else M.BLANK
    }

    method Write(r: M.Running, a: M.Attempt)
      requires r.job.provider in providers
      modifies this`providers, this`details
      ensures Abs() == M.SetAttempt(old(Abs()), r, a)
    {
      match r.job
      case ListJob(p) => providers := providers[p := providers[p].(list := a)];
      case DetailJob(p, id, _) =>
        if (p, id) in details && details[(p, id)].uid == r.uid {
          details := details[(p, id) := details[(p, id)].(attempt := a)];
        }
    }

    method Launch(job: M.Job, at: int)
      requires job.provider in providers
      modifies this`providers, this`details, this`jobs, this`trace
      ensures Abs() == M.Launch(old(Abs()), job, at)
    {
      var id, p := M.IdOf(job), job.provider;
      if id in jobs { return; }
      var scheduled := job.DetailJob? && (p, id.1) in details;
      var r := M.Running(job, at, if scheduled then details[(p, id.1)].uid else 0, false, None);
      ghost var startsAt := if scheduled then details[(p, id.1)].startsAt else None;
      Write(r, AttemptOf(r).(currentlyRunning := true, lastAttemptAt := Some(at)));
      providers := providers[p := providers[p].(activeJobs := providers[p].activeJobs + 1)];
      jobs := jobs[id := r];
      trace := trace + [M.Started(job, at, startsAt)];
    }

    /** One provider's turn within a tick. */
    method Serve(p: string, now: int)
      requires p in providers
      modifies this`providers, this`details, this`jobs, this`trace
      ensures Abs() == M.TickProvider(old(Abs()), p, now)
    {
      var ps := providers[p];
      if ps.activeJobs >= ps.effectiveConcurrency || (ps.cooldownUntil.Some? && now < ps.cooldownUntil.value) { return; }
      if ps.cooldownUntil.Some? {
        providers := providers[p := ps.(cooldownUntil := None, contextReady := false,
                                        list := ps.list.(nextRunAt := Some(now), jitter := 0))];
      }
      if M.Due(providers[p].list, now) {
        Launch(M.ListJob(p), now);
      } else if providers[p].contextReady {
        var next := EarliestDue(p, now);
        SchedulerInvariants.NextDetailMeans(details, p, now);
        if next.Some? {
          Launch(M.DetailJob(p, next.value.1, details[next.value].esport), now);
        }
      }
    }

    method Tick(now: int)
      modifies this`providers, this`details, this`jobs, this`trace
      ensures Abs() == M.Tick(config, old(Abs()), now)
    {
      if !enabled || stopping { return; }
      Recalculate(now);
      ghost var base := Abs();
      assert config.names[..0] == [];
      var i := 0;
      while i < |config.names|
        invariant 0 <= i <= |config.names|
        invariant Abs() == M.TickProviders(base, config.names[..i], now)
      {
        var p := config.names[i];
        assert config.names[..i + 1][..i] == config.names[..i];
        if p in providers { Serve(p, now); }
        i := i + 1;
      }
      assert config.names[..i] == config.names;
    }

    /** Replaces one provider's share of the catalog. */
    method Reconcile(p: string, events: seq<Event>, now: int, forNew: string -> nat)
      modifies this`details, this`catalog, this`generation, this`trace
      ensures Abs() == M.Reconcile(config, old(Abs()), p, events, now, forNew)
    {
      var next := ByKey(p, events);
      RemoveUnlisted(p, next);
      Upsert(next, forNew, old(Abs()), p);
      ghost var added := next.Keys - old(details).Keys;
      Recalculate(now);
      trace := trace + [M.Reconciled(p, added, now)];
    }

    static method ByKey(p: string, events: seq<Event>) returns (next: map<Key, Event>)
      ensures next == M.Listing(p, events)
    {
      next := map[];
      var i := 0;
      while i < |events|
        invariant 0 <= i <= |events| && next == M.Listing(p, events[..i])
      {
        assert events[..i + 1][..i] == events[..i];
        next := next[(p, events[i].eventId) := events[i]];
        i := i + 1;
      }
      assert events[..i] == events;
    }

    method RemoveUnlisted(p: string, next: map<Key, Event>)
      modifies this`details, this`catalog
      ensures catalog == old(catalog) - M.Dropped(old(Abs()), p, next)
      ensures details == old(details) - M.Dropped(old(Abs()), p, next)
    {
      var todo, removed: set<Key> := catalog.Keys, {};
      while todo != {}
        invariant todo <= old(catalog).Keys
        invariant removed == set k | k in old(catalog).Keys - todo && old(catalog)[k].provider == p && k !in next
        invariant catalog == old(catalog) - removed && details == old(details) - removed
        decreases todo
      {
        var k :| k in todo;
        assert k in catalog && catalog[k] == old(catalog)[k];
        if catalog[k].provider == p && k !in next {
          catalog, details, removed := catalog - {k}, details - {k}, removed + {k};
        }
        todo := todo - {k};
      }
      assert removed == M.Dropped(old(Abs()), p, next);
    }

    method Upsert(next: map<Key, Event>, forNew: string -> nat, ghost base: M.State, ghost p: string)
      requires catalog == base.catalog - M.Dropped(base, p, next)
      requires details == base.details - M.Dropped(base, p, next)
      requires generation == base.generation
      modifies this`details, this`catalog, this`generation
      ensures catalog == M.NewCatalog(base, p, next)
      ensures details == M.NewDetails(base, p, next, forNew)
      ensures generation == base.generation + 1
    {
      var todo := next.Keys;
      while todo != {}
        invariant todo <= next.Keys
        invariant CatalogedSoFar(old(catalog), catalog, next, todo)
        invariant RefreshedSoFar(old(details), details, next, todo, generation, forNew)
        invariant generation == base.generation
        decreases todo
      {
        var k :| k in todo;
        ghost var c, ds := catalog, details;
        Refresh(k, next[k], forNew(k.1));
        CatalogOne(old(catalog), c, next, todo, k);
        RefreshOne(old(details), ds, next, todo, generation, forNew, k);
        todo := todo - {k};
      }
      generation := generation + 1;
      NewCatalogIs(base, p, next, catalog);
      NewDetailsIs(base, p, next, forNew, details);
    }

    /** Catalogs one listed event; a schedule object is created or kept. */
    method Refresh(k: Key, e: Event, jitter: nat)
      modifies this`details, this`catalog
      ensures catalog == old(catalog)[k := e]
      ensures details == old(details)[k := M.RefreshedDetail(M.Lookup(old(details), k), e, generation, jitter)]
    {
      catalog := catalog[k := e];
      var d := if k in details then details[k] else M.Detail(M.BLANK.(jitter := jitter), e.esport, e.startsAt, false, generation);
      if d.startsAt != e.startsAt { d := d.(preGameStopped := false); }
      details := details[k := d.(startsAt := e.startsAt, esport := e.esport)];
    }

    /** Refused, as an error, on a scheduler that has been started. */
    method RestoreCatalog(events: seq<Event>, now: int, forNew: string -> nat) returns (ok: bool)
      modifies this`details, this`catalog, this`generation, this`trace
      ensures Abs() == M.RestoreCatalog(config, old(Abs()), events, now, forNew)
      ensures ok <==> !old(enabled) && old(jobs).Keys == {}
    {
      if enabled || jobs.Keys != {} { return false; }
      ghost var base := Abs();
      assert config.names[..0] == [];
      var i := 0;
      while i < |config.names|
        invariant 0 <= i <= |config.names|
        invariant Abs() == M.ReconcileAll(config, base, config.names[..i], events, now, forNew)
      {
        var p := config.names[i];
        assert config.names[..i + 1][..i] == config.names[..i];
        var own := OwnEvents(events, p);
        Reconcile(p, own, now, forNew);
        i := i + 1;
      }
      assert config.names[..i] == config.names;
      ok := true;
    }

    static method OwnEvents(events: seq<Event>, p: string) returns (own: seq<Event>)
      ensures own == M.Own(events, p)
    {
      own := [];
      var i := 0;
      while i < |events|
        invariant 0 <= i <= |events| && own == M.Own(events[..i], p)
      {
        assert events[..i + 1][..i] == events[..i];
        if events[i].provider == p { own := own + [events[i]]; }
        i := i + 1;
      }
      assert events[..i] == events;
    }

    /** The callback a job calls before publishing; refused once it was aborted. */
    method BeginCommit(id: M.JobId, now: int) returns (ok: bool)
      modifies this`jobs, this`trace
      ensures Abs() == M.BeginCommit(old(Abs()), id, now)
      ensures ok <==> id in old(jobs) && old(jobs)[id].abort.None?
    {
      if id !in jobs || jobs[id].abort.Some? { return false; }
      ok := true;
      if jobs[id].committing { return; }
      jobs := jobs[id := jobs[id].(committing := true)];
      trace := trace + [M.CommitBegun(jobs[id].job, now)];
    }

    method FireTimeout(id: M.JobId, now: int)
      modifies this`jobs, this`trace
      ensures Abs() == M.FireTimeout(old(Abs()), id, now)
    {
      if id in jobs && !jobs[id].committing && jobs[id].abort.None? {
        jobs := jobs[id := jobs[id].(abort := Some(M.TimedOut))];
        trace := trace + [M.Aborted({id}, now)];
      }
    }

    method RequestStop(now: int)
      modifies this`stopping, this`enabled, this`trace
      ensures Abs() == M.RequestStop(old(Abs()), now)
    {
      if stopping { return; }
      stopping, enabled := true, false;
      trace := trace + [M.StopRequested(now)];
    }

    /** Aborts every job that is not committing. */
    method EndGrace(now: int)
      modifies this`jobs, this`trace
      ensures Abs() == M.EndGrace(old(Abs()), now)
    {
      if !stopping { return; }
      ghost var aborted := M.Abortable(Abs());
      var todo := jobs.Keys;
      while todo != {}
        invariant todo <= jobs.Keys == old(jobs).Keys && trace == old(trace)
        invariant forall id :: id in jobs ==>
                    jobs[id] == if id in aborted && id !in todo then old(jobs)[id].(abort := Some(M.Shutdown)) else old(jobs)[id]
        decreases todo
      {
        var id :| id in todo;
        if !jobs[id].committing && jobs[id].abort.None? {
          jobs := jobs[id := jobs[id].(abort := Some(M.Shutdown))];
        }
        todo := todo - {id};
      }
      trace := trace + [M.Aborted(aborted, now)];
      assert jobs == M.EndGrace(old(Abs()), now).jobs;
    }

    method CreditSuccess(id: M.JobId, now: int, draws: M.Draws)
      requires id in jobs && jobs[id].job.provider in providers
      modifies this`providers, this`details
      ensures Abs() == M.Credit(config, old(Abs()), id, now, draws)
    {
      var r := jobs[id];
      var p := r.job.provider;
      var interval := Some(config.listIntervalMs);
      if r.job.DetailJob? {
        var startsAt := if (p, r.job.eventId) in details then details[(p, r.job.eventId)].startsAt else None;
        interval := M.DetailInterval(startsAt, now, config.detail);
      }
      var next := if interval.None? then None else Some(r.at + interval.value);
      Write(r, AttemptOf(r).(lastSuccessAt := Some(now), failureCount := 0, lastError := None, nextRunAt := next, jitter := draws.own));
      providers := providers[p := providers[p].(consecutiveFailures := 0, cooldownUntil := None)];
    }

    method StopEvent(id: M.JobId)
      requires id in jobs && jobs[id].job.provider in providers
      modifies this`providers, this`details
      ensures Abs() == M.Halted(old(Abs()), id)
    {
      var r := jobs[id];
      Write(r, AttemptOf(r).(nextRunAt := None));
      if r.job.DetailJob? && id in details && details[id].uid == r.uid {
        details := details[id := details[id].(preGameStopped := true)];
      }
    }

    method Penalise(id: M.JobId, fault: M.Fault, now: int, own: nat)
      requires config.Valid() && id in jobs && jobs[id].job.provider in providers && !fault.EventStarted?
      modifies this`providers, this`details
      ensures Abs() == M.Penalised(config, old(Abs()), id, fault, now, own)
    {
      var r := jobs[id];
      var p := r.job.provider;
      var a := AttemptOf(r);
      var failures := a.failureCount + 1;
      var reason := if r.abort == Some(M.TimedOut) then "timeout" else fault.name;
      var wait := M.Backoff(failures, config.backoffMs);
      Write(r, a.(failureCount := failures, lastError := Some(reason), nextRunAt := Some(now + wait), jitter := own));
      assert Abs() == M.SetAttempt(old(Abs()), r, M.FailedAttempt(config, a, r, fault, now, own));
      Charge(p, r.job.ListJob? || r.abort.Some? || fault.Transport?, now, failures);
    }

    method Charge(p: string, reset: bool, now: int, failures: nat)
      requires config.Valid() && p in providers
      modifies this`providers
      ensures providers == old(providers)[p := M.Charged(config, old(providers)[p], reset, now, failures)]
    {
      var wait := M.Backoff(failures, config.backoffMs);
      var ps := providers[p];
      ps := ps.(consecutiveFailures := ps.consecutiveFailures + 1);
      if reset {
        var earliest := if ps.list.nextRunAt.Some? then ps.list.nextRunAt.value else 0;
        ps := ps.(contextReady := false, list := ps.list.(nextRunAt := Some(M.Max(earliest, now + wait))));
      }
      if ps.consecutiveFailures >= config.failureThreshold {
        ps := ps.(cooldownUntil := Some(now + config.cooldownMs));
      }
      providers := providers[p := ps];
    }

    /** The `finally` block. */
    method Finish(id: M.JobId, ghost entry: M.Entry)
      requires id in jobs && jobs[id].job.provider in providers
      modifies this`providers, this`details, this`jobs, this`trace
      ensures Abs() == M.Note(M.Settle(old(Abs()), id), entry)
    {
      var r := jobs[id];
      var p := r.job.provider;
      Write(r, AttemptOf(r).(currentlyRunning := false));
      providers := providers[p := providers[p].(activeJobs := providers[p].activeJobs - 1)];
      jobs := jobs - {id};
      trace := trace + [entry];
    }

    method Succeed(id: M.JobId, events: seq<Event>, now: int, draws: M.Draws)
      requires id in jobs && jobs[id].job.provider in providers
      modifies this`providers, this`details, this`catalog, this`jobs, this`generation, this`trace
      ensures Abs() == M.Succeed(config, old(Abs()), id, events, now, draws)
    {
      var r := jobs[id];
      if r.job.ListJob? {
        Reconcile(r.job.provider, events, now, draws.forNew);
        providers := providers[r.job.provider := providers[r.job.provider].(contextReady := true)];
        assert Abs() == M.AfterListing(config, old(Abs()), id, events, now, draws);
      }
      CreditSuccess(id, now, draws);
      Finish(id, M.Succeeded(r.job, now));
    }

    method Fail(id: M.JobId, fault: M.Fault, now: int, own: nat)
      requires config.Valid() && id in jobs && jobs[id].job.provider in providers && !fault.EventStarted?
      modifies this`providers, this`details, this`jobs, this`trace
      ensures Abs() == M.Fail(config, old(Abs()), id, fault, now, own)
    {
      var r := jobs[id];
      ghost var failures := AttemptOf(r).failureCount + 1;
      Penalise(id, fault, now, own);
      Finish(id, M.Failed(r.job, now, M.ResetsContext(r, fault), failures, providers[r.job.provider].cooldownUntil));
    }

    /** The job's promise settles, with a result or an error. */
    method Complete(id: M.JobId, outcome: M.Outcome, now: int, draws: M.Draws)
      requires config.Valid() && id in jobs && jobs[id].job.provider in providers
      modifies this`providers, this`details, this`catalog, this`jobs, this`generation, this`trace
      ensures Abs() == M.Complete(config, old(Abs()), id, outcome, now, draws)
    {
      var r := jobs[id];
      if outcome.Returned? && (r.committing || r.abort.None?) {
        Succeed(id, outcome.events, now, draws);
        return;
      }
      var fault := if outcome.Threw? then outcome.fault else M.Ordinary("Error");
      if fault.EventStarted? {
        StopEvent(id);
        Finish(id, M.EventOver(r.job, now));
      } else if stopping && r.abort == Some(M.Shutdown) {
        Finish(id, M.Cancelled(r.job, now));
      } else {
        Fail(id, fault, now, draws.own);
      }
    }

    /** Any step, at any moment, by a job runner that keeps its promises and a clock
        that does not go back: the state is again that of a legal run, so the
        invariant holds and the trace is admissible. */
    method Perform(m: SchedulerRuns.Move)
      requires Valid() && SchedulerRuns.Possible(Abs(), m.step)
      requires moves != [] ==> moves[|moves| - 1].now <= m.now
      modifies this
      ensures Valid() && moves == old(moves) + [m]
      ensures SchedulerInvariants.Inv(config, Abs()) && SchedulerTrace.Admissible(config, trace)
    {
      SchedulerRuns.LegalPush(config, moves, m);
      SchedulerRuns.RunSafe(config, moves + [m]);
      Take(m);
      moves := moves + [m];
    }

    method Take(m: SchedulerRuns.Move)
      requires config.Valid()
      modifies this
      ensures Abs() == SchedulerRuns.Next(config, old(Abs()), m) && moves == old(moves)
    {
      match m.step {
        case StartUp(draws) => Start(m.now, draws);
        case Ticks => Tick(m.now);
        case Completes(id, outcome, draws) =>
          if id in jobs && jobs[id].job.provider in providers { Complete(id, outcome, m.now, draws); }
        case Restores(events, draws) => var _ := RestoreCatalog(events, m.now, draws.forNew);
        case Commits(id) => var _ := BeginCommit(id, m.now);
        case TimesOut(id) => FireTimeout(id, m.now);
        case Stops => RequestStop(m.now);
        case GraceEnds => EndGrace(m.now);
      }
    }
  }
}
