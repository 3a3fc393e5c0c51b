/** What every step of the scheduler keeps, whatever the interleaving. */
module SchedulerInvariants {
  import opened Domain
  import opened SchedulerModel

  ghost predicate HasJob(s: State, p: string) {
    exists id :: id in s.jobs && id.0 == p
  }

  /** Catalog and schedule describe the same events, with equal start and esport. */
  ghost predicate Catalogued(s: State) {
    && s.details.Keys == s.catalog.Keys
    && forall k :: k in s.details ==>
         && k.0 in s.providers
         && s.catalog[k].provider == k.0 && s.catalog[k].eventId == k.1
         && s.details[k].startsAt == s.catalog[k].startsAt
         && s.details[k].esport == s.catalog[k].esport
         && s.details[k].uid < s.generation
  }

  /** A job in the table is running on a schedule object that is still current. */
  ghost predicate JobLinked(s: State, id: JobId)
    requires id in s.jobs
  {
    var r := s.jobs[id];
    && IdOf(r.job) == id
    && r.job.provider in s.providers
    && !(r.committing && r.abort.Some?)
    && (r.job.DetailJob? ==> id in s.details && s.details[id].uid == r.uid)
    && AttemptOf(s, r).currentlyRunning
    && AttemptOf(s, r).lastAttemptAt == Some(r.at)
  }

  ghost predicate ProviderOk(s: State, p: string)
    requires p in s.providers
  {
    var ps := s.providers[p];
    && ps.effectiveConcurrency == 1
    && ps.activeJobs == (if HasJob(s, p) then 1 else 0)
    && (ps.list.currentlyRunning ==> (p, "list") in s.jobs && s.jobs[(p, "list")].job.ListJob?)
  }

  ghost predicate OneJob(s: State) {
    forall i, j :: i in s.jobs && j in s.jobs && i.0 == j.0 ==> i == j
  }

  ghost predicate JobsLinked(s: State) {
    forall id :: id in s.jobs ==> JobLinked(s, id)
  }

  ghost predicate ProvidersOk(s: State) {
    forall p :: p in s.providers ==> ProviderOk(s, p)
  }

  ghost predicate DetailsOk(s: State) {
    forall k :: k in s.details && s.details[k].attempt.currentlyRunning ==> k in s.jobs && s.jobs[k].job.DetailJob?
  }

  ghost predicate Core(s: State) {
    && Catalogued(s)
    && OneJob(s)
    && JobsLinked(s)
    && ProvidersOk(s)
    && DetailsOk(s)
    && (s.stopping ==> !s.enabled)
  }

  /** A provider in cooldown has no job and has failed often enough. */
  ghost predicate CooldownOk(g: Config, s: State) {
    forall p :: p in s.providers && s.providers[p].cooldownUntil.Some? ==>
      !HasJob(s, p) && s.providers[p].consecutiveFailures >= g.failureThreshold
  }

  ghost predicate Inv(g: Config, s: State) {
    Core(s) && CooldownOk(g, s)
  }

  lemma {:induction false} InitialInv(g: Config)
    ensures Inv(g, Initial(g))
  {
  }

  // --- Reading the invariant -------------------------------------------------

  ghost function JobsOf(s: State, p: string): set<JobId> { set id | id in s.jobs && id.0 == p }

  /** activeJobs counts the provider's jobs, and there is at most one. */
  lemma {:induction false} ActiveJobsCounts(s: State, p: string)
    requires Core(s) && p in s.providers
    ensures s.providers[p].activeJobs == |JobsOf(s, p)| <= 1
  {
    if HasJob(s, p) {
      var id :| id in s.jobs && id.0 == p;
      assert JobsOf(s, p) == {id};
    } else {
      assert JobsOf(s, p) == {};
    }
  }

  /** An attempt is marked running iff its job is in the table. */
  lemma {:induction false} RunningIffInTable(s: State)
    requires Core(s)
    ensures forall p :: p in s.providers ==>
              (s.providers[p].list.currentlyRunning <==> exists id :: id in s.jobs && s.jobs[id].job == ListJob(p))
    ensures forall k :: k in s.details ==>
              (s.details[k].attempt.currentlyRunning
               <==> exists id :: id in s.jobs && s.jobs[id].job.DetailJob? && (s.jobs[id].job.provider, s.jobs[id].job.eventId) == k)
  {
    forall p | p in s.providers
      ensures s.providers[p].list.currentlyRunning <==> exists id :: id in s.jobs && s.jobs[id].job == ListJob(p)
    {
      if s.providers[p].list.currentlyRunning {
        assert ProviderOk(s, p);
        assert JobLinked(s, (p, "list"));
      }
      if id :| id in s.jobs && s.jobs[id].job == ListJob(p) {
        assert JobLinked(s, id);
      }
    }
    forall k | k in s.details
      ensures s.details[k].attempt.currentlyRunning
              <==> exists id :: id in s.jobs && s.jobs[id].job.DetailJob? && (s.jobs[id].job.provider, s.jobs[id].job.eventId) == k
    {
      if s.details[k].attempt.currentlyRunning {
        assert JobLinked(s, k);
      }
      if id :| id in s.jobs && s.jobs[id].job.DetailJob? && (s.jobs[id].job.provider, s.jobs[id].job.eventId) == k {
        assert JobLinked(s, id);
      }
    }
  }

  // --- Steps that leave the bookkeeping alone --------------------------------

  ghost predicate SameBookkeeping(a: Attempt, b: Attempt) {
    a.currentlyRunning == b.currentlyRunning && a.lastAttemptAt == b.lastAttemptAt
  }

  ghost predicate SameCounters(a: ProviderState, b: ProviderState) {
    && a.activeJobs == b.activeJobs && a.effectiveConcurrency == b.effectiveConcurrency
    && SameBookkeeping(a.list, b.list)
  }

  ghost predicate SameSchedule(a: Detail, b: Detail) {
    SameEvent(a, b) && SameBookkeeping(a.attempt, b.attempt)
  }

  ghost predicate SameEvent(a: Detail, b: Detail) {
    a.uid == b.uid && a.startsAt == b.startsAt && a.esport == b.esport
  }

  ghost predicate SameProviders(ps: map<string, ProviderState>, qs: map<string, ProviderState>) {
    ps.Keys == qs.Keys && forall p :: p in ps ==> SameCounters(qs[p], ps[p])
  }

  ghost predicate SameDetails(ds: map<Key, Detail>, es: map<Key, Detail>) {
    ds.Keys == es.Keys && forall k :: k in ds ==> SameSchedule(es[k], ds[k])
  }

  /** t differs from s only in fields no bookkeeping depends on. */
  ghost predicate Retains(s: State, t: State) {
    && t.jobs == s.jobs && t.catalog == s.catalog && t.generation == s.generation
    && SameProviders(s.providers, t.providers)
    && SameDetails(s.details, t.details)
    && (t.stopping ==> !t.enabled)
  }

  lemma {:induction false} SameProvidersUpdate(ps: map<string, ProviderState>, p: string, v: ProviderState)
    requires p in ps && SameCounters(v, ps[p])
    ensures SameProviders(ps, ps[p := v])
  {
    assert ps[p := v].Keys == ps.Keys;
  }

  lemma {:induction false} SameDetailsUpdate(ds: map<Key, Detail>, k: Key, v: Detail)
    requires k in ds && SameSchedule(v, ds[k])
    ensures SameDetails(ds, ds[k := v])
  {
    assert ds[k := v].Keys == ds.Keys;
  }

  lemma {:induction false} RetainsCatalogued(s: State, t: State)
    requires Catalogued(s) && Retains(s, t)
    ensures Catalogued(t)
  {
    forall k | k in t.details
      ensures k.0 in t.providers && t.details[k].uid < t.generation
      ensures k in t.catalog && t.catalog[k].provider == k.0 && t.catalog[k].eventId == k.1
      ensures t.details[k].startsAt == t.catalog[k].startsAt && t.details[k].esport == t.catalog[k].esport
    {
      assert k in s.details;
    }
  }

  lemma {:induction false} RetainsJobs(s: State, t: State)
    requires JobsLinked(s) && Retains(s, t)
    ensures JobsLinked(t)
  {
    forall id | id in t.jobs ensures JobLinked(t, id) {
      assert JobLinked(s, id);
      var r := s.jobs[id];
      if r.job.DetailJob? {
        assert id in t.details.Keys;
      } else {
        assert r.job.provider in t.providers.Keys;
      }
    }
  }

  lemma {:induction false} RetainsProviders(s: State, t: State)
    requires ProvidersOk(s) && Retains(s, t)
    ensures ProvidersOk(t)
  {
    forall p | p in t.providers ensures ProviderOk(t, p) {
      assert p in s.providers && ProviderOk(s, p);
      assert HasJob(s, p) == HasJob(t, p);
    }
  }

  lemma {:induction false} RetainsCore(s: State, t: State)
    requires Core(s) && Retains(s, t)
    ensures Core(t)
  {
    RetainsCatalogued(s, t);
    RetainsJobs(s, t);
    RetainsProviders(s, t);
    forall k | k in t.details && t.details[k].attempt.currentlyRunning ensures k in t.jobs && t.jobs[k].job.DetailJob? {
      assert k in s.details;
    }
  }

  /** Cooldowns carry over while jobs and failure counts stay. */
  lemma {:induction false} RetainsInv(g: Config, s: State, t: State)
    requires Inv(g, s) && Retains(s, t)
    requires forall p :: p in s.providers && t.providers[p].cooldownUntil.Some? ==>
               s.providers[p].cooldownUntil.Some? && t.providers[p].consecutiveFailures == s.providers[p].consecutiveFailures
    ensures Inv(g, t)
  {
    RetainsCore(s, t);
    forall p | p in t.providers && t.providers[p].cooldownUntil.Some?
      ensures !HasJob(t, p) && t.providers[p].consecutiveFailures >= g.failureThreshold
    {
      assert p in s.providers;
      assert HasJob(s, p) == HasJob(t, p);
    }
  }

  lemma {:induction false} RecalculatedKeeps(g: Config, d: Detail, e: Option<Event>, now: int)
    ensures var t := RecalculatedDetail(g, d, e, now);
            t == d.(attempt := d.attempt.(nextRunAt := t.attempt.nextRunAt))
  {
  }

  lemma {:induction false} RecalculateRetains(g: Config, s: State, now: int)
    requires s.stopping ==> !s.enabled
    ensures Retains(s, Recalculate(g, s, now))
  {
    forall k | k in s.details
      ensures var d := Recalculate(g, s, now).details[k];
              d == s.details[k].(attempt := s.details[k].attempt.(nextRunAt := d.attempt.nextRunAt))
    {
      RecalculatedKeeps(g, s.details[k], Lookup(s.catalog, k), now);
    }
  }

  lemma {:induction false} RecalculateInv(g: Config, s: State, now: int)
    requires Inv(g, s)
    ensures Inv(g, Recalculate(g, s, now))
  {
    RecalculateRetains(g, s, now);
    RetainsInv(g, s, Recalculate(g, s, now));
  }

  lemma {:induction false} StartInv(g: Config, s: State, now: int, d: Draws)
    requires Inv(g, s)
    ensures Inv(g, Start(g, s, now, d))
  {
    RetainsInv(g, s, Start(g, s, now, d));
  }

  lemma {:induction false} NoteInv(g: Config, s: State, e: Entry)
    requires Inv(g, s)
    ensures Inv(g, Note(s, e))
  {
    RetainsInv(g, s, Note(s, e));
  }

  lemma {:induction false} RequestStopInv(g: Config, s: State, now: int)
    requires Inv(g, s)
    ensures Inv(g, RequestStop(s, now))
  {
    RetainsInv(g, s, RequestStop(s, now));
  }

  // --- Signals ---------------------------------------------------------------

  /** Only signals of running jobs changed, none of them to both set. */
  ghost predicate Signalled(s: State, t: State) {
    && t.providers == s.providers && t.details == s.details && t.catalog == s.catalog
    && t.generation == s.generation && t.enabled == s.enabled && t.stopping == s.stopping
    && t.jobs.Keys == s.jobs.Keys
    && forall id :: id in s.jobs ==> SignalOnly(s.jobs[id], t.jobs[id])
  }

  ghost predicate SignalOnly(a: Running, b: Running) {
    b.job == a.job && b.at == a.at && b.uid == a.uid && !(b.committing && b.abort.Some?)
  }

  lemma {:induction false} SignalledHasJob(s: State, t: State, p: string)
    requires t.jobs.Keys == s.jobs.Keys
    ensures HasJob(s, p) <==> HasJob(t, p)
  {
    if id :| id in s.jobs && id.0 == p { assert id in t.jobs.Keys; }
    if id :| id in t.jobs && id.0 == p { assert id in s.jobs.Keys; }
  }

  lemma {:induction false} SignalledInv(g: Config, s: State, t: State)
    requires Inv(g, s) && Signalled(s, t)
    ensures Inv(g, t)
  {
    forall id | id in t.jobs ensures JobLinked(t, id) {
      assert id in s.jobs.Keys && JobLinked(s, id);
    }
    forall p | p in t.providers ensures ProviderOk(t, p) {
      assert ProviderOk(s, p);
      SignalledHasJob(s, t, p);
      assert (p, "list") in s.jobs.Keys <==> (p, "list") in t.jobs.Keys;
    }
    forall k | k in t.details && t.details[k].attempt.currentlyRunning ensures k in t.jobs && t.jobs[k].job.DetailJob? {
      assert k in s.jobs.Keys;
    }
    forall i, j | i in t.jobs && j in t.jobs && i.0 == j.0 ensures i == j {
      assert i in s.jobs.Keys && j in s.jobs.Keys;
    }
    forall p | p in t.providers && t.providers[p].cooldownUntil.Some?
      ensures !HasJob(t, p) && t.providers[p].consecutiveFailures >= g.failureThreshold
    {
      SignalledHasJob(s, t, p);
    }
  }

  ghost predicate NoBoth(s: State) {
    forall id :: id in s.jobs ==> !(s.jobs[id].committing && s.jobs[id].abort.Some?)
  }

  lemma {:induction false} LinkedNoBoth(s: State)
    requires JobsLinked(s)
    ensures NoBoth(s)
  {
    forall id | id in s.jobs ensures !(s.jobs[id].committing && s.jobs[id].abort.Some?) { assert JobLinked(s, id); }
  }

  lemma {:induction false} MarkSignalled(s: State, id: JobId, r: Running, e: Entry)
    requires NoBoth(s) && id in s.jobs && SignalOnly(s.jobs[id], r)
    ensures Signalled(s, Note(s.(jobs := s.jobs[id := r]), e))
  {
    assert s.jobs[id := r].Keys == s.jobs.Keys;
  }

  // --- Launching -------------------------------------------------------------

  /** What `tick` has checked when it launches a job. */
  ghost predicate Launchable(s: State, job: Job) {
    && job.provider in s.providers
    && !HasJob(s, job.provider)
    && s.providers[job.provider].cooldownUntil.None?
    && (job.DetailJob? ==> IdOf(job) in s.details)
  }

  lemma {:induction false} LaunchInv(g: Config, s: State, job: Job, at: int)
    requires Inv(g, s) && Launchable(s, job)
    ensures Inv(g, Launch(s, job, at))
  {
    LaunchLinked(s, job, at);
    LaunchProviders(g, s, job, at);
    LaunchTables(s, job, at);
    LaunchCatalogued(s, job, at);
  }

  lemma {:induction false} LaunchShape(s: State, job: Job, at: int)
    requires Launchable(s, job)
    ensures var t, id := Launch(s, job, at), IdOf(job);
            && id !in s.jobs && t.jobs.Keys == s.jobs.Keys + {id} && t.jobs[id].job == job
            && (forall j :: j in s.jobs ==> j in t.jobs && t.jobs[j] == s.jobs[j] && j.0 != id.0)
            && t.providers.Keys == s.providers.Keys && t.details.Keys == s.details.Keys
            && (forall q :: q in s.providers && q != id.0 ==> t.providers[q] == s.providers[q])
            && (forall k :: k in s.details && k != id ==> t.details[k] == s.details[k])
  {
  }

  lemma {:induction false} LaunchLinked(s: State, job: Job, at: int)
    requires Core(s) && Launchable(s, job)
    ensures JobsLinked(Launch(s, job, at))
  {
    var t, id := Launch(s, job, at), IdOf(job);
    LaunchShape(s, job, at);
    forall j | j in t.jobs ensures JobLinked(t, j) {
      if j != id {
        assert j in t.jobs.Keys;
        assert JobLinked(s, j);
      }
    }
  }

  lemma {:induction false} LaunchProviders(g: Config, s: State, job: Job, at: int)
    requires Inv(g, s) && Launchable(s, job)
    ensures ProvidersOk(Launch(s, job, at)) && CooldownOk(g, Launch(s, job, at))
  {
    var t, id := Launch(s, job, at), IdOf(job);
    LaunchShape(s, job, at);
    forall q | q in t.providers
      ensures ProviderOk(t, q)
      ensures t.providers[q].cooldownUntil.Some? ==>
                !HasJob(t, q) && t.providers[q].consecutiveFailures >= g.failureThreshold
    {
      assert q in s.providers.Keys && ProviderOk(s, q);
      LaunchedJobs(s, t, id, q);
    }
  }

  lemma {:induction false} LaunchTables(s: State, job: Job, at: int)
    requires Core(s) && Launchable(s, job)
    ensures var t := Launch(s, job, at); OneJob(t) && DetailsOk(t) && (t.stopping ==> !t.enabled)
  {
    LaunchShape(s, job, at);
    LaunchDetailsOk(s, job, at);
    assert Launch(s, job, at).jobs.Keys == s.jobs.Keys + {IdOf(job)};
    OneMoreJob(s, Launch(s, job, at), IdOf(job));
  }

  lemma {:induction false} OneMoreJob(s: State, t: State, id: JobId)
    requires OneJob(s) && !HasJob(s, id.0) && t.jobs.Keys == s.jobs.Keys + {id}
    ensures OneJob(t)
  {
    forall i, j | i in t.jobs && j in t.jobs && i.0 == j.0 ensures i == j {
      assert i in t.jobs.Keys && j in t.jobs.Keys;
      assert i in s.jobs ==> HasJob(s, i.0);
      assert j in s.jobs ==> HasJob(s, j.0);
    }
  }

  lemma {:induction false} LaunchDetailsOk(s: State, job: Job, at: int)
    requires DetailsOk(s) && Launchable(s, job)
    ensures DetailsOk(Launch(s, job, at))
  {
    var t := Launch(s, job, at);
    LaunchShape(s, job, at);
    forall k | k in t.details && t.details[k].attempt.currentlyRunning ensures k in t.jobs && t.jobs[k].job.DetailJob? {
      assert k in s.details.Keys;
    }
  }

  lemma {:induction false} LaunchCatalogued(s: State, job: Job, at: int)
    requires Catalogued(s) && Launchable(s, job)
    ensures Catalogued(Launch(s, job, at))
  {
    var t, id := Launch(s, job, at), IdOf(job);
    LaunchShape(s, job, at);
    assert t.catalog == s.catalog && t.generation == s.generation;
    assert id in s.details ==> SameEvent(t.details[id], s.details[id]);
  }

  lemma {:induction false} LaunchedJobs(s: State, t: State, id: JobId, q: string)
    requires t.jobs.Keys == s.jobs.Keys + {id}
    ensures HasJob(t, q) <==> HasJob(s, q) || q == id.0
  {
    assert forall i :: i in t.jobs <==> i in t.jobs.Keys;
    assert forall i :: i in s.jobs <==> i in s.jobs.Keys;
    if HasJob(s, q) { var i :| i in s.jobs && i.0 == q; assert i in t.jobs; }
    if q == id.0 { assert id in t.jobs; }
  }

  lemma {:induction false} ProbeInv(g: Config, s: State, p: string, now: int)
    requires Inv(g, s) && p in s.providers && !HasJob(s, p)
    ensures Inv(g, Probe(s, p, now))
    ensures Due(Probe(s, p, now).providers[p].list, now)
    ensures Probe(s, p, now).providers[p].cooldownUntil.None? && !HasJob(Probe(s, p, now), p)
  {
    RetainsInv(g, s, Probe(s, p, now));
    assert ProviderOk(s, p);
    assert HasJob(s, p) == HasJob(Probe(s, p, now), p);
    assert (p, "list") in s.jobs ==> HasJob(s, p);
  }

  lemma {:induction false} NextDetailMeans(details: map<Key, Detail>, p: string, now: int)
    ensures var next := NextDetail(details, p, now);
            next.Some? ==> IsNext(details, p, now, next.value)
  {
  }

  lemma {:induction false} TickProviderInv(g: Config, s: State, p: string, now: int)
    requires Inv(g, s) && p in s.providers
    ensures Inv(g, TickProvider(s, p, now))
  {
    var ps := s.providers[p];
    assert ProviderOk(s, p);
    if !(ps.activeJobs >= ps.effectiveConcurrency || (ps.cooldownUntil.Some? && now < ps.cooldownUntil.value)) {
      if ps.cooldownUntil.Some? {
        ProbeInv(g, s, p, now);
        LaunchInv(g, Probe(s, p, now), ListJob(p), now);
      } else {
        IdleTickInv(g, s, p, now);
      }
    }
  }

  lemma {:induction false} IdleTickInv(g: Config, s: State, p: string, now: int)
    requires Inv(g, s) && p in s.providers && !HasJob(s, p) && s.providers[p].cooldownUntil.None?
    ensures Inv(g, TickProvider(s, p, now))
  {
    assert ProviderOk(s, p);
    if Due(s.providers[p].list, now) {
      LaunchInv(g, s, ListJob(p), now);
    } else if s.providers[p].contextReady {
      NextDetailMeans(s.details, p, now);
      var next := NextDetail(s.details, p, now);
      if next.Some? {
        LaunchInv(g, s, DetailJob(p, next.value.1, s.details[next.value].esport), now);
      }
    }
  }

  lemma {:induction false} TickProvidersInv(g: Config, s: State, names: seq<string>, now: int)
    requires Inv(g, s)
    ensures Inv(g, TickProviders(s, names, now))
    decreases |names|
  {
    if names != [] {
      var before := TickProviders(s, names[..|names| - 1], now);
      TickProvidersInv(g, s, names[..|names| - 1], now);
      var p := names[|names| - 1];
      if p in before.providers { TickProviderInv(g, before, p, now); }
    }
  }

  lemma {:induction false} TickInv(g: Config, s: State, now: int)
    requires Inv(g, s)
    ensures Inv(g, Tick(g, s, now))
  {
    if s.enabled && !s.stopping {
      RecalculateInv(g, s, now);
      TickProvidersInv(g, Recalculate(g, s, now), g.names, now);
    }
  }

  // --- Reconciliation --------------------------------------------------------

  lemma {:induction false} ListingMeans(p: string, events: seq<Event>)
    ensures forall k :: k in Listing(p, events) ==> k.0 == p && Listing(p, events)[k] in events && Listing(p, events)[k].eventId == k.1
    ensures forall e :: e in events ==> (p, e.eventId) in Listing(p, events)
  {
    if events != [] {
      var n := |events| - 1;
      ListingMeans(p, events[..n]);
      assert events == events[..n] + [events[n]];
    }
  }

  /** No detail job of p is running: its schedule objects may be replaced. */
  ghost predicate NoDetailJob(s: State, p: string) {
    forall id :: id in s.jobs && id.0 == p ==> s.jobs[id].job.ListJob?
  }

  ghost predicate OwnEvents(events: seq<Event>, p: string) {
    forall e :: e in events ==> e.provider == p
  }

  /** Each schedule entry after a reconciliation: carried over, refreshed or new. */
  lemma {:induction false} ReconciledDetail(g: Config, s: State, p: string, events: seq<Event>, now: int, forNew: string -> nat, k: Key)
    requires Catalogued(s) && k in Reconcile(g, s, p, events, now, forNew).details
    ensures var t, next := Reconcile(g, s, p, events, now, forNew), Listing(p, events);
            var d := t.details[k];
            && k in t.catalog
            && (k.0 == p <==> k in next)
            && (k in s.details ==> d.uid == s.details[k].uid
                                   && d.attempt == s.details[k].attempt.(nextRunAt := d.attempt.nextRunAt))
            && (k !in s.details ==> k in next && d.uid == s.generation && d.attempt == BLANK.(nextRunAt := d.attempt.nextRunAt, jitter := forNew(k.1)))
            && (k in next ==> t.catalog[k] == next[k] && d.startsAt == next[k].startsAt && d.esport == next[k].esport)
            && (k !in next ==> k in s.details && t.catalog[k] == s.catalog[k]
                               && d.startsAt == s.details[k].startsAt && d.esport == s.details[k].esport)
  {
    ListingMeans(p, events);
    var next := Listing(p, events);
    NewDetail(s, p, next, forNew, k);
    var s1 := s.(catalog := NewCatalog(s, p, next), details := NewDetails(s, p, next, forNew), generation := s.generation + 1);
    RecalculatedKeeps(g, s1.details[k], Lookup(s1.catalog, k), now);
  }

  lemma {:induction false} NewDetail(s: State, p: string, next: map<Key, Event>, forNew: string -> nat, k: Key)
    requires Catalogued(s) && k in NewDetails(s, p, next, forNew)
    requires forall l :: l in next ==> l.0 == p
    ensures var d, c := NewDetails(s, p, next, forNew)[k], NewCatalog(s, p, next);
            && k in c && (k.0 == p <==> k in next)
            && (k in s.details ==> d.uid == s.details[k].uid && d.attempt == s.details[k].attempt)
            && (k !in s.details ==> k in next && d.uid == s.generation && d.attempt == BLANK.(jitter := forNew(k.1)))
            && (k in next ==> c[k] == next[k] && d.startsAt == next[k].startsAt && d.esport == next[k].esport)
            && (k !in next ==> k in s.details && c[k] == s.catalog[k] && d == s.details[k])
  {
  }

  lemma {:induction false} ReconcileKeys(g: Config, s: State, p: string, events: seq<Event>, now: int, forNew: string -> nat)
    requires Catalogued(s)
    ensures var t := Reconcile(g, s, p, events, now, forNew);
            && t.details.Keys == t.catalog.Keys
            && (forall k :: k in s.details && k.0 != p ==> k in t.details)
  {
    ListingMeans(p, events);
    var next := Listing(p, events);
    assert NewDetails(s, p, next, forNew).Keys == NewCatalog(s, p, next).Keys;
  }

  lemma {:induction false} ReconcileCatalogued(g: Config, s: State, p: string, events: seq<Event>, now: int, forNew: string -> nat)
    requires Catalogued(s) && p in s.providers && OwnEvents(events, p)
    ensures Catalogued(Reconcile(g, s, p, events, now, forNew))
  {
    var t := Reconcile(g, s, p, events, now, forNew);
    ReconcileKeys(g, s, p, events, now, forNew);
    ListingMeans(p, events);
    forall k | k in t.details
      ensures k.0 in t.providers && t.details[k].uid < t.generation
      ensures t.catalog[k].provider == k.0 && t.catalog[k].eventId == k.1
      ensures t.details[k].startsAt == t.catalog[k].startsAt && t.details[k].esport == t.catalog[k].esport
    {
      ReconciledDetail(g, s, p, events, now, forNew, k);
    }
  }

  lemma {:induction false} ReconcileLinked(g: Config, s: State, p: string, events: seq<Event>, now: int, forNew: string -> nat)
    requires Core(s) && NoDetailJob(s, p)
    ensures var t := Reconcile(g, s, p, events, now, forNew); JobsLinked(t) && DetailsOk(t)
  {
    var t := Reconcile(g, s, p, events, now, forNew);
    ReconcileKeys(g, s, p, events, now, forNew);
    forall id | id in t.jobs ensures JobLinked(t, id) {
      assert JobLinked(s, id);
      if s.jobs[id].job.DetailJob? {
        ReconciledDetail(g, s, p, events, now, forNew, id);
      }
    }
    forall k | k in t.details && t.details[k].attempt.currentlyRunning ensures k in t.jobs && t.jobs[k].job.DetailJob? {
      ReconciledDetail(g, s, p, events, now, forNew, k);
    }
  }

  lemma {:induction false} ReconcileInv(g: Config, s: State, p: string, events: seq<Event>, now: int, forNew: string -> nat)
    requires Inv(g, s) && p in s.providers && OwnEvents(events, p) && NoDetailJob(s, p)
    ensures Inv(g, Reconcile(g, s, p, events, now, forNew))
  {
    var t := Reconcile(g, s, p, events, now, forNew);
    ReconcileCatalogued(g, s, p, events, now, forNew);
    ReconcileLinked(g, s, p, events, now, forNew);
    assert t.providers == s.providers && t.jobs == s.jobs;
    forall q | q in t.providers
      ensures ProviderOk(t, q)
      ensures t.providers[q].cooldownUntil.Some? ==>
                !HasJob(t, q) && t.providers[q].consecutiveFailures >= g.failureThreshold
    {
      assert ProviderOk(s, q);
      assert HasJob(s, q) == HasJob(t, q);
    }
  }

  lemma {:induction false} OwnMeans(events: seq<Event>, p: string)
    ensures OwnEvents(Own(events, p), p)
  {
    if events != [] { OwnMeans(events[..|events| - 1], p); }
  }

  lemma {:induction false} ReconcileAllInv(g: Config, s: State, names: seq<string>, events: seq<Event>, now: int, forNew: string -> nat)
    requires Inv(g, s) && s.jobs == map[] && (forall p :: p in names ==> p in s.providers)
    ensures Inv(g, ReconcileAll(g, s, names, events, now, forNew))
    ensures ReconcileAll(g, s, names, events, now, forNew).jobs == map[]
    ensures ReconcileAll(g, s, names, events, now, forNew).providers == s.providers
    decreases |names|
  {
    if names != [] {
      var n := |names| - 1;
      ReconcileAllInv(g, s, names[..n], events, now, forNew);
      OwnMeans(events, names[n]);
      ReconcileInv(g, ReconcileAll(g, s, names[..n], events, now, forNew), names[n], Own(events, names[n]), now, forNew);
    }
  }

  lemma {:induction false} RestoreCatalogInv(g: Config, s: State, events: seq<Event>, now: int, forNew: string -> nat)
    requires Inv(g, s) && (forall p :: p in g.names ==> p in s.providers)
    ensures Inv(g, RestoreCatalog(g, s, events, now, forNew))
  {
    if !s.enabled && s.jobs.Keys == {} {
      assert s.jobs == map[];
      ReconcileAllInv(g, s, g.names, events, now, forNew);
    }
  }

  // --- Completion ------------------------------------------------------------

  /** The job's own object is current, as `JobLinked` says. */
  ghost predicate Anchored(s: State, id: JobId) {
    && id in s.jobs && IdOf(s.jobs[id].job) == id && s.jobs[id].job.provider in s.providers
    && (s.stopping ==> !s.enabled)
  }

  lemma {:induction false} LinkedAnchored(s: State, id: JobId)
    requires Core(s) && id in s.jobs
    ensures Anchored(s, id)
  {
    assert JobLinked(s, id);
  }

  /** Settling frees the provider. */
  lemma {:induction false} SettledHasJob(s: State, id: JobId, q: string)
    requires OneJob(s) && id in s.jobs && s.jobs[id].job.provider in s.providers
    ensures HasJob(Settle(s, id), q) <==> HasJob(s, q) && q != id.0
  {
    var t := Settle(s, id);
    assert t.jobs == s.jobs - {id};
    if j :| j in s.jobs && j.0 == q && q != id.0 { assert j in t.jobs; }
  }

  lemma {:induction false} SettleDetailMap(s: State, id: JobId)
    requires Anchored(s, id)
    ensures var t := Settle(s, id);
            && t.details.Keys == s.details.Keys
            && (forall k :: k in s.details && k != id ==> t.details[k] == s.details[k])
            && (id in s.details ==> SameEvent(t.details[id], s.details[id]))
            && (s.jobs[id].job.ListJob? ==> t.details == s.details)
            && (s.jobs[id].job.DetailJob? && id in s.details && s.details[id].uid == s.jobs[id].uid ==>
                  t.details[id].attempt == s.details[id].attempt.(currentlyRunning := false))
  {
    var r := s.jobs[id];
    var ds := SetAttempt(s, r, AttemptOf(s, r).(currentlyRunning := false)).details;
    assert Settle(s, id).details == ds;
  }

  lemma {:induction false} SettleShape(s: State, id: JobId)
    requires Anchored(s, id)
    ensures var t := Settle(s, id);
            && t.jobs == s.jobs - {id} && t.catalog == s.catalog && t.generation == s.generation
            && t.providers.Keys == s.providers.Keys && t.details.Keys == s.details.Keys
            && (forall q :: q in s.providers && q != id.0 ==> t.providers[q] == s.providers[q])
            && (forall k :: k in s.details && k != id ==> t.details[k] == s.details[k])
            && (id in s.details ==> SameEvent(t.details[id], s.details[id]))
  {
    SettleDetailMap(s, id);
  }

  lemma {:induction false} SettleTables(s: State, id: JobId)
    requires Catalogued(s) && OneJob(s) && Anchored(s, id)
    ensures var t := Settle(s, id); Catalogued(t) && OneJob(t) && (t.stopping ==> !t.enabled)
  {
    var t := Settle(s, id);
    SettleShape(s, id);
    forall k | k in t.details
      ensures k.0 in t.providers && t.details[k].uid < t.generation
      ensures k in t.catalog && t.catalog[k].provider == k.0 && t.catalog[k].eventId == k.1
      ensures t.details[k].startsAt == t.catalog[k].startsAt && t.details[k].esport == t.catalog[k].esport
    {
      assert k in s.details;
    }
  }

  lemma {:induction false} SettleLinked(s: State, id: JobId)
    requires JobsLinked(s) && OneJob(s) && Anchored(s, id)
    ensures JobsLinked(Settle(s, id))
  {
    var t := Settle(s, id);
    SettleShape(s, id);
    forall j | j in t.jobs ensures JobLinked(t, j) {
      assert j in s.jobs && JobLinked(s, j) && j.0 != id.0;
      OtherLinked(s, t, j);
    }
  }

  /** A job stays linked while its record, its provider and its detail are untouched. */
  lemma {:induction false} OtherLinked(s: State, t: State, j: JobId)
    requires j in s.jobs && JobLinked(s, j) && j in t.jobs && t.jobs[j] == s.jobs[j]
    requires j.0 in s.providers && j.0 in t.providers && t.providers[j.0] == s.providers[j.0]
    requires j in s.details ==> j in t.details && t.details[j] == s.details[j]
    ensures JobLinked(t, j)
  {
  }

  lemma {:induction false} SettleDetails(s: State, id: JobId)
    requires Core(s) && id in s.jobs && s.jobs[id].job.provider in s.providers
    ensures DetailsOk(Settle(s, id))
  {
    var t := Settle(s, id);
    LinkedAnchored(s, id);
    SettleShape(s, id);
    forall k | k in t.details && t.details[k].attempt.currentlyRunning ensures k in t.jobs && t.jobs[k].job.DetailJob? {
      assert k in s.details.Keys;
      SettledDetail(s, id, k);
    }
  }

  lemma {:induction false} SettledDetail(s: State, id: JobId, k: Key)
    requires Core(s) && id in s.jobs && s.jobs[id].job.provider in s.providers
    requires k in s.details && k in Settle(s, id).details && Settle(s, id).details[k].attempt.currentlyRunning
    ensures s.details[k].attempt.currentlyRunning && k != id
  {
    LinkedAnchored(s, id);
    SettleShape(s, id);
    assert JobLinked(s, id);
    assert s.details[k].attempt.currentlyRunning ==> k in s.jobs && s.jobs[k].job.DetailJob?;
  }

  lemma {:induction false} SettleProviders(s: State, id: JobId)
    requires Core(s) && id in s.jobs && s.jobs[id].job.provider in s.providers
    ensures ProvidersOk(Settle(s, id))
  {
    var t := Settle(s, id);
    LinkedAnchored(s, id);
    SettleShape(s, id);
    assert JobLinked(s, id);
    forall q | q in t.providers ensures ProviderOk(t, q) {
      assert q in s.providers.Keys && ProviderOk(s, q);
      SettledHasJob(s, id, q);
      if q == id.0 { assert HasJob(s, q); }
    }
  }

  /** u is the state just before the `finally` block: the job's provider may have
      entered a cooldown of its own. */
  lemma {:induction false} SettleInv(g: Config, s: State, u: State, id: JobId)
    requires Inv(g, s) && Retains(s, u) && id in s.jobs && s.jobs[id].job.provider in s.providers
    requires forall q :: q in s.providers && q != id.0 ==> u.providers[q] == s.providers[q]
    requires id.0 in u.providers && (u.providers[id.0].cooldownUntil.Some? ==> u.providers[id.0].consecutiveFailures >= g.failureThreshold)
    ensures s.jobs[id].job.provider in u.providers && Inv(g, Settle(u, id))
  {
    RetainsCore(s, u);
    LinkedAnchored(u, id);
    SettleTables(u, id);
    SettleLinked(u, id);
    SettleDetails(u, id);
    SettleProviders(u, id);
    SettleShape(u, id);
    var t := Settle(u, id);
    assert JobLinked(u, id);
    forall q | q in t.providers && t.providers[q].cooldownUntil.Some?
      ensures !HasJob(t, q) && t.providers[q].consecutiveFailures >= g.failureThreshold
    {
      assert q in u.providers.Keys;
      SettledHasJob(u, id, q);
      if q != id.0 { assert HasJob(s, q) == HasJob(u, q); }
    }
  }

  /** t is s up to Retains, and only the job's provider changed among providers. */
  ghost predicate SettlesLike(s: State, t: State, id: JobId) {
    && Retains(s, t) && id in s.jobs && id.0 in t.providers
    && (forall q :: q in s.providers && q != id.0 ==> t.providers[q] == s.providers[q])
    && (forall k :: k in s.details && k != id ==> t.details[k] == s.details[k])
    && (s.jobs[id].job.ListJob? ==> t.details == s.details)
    && t.stopping == s.stopping && t.trace == s.trace
  }

  lemma {:induction false} AdjustRetains(s: State, id: JobId, a: Attempt, ps: ProviderState)
    requires Anchored(s, id) && SameBookkeeping(a, AttemptOf(s, s.jobs[id]))
    requires SameCounters(ps, SetAttempt(s, s.jobs[id], a).providers[id.0])
    ensures SettlesLike(s, SetProvider(SetAttempt(s, s.jobs[id], a), id.0, ps), id)
  {
    SameProvidersUpdate(s.providers, id.0, ps);
    AdjustedProviders(s, id, a, ps);
    AdjustedDetails(s, id, a);
  }

  lemma {:induction false} AdjustedProviders(s: State, id: JobId, a: Attempt, ps: ProviderState)
    requires Anchored(s, id)
    ensures var t := SetProvider(SetAttempt(s, s.jobs[id], a), id.0, ps);
            && t.providers == s.providers[id.0 := ps]
            && t.details == SetAttempt(s, s.jobs[id], a).details
            && t.jobs == s.jobs && t.catalog == s.catalog && t.generation == s.generation
            && t.enabled == s.enabled && t.stopping == s.stopping && t.trace == s.trace
  {
  }

  lemma {:induction false} AdjustedDetails(s: State, id: JobId, a: Attempt)
    requires Anchored(s, id) && SameBookkeeping(a, AttemptOf(s, s.jobs[id]))
    ensures SameDetails(s.details, SetAttempt(s, s.jobs[id], a).details)
  {
    if s.jobs[id].job.DetailJob? && id in s.details && s.details[id].uid == s.jobs[id].uid {
      SameDetailsUpdate(s.details, id, s.details[id].(attempt := a));
    }
  }

  lemma {:induction false} CreditRetains(g: Config, s: State, id: JobId, now: int, d: Draws)
    requires Anchored(s, id)
    ensures SettlesLike(s, Credit(g, s, id, now, d), id) && Credit(g, s, id, now, d).providers[id.0].cooldownUntil.None?
  {
    var r := s.jobs[id];
    var a := Credited(g, s, r, now, d);
    AdjustRetains(s, id, a, SetAttempt(s, r, a).providers[id.0].(consecutiveFailures := 0, cooldownUntil := None));
  }

  lemma {:induction false} PenalisedRetains(g: Config, s: State, id: JobId, fault: Fault, now: int, own: nat)
    requires g.Valid() && Anchored(s, id) && !fault.EventStarted?
    requires s.providers[id.0].cooldownUntil.None?
    ensures SettlesLike(s, Penalised(g, s, id, fault, now, own), id)
    ensures var ps := Penalised(g, s, id, fault, now, own).providers[id.0];
            ps.cooldownUntil.Some? ==> ps.consecutiveFailures >= g.failureThreshold
  {
    var r := s.jobs[id];
    var a := FailedAttempt(g, AttemptOf(s, r), r, fault, now, own);
    AdjustRetains(s, id, a, Charged(g, SetAttempt(s, r, a).providers[id.0], ResetsContext(r, fault), now, a.failureCount));
  }

  lemma {:induction false} HaltedRetains(s: State, id: JobId)
    requires Anchored(s, id)
    ensures SettlesLike(s, Halted(s, id), id)
    ensures Halted(s, id).providers[id.0].cooldownUntil == s.providers[id.0].cooldownUntil
    ensures Halted(s, id).providers[id.0].consecutiveFailures == s.providers[id.0].consecutiveFailures
  {
    var r := s.jobs[id];
    var a := AttemptOf(s, r).(nextRunAt := None);
    if r.job.ListJob? {
      SameProvidersUpdate(s.providers, id.0, s.providers[id.0].(list := a));
    } else if id in s.details && s.details[id].uid == r.uid {
      var d := s.details[id].(attempt := a);
      SameDetailsUpdate(s.details, id, d.(preGameStopped := true));
      assert s.details[id := d][id := d.(preGameStopped := true)] == s.details[id := d.(preGameStopped := true)];
    }
  }

  lemma {:induction false} SucceedInv(g: Config, s: State, id: JobId, events: seq<Event>, now: int, d: Draws)
    requires Inv(g, s) && id in s.jobs && s.jobs[id].job.provider in s.providers
    requires OwnEvents(events, s.jobs[id].job.provider)
    ensures Inv(g, Succeed(g, s, id, events, now, d))
  {
    LinkedAnchored(s, id);
    if s.jobs[id].job.ListJob? {
      AfterListingInv(g, s, id, events, now, d);
      SucceedTail(g, AfterListing(g, s, id, events, now, d), id, now, d);
    } else {
      SucceedTail(g, s, id, now, d);
    }
  }

  lemma {:induction false} AfterListingInv(g: Config, s: State, id: JobId, events: seq<Event>, now: int, d: Draws)
    requires Inv(g, s) && Anchored(s, id) && s.jobs[id].job.ListJob? && OwnEvents(events, id.0)
    ensures Inv(g, AfterListing(g, s, id, events, now, d)) && Anchored(AfterListing(g, s, id, events, now, d), id)
  {
    assert NoDetailJob(s, id.0);
    ReconcileInv(g, s, id.0, events, now, d.forNew);
    var t := Reconcile(g, s, id.0, events, now, d.forNew);
    assert t.providers == s.providers && t.jobs == s.jobs;
    ReadyInv(g, t, id.0);
  }

  lemma {:induction false} ReadyInv(g: Config, t: State, p: string)
    requires Inv(g, t) && p in t.providers
    ensures Inv(g, SetProvider(t, p, t.providers[p].(contextReady := true)))
  {
    SameProvidersUpdate(t.providers, p, t.providers[p].(contextReady := true));
    RetainsInv(g, t, SetProvider(t, p, t.providers[p].(contextReady := true)));
  }

  lemma {:induction false} SucceedTail(g: Config, s: State, id: JobId, now: int, d: Draws)
    requires Inv(g, s) && Anchored(s, id)
    ensures var t := Credit(g, s, id, now, d);
            && t.jobs == s.jobs && s.jobs[id].job.provider in t.providers
            && Inv(g, Note(Settle(t, id), Succeeded(s.jobs[id].job, now)))
  {
    CreditRetains(g, s, id, now, d);
    SettleInv(g, s, Credit(g, s, id, now, d), id);
    NoteInv(g, Settle(Credit(g, s, id, now, d), id), Succeeded(s.jobs[id].job, now));
  }

  lemma {:induction false} FailInv(g: Config, s: State, id: JobId, fault: Fault, now: int, own: nat)
    requires g.Valid() && Inv(g, s) && id in s.jobs && s.jobs[id].job.provider in s.providers && !fault.EventStarted?
    ensures Inv(g, Fail(g, s, id, fault, now, own))
  {
    LinkedAnchored(s, id);
    BusyNotCooling(g, s, id);
    PenalisedRetains(g, s, id, fault, now, own);
    var t := Penalised(g, s, id, fault, now, own);
    SettleInv(g, s, t, id);
    NoteInv(g, Settle(t, id), Fail(g, s, id, fault, now, own).trace[|Settle(t, id).trace|]);
  }

  lemma {:induction false} BusyNotCooling(g: Config, s: State, id: JobId)
    requires CooldownOk(g, s) && id in s.jobs && id.0 in s.providers
    ensures s.providers[id.0].cooldownUntil.None?
  {
    assert HasJob(s, id.0);
  }

  lemma {:induction false} StopDetailInv(g: Config, s: State, id: JobId, now: int)
    requires Inv(g, s) && id in s.jobs && s.jobs[id].job.provider in s.providers
    ensures Inv(g, StopDetail(s, id, now))
  {
    LinkedAnchored(s, id);
    HaltedRetains(s, id);
    SettleInv(g, s, Halted(s, id), id);
    NoteInv(g, Settle(Halted(s, id), id), EventOver(s.jobs[id].job, now));
  }

  lemma {:induction false} CancelInv(g: Config, s: State, id: JobId, now: int)
    requires Inv(g, s) && id in s.jobs && s.jobs[id].job.provider in s.providers
    ensures Inv(g, Cancel(s, id, now))
  {
    assert JobLinked(s, id);
    assert Retains(s, s);
    SettleInv(g, s, s, id);
    NoteInv(g, Settle(s, id), Cancelled(s.jobs[id].job, now));
  }

  lemma {:induction false} CompleteInv(g: Config, s: State, id: JobId, outcome: Outcome, now: int, d: Draws)
    requires g.Valid() && Inv(g, s) && id in s.jobs && s.jobs[id].job.provider in s.providers
    requires outcome.Returned? ==> OwnEvents(outcome.events, s.jobs[id].job.provider)
    ensures Inv(g, Complete(g, s, id, outcome, now, d))
  {
    var r := s.jobs[id];
    if outcome.Returned? && (r.committing || r.abort.None?) {
      SucceedInv(g, s, id, outcome.events, now, d);
    } else {
      var fault := if outcome.Threw? then outcome.fault else Ordinary("Error");
      if fault.EventStarted? {
        StopDetailInv(g, s, id, now);
      } else if s.stopping && r.abort == Some(Shutdown) {
        CancelInv(g, s, id, now);
      } else {
        FailInv(g, s, id, fault, now, d.own);
      }
    }
  }

  function AfterTurn(s: State, job: Option<Job>, now: int): State {
    if job.Some? && job.value.provider in s.providers then Launch(s, job.value, now) else s
  }

  /** One provider's turn: perhaps a probe, then at most one launch. */
  lemma {:induction false} TurnIs(s: State, p: string, now: int) returns (s1: State, job: Option<Job>)
    requires p in s.providers
    ensures s1 == s || s1 == Probe(s, p, now)
    ensures job.Some? ==> job.value.provider == p
    ensures TickProvider(s, p, now) == AfterTurn(s1, job, now)
  {
    var ps := s.providers[p];
    if ps.activeJobs >= ps.effectiveConcurrency || (ps.cooldownUntil.Some? && now < ps.cooldownUntil.value) {
      s1, job := s, None;
    } else {
      s1 := if ps.cooldownUntil.Some? then Probe(s, p, now) else s;
      NextDetailMeans(s1.details, p, now);
      var next := NextDetail(s1.details, p, now);
      job := if Due(s1.providers[p].list, now) then Some(ListJob(p))
             else if !s1.providers[p].contextReady || next.None? then None
             else Some(DetailJob(p, next.value.1, s1.details[next.value].esport));
    }
  }
}
