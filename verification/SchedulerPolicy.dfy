/** When collections run, read off what is stored: which times recalculation and the end
    of a job set, and which job a turn launches (adaptive-scheduler.ts,
    scheduling-policy.ts). */
module SchedulerPolicy {
  import opened Domain
  import opened Texts
  import opened SchedulerModel
  import opened SchedulerInvariants
  import SchedulerOutcomes

  // --- Recalculation ---------------------------------------------------------

  /** The event may still be collected: it is ahead, not under way and neither over nor live. */
  predicate Ahead(e: Event, now: int) {
    e.startsAt.Some? && now < e.startsAt.value && e.inPlay != Some(true) && e.status in {Status.Scheduled, Status.Suspended}
  }

  /** `next` is `from` plus the interval for an event that starts in r milliseconds. */
  predicate InBand(v: Intervals, r: int, from: int, next: int) {
    && (r > 86_400_000 ==> next == from + v.gt24h)
    && (21_600_000 <= r <= 86_400_000 ==> next == from + v.h6to24)
    && (3_600_000 <= r < 21_600_000 ==> next == from + v.h1to6)
    && (r < 3_600_000 ==> next == from + v.lt1h)
  }

  /** Recalculation changes nothing but next runs. A stopped detail, or one whose event
      is not ahead, loses its own; one with failures keeps it; one never attempted is due
      at once unless it was scheduled; and any other is due one interval, by the band of
      its start, after its last attempt. */
  lemma {:induction false} RecalculatedDetails(g: Config, s: State, now: int, k: Key)
    requires Catalogued(s) && k in s.details
    ensures var t := Recalculate(g, s, now);
            && t == s.(details := t.details) && t.details.Keys == s.details.Keys
            && var a, b := s.details[k].attempt, t.details[k].attempt;
               && t.details[k] == s.details[k].(attempt := a.(nextRunAt := b.nextRunAt))
               && (s.details[k].preGameStopped || !Ahead(s.catalog[k], now) ==> b.nextRunAt == None)
               && (!s.details[k].preGameStopped && Ahead(s.catalog[k], now) ==>
                     && (a.failureCount > 0 ==> b.nextRunAt == a.nextRunAt)
                     && (a.failureCount == 0 ==>
                           && b.nextRunAt.Some?
                           && (a.lastAttemptAt.None? && a.nextRunAt.None? ==> b.nextRunAt.value == now)
                           && (a.lastAttemptAt.None? && a.nextRunAt.Some? ==> b.nextRunAt == a.nextRunAt)
                           && (a.lastAttemptAt.Some? ==>
                                 InBand(g.detail, s.catalog[k].startsAt.value - now, a.lastAttemptAt.value, b.nextRunAt.value))))
  {
    DetailIntervalBands(s.details[k].startsAt, now, g.detail);
  }

  // --- A new listing ---------------------------------------------------------

  /** Listing i is the last with the identifier. */
  ghost predicate LastListed(events: seq<Event>, id: string, i: int) {
    0 <= i < |events| && events[i].eventId == id && forall j :: i < j < |events| ==> events[j].eventId != id
  }

  lemma {:induction false} ListingIsLast(p: string, events: seq<Event>, id: string)
    ensures (p, id) in Listing(p, events) <==> exists i :: LastListed(events, id, i)
    ensures (p, id) in Listing(p, events) ==> exists i :: LastListed(events, id, i) && Listing(p, events)[(p, id)] == events[i]
  {
    if events != [] {
      var n := |events| - 1;
      ListingIsLast(p, events[..n], id);
      if events[n].eventId == id {
        assert LastListed(events, id, n);
      } else {
        if i :| LastListed(events[..n], id, i) { assert LastListed(events, id, i); }
        if i :| LastListed(events, id, i) { assert LastListed(events[..n], id, i); }
        if (p, id) in Listing(p, events) {
          var i :| LastListed(events[..n], id, i) && Listing(p, events[..n])[(p, id)] == events[..n][i];
          assert LastListed(events, id, i) && Listing(p, events)[(p, id)] == events[i];
        }
      }
    }
  }

  /** The provider's schedule after a listing is that of the listed events, each with its
      last listed state; other providers keep theirs. */
  lemma {:induction false} ListingReplaces(g: Config, s: State, p: string, events: seq<Event>, now: int, forNew: string -> nat, k: Key)
    requires Catalogued(s)
    ensures var t := Reconcile(g, s, p, events, now, forNew);
            && (k in t.details <==> k in t.catalog)
            && (k.0 == p ==> (k in t.catalog <==> exists i :: LastListed(events, k.1, i)))
            && (k.0 == p && k in t.catalog ==> exists i :: LastListed(events, k.1, i) && t.catalog[k] == events[i])
            && (k.0 != p ==> (k in t.catalog <==> k in s.catalog) && (k in t.catalog ==> t.catalog[k] == s.catalog[k]))
  {
    ListingMeans(p, events);
    ListingIsLast(p, events, k.1);
    ReconcileKeys(g, s, p, events, now, forNew);
  }

  /** An event listed for the first time has never been attempted and is due at once, if
      it can still be collected at all. */
  lemma {:induction false} NewDetailIsDue(g: Config, s: State, p: string, events: seq<Event>, now: int, forNew: string -> nat, k: Key)
    requires Catalogued(s) && k !in s.details && k in Reconcile(g, s, p, events, now, forNew).details
    ensures var t := Reconcile(g, s, p, events, now, forNew);
            && k in t.catalog
            && var d := t.details[k];
               && d.attempt.lastAttemptAt.None? && d.attempt.lastSuccessAt.None? && d.attempt.lastError.None?
               && d.attempt.failureCount == 0 && !d.attempt.currentlyRunning && !d.preGameStopped
               && d.startsAt == t.catalog[k].startsAt && d.esport == t.catalog[k].esport && d.attempt.jitter == forNew(k.1)
               && d.attempt.nextRunAt == if Ahead(t.catalog[k], now) then Some(now) else None
  {
    ReconciledDetail(g, s, p, events, now, forNew, k);
  }

  /** An event listed again keeps its attempts; a stop stays on it exactly while its start
      does not move. */
  lemma {:induction false} KnownDetailKept(g: Config, s: State, p: string, events: seq<Event>, now: int, forNew: string -> nat, k: Key)
    requires Catalogued(s) && k in s.details && k in Reconcile(g, s, p, events, now, forNew).details
    ensures var t := Reconcile(g, s, p, events, now, forNew);
            && k in t.catalog
            && var b, a := t.details[k], s.details[k];
               && b.attempt == a.attempt.(nextRunAt := b.attempt.nextRunAt) && b.uid == a.uid
               && b.startsAt == t.catalog[k].startsAt && b.esport == t.catalog[k].esport
               && (b.preGameStopped <==> a.preGameStopped && (k.0 == p ==> t.catalog[k].startsAt == a.startsAt))
  {
    ReconciledDetail(g, s, p, events, now, forNew, k);
  }

  // --- Which job a turn launches ---------------------------------------------

  /** Due: idle, scheduled, and the jitter has passed too. */
  predicate Ripe(a: Attempt, now: int) {
    a.nextRunAt.Some? && a.nextRunAt.value + a.jitter <= now && !a.currentlyRunning
  }

  predicate RipeDetail(s: State, p: string, now: int, k: Key) { k in s.details && k.0 == p && Ripe(s.details[k].attempt, now) }

  /** When the detail's event starts; an unparsable start counts as 0. */
  function StartTime(s: State, k: Key): int
    requires k in s.details
  {
    match s.details[k].startsAt
    case Some(x) => x
    case None => 0
  }

  /** No due detail of the provider starts earlier, and of those that start with it none
      has a lesser identifier. */
  ghost predicate StartsFirst(s: State, p: string, now: int, k: Key) {
    && RipeDetail(s, p, now, k)
    && forall l :: RipeDetail(s, p, now, l) && l != k ==>
         StartTime(s, k) < StartTime(s, l) || (StartTime(s, k) == StartTime(s, l) && Lexical(k.1, l.1))
  }

  lemma {:induction false} FirstIsNext(s: State, p: string, now: int, k: Key)
    ensures IsNext(s.details, p, now, k) <==> StartsFirst(s, p, now, k)
  {
    forall l ensures DueDetail(s.details, p, now, l) <==> RipeDetail(s, p, now, l) {}
    if k in s.details {
      forall l | l in s.details
        ensures Before(s.details, k, l) <==>
                  StartTime(s, k) < StartTime(s, l) || (StartTime(s, k) == StartTime(s, l) && Lexical(k.1, l.1))
      {
        TextBeforeMeans(k.1, l.1);
      }
    }
  }

  /** The turn of a provider without a job and out of cooldown: a due listing is launched;
      otherwise, with its context ready, the first of its due details; otherwise nothing. */
  lemma {:induction false} TurnLaunches(s: State, p: string, now: int)
    requires Core(s) && p in s.providers && !HasJob(s, p) && s.providers[p].cooldownUntil.None?
    ensures var t, list := TickProvider(s, p, now), s.providers[p].list;
            && (Ripe(list, now) ==> t == Launch(s, ListJob(p), now))
            && (!Ripe(list, now) && (!s.providers[p].contextReady || !exists k :: RipeDetail(s, p, now, k)) ==> t == s)
            && (!Ripe(list, now) && s.providers[p].contextReady && (exists k :: RipeDetail(s, p, now, k)) ==>
                  exists k :: StartsFirst(s, p, now, k) && t == Launch(s, DetailJob(p, k.1, s.details[k].esport), now))
  {
    assert ProviderOk(s, p);
    forall l ensures DueDetail(s.details, p, now, l) <==> RipeDetail(s, p, now, l) {}
    if exists k :: RipeDetail(s, p, now, k) {
      var k0 :| RipeDetail(s, p, now, k0);
      assert DueDetail(s.details, p, now, k0);
      SchedulerOutcomes.NextExists(s.details, p, now);
      NextDetailMeans(s.details, p, now);
      FirstIsNext(s, p, now, NextDetail(s.details, p, now).value);
    } else {
      NextDetailMeans(s.details, p, now);
    }
  }

  // --- The end of a job ------------------------------------------------------

  /** A job's own attempt: it runs on the schedule object that is current, as every job of
      a run does (`SchedulerInvariants.JobLinked`). */
  ghost predicate OnCurrent(s: State, id: JobId) {
    && id in s.jobs && s.jobs[id].job.provider in s.providers && IdOf(s.jobs[id].job) == id
    && (s.jobs[id].job.DetailJob? ==> id in s.details && s.details[id].uid == s.jobs[id].uid)
  }

  /** A detail that succeeds is due one interval after its launch, or never again once its
      event has begun, and has no failures on record. */
  lemma {:induction false} DetailCredited(g: Config, s: State, id: JobId, events: seq<Event>, now: int, d: Draws)
    requires g.Valid() && OnCurrent(s, id) && s.jobs[id].job.DetailJob? && (s.jobs[id].committing || s.jobs[id].abort.None?)
    ensures var t, a := Complete(g, s, id, Returned(events), now, d), s.details[id].attempt;
            && id in t.details
            && var b := t.details[id].attempt;
               && b == a.(lastSuccessAt := Some(now), failureCount := 0, lastError := None, currentlyRunning := false, jitter := d.own, nextRunAt := b.nextRunAt)
               && (b.nextRunAt.Some? <==> s.details[id].startsAt.Some? && s.details[id].startsAt.value > now)
               && (b.nextRunAt.Some? ==> InBand(g.detail, s.details[id].startsAt.value - now, s.jobs[id].at, b.nextRunAt.value))
  {
    DetailIntervalBands(s.details[id].startsAt, now, g.detail);
  }

  /** A listing that succeeds is due one listing interval after its launch, and readies
      the provider; its failures are forgotten, the provider's included. */
  lemma {:induction false} ListingCredited(g: Config, s: State, id: JobId, events: seq<Event>, now: int, d: Draws)
    requires g.Valid() && OnCurrent(s, id) && s.jobs[id].job.ListJob? && (s.jobs[id].committing || s.jobs[id].abort.None?)
    ensures var t, p := Complete(g, s, id, Returned(events), now, d), s.jobs[id].job.provider;
            && p in t.providers
            && t.providers[p].list == s.providers[p].list.(lastSuccessAt := Some(now), failureCount := 0, lastError := None, jitter := d.own,
                                                           currentlyRunning := false, nextRunAt := Some(s.jobs[id].at + g.listIntervalMs))
            && t.providers[p].contextReady && t.providers[p].consecutiveFailures == 0 && t.providers[p].cooldownUntil == None
  {
  }

  /** The wait after the n-th failure in a row: the n-th step, or the last. */
  ghost predicate IsStep(steps: seq<nat>, n: nat, wait: nat) {
    && n >= 1 && steps != []
    && (n <= |steps| ==> wait == steps[n - 1])
    && (n > |steps| ==> wait == steps[|steps| - 1])
  }

  /** The failing job's provider afterwards. `lost` says that its context is gone; then
      discovery waits until `retry`, or longer if it was not due before. */
  ghost predicate ProviderCharged(g: Config, ps: ProviderState, qs: ProviderState, lost: bool, retry: int, now: int) {
    && qs.contextReady == (ps.contextReady && !lost)
    && qs.consecutiveFailures == ps.consecutiveFailures + 1
    && (ps.consecutiveFailures + 1 >= g.failureThreshold ==> qs.cooldownUntil == Some(now + g.cooldownMs))
    && (ps.consecutiveFailures + 1 < g.failureThreshold ==> qs.cooldownUntil == ps.cooldownUntil)
    && (!lost ==> qs.list == ps.list)
    && (lost ==>
          var earlier := if ps.list.nextRunAt.Some? then ps.list.nextRunAt.value else 0;
          qs.list == ps.list.(nextRunAt := Some(if earlier <= retry then retry else earlier)))
  }

  lemma {:induction false} StepOf(g: Config, failures: nat) returns (wait: nat)
    requires g.Valid()
    ensures wait == Backoff(failures + 1, g.backoffMs) && IsStep(g.backoffMs, failures + 1, wait)
  {
    wait := Backoff(failures + 1, g.backoffMs);
    BackoffSteps(failures + 1, g.backoffMs);
  }

  /** The job ends as a failure: it brings no result in time, its event has not begun, and
      shutdown did not cancel it. */
  predicate Fails(s: State, id: JobId, outcome: Outcome)
    requires id in s.jobs
  {
    var r := s.jobs[id];
    && !(outcome.Returned? && (r.committing || r.abort.None?))
    && outcome != Threw(EventStarted)
    && !(s.stopping && r.abort == Some(Shutdown))
  }

  function FaultOf(outcome: Outcome): Fault { if outcome.Threw? then outcome.fault else Ordinary("Error") }

  lemma {:induction false} FailureIs(g: Config, s: State, id: JobId, outcome: Outcome, now: int, d: Draws)
    requires g.Valid() && OnCurrent(s, id) && Fails(s, id, outcome)
    ensures !FaultOf(outcome).EventStarted?
    ensures Complete(g, s, id, outcome, now, d) == Fail(g, s, id, FaultOf(outcome), now, d.own)
  {
  }

  lemma {:induction false} ChargedMeans(g: Config, ps: ProviderState, lost: bool, now: int, failures: nat, wait: nat)
    requires g.Valid() && wait == Backoff(failures, g.backoffMs)
    ensures ProviderCharged(g, ps, Charged(g, ps, lost, now, failures), lost, now + wait, now)
  {
  }

  /** The failing detail and its provider, before the job leaves the table. */
  lemma {:induction false} PenalisedMeans(g: Config, s: State, id: JobId, fault: Fault, now: int, own: nat, wait: nat)
    requires g.Valid() && OnCurrent(s, id) && s.jobs[id].job.DetailJob? && !fault.EventStarted?
    requires wait == Backoff(s.details[id].attempt.failureCount + 1, g.backoffMs)
    ensures var t, r, p, a := Penalised(g, s, id, fault, now, own), s.jobs[id], s.jobs[id].job.provider, s.details[id].attempt;
            && t.jobs == s.jobs && p in t.providers && id in t.details && t.details[id].uid == r.uid
            && t.details[id].attempt == a.(failureCount := a.failureCount + 1, nextRunAt := Some(now + wait), jitter := own,
                                           lastError := t.details[id].attempt.lastError)
            && t.providers[p] == Charged(g, s.providers[p], r.abort.Some? || fault.Transport?, now, a.failureCount + 1)
  {
  }

  /** A detail that fails has one failure more and is retried after the step for that
      many in a row. The context is lost on an abort or a transport fault. */
  lemma {:induction false} DetailPenalised(g: Config, s: State, id: JobId, outcome: Outcome, now: int, d: Draws)
    returns (wait: nat)
    requires g.Valid() && OnCurrent(s, id) && s.jobs[id].job.DetailJob? && Fails(s, id, outcome)
    ensures IsStep(g.backoffMs, s.details[id].attempt.failureCount + 1, wait)
    ensures var t, r, p, a := Complete(g, s, id, outcome, now, d), s.jobs[id], s.jobs[id].job.provider, s.details[id].attempt;
            && p in t.providers && id in t.details
            && t.details[id].attempt == a.(failureCount := a.failureCount + 1, nextRunAt := Some(now + wait), jitter := d.own, currentlyRunning := false,
                                           lastError := t.details[id].attempt.lastError)
            && ProviderCharged(g, s.providers[p], t.providers[p], r.abort.Some? || (outcome.Threw? && outcome.fault.Transport?), now + wait, now)
  {
    var r, fault := s.jobs[id], FaultOf(outcome);
    wait := StepOf(g, s.details[id].attempt.failureCount);
    FailureIs(g, s, id, outcome, now, d);
    PenalisedMeans(g, s, id, fault, now, d.own, wait);
    ChargedMeans(g, s.providers[r.job.provider], r.abort.Some? || fault.Transport?, now, s.details[id].attempt.failureCount + 1, wait);
    SettledMeans(Penalised(g, s, id, fault, now, d.own), id);
  }

  lemma {:induction false} SettledMeans(s: State, id: JobId)
    requires OnCurrent(s, id) && s.jobs[id].job.DetailJob?
    ensures var t, p := Settle(s, id), s.jobs[id].job.provider;
            && id in t.details && t.details[id].attempt == s.details[id].attempt.(currentlyRunning := false)
            && p in t.providers && t.providers[p] == s.providers[p].(activeJobs := s.providers[p].activeJobs - 1)
  {
  }

  /** A listing that fails loses the context and is retried after its own step. */
  lemma {:induction false} ListingPenalised(g: Config, s: State, id: JobId, outcome: Outcome, now: int, d: Draws)
    returns (wait: nat)
    requires g.Valid() && OnCurrent(s, id) && s.jobs[id].job.ListJob? && Fails(s, id, outcome)
    ensures IsStep(g.backoffMs, s.providers[s.jobs[id].job.provider].list.failureCount + 1, wait)
    ensures var t, p := Complete(g, s, id, outcome, now, d), s.jobs[id].job.provider;
            && p in t.providers
            && var a, b := s.providers[p].list, t.providers[p].list;
               && b == a.(failureCount := a.failureCount + 1, nextRunAt := Some(now + wait), jitter := d.own, currentlyRunning := false, lastError := b.lastError)
               && !t.providers[p].contextReady && t.providers[p].consecutiveFailures == s.providers[p].consecutiveFailures + 1
  {
    wait := StepOf(g, s.providers[s.jobs[id].job.provider].list.failureCount);
  }
}
