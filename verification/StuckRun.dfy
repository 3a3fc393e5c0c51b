/** A run of the scheduler that ends with an eligible event stuck: one failing attempt,
    and a later start announced only after the first one has passed. */
module StuckRun {
  import opened Domain
  import opened SchedulerModel
  import opened SchedulerInvariants
  import opened SchedulerTrace
  import opened SchedulerRuns
  import opened SchedulerOutcomes
  import opened StuckDetails

  const ONE: Config := Config(["blaze"], 0, 300_000, Intervals(3_600_000, 1_800_000, 300_000, 60_000), 5, 300_000, [30_000])
  const NONE: Draws := Draws(0, x => 0)
  const K: Key := ("blaze", "1")
  const DETAIL: Job := DetailJob("blaze", "1", Cs2)

  /** The event, announced for the second after the start or for an hour later. */
  function Announced(at: int): Event {
    Event("blaze", "1", Cs2, "a", "b", "t", Some(at), Some(0), Scheduled, Some(false), "")
  }

  const EARLY: int := 1_000
  const LATE: int := 3_600_000

  /** Discovery, one failing attempt, and a second discovery after the announced start
      that brings a later one. */
  const RUN: seq<Move> := [
    Move(StartUp(NONE), 0),
    Move(Ticks, 0),
    Move(Completes(("blaze", "list"), Returned([Announced(EARLY)]), NONE), 0),
    Move(Ticks, 0),
    Move(Completes(K, Threw(Ordinary("Error")), NONE), 0),
    Move(Ticks, 300_000),
    Move(Completes(("blaze", "list"), Returned([Announced(LATE)]), NONE), 300_000)]

  /** A state of the one provider with at most its one event and one job. */
  function Shape(ps: ProviderState, d: Option<Detail>, at: int, r: Option<Running>, gen: nat, t: Trace): State {
    State(map["blaze" := ps],
          if d.Some? then map[K := d.value] else map[],
          if d.Some? then map[K := Announced(at)] else map[],
          if r.Some? then map[IdOf(r.value.job) := r.value] else map[],
          true, false, gen, t)
  }

  function Ready1(list: Attempt, failures: nat, ready: bool, active: int): ProviderState {
    ProviderState(list, failures, None, ready, active, 1)
  }

  lemma {:induction false} OneTick(s: State, now: int)
    requires s.providers.Keys == {"blaze"} && s.enabled && !s.stopping
    ensures Tick(ONE, s, now) == TickProvider(Recalculate(ONE, s, now), "blaze", now)
  {
    var u := Recalculate(ONE, s, now);
    assert ONE.names[..0] == [] && TickProviders(u, [], now) == u;
  }

  lemma {:induction false} RunStarts()
    ensures Next(ONE, Initial(ONE), RUN[0]) == Shape(Ready1(BLANK.(nextRunAt := Some(0)), 0, false, 0), None, 0, None, 0, [])
  {
    assert Initial(ONE).providers == map["blaze" := Ready1(BLANK, 0, false, 0)];
    assert Next(ONE, Initial(ONE), RUN[0]).providers == map["blaze" := Ready1(BLANK.(nextRunAt := Some(0)), 0, false, 0)];
  }

  /** The schedule of the event before, during and after its one attempt. */
  function Listed(next: Option<int>, at: int): Detail { Detail(BLANK.(nextRunAt := next), Cs2, Some(at), false, 0) }

  function Trying(at: int): Detail { Listed(Some(0), at).(attempt := BLANK.(nextRunAt := Some(0), currentlyRunning := true, lastAttemptAt := Some(0))) }

  function Tried(next: Option<int>, at: int): Detail {
    Listed(next, at).(attempt := BLANK.(nextRunAt := next, lastAttemptAt := Some(0), failureCount := 1, lastError := Some("Error")))
  }

  /** Recalculating the one event. */
  function Redone(d: Option<Detail>, at: int, now: int): Option<Detail> {
    if d.Some? then Some(RecalculatedDetail(ONE, d.value, Some(Announced(at)), now)) else None
  }

  lemma {:induction false} RecalculateShape(ps: ProviderState, d: Option<Detail>, at: int, r: Option<Running>, gen: nat, t: Trace, now: int)
    ensures Recalculate(ONE, Shape(ps, d, at, r, gen, t), now) == Shape(ps, Redone(d, at, now), at, r, gen, t)
  {
    var s := Shape(ps, d, at, r, gen, t);
    var u := Shape(ps, Redone(d, at, now), at, r, gen, t);
    assert Recalculate(ONE, s, now).details == u.details;
    assert u.catalog == s.catalog;
  }

  /** The listing falls due and is launched. */
  lemma {:induction false} ListingLaunched(list: Attempt, failures: nat, ready: bool, d: Option<Detail>, at: int, gen: nat, t: Trace, now: int)
    requires Due(list, now)
    ensures var s := Shape(Ready1(list, failures, ready, 0), d, at, None, gen, t);
            Next(ONE, s, Move(Ticks, now))
            == Shape(Ready1(list.(currentlyRunning := true, lastAttemptAt := Some(now)), failures, ready, 1), Redone(d, at, now), at,
                     Some(Running(ListJob("blaze"), now, 0, false, None)), gen, t + [Started(ListJob("blaze"), now, None)])
  {
    var s := Shape(Ready1(list, failures, ready, 0), d, at, None, gen, t);
    OneTick(s, now);
    RecalculateShape(Ready1(list, failures, ready, 0), d, at, None, gen, t, now);
    var u := Recalculate(ONE, s, now);
    var v := Launch(u, ListJob("blaze"), now);
    var r := Running(ListJob("blaze"), now, 0, false, None);
    assert v.jobs == map[("blaze", "list") := r];
    assert v.providers == map["blaze" := Ready1(list.(currentlyRunning := true, lastAttemptAt := Some(now)), failures, ready, 1)];
    assert v.details == u.details && v.catalog == u.catalog;
  }

  /** The event's detail falls due and is launched. */
  lemma {:induction false} DetailLaunched(list: Attempt, at: int, gen: nat, t: Trace)
    requires !Due(list, 0) && at == EARLY
    ensures var s := Shape(Ready1(list, 0, true, 0), Some(Listed(Some(0), at)), at, None, gen, t);
            Next(ONE, s, Move(Ticks, 0))
            == Shape(Ready1(list, 0, true, 1), Some(Trying(at)), at,
                     Some(Running(DETAIL, 0, 0, false, None)), gen, t + [Started(DETAIL, 0, Some(at))])
  {
    var s := Shape(Ready1(list, 0, true, 0), Some(Listed(Some(0), at)), at, None, gen, t);
    OneTick(s, 0);
    RecalculateShape(Ready1(list, 0, true, 0), Some(Listed(Some(0), at)), at, None, gen, t, 0);
    assert Recalculate(ONE, s, 0) == s;
    assert IsNext(s.details, "blaze", 0, K);
    NextIs(s.details, "blaze", 0, Some(K));
    var v := Launch(s, DETAIL, 0);
    assert v.jobs == map[K := Running(DETAIL, 0, 0, false, None)];
    assert v.details == map[K := Trying(at)];
    assert v.providers == map["blaze" := Ready1(list, 0, true, 1)];
  }

  /** The attempt fails: one failure on record, due again after the backoff. */
  lemma {:induction false} DetailFails(list: Attempt, at: int, gen: nat, t: Trace)
    ensures var s := Shape(Ready1(list, 0, true, 1), Some(Trying(at)), at, Some(Running(DETAIL, 0, 0, false, None)), gen, t);
            Next(ONE, s, RUN[4])
            == Shape(Ready1(list, 1, true, 0), Some(Tried(Some(30_000), at)), at, None, gen, t + [Failed(DETAIL, 0, false, 1, None)])
  {
    var s := Shape(Ready1(list, 0, true, 1), Some(Trying(at)), at, Some(Running(DETAIL, 0, 0, false, None)), gen, t);
    var v := Next(ONE, s, RUN[4]);
    assert v.jobs == map[];
    assert v.details == map[K := Tried(Some(30_000), at)];
    assert v.providers == map["blaze" := Ready1(list, 1, true, 0)];
    assert v.catalog == s.catalog;
  }

  /** What the listing of the one event makes of its schedule. */
  function Refreshed(d: Option<Detail>, at: int, gen: nat): Detail { RefreshedDetail(d, Announced(at), gen, 0) }

  lemma {:induction false} OneListed(at: int)
    ensures Listing("blaze", [Announced(at)]) == map[K := Announced(at)]
  {
    var events := [Announced(at)];
    assert events[..0] == [] && Listing("blaze", []) == map[];
  }

  lemma {:induction false} ListingReplaces(ps: ProviderState, d: Option<Detail>, before: int, r: Running, gen: nat, t: Trace, at: int)
    ensures var s, next := Shape(ps, d, before, Some(r), gen, t), map[K := Announced(at)];
            && NewCatalog(s, "blaze", next) == map[K := Announced(at)]
            && NewDetails(s, "blaze", next, NONE.forNew) == map[K := Refreshed(d, at, gen)]
            && next.Keys - s.details.Keys == if d.Some? then {} else {K}
  {
    var s, next := Shape(ps, d, before, Some(r), gen, t), map[K := Announced(at)];
    assert Dropped(s, "blaze", next) == {};
    assert NewDetails(s, "blaze", next, NONE.forNew).Keys == {K} && NewCatalog(s, "blaze", next).Keys == {K};
  }

  lemma {:induction false} ListingReconciled(ps: ProviderState, d: Option<Detail>, before: int, r: Running, gen: nat, t: Trace, at: int, now: int)
    ensures Reconcile(ONE, Shape(ps, d, before, Some(r), gen, t), "blaze", [Announced(at)], now, NONE.forNew)
         == Shape(ps, Redone(Some(Refreshed(d, at, gen)), at, now), at, Some(r), gen + 1, t + [Reconciled("blaze", if d.Some? then {} else {K}, now)])
  {
    OneListed(at);
    ListingReplaces(ps, d, before, r, gen, t, at);
    RecalculateShape(ps, Some(Refreshed(d, at, gen)), at, Some(r), gen + 1, t, now);
  }

  function Succeeded1(list: Attempt, now: int): Attempt {
    list.(lastSuccessAt := Some(now), failureCount := 0, lastError := None, jitter := 0, nextRunAt := Some(now + 300_000), currentlyRunning := false)
  }

  lemma {:induction false} ListingCredited(list: Attempt, failures: nat, ready: bool, d: Option<Detail>, at: int, gen: nat, t: Trace, now: int)
    ensures var r := Running(ListJob("blaze"), now, 0, false, None);
            Note(Settle(Credit(ONE, Shape(Ready1(list, failures, ready, 1), d, at, Some(r), gen, t), ("blaze", "list"), now, NONE), ("blaze", "list")),
                 Succeeded(ListJob("blaze"), now))
            == Shape(Ready1(Succeeded1(list, now), 0, ready, 0), d, at, None, gen, t + [Succeeded(ListJob("blaze"), now)])
  {
    var r := Running(ListJob("blaze"), now, 0, false, None);
    var s := Shape(Ready1(list, failures, ready, 1), d, at, Some(r), gen, t);
    var u := Credit(ONE, s, ("blaze", "list"), now, NONE);
    var ready1 := Ready1(Succeeded1(list, now).(currentlyRunning := list.currentlyRunning), 0, ready, 1);
    assert u == s.(providers := map["blaze" := ready1]);
    var v := Settle(u, ("blaze", "list"));
    assert v.jobs == map[];
    assert v.providers == map["blaze" := Ready1(Succeeded1(list, now), 0, ready, 0)];
  }

  /** The steps by which a listing is credited. */
  lemma {:induction false} ListingSucceeds(s: State, events: seq<Event>, now: int)
    requires "blaze" in s.providers && ("blaze", "list") in s.jobs
    requires s.jobs[("blaze", "list")] == Running(ListJob("blaze"), now, 0, false, None)
    ensures Next(ONE, s, Move(Completes(("blaze", "list"), Returned(events), NONE), now))
         == Note(Settle(Credit(ONE, AfterListing(ONE, s, ("blaze", "list"), events, now, NONE), ("blaze", "list"), now, NONE), ("blaze", "list")),
                 Succeeded(ListJob("blaze"), now))
  {
  }

  /** The listing comes back with the event. */
  lemma {:induction false} ListingDone(list: Attempt, failures: nat, ready: bool, d: Option<Detail>, before: int, gen: nat, t: Trace, at: int, now: int)
    ensures var r := Running(ListJob("blaze"), now, 0, false, None);
            Next(ONE, Shape(Ready1(list, failures, ready, 1), d, before, Some(r), gen, t),
                 Move(Completes(("blaze", "list"), Returned([Announced(at)]), NONE), now))
            == Shape(Ready1(Succeeded1(list, now), 0, true, 0), Redone(Some(Refreshed(d, at, gen)), at, now), at, None, gen + 1,
                     t + [Reconciled("blaze", if d.Some? then {} else {K}, now)] + [Succeeded(ListJob("blaze"), now)])
  {
    var r := Running(ListJob("blaze"), now, 0, false, None);
    var s := Shape(Ready1(list, failures, ready, 1), d, before, Some(r), gen, t);
    ListingReconciled(Ready1(list, failures, ready, 1), d, before, r, gen, t, at, now);
    var redone, longer := Redone(Some(Refreshed(d, at, gen)), at, now), t + [Reconciled("blaze", if d.Some? then {} else {K}, now)];
    assert AfterListing(ONE, s, ("blaze", "list"), [Announced(at)], now, NONE)
        == Shape(Ready1(list, failures, true, 1), redone, at, Some(r), gen + 1, longer);
    ListingCredited(list, failures, true, redone, at, gen + 1, longer, now);
    ListingSucceeds(s, [Announced(at)], now);
  }

  // --- The run ---------------------------------------------------------------

  lemma {:induction false} RunPush(n: nat)
    requires n < |RUN|
    ensures Execute(ONE, RUN[..n + 1]) == Next(ONE, Execute(ONE, RUN[..n]), RUN[n])
    ensures Legal(ONE, RUN[..n]) && Possible(Execute(ONE, RUN[..n]), RUN[n].step) ==> Legal(ONE, RUN[..n + 1])
  {
    assert RUN[..n + 1][..n] == RUN[..n];
  }

  const L0: Attempt := BLANK.(nextRunAt := Some(0))
  const L1: Attempt := L0.(currentlyRunning := true, lastAttemptAt := Some(0))
  const L2: Attempt := Succeeded1(L1, 0)
  const L3: Attempt := L2.(currentlyRunning := true, lastAttemptAt := Some(300_000))

  /** The event is discovered and due. */
  lemma {:induction false} Discovers() returns (t: Trace)
    ensures Legal(ONE, RUN[..3])
    ensures Execute(ONE, RUN[..3]) == Shape(Ready1(L2, 0, true, 0), Some(Listed(Some(0), EARLY)), EARLY, None, 1, t)
  {
    assert RUN[..0] == [];
    RunStarts();
    RunPush(0);
    ListingLaunched(L0, 0, false, None, 0, 0, [], 0);
    RunPush(1);
    var t2: Trace := [Started(ListJob("blaze"), 0, None)];
    ListingDone(L1, 0, false, None, 0, 0, [] + t2, EARLY, 0);
    RunPush(2);
    t := [] + t2 + [Reconciled("blaze", {K}, 0)] + [Succeeded(ListJob("blaze"), 0)];
    assert Redone(Some(Refreshed(None, EARLY, 0)), EARLY, 0) == Some(Listed(Some(0), EARLY));
  }

  /** Its attempt fails. */
  lemma {:induction false} Fails() returns (t: Trace)
    ensures Legal(ONE, RUN[..5])
    ensures Execute(ONE, RUN[..5]) == Shape(Ready1(L2, 1, true, 0), Some(Tried(Some(30_000), EARLY)), EARLY, None, 1, t)
  {
    var t3 := Discovers();
    RunPush(3);
    DetailLaunched(L2, EARLY, 1, t3);
    RunPush(4);
    DetailFails(L2, EARLY, 1, t3 + [Started(DETAIL, 0, Some(EARLY))]);
    t := t3 + [Started(DETAIL, 0, Some(EARLY))] + [Failed(DETAIL, 0, false, 1, None)];
  }

  /** The next listing announces a start still ahead, and the event stays unscheduled:
      eligible, not stopped, and stuck. */
  lemma {:induction false} ReachesStuck()
    ensures Legal(ONE, RUN)
    ensures var s := Execute(ONE, RUN);
            Stuck(s, K) && K in s.catalog && EligibleAt(s.catalog[K], 300_000) && !s.details[K].preGameStopped
  {
    var t5 := Fails();
    RunPush(5);
    ListingLaunched(L2, 1, true, Some(Tried(Some(30_000), EARLY)), EARLY, 1, t5, 300_000);
    assert Redone(Some(Tried(Some(30_000), EARLY)), EARLY, 300_000) == Some(Tried(None, EARLY));
    RunPush(6);
    ListingDone(L3, 1, true, Some(Tried(None, EARLY)), EARLY, 1, t5 + [Started(ListJob("blaze"), 300_000, None)], LATE, 300_000);
    assert RUN[..7] == RUN;
  }

  /** However that run goes on, the event's detail is not launched for as long as its
      entry lives. */
  lemma {:induction false} NeverRunsAgain(more: seq<Move>)
    requires Legal(ONE, RUN + more) && Lives(ONE, RUN + more, |RUN|, K)
    ensures Unlaunched(Execute(ONE, RUN), Execute(ONE, RUN + more), K)
  {
    ReachesStuck();
    assert (RUN + more)[..|RUN|] == RUN;
    StuckNeverLaunched(ONE, RUN + more, |RUN|, K);
  }
}
