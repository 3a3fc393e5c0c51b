/** The commit service with its two maps updated in place, and the operation a
    scheduled job runs (ingestion-commit.service.ts, scheduled-operation.ts). */
module IngestionCommit {
  import opened Domain
  import C = CommitSection
  import M = SchedulerModel
  import SchedulerInvariants
  import SchedulerRuns

  class IngestionCommitService {
    var generations: map<string, nat>
    var tails: map<string, nat>
    /** The suspended and finished activations of `commit`. */
    var frames: seq<C.Frame>
    var nextRun: nat
    ghost var trace: seq<C.Entry>
    ghost var steps: seq<C.Step>

    ghost function Abs(): C.State
      reads this
    {
      C.State(generations, tails, frames, nextRun, trace)
    }

    /** Whatever calls were made, in whatever order they were resumed. */
    ghost predicate Valid()
      reads this
    {
      Abs() == C.Execute(steps)
    }

    constructor ()
      ensures Valid() && steps == []
    {
      generations, tails, frames, nextRun := map[], map[], [], 0;
      trace, steps := [], [];
    }

    ghost method Log(step: C.Step)
      requires Abs() == C.Next(C.Execute(steps), step)
      modifies this`steps
      ensures Valid() && steps == old(steps) + [step]
    {
      steps := steps + [step];
      assert steps[..|steps| - 1] == old(steps);
    }

    method Begin(provider: string) returns (run: C.Run)
      requires Valid()
      modifies this
      ensures Valid() && steps == old(steps) + [C.Begin(provider)]
      ensures run.provider == provider && C.Current(Abs(), run) && !C.Current(old(Abs()), run)
    {
      run := C.Run(provider, nextRun);
      C.RunInv(steps);
      generations, nextRun := generations[provider := run.id], nextRun + 1;
      Log(C.Begin(provider));
    }

    method Finish(run: C.Run)
      requires Valid()
      modifies this
      ensures Valid() && steps == old(steps) + [C.Finish(run)]
    {
      if run.provider in generations && generations[run.provider] == run.id {
        generations := generations - {run.provider};
      }
      Log(C.Finish(run));
    }

    /** `commit` up to its first await. */
    method Enter(run: C.Run, size: nat) returns (frame: nat)
      requires Valid() && run.id < nextRun
      modifies this
      ensures Valid() && steps == old(steps) + [C.Enter(run, size)] && frame == |old(frames)| < |frames|
    {
      var previous := if run.provider in tails then Some(tails[run.provider]) else None;
      frame := |frames|;
      frames := frames + [C.Frame(run, size, previous, C.Waiting, [])];
      tails := tails[run.provider := frame];
      Log(C.Enter(run, size));
    }

    method Release(c: nat)
      requires c < |frames|
      modifies this`frames, this`tails
      ensures Abs() == C.Release(old(Abs()), c)
    {
      var p := frames[c].run.provider;
      frames := frames[c := frames[c].(phase := C.Ended)];
      if p in tails && tails[p] == c { tails := tails - {p}; }
    }

    /** `commit` after the tail before it has resolved; an error unless it returns true. */
    method Resume(c: nat, aborted: bool) returns (entered: bool)
      requires Valid() && c < |frames| && frames[c].phase.Waiting? && C.Unblocked(Abs(), c)
      modifies this
      ensures Valid() && steps == old(steps) + [C.Resume(c, aborted)]
      ensures entered <==> !aborted && C.Current(old(Abs()), old(frames)[c].run)
    {
      var run := frames[c].run;
      entered := !aborted && run.provider in generations && generations[run.provider] == run.id;
      if entered && frames[c].size > 0 {
        frames := frames[c := frames[c].(phase := C.Publishing)];
      } else {
        Release(c);
      }
      Log(C.Resume(c, aborted));
    }

    method Publish(c: nat)
      requires Valid() && c < |frames| && frames[c].phase.Publishing? && !C.InFlight(frames[c])
      modifies this
      ensures Valid() && steps == old(steps) + [C.Publish(c)]
    {
      var m := C.Begun(|frames[c].log| / 2);
      frames := frames[c := frames[c].(log := frames[c].log + [m])];
      trace := trace + [C.Entry(c, m)];
      Log(C.Publish(c));
    }

    /** A publication settles; the loop goes on, ends, or throws. */
    method Published(c: nat, ok: bool)
      requires Valid() && c < |frames| && frames[c].phase.Publishing? && C.InFlight(frames[c])
      modifies this
      ensures Valid() && steps == old(steps) + [C.Published(c, ok)]
    {
      var m := C.Done(|frames[c].log| / 2, ok);
      frames := frames[c := frames[c].(log := frames[c].log + [m])];
      trace := trace + [C.Entry(c, m)];
      if !ok || |frames[c].log| / 2 >= frames[c].size { Release(c); }
      Log(C.Published(c, ok));
    }
  }

  // --- The scheduled operation -----------------------------------------------

  /** One provider's normalized result: its own events, each once, of a requested
      esport and with a fetch time. */
  ghost predicate WellFormed(provider: string, esports: set<Esport>, events: seq<Event>) {
    && (forall i :: 0 <= i < |events| ==> events[i].provider == provider && events[i].esport in esports && events[i].fetchedAt.Some?)
    && (forall i, j :: 0 <= i < j < |events| ==> events[i].eventId != events[j].eventId)
  }

  method IsWellFormed(provider: string, esports: set<Esport>, events: seq<Event>) returns (ok: bool)
    ensures ok <==> WellFormed(provider, esports, events)
  {
    var ids: set<string> := {};
    var i := 0;
    while i < |events|
      invariant 0 <= i <= |events| && WellFormed(provider, esports, events[..i])
      invariant ids == set j | 0 <= j < i :: events[j].eventId
    {
      var e := events[i];
      if e.provider != provider || e.eventId in ids || e.esport !in esports || e.fetchedAt.None? { return false; }
      ids := ids + {e.eventId};
      i := i + 1;
    }
    assert events[..i] == events;
    ok := true;
  }

  predicate HasStarted(e: Event, now: int) {
    e.inPlay == Some(true) || e.status.Live? || (e.startsAt.Some? && e.startsAt.value <= now)
  }

  /** The first stored event with the identifier is at least as fresh. */
  ghost predicate Confirmed(accepted: seq<Event>, e: Event) {
    exists j :: 0 <= j < |accepted| && accepted[j].eventId == e.eventId
                && (forall i :: 0 <= i < j ==> accepted[i].eventId != e.eventId)
                && (accepted[j].fetchedAt.Some? && e.fetchedAt.Some? ==> accepted[j].fetchedAt.value >= e.fetchedAt.value)
  }

  method Confirm(accepted: seq<Event>, events: seq<Event>) returns (ok: bool)
    ensures ok <==> forall e :: e in events ==> Confirmed(accepted, e)
  {
    var i := 0;
    while i < |events|
      invariant 0 <= i <= |events| && forall e :: e in events[..i] ==> Confirmed(accepted, e)
    {
      var e := events[i];
      var j := 0;
      while j < |accepted| && accepted[j].eventId != e.eventId
        invariant 0 <= j <= |accepted| && forall k :: 0 <= k < j ==> accepted[k].eventId != e.eventId
      {
        j := j + 1;
      }
      if j == |accepted| || (accepted[j].fetchedAt.Some? && e.fetchedAt.Some? && accepted[j].fetchedAt.value < e.fetchedAt.value) {
        assert e in events && !Confirmed(accepted, e);
        return false;
      }
      i := i + 1;
    }
    assert events[..i] == events;
    ok := true;
  }

  datatype Result<T> = Ok(value: T) | Err(fault: M.Fault)

  /** Everything an operation meets from outside: whether its signal is aborted at
      the start, after collecting and in the end; what the collector returns; the
      clock; what the commit section answers; what reading the store then gives. */
  datatype Surroundings = Surroundings(
    abortedFirst: bool, abortedThen: bool, abortedLast: bool,
    collected: Result<seq<Event>>, now: int, committed: Result<()>, accepted: Result<seq<Event>>)

  /** Not in play, not live, and its start, if known, is ahead. */
  ghost predicate NotBegun(e: Event, now: int) {
    e.inPlay != Some(true) && e.status != Status.Live && (e.startsAt.Some? ==> now < e.startsAt.value)
  }

  /** May the collected events be handed to the commit section? */
  ghost predicate Publishable(job: M.Job, esports: set<Esport>, x: Surroundings) {
    && !x.abortedFirst && x.collected.Ok? && !x.abortedThen
    && WellFormed(job.provider, esports, x.collected.value)
    && (job.DetailJob? ==>
          && |x.collected.value| == 1
          && x.collected.value[0].eventId == job.eventId && x.collected.value[0].esport == job.esport
          && NotBegun(x.collected.value[0], x.now))
  }

  /** Runs one job. `published` tells whether the commit section was entered, `closed`
      whether the provider's session is closed. */
  method ScheduledOperation(job: M.Job, esports: set<Esport>, x: Surroundings)
    returns (outcome: M.Outcome, published: bool, closed: bool)
    requires job.DetailJob? && x.collected.Ok? ==> |x.collected.value| == 1
    requires job.ListJob? ==> x.collected != Err(M.EventStarted)
    requires x.committed != Err(M.EventStarted) && x.accepted != Err(M.EventStarted)
    ensures published <==> Publishable(job, esports, x)
    ensures outcome.Returned? <==> published && x.committed.Ok? && x.accepted.Ok? && forall e :: e in x.collected.value ==> Confirmed(x.accepted.value, e)
    ensures outcome.Returned? ==> outcome.events == x.collected.value && WellFormed(job.provider, esports, outcome.events)
    ensures outcome == M.Threw(M.EventStarted) ==> job.DetailJob?
    ensures closed <==> outcome.Threw? && !outcome.fault.EventStarted? && (job.ListJob? || x.abortedLast || outcome.fault.Transport?)
  {
    var r;
    r, published := Attempt(job, esports, x);
    match r {
      case Ok(events) => outcome, closed := M.Returned(events), false;
      case Err(fault) =>
        outcome := M.Threw(fault);
        closed := !fault.EventStarted? && (job.ListJob? || x.abortedLast || fault.Transport?);
    }
  }

  /** The `try` block. */
  method Attempt(job: M.Job, esports: set<Esport>, x: Surroundings) returns (r: Result<seq<Event>>, published: bool)
    requires job.DetailJob? && x.collected.Ok? ==> |x.collected.value| == 1
    requires job.ListJob? ==> x.collected != Err(M.EventStarted)
    requires x.committed != Err(M.EventStarted) && x.accepted != Err(M.EventStarted)
    ensures published <==> Publishable(job, esports, x)
    ensures r.Ok? <==> published && x.committed.Ok? && x.accepted.Ok? && forall e :: e in x.collected.value ==> Confirmed(x.accepted.value, e)
    ensures r.Ok? ==> r.value == x.collected.value
    ensures r == Err(M.EventStarted) ==> job.DetailJob?
  {
    published := false;
    if x.abortedFirst { return Err(M.Ordinary("Abort")), false; }
    if x.collected.Err? { return Err(x.collected.fault), false; }
    if x.abortedThen { return Err(M.Ordinary("Abort")), false; }
    var events := x.collected.value;
    var ok := IsWellFormed(job.provider, esports, events);
    if !ok { return Err(M.Ordinary("Error")), false; }
    if job.DetailJob? {
      var e := events[0];
      if e.eventId != job.eventId || e.esport != job.esport { return Err(M.Ordinary("Error")), false; }
      if HasStarted(e, x.now) { return Err(M.EventStarted), false; }
    }
    published := true;
    if x.committed.Err? { return Err(x.committed.fault), true; }
    if x.accepted.Err? { return Err(x.accepted.fault), true; }
    var confirmed := Confirm(x.accepted.value, events);
    r := if confirmed then Ok(events) else Err(M.Ordinary("Error"));
  }

  /** Running jobs this way is what the scheduler's runs take for granted. */
  lemma {:induction false} OperationIsPossible(s: M.State, id: M.JobId, esports: set<Esport>, outcome: M.Outcome, d: M.Draws)
    requires id in s.jobs
    requires outcome.Returned? ==> WellFormed(s.jobs[id].job.provider, esports, outcome.events)
    requires outcome == M.Threw(M.EventStarted) ==> s.jobs[id].job.DetailJob?
    ensures SchedulerRuns.Possible(s, SchedulerRuns.Completes(id, outcome, d))
  {
    if outcome.Returned? {
      var p := s.jobs[id].job.provider;
      forall e | e in outcome.events ensures e.provider == p {
        var i :| 0 <= i < |outcome.events| && outcome.events[i] == e;
      }
      assert SchedulerInvariants.OwnEvents(outcome.events, p);
    }
  }
}
