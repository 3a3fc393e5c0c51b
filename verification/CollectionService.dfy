/** The object that runs the scheduler's jobs through the commit section
    (collection.service.ts), made of the scheduler and the commit service themselves. */
module CollectionService {
  import opened Domain
  import C = CommitSection
  import M = SchedulerModel
  import R = SchedulerRuns
  import W = CollectionRuns
  import AdaptiveScheduling
  import opened IngestionCommit

  class Collector {
    const scheduler: AdaptiveScheduling.AdaptiveScheduler
    const ingestion: IngestionCommitService
    /** What the closures of the running executions hold on to. */
    var runs: map<M.JobId, C.Run>
    var frames: map<M.JobId, nat>
    ghost var launches: seq<W.Launch>
    ghost var ops: map<M.JobId, nat>
    ghost var steps: seq<W.Step>

    ghost function Abs(): W.State
      reads this, scheduler, ingestion
    {
      W.State(scheduler.Abs(), ingestion.Abs(), launches, ops, scheduler.moves, ingestion.steps)
    }

    /** The closures agree with the executions. */
    ghost predicate Held()
      reads this
    {
      && runs.Keys == ops.Keys && frames.Keys <= ops.Keys
      && forall id :: id in ops ==>
           && ops[id] < |launches| && runs[id] == launches[ops[id]].run
           && launches[ops[id]].frame == (if id in frames then Some(frames[id]) else None)
    }

    ghost predicate Valid()
      reads this, scheduler, ingestion
    {
      && scheduler.Valid() && ingestion.Valid() && Held()
      && Abs() == W.Execute(scheduler.config, steps)
    }

    constructor (config: M.Config)
      requires config.Valid()
      ensures Valid() && steps == [] && scheduler.config == config && fresh(scheduler) && fresh(ingestion)
    {
      scheduler := new AdaptiveScheduling.AdaptiveScheduler(config);
      ingestion := new IngestionCommitService();
      runs, frames := map[], map[];
      launches, ops, steps := [], map[], [];
    }

    ghost method Log(step: W.Step)
      requires scheduler.Valid() && ingestion.Valid() && Held()
      requires Abs() == W.Next(scheduler.config, W.Execute(scheduler.config, steps), step)
      modifies this`steps
      ensures Valid() && steps == old(steps) + [step]
    {
      W.ExecutePush(scheduler.config, steps, step);
      steps := steps + [step];
    }

    /** Any move of the scheduler that is not a job's own. */
    method Advance(m: R.Move)
      requires Valid() && !m.step.Commits? && !m.step.Completes? && W.After(scheduler.moves, m.now)
      modifies this, scheduler
      ensures Valid() && steps == old(steps) + [W.Scheduler(m)]
    {
      W.SchedulerStep(scheduler.config, Abs(), m);
      scheduler.Perform(m);
      Log(W.Scheduler(m));
    }

    ghost predicate Parts()
      reads this, scheduler, ingestion
    {
      scheduler.Valid() && ingestion.Valid() && Held()
    }

    /** A launched job's callback begins a run of its provider. */
    method Operate(id: M.JobId)
      requires Valid() && id in scheduler.jobs && id !in runs
      modifies this, ingestion
      ensures Valid() && steps == old(steps) + [W.Operate(id)]
    {
      W.OperateStep(scheduler.config, Abs(), id);
      BeginRun(id);
      Log(W.Operate(id));
    }

    method BeginRun(id: M.JobId)
      requires Parts() && id in scheduler.jobs && id !in runs
      modifies this`runs, this`launches, this`ops, ingestion
      ensures Parts() && Abs() == W.Operated(old(Abs()), id)
    {
      C.ExecutePush(ingestion.steps, C.Begin(id.0));
      var run := ingestion.Begin(id.0);
      runs := runs[id := run];
      launches := launches + [W.Launch(id, W.LastLaunch(scheduler.trace, id), run, None, None)];
      ops := ops[id := |launches| - 1];
    }

    /** The operation hands its publications to the commit section. */
    method EnterSection(id: M.JobId, size: nat)
      requires Valid() && id in scheduler.jobs && scheduler.jobs[id].abort.None? && id in runs && id !in frames
      modifies this, ingestion
      ensures Valid() && steps == old(steps) + [W.Enter(id, size)]
    {
      W.OpFacts(scheduler.config, steps, id);
      W.EnterStep(scheduler.config, Abs(), id, size);
      CallCommit(id, size);
      Log(W.Enter(id, size));
    }

    method CallCommit(id: M.JobId, size: nat)
      requires Parts() && W.MayEnter(Abs(), id) && W.OpLinked(Abs(), id)
      modifies this`frames, this`launches, ingestion
      ensures Parts() && Abs() == W.Entered(old(Abs()), id, size)
    {
      C.ExecutePush(ingestion.steps, C.Enter(runs[id], size));
      var frame := ingestion.Enter(runs[id], size);
      frames := frames[id := frame];
      launches := launches[ops[id] := launches[ops[id]].(frame := Some(frame))];
    }

    /** The tail before the job's frame has resolved: the frame sees the job's signal as
        it is now, and on going ahead calls the scheduler back. */
    method TakeTurn(id: M.JobId, now: int) returns (entered: bool)
      requires Valid() && id in scheduler.jobs && id in frames && frames[id] < |ingestion.frames|
      requires ingestion.frames[frames[id]].phase.Waiting? && C.Unblocked(ingestion.Abs(), frames[id])
      requires W.After(scheduler.moves, now)
      modifies this, scheduler, ingestion
      ensures Valid() && steps == old(steps) + [W.Turn(id, now)]
      ensures entered <==> old(scheduler.jobs)[id].abort.None? && C.Current(old(ingestion.Abs()), old(runs)[id])
    {
      W.OpFacts(scheduler.config, steps, id);
      W.TurnStep(scheduler.config, Abs(), id, now);
      entered := ResumeCommit(id, now);
      Log(W.Turn(id, now));
    }

    method ResumeCommit(id: M.JobId, now: int) returns (entered: bool)
      requires Parts() && W.Possible(Abs(), W.Turn(id, now)) && W.OpLinked(Abs(), id)
      modifies this`launches, scheduler, ingestion
      ensures Parts() && Abs() == W.Turned(scheduler.config, old(Abs()), id, now)
      ensures entered <==> W.GoesAhead(old(Abs()), id)
    {
      var aborted := scheduler.jobs[id].abort.Some?;
      C.ExecutePush(ingestion.steps, C.Resume(frames[id], aborted));
      entered := ingestion.Resume(frames[id], aborted);
      if entered {
        launches := launches[ops[id] := launches[ops[id]].(begun := Some(|scheduler.trace|))];
        CallBack(id, now);
      }
    }

    /** `beginCommit`, as the scheduler passed it to the job. */
    method CallBack(id: M.JobId, now: int)
      requires scheduler.Valid() && W.After(scheduler.moves, now)
      modifies scheduler
      ensures scheduler.Valid() && scheduler.moves == old(scheduler.moves) + [R.Move(R.Commits(id), now)]
      ensures scheduler.Abs() == R.Next(scheduler.config, old(scheduler.Abs()), R.Move(R.Commits(id), now))
    {
      R.LegalPush(scheduler.config, scheduler.moves, R.Move(R.Commits(id), now));
      scheduler.Perform(R.Move(R.Commits(id), now));
    }

    /** A publication of the job's frame starts. */
    method StartPublication(id: M.JobId)
      requires Valid() && id in frames && frames[id] < |ingestion.frames|
      requires ingestion.frames[frames[id]].phase.Publishing? && !C.InFlight(ingestion.frames[frames[id]])
      modifies this, ingestion
      ensures Valid() && steps == old(steps) + [W.Section(C.Publish(old(frames)[id]))]
    {
      W.SectionStep(scheduler.config, Abs(), C.Publish(frames[id]));
      C.ExecutePush(ingestion.steps, C.Publish(frames[id]));
      ingestion.Publish(frames[id]);
      Log(W.Section(C.Publish(frames[id])));
    }

    method EndPublication(id: M.JobId, ok: bool)
      requires Valid() && id in frames && frames[id] < |ingestion.frames|
      requires ingestion.frames[frames[id]].phase.Publishing? && C.InFlight(ingestion.frames[frames[id]])
      modifies this, ingestion
      ensures Valid() && steps == old(steps) + [W.Section(C.Published(old(frames)[id], ok))]
    {
      W.SectionStep(scheduler.config, Abs(), C.Published(frames[id], ok));
      C.ExecutePush(ingestion.steps, C.Published(frames[id], ok));
      ingestion.Published(frames[id], ok);
      Log(W.Section(C.Published(frames[id], ok)));
    }

    /** The operation ends and the scheduler takes its result. */
    method Settle(id: M.JobId, outcome: M.Outcome, now: int, draws: M.Draws)
      requires Valid() && W.MayComplete(Abs(), id, outcome, draws) && W.After(scheduler.moves, now)
      modifies this, scheduler, ingestion
      ensures Valid() && steps == old(steps) + [W.Complete(id, outcome, now, draws)]
    {
      W.CompleteStep(scheduler.config, Abs(), id, outcome, now, draws);
      Conclude(id, outcome, now, draws);
      Log(W.Complete(id, outcome, now, draws));
    }

    method Conclude(id: M.JobId, outcome: M.Outcome, now: int, draws: M.Draws)
      requires Parts() && R.Possible(scheduler.Abs(), R.Completes(id, outcome, draws)) && W.After(scheduler.moves, now)
      modifies this`runs, this`frames, this`ops, scheduler, ingestion
      ensures Parts() && Abs() == W.Completed(scheduler.config, old(Abs()), id, outcome, now, draws)
    {
      FinishRun(id);
      TakeResult(id, outcome, now, draws);
      assert id !in old(ops) ==> ops == old(ops);
    }

    method FinishRun(id: M.JobId)
      requires ingestion.Valid() && Held()
      modifies this`runs, this`frames, this`ops, ingestion
      ensures ingestion.Valid() && Held() && ops == old(ops) - {id}
      ensures id in old(ops) ==> ingestion.Abs() == C.Next(old(ingestion.Abs()), C.Finish(old(launches)[old(ops)[id]].run))
                                 && ingestion.steps == old(ingestion.steps) + [C.Finish(old(launches)[old(ops)[id]].run)]
      ensures id !in old(ops) ==> ingestion.Abs() == old(ingestion.Abs()) && ingestion.steps == old(ingestion.steps)
    {
      if id in runs {
        C.ExecutePush(ingestion.steps, C.Finish(runs[id]));
        ingestion.Finish(runs[id]);
      }
      runs, frames, ops := runs - {id}, frames - {id}, ops - {id};
    }

    method TakeResult(id: M.JobId, outcome: M.Outcome, now: int, draws: M.Draws)
      requires scheduler.Valid() && R.Possible(scheduler.Abs(), R.Completes(id, outcome, draws)) && W.After(scheduler.moves, now)
      modifies scheduler
      ensures scheduler.Valid() && scheduler.moves == old(scheduler.moves) + [R.Move(R.Completes(id, outcome, draws), now)]
      ensures scheduler.Abs() == R.Next(scheduler.config, old(scheduler.Abs()), R.Move(R.Completes(id, outcome, draws), now))
    {
      R.LegalPush(scheduler.config, scheduler.moves, R.Move(R.Completes(id, outcome, draws), now));
      scheduler.Perform(R.Move(R.Completes(id, outcome, draws), now));
    }
  }

  /** What `ScheduledOperation` answers fits the steps above: it enters the section only
      when it may, and once its frame has ended its outcome may settle the job. */
  lemma {:induction false} OperationFits(s: W.State, id: M.JobId, esports: set<Esport>, x: Surroundings, outcome: M.Outcome, published: bool, draws: M.Draws)
    requires id in s.jobs.jobs && id in s.ops && s.ops[id] < |s.launches|
    requires published <==> Publishable(s.jobs.jobs[id].job, esports, x)
    requires outcome.Returned? ==> published && x.committed.Ok? && WellFormed(s.jobs.jobs[id].job.provider, esports, outcome.events)
    requires outcome == M.Threw(M.EventStarted) ==> s.jobs.jobs[id].job.DetailJob?
    ensures published && s.launches[s.ops[id]].frame.None? && (x.abortedThen <==> s.jobs.jobs[id].abort.Some?) ==> W.MayEnter(s, id)
    ensures published && W.InSection(s, id) && W.FrameOf(s, id).phase.Ended?
            && (x.committed.Ok? <==> s.jobs.jobs[id].committing && W.AllPublished(W.FrameOf(s, id)))
            ==> W.MayComplete(s, id, outcome, draws)
    ensures !published && !W.InSection(s, id) ==> W.MayComplete(s, id, outcome, draws)
  {
    OperationIsPossible(s.jobs, id, esports, outcome, draws);
  }
}
