/** The scheduler and the commit section working together (collection.service.ts): each
    launched job begins an ingestion run, may hand its publications to the commit
    section, and settles when its operation has ended. The signal a frame finds at its
    turn is the job's own, and the callback it makes is the scheduler's. */
module CollectionRuns {
  import opened Domain
  import C = CommitSection
  import M = SchedulerModel
  import SchedulerInvariants
  import T = SchedulerTrace
  import R = SchedulerRuns
  import SchedulerOutcomes

  /** One execution of a launched job. `since` is the length of the scheduler's trace up
      to the launch, `frame` the call of `commit` it made, if any, and `begun` where the
      trace records that it began to commit. */
  datatype Launch = Launch(id: M.JobId, since: nat, run: C.Run, frame: Option<nat>, begun: Option<nat>)

  /** `ops` names the execution of each job in the table. `moves` and `calls` are what
      the scheduler and the commit section have been through. */
  datatype State = State(
    jobs: M.State,
    commits: C.State,
    launches: seq<Launch>,
    ops: map<M.JobId, nat>,
    moves: seq<R.Move>,
    calls: seq<C.Step>)

  /** Any move of the scheduler that is not a job's own; a job's operation starting,
      entering the commit section, getting its turn there; a job settling; and any step
      of the section that is a publication or belongs to another caller. */
  datatype Step =
    | Scheduler(move: R.Move)
    | Operate(id: M.JobId)
    | Enter(id: M.JobId, size: nat)
    | Turn(id: M.JobId, now: int)
    | Complete(id: M.JobId, outcome: M.Outcome, now: int, draws: M.Draws)
    | Section(call: C.Step)

  function START(g: M.Config): State { State(M.Initial(g), C.INITIAL, [], map[], [], []) }

  /** Length of the trace up to and including the job's last launch. */
  function LastLaunch(t: T.Trace, id: M.JobId): (n: nat)
    ensures n <= |t|
  {
    if t == [] then 0
    else if t[|t| - 1].Started? && T.OfJob(t[|t| - 1], id) then |t|
    else LastLaunch(t[..|t| - 1], id)
  }

  predicate WasLaunched(t: T.Trace, id: M.JobId) { exists n :: 0 <= n < |t| && t[n].Started? && T.OfJob(t[n], id) }

  predicate After(moves: seq<R.Move>, now: int) { moves != [] ==> moves[|moves| - 1].now <= now }

  predicate Owned(s: State, run: C.Run) { exists l :: 0 <= l < |s.launches| && s.launches[l].run == run }

  /** The job has an execution that entered the commit section as this frame. */
  predicate InSection(s: State, id: M.JobId) {
    && id in s.jobs.jobs && id in s.ops && s.ops[id] < |s.launches|
    && s.launches[s.ops[id]].frame.Some? && s.launches[s.ops[id]].frame.value < |s.commits.frames|
  }

  function FrameOf(s: State, id: M.JobId): C.Frame
    requires InSection(s, id)
  {
    s.commits.frames[s.launches[s.ops[id]].frame.value]
  }

  /** Every publication of the frame has succeeded. */
  predicate AllPublished(f: C.Frame) {
    f.phase.Ended? && |f.log| == 2 * f.size && forall m :: m in f.log && m.Done? ==> m.ok
  }

  predicate MayEnter(s: State, id: M.JobId) {
    && id in s.jobs.jobs && s.jobs.jobs[id].abort.None?
    && id in s.ops && s.ops[id] < |s.launches| && s.launches[s.ops[id]].frame.None?
  }

  /** A job settles once its operation has ended: not before its frame has, and with a
      result only if it began to commit and all its publications succeeded. */
  ghost predicate MayComplete(s: State, id: M.JobId, outcome: M.Outcome, draws: M.Draws) {
    && id in s.jobs.jobs && R.Possible(s.jobs, R.Completes(id, outcome, draws))
    && (InSection(s, id) ==> FrameOf(s, id).phase.Ended?)
    && (outcome.Returned? ==> InSection(s, id) && s.jobs.jobs[id].committing && AllPublished(FrameOf(s, id)))
  }

  ghost predicate Possible(s: State, step: Step) {
    match step
    case Scheduler(m) => !m.step.Commits? && !m.step.Completes? && After(s.moves, m.now)
    case Operate(id) => id in s.jobs.jobs && id !in s.ops
    case Enter(id, _) => MayEnter(s, id)
    case Turn(id, now) => InSection(s, id) && FrameOf(s, id).phase.Waiting? && C.Unblocked(s.commits, s.launches[s.ops[id]].frame.value) && After(s.moves, now)
    case Complete(id, outcome, now, draws) => MayComplete(s, id, outcome, draws) && After(s.moves, now)
    case Section(call) =>
      match call
      case Begin(_) => true
      case Finish(run) => !Owned(s, run)
      case Enter(run, _) => !Owned(s, run)
      case Resume(c, _) => c < |s.commits.frames| ==> !Owned(s, s.commits.frames[c].run)
      case Publish(_) => true
      case Published(_, _) => true
  }

  function Called(s: State, call: C.Step): State {
    s.(commits := C.Next(s.commits, call), calls := s.calls + [call])
  }

  ghost function Moved(g: M.Config, s: State, m: R.Move): State
    requires g.Valid()
  {
    s.(jobs := R.Next(g, s.jobs, m), moves := s.moves + [m])
  }

  function Operated(s: State, id: M.JobId): State {
    var run := C.Run(id.0, s.commits.nextRun);
    Called(s, C.Begin(id.0)).(
      launches := s.launches + [Launch(id, LastLaunch(s.jobs.trace, id), run, None, None)],
      ops := s.ops[id := |s.launches|])
  }

  function Entered(s: State, id: M.JobId, size: nat): State
    requires MayEnter(s, id)
  {
    var l := s.ops[id];
    Called(s, C.Enter(s.launches[l].run, size)).(
      launches := s.launches[l := s.launches[l].(frame := Some(|s.commits.frames|))])
  }

  /** Does the frame go ahead: not aborted and not superseded. */
  predicate GoesAhead(s: State, id: M.JobId)
    requires InSection(s, id)
  {
    s.jobs.jobs[id].abort.None? && C.Current(s.commits, s.launches[s.ops[id]].run)
  }

  /** The frame's turn: it looks at the job's signal and at the generation, then calls
      back into the scheduler and starts publishing, or gives up. */
  ghost function Turned(g: M.Config, s: State, id: M.JobId, now: int): State
    requires g.Valid() && InSection(s, id)
  {
    var l := s.ops[id];
    var t := Called(s, C.Resume(s.launches[l].frame.value, s.jobs.jobs[id].abort.Some?));
    if GoesAhead(s, id) then
      Moved(g, t, R.Move(R.Commits(id), now)).(launches := s.launches[l := s.launches[l].(begun := Some(|s.jobs.trace|))])
    else t
  }

  /** The operation's `finally` block and the scheduler's handling of the result. */
  ghost function Completed(g: M.Config, s: State, id: M.JobId, outcome: M.Outcome, now: int, draws: M.Draws): State
    requires g.Valid()
  {
    var t := Moved(g, s, R.Move(R.Completes(id, outcome, draws), now));
    if id in s.ops && s.ops[id] < |s.launches|
    then Called(t, C.Finish(s.launches[s.ops[id]].run)).(ops := s.ops - {id}) else t
  }

  /** A step that cannot happen now changes nothing. */
  ghost function Next(g: M.Config, s: State, step: Step): State
    requires g.Valid()
  {
    if !Possible(s, step) then s
    else
      match step
      case Scheduler(m) => Moved(g, s, m)
      case Operate(id) => Operated(s, id)
      case Enter(id, size) => Entered(s, id, size)
      case Turn(id, now) => Turned(g, s, id, now)
      case Complete(id, outcome, now, draws) => Completed(g, s, id, outcome, now, draws)
      case Section(call) => Called(s, call)
  }

  ghost function Execute(g: M.Config, steps: seq<Step>): State
    requires g.Valid()
  {
    if steps == [] then START(g) else Next(g, Execute(g, steps[..|steps| - 1]), steps[|steps| - 1])
  }

  lemma {:induction false} ExecutePush(g: M.Config, steps: seq<Step>, step: Step)
    requires g.Valid()
    ensures Execute(g, steps + [step]) == Next(g, Execute(g, steps), step)
  {
    assert (steps + [step])[..|steps|] == steps;
  }

  // --- Invariant -------------------------------------------------------------

  /** Both components are in a state of one of their own runs. */
  ghost predicate Projects(g: M.Config, s: State)
    requires g.Valid()
  {
    && R.Legal(g, s.moves) && s.jobs == R.Execute(g, s.moves)
    && s.commits == C.Execute(s.calls)
  }

  /** No launch of the job is recorded in this part of the trace. */
  ghost predicate NotLaunched(t: T.Trace, id: M.JobId, from: int, to: int) {
    forall n :: from <= n < to && 0 <= n < |t| ==> !(t[n].Started? && T.OfJob(t[n], id))
  }

  ghost predicate Live(s: State, l: nat) {
    l < |s.launches| && s.launches[l].id in s.ops && s.ops[s.launches[l].id] == l
  }

  /** Past the lock: publishing, or something has been published. */
  predicate Published(f: C.Frame) { f.phase.Publishing? || f.log != [] }

  ghost predicate LaunchedAt(t: T.Trace, x: Launch) {
    0 < x.since <= |t| && t[x.since - 1].Started? && T.OfJob(t[x.since - 1], x.id)
  }

  /** The trace records at `begun` that this execution began to commit. */
  ghost predicate BegunAt(t: T.Trace, x: Launch) {
    x.begun.Some? ==>
      && x.since <= x.begun.value < |t| && t[x.begun.value].CommitBegun? && T.OfJob(t[x.begun.value], x.id)
      && NotLaunched(t, x.id, x.since, x.begun.value)
  }

  ghost predicate FrameLinked(s: State, l: nat)
    requires l < |s.launches|
  {
    var x := s.launches[l];
    && (x.frame.Some? ==>
          && x.frame.value < |s.commits.frames| && s.commits.frames[x.frame.value].run == x.run
          && (Published(s.commits.frames[x.frame.value]) ==> x.begun.Some?)
          && (!s.commits.frames[x.frame.value].phase.Ended? ==> Live(s, l)))
    && (forall c :: 0 <= c < |s.commits.frames| && s.commits.frames[c].run == x.run ==> x.frame == Some(c))
    && (x.begun.Some? ==> x.frame.Some? && !s.commits.frames[x.frame.value].phase.Waiting?)
  }

  ghost predicate LaunchOk(s: State, l: nat)
    requires l < |s.launches|
  {
    var x := s.launches[l];
    && LaunchedAt(s.jobs.trace, x) && x.run.id < s.commits.nextRun
    && (forall m :: 0 <= m < l ==> s.launches[m].run != x.run)
    && BegunAt(s.jobs.trace, x)
    && FrameLinked(s, l)
    && (Live(s, l) ==> NotLaunched(s.jobs.trace, x.id, x.since, |s.jobs.trace|))
    && (Live(s, l) && x.id in s.jobs.jobs ==> (s.jobs.jobs[x.id].committing <==> x.begun.Some?))
  }

  ghost predicate OpsOk(s: State) {
    && (forall id :: id in s.ops ==> id in s.jobs.jobs && s.ops[id] < |s.launches| && s.launches[s.ops[id]].id == id)
    && (forall id :: id in s.jobs.jobs && s.jobs.jobs[id].committing ==> id in s.ops)
    && (forall id :: id in s.jobs.jobs ==> WasLaunched(s.jobs.trace, id))
  }

  ghost predicate Inv(g: M.Config, s: State)
    requires g.Valid()
  {
    Projects(g, s) && OpsOk(s) && forall l :: 0 <= l < |s.launches| ==> LaunchOk(s, l)
  }

  // --- What the scheduler's own moves leave alone ----------------------------

  /** Jobs in the table stay there as they are but for their signals, new ones have not
      begun to commit, and no job in the table is launched again. */
  ghost predicate KeepsJobs(s: M.State, t: M.State) {
    && s.trace <= t.trace
    && (forall j :: j in s.jobs ==> j in t.jobs && t.jobs[j].committing == s.jobs[j].committing)
    && (forall j :: j in t.jobs && j !in s.jobs ==> !t.jobs[j].committing && WasLaunched(t.trace, j))
    && (forall n :: |s.trace| <= n < |t.trace| && t.trace[n].Started? ==> M.IdOf(t.trace[n].job) !in s.jobs)
  }

  lemma {:induction false} StillLaunched(t: T.Trace, u: T.Trace, id: M.JobId)
    requires t <= u && WasLaunched(t, id)
    ensures WasLaunched(u, id)
  {
    var n :| 0 <= n < |t| && t[n].Started? && T.OfJob(t[n], id);
    assert u[n] == t[n];
  }

  lemma {:induction false} KeepsTransitive(s: M.State, t: M.State, u: M.State)
    requires KeepsJobs(s, t) && KeepsJobs(t, u)
    ensures KeepsJobs(s, u)
  {
    forall n | |s.trace| <= n < |u.trace| && u.trace[n].Started? ensures M.IdOf(u.trace[n].job) !in s.jobs {
      if n < |t.trace| { assert u.trace[n] == t.trace[n]; }
    }
    forall j | j in u.jobs && j !in s.jobs ensures !u.jobs[j].committing && WasLaunched(u.trace, j) {
      if j in t.jobs { StillLaunched(t.trace, u.trace, j); }
    }
  }

  lemma {:induction false} LaunchKeeps(s: M.State, job: M.Job, at: int)
    requires job.provider in s.providers
    ensures KeepsJobs(s, M.Launch(s, job, at))
  {
    var t := M.Launch(s, job, at);
    if M.IdOf(job) !in s.jobs { assert t.trace[|s.trace|].Started? && T.OfJob(t.trace[|s.trace|], M.IdOf(job)); }
  }

  lemma {:induction false} TickProviderKeeps(s: M.State, p: string, now: int)
    requires p in s.providers
    ensures KeepsJobs(s, M.TickProvider(s, p, now))
  {
    var s1, job := SchedulerInvariants.TurnIs(s, p, now);
    assert KeepsJobs(s, s1);
    if job.Some? && p in s1.providers {
      LaunchKeeps(s1, job.value, now);
      KeepsTransitive(s, s1, M.Launch(s1, job.value, now));
    }
  }

  lemma {:induction false} TickProvidersKeep(s: M.State, names: seq<string>, now: int)
    ensures KeepsJobs(s, M.TickProviders(s, names, now))
    decreases |names|
  {
    if names != [] {
      var n := |names| - 1;
      TickProvidersKeep(s, names[..n], now);
      var before := M.TickProviders(s, names[..n], now);
      if names[n] in before.providers {
        TickProviderKeeps(before, names[n], now);
        KeepsTransitive(s, before, M.TickProvider(before, names[n], now));
      }
    }
  }

  lemma {:induction false} ReconcileAllKeeps(g: M.Config, s: M.State, names: seq<string>, events: seq<Event>, now: int, forNew: string -> nat)
    ensures KeepsJobs(s, M.ReconcileAll(g, s, names, events, now, forNew))
    decreases |names|
  {
    if names != [] {
      var n := |names| - 1;
      ReconcileAllKeeps(g, s, names[..n], events, now, forNew);
      var t := M.ReconcileAll(g, s, names[..n], events, now, forNew);
      KeepsTransitive(s, t, M.Reconcile(g, t, names[n], M.Own(events, names[n]), now, forNew));
    }
  }

  lemma {:induction false} SignalsKeep(g: M.Config, s: M.State, id: M.JobId, now: int)
    ensures KeepsJobs(s, M.FireTimeout(s, id, now))
    ensures KeepsJobs(s, M.RequestStop(s, now))
    ensures KeepsJobs(s, M.EndGrace(s, now))
  {
  }

  lemma {:induction false} StartKeeps(g: M.Config, s: M.State, now: int, d: M.Draws)
    ensures KeepsJobs(s, M.Start(g, s, now, d))
  {
  }

  lemma {:induction false} MoveKeeps(g: M.Config, s: M.State, m: R.Move)
    requires g.Valid() && !m.step.Commits? && !m.step.Completes?
    ensures KeepsJobs(s, R.Next(g, s, m))
  {
    match m.step
    case StartUp(d) => StartKeeps(g, s, m.now, d);
    case Ticks => TickProvidersKeep(M.Recalculate(g, s, m.now), g.names, m.now);
    case TimesOut(id) => SignalsKeep(g, s, id, m.now);
    case Stops => SignalsKeep(g, s, ("", ""), m.now);
    case GraceEnds => SignalsKeep(g, s, ("", ""), m.now);
    case Restores(events, d) => ReconcileAllKeeps(g, s, g.names, events, m.now, d.forNew);
  }

  // --- Preservation ----------------------------------------------------------

  lemma {:induction false} MovedProjects(g: M.Config, s: State, m: R.Move)
    requires g.Valid() && Projects(g, s) && R.Possible(s.jobs, m.step) && After(s.moves, m.now)
    ensures Projects(g, Moved(g, s, m))
  {
    R.LegalPush(g, s.moves, m);
  }

  lemma {:induction false} CalledProjects(g: M.Config, s: State, call: C.Step)
    requires g.Valid() && Projects(g, s)
    ensures Projects(g, Called(s, call))
  {
    C.ExecutePush(s.calls, call);
  }

  /** What the components' own theorems say about a job in the table. */
  lemma {:induction false} JobFacts(g: M.Config, s: State, id: M.JobId)
    requires g.Valid() && Projects(g, s) && id in s.jobs.jobs
    ensures M.IdOf(s.jobs.jobs[id].job) == id && s.jobs.jobs[id].job.provider in s.jobs.providers
    ensures !(s.jobs.jobs[id].committing && s.jobs.jobs[id].abort.Some?)
  {
    R.RunSafe(g, s.moves);
    assert SchedulerInvariants.JobLinked(s.jobs, id);
  }

  lemma {:induction false} FrameFacts(g: M.Config, s: State, c: nat)
    requires g.Valid() && Projects(g, s) && c < |s.commits.frames|
    ensures s.commits.frames[c].run.id < s.commits.nextRun
    ensures s.commits.frames[c].phase.Waiting? ==> s.commits.frames[c].log == []
  {
    C.RunInv(s.calls);
    assert C.FrameOk(s.commits, c);
  }

  /** The trace grew and launched no live job again. */
  lemma {:induction false} TraceGrown(s: State, t: State, l: nat)
    requires l < |s.launches| && LaunchOk(s, l) && s.jobs.trace <= t.jobs.trace
    requires Live(s, l) ==> NotLaunched(t.jobs.trace, s.launches[l].id, |s.jobs.trace|, |t.jobs.trace|)
    ensures LaunchedAt(t.jobs.trace, s.launches[l]) && BegunAt(t.jobs.trace, s.launches[l])
    ensures Live(s, l) ==> NotLaunched(t.jobs.trace, s.launches[l].id, s.launches[l].since, |t.jobs.trace|)
  {
  }

  lemma {:induction false} SchedulerInv(g: M.Config, s: State, m: R.Move)
    requires g.Valid() && Inv(g, s) && Possible(s, Scheduler(m))
    ensures Inv(g, Moved(g, s, m))
  {
    var t := Moved(g, s, m);
    MoveKeeps(g, s.jobs, m);
    MovedProjects(g, s, m);
    forall id | id in t.jobs.jobs ensures WasLaunched(t.jobs.trace, id) {
      if id in s.jobs.jobs { StillLaunched(s.jobs.trace, t.jobs.trace, id); }
    }
    forall l | 0 <= l < |t.launches| ensures LaunchOk(t, l) {
      assert LaunchOk(s, l);
      TraceGrown(s, t, l);
    }
  }

  lemma {:induction false} LastLaunchIsLast(t: T.Trace, id: M.JobId)
    requires WasLaunched(t, id)
    ensures var n := LastLaunch(t, id); n > 0 && t[n - 1].Started? && T.OfJob(t[n - 1], id)
    ensures NotLaunched(t, id, LastLaunch(t, id), |t|)
  {
    if t != [] && !(t[|t| - 1].Started? && T.OfJob(t[|t| - 1], id)) {
      var front := t[..|t| - 1];
      var k :| 0 <= k < |t| && t[k].Started? && T.OfJob(t[k], id);
      assert front[k] == t[k];
      LastLaunchIsLast(front, id);
      forall n | LastLaunch(t, id) <= n < |t| ensures !(t[n].Started? && T.OfJob(t[n], id)) {
        if n < |t| - 1 { assert front[n] == t[n]; }
      }
    }
  }

  lemma {:induction false} OperateInv(g: M.Config, s: State, id: M.JobId)
    requires g.Valid() && Inv(g, s) && Possible(s, Operate(id))
    ensures Inv(g, Operated(s, id))
  {
    var t := Operated(s, id);
    CalledProjects(g, s, C.Begin(id.0));
    LastLaunchIsLast(s.jobs.trace, id);
    forall l | 0 <= l < |t.launches| ensures LaunchOk(t, l) {
      if l < |s.launches| {
        assert LaunchOk(s, l);
        assert Live(t, l) <==> Live(s, l);
      } else {
        forall c | 0 <= c < |s.commits.frames| ensures s.commits.frames[c].run != t.launches[l].run { FrameFacts(g, s, c); }
        forall m | 0 <= m < l ensures t.launches[m].run != t.launches[l].run { assert LaunchOk(s, m); }
      }
    }
  }

  lemma {:induction false} EnterInv(g: M.Config, s: State, id: M.JobId, size: nat)
    requires g.Valid() && Inv(g, s) && MayEnter(s, id)
    ensures Inv(g, Entered(s, id, size))
  {
    var t, k := Entered(s, id, size), s.ops[id];
    assert LaunchOk(s, k);
    CalledProjects(g, s, C.Enter(s.launches[k].run, size));
    forall l | 0 <= l < |t.launches| ensures LaunchOk(t, l) {
      assert LaunchOk(s, l);
      assert l != k ==> s.launches[l].run != s.launches[k].run;
      EnterLaunch(s, id, size, l);
    }
  }

  lemma {:induction false} EnterLaunch(s: State, id: M.JobId, size: nat, l: nat)
    requires MayEnter(s, id) && s.launches[s.ops[id]].id == id && l < |s.launches| && LaunchOk(s, l) && LaunchOk(s, s.ops[id])
    requires l != s.ops[id] ==> s.launches[l].run != s.launches[s.ops[id]].run
    ensures LaunchOk(Entered(s, id, size), l)
  {
    assert Live(Entered(s, id, size), l) <==> Live(s, l);
  }

  /** A frame's turn that leads nowhere ends it without a publication. */
  lemma {:induction false} TurnShape(g: M.Config, s: State, id: M.JobId, now: int)
    requires g.Valid() && Inv(g, s) && Possible(s, Turn(id, now))
    ensures var f, fs := s.launches[s.ops[id]].frame.value, Turned(g, s, id, now).commits.frames;
            && |fs| == |s.commits.frames| && (forall c :: 0 <= c < |fs| && c != f ==> fs[c] == s.commits.frames[c])
            && fs[f].run == s.commits.frames[f].run && fs[f].log == []
            && (fs[f].phase.Publishing? ==> GoesAhead(s, id)) && !fs[f].phase.Waiting?
    ensures Turned(g, s, id, now).commits.nextRun == s.commits.nextRun
  {
    FrameFacts(g, s, s.launches[s.ops[id]].frame.value);
    assert LaunchOk(s, s.ops[id]);
  }

  lemma {:induction false} TurnGoes(g: M.Config, s: State, id: M.JobId, now: int)
    requires g.Valid() && Inv(g, s) && Possible(s, Turn(id, now)) && GoesAhead(s, id)
    ensures var t := Turned(g, s, id, now);
            && t.jobs == s.jobs.(jobs := s.jobs.jobs[id := s.jobs.jobs[id].(committing := true)],
                                 trace := s.jobs.trace + [M.CommitBegun(s.jobs.jobs[id].job, now)])
            && M.IdOf(s.jobs.jobs[id].job) == id
  {
    assert LaunchOk(s, s.ops[id]);
    JobFacts(g, s, id);
  }

  lemma {:induction false} TurnProjects(g: M.Config, s: State, id: M.JobId, now: int)
    requires g.Valid() && Inv(g, s) && Possible(s, Turn(id, now))
    ensures Projects(g, Turned(g, s, id, now))
  {
    var t := Called(s, C.Resume(s.launches[s.ops[id]].frame.value, s.jobs.jobs[id].abort.Some?));
    CalledProjects(g, s, C.Resume(s.launches[s.ops[id]].frame.value, s.jobs.jobs[id].abort.Some?));
    if GoesAhead(s, id) { MovedProjects(g, t, R.Move(R.Commits(id), now)); }
  }

  /** What a turn does to an execution: its own frame leaves the queue. */
  ghost predicate Turning(s: State, t: State, id: M.JobId, f: nat, ahead: bool, now: int)
    requires InSection(s, id)
  {
    var k := s.ops[id];
    && f == s.launches[k].frame.value && |t.commits.frames| == |s.commits.frames|
    && (forall c :: 0 <= c < |s.commits.frames| && c != f ==> t.commits.frames[c] == s.commits.frames[c])
    && t.commits.frames[f].run == s.commits.frames[f].run && t.commits.frames[f].log == []
    && !t.commits.frames[f].phase.Waiting? && (t.commits.frames[f].phase.Publishing? ==> ahead)
    && t.commits.nextRun == s.commits.nextRun && t.ops == s.ops
    && (if ahead then
          && t.jobs.trace == s.jobs.trace + [M.CommitBegun(s.jobs.jobs[id].job, now)]
          && M.IdOf(s.jobs.jobs[id].job) == id
          && t.jobs.jobs == s.jobs.jobs[id := s.jobs.jobs[id].(committing := true)]
          && t.launches == s.launches[k := s.launches[k].(begun := Some(|s.jobs.trace|))]
        else t.jobs == s.jobs && t.launches == s.launches)
  }

  lemma {:induction false} TurnTurns(g: M.Config, s: State, id: M.JobId, now: int)
    requires g.Valid() && Inv(g, s) && Possible(s, Turn(id, now))
    ensures Turning(s, Turned(g, s, id, now), id, s.launches[s.ops[id]].frame.value, GoesAhead(s, id), now)
  {
    TurnShape(g, s, id, now);
    if GoesAhead(s, id) { TurnGoes(g, s, id, now); }
  }

  lemma {:induction false} TurnOwn(s: State, t: State, id: M.JobId, f: nat, ahead: bool, now: int)
    requires InSection(s, id) && Turning(s, t, id, f, ahead, now) && LaunchOk(s, s.ops[id]) && s.launches[s.ops[id]].id == id
    requires s.commits.frames[f].phase.Waiting?
    ensures LaunchOk(t, s.ops[id])
  {
    var k := s.ops[id];
    assert Live(t, k) && Live(s, k);
    if ahead {
      assert t.jobs.trace[|s.jobs.trace|].CommitBegun?;
    }
  }

  lemma {:induction false} TurnOther(s: State, t: State, id: M.JobId, f: nat, ahead: bool, now: int, l: nat)
    requires InSection(s, id) && Turning(s, t, id, f, ahead, now) && l < |s.launches| && l != s.ops[id]
    requires LaunchOk(s, l) && LaunchOk(s, s.ops[id]) && s.launches[s.ops[id]].id == id
    ensures LaunchOk(t, l)
  {
    var k := s.ops[id];
    TraceGrown(s, t, l);
    assert Live(t, l) <==> Live(s, l);
    assert s.launches[l].run != s.launches[k].run;
    assert s.launches[l].frame != Some(f);
  }

  lemma {:induction false} TurnInv(g: M.Config, s: State, id: M.JobId, now: int)
    requires g.Valid() && Inv(g, s) && Possible(s, Turn(id, now))
    ensures Inv(g, Turned(g, s, id, now))
  {
    var t, k := Turned(g, s, id, now), s.ops[id];
    var f := s.launches[k].frame.value;
    TurnProjects(g, s, id, now);
    TurnTurns(g, s, id, now);
    assert LaunchOk(s, k);
    TurnOwn(s, t, id, f, GoesAhead(s, id), now);
    forall l | 0 <= l < |t.launches| ensures LaunchOk(t, l) {
      assert LaunchOk(s, l);
      if l != k { TurnOther(s, t, id, f, GoesAhead(s, id), now, l); }
    }
    forall j | j in t.jobs.jobs ensures WasLaunched(t.jobs.trace, j) { StillLaunched(s.jobs.trace, t.jobs.trace, j); }
  }

  /** What the end of a job does to the table and to the launches recorded. */
  lemma {:induction false} CompletedJobs(g: M.Config, j: M.State, id: M.JobId, outcome: M.Outcome, now: int, draws: M.Draws)
    requires g.Valid() && id in j.jobs && j.jobs[id].job.provider in j.providers && M.IdOf(j.jobs[id].job) == id
    ensures var u := R.Next(g, j, R.Move(R.Completes(id, outcome, draws), now));
            u.jobs == j.jobs - {id} && SchedulerOutcomes.NoLaunches(j, u)
  {
    SchedulerOutcomes.CompleteFinishes(g, j, id, outcome, now, draws);
    SchedulerOutcomes.CompleteLaunchesNothing(g, j, id, outcome, now, draws);
    assert R.Next(g, j, R.Move(R.Completes(id, outcome, draws), now)) == M.Complete(g, j, id, outcome, now, draws);
  }

  lemma {:induction false} CompleteMoves(g: M.Config, s: State, id: M.JobId, outcome: M.Outcome, now: int, draws: M.Draws)
    requires g.Valid() && Inv(g, s) && Possible(s, Complete(id, outcome, now, draws))
    ensures var t := Moved(g, s, R.Move(R.Completes(id, outcome, draws), now));
            Projects(g, t) && t.jobs.jobs == s.jobs.jobs - {id} && SchedulerOutcomes.NoLaunches(s.jobs, t.jobs)
  {
    JobFacts(g, s, id);
    CompletedJobs(g, s.jobs, id, outcome, now, draws);
    MovedProjects(g, s, R.Move(R.Completes(id, outcome, draws), now));
  }

  lemma {:induction false} CompleteShape(g: M.Config, s: State, id: M.JobId, outcome: M.Outcome, now: int, draws: M.Draws)
    requires g.Valid() && Inv(g, s) && Possible(s, Complete(id, outcome, now, draws))
    ensures var t := Completed(g, s, id, outcome, now, draws);
            && Projects(g, t) && t.jobs.jobs == s.jobs.jobs - {id} && SchedulerOutcomes.NoLaunches(s.jobs, t.jobs)
            && t.commits.frames == s.commits.frames && t.commits.nextRun == s.commits.nextRun
            && t.launches == s.launches && t.ops == s.ops - {id}
  {
    var t := Moved(g, s, R.Move(R.Completes(id, outcome, draws), now));
    CompleteMoves(g, s, id, outcome, now, draws);
    if id in s.ops { CalledProjects(g, t, C.Finish(s.launches[s.ops[id]].run)); }
  }

  lemma {:induction false} EndedLaunch(s: State, t: State, id: M.JobId, l: nat)
    requires l < |s.launches| && LaunchOk(s, l) && SchedulerOutcomes.NoLaunches(s.jobs, t.jobs)
    requires t.jobs.jobs == s.jobs.jobs - {id} && t.commits.frames == s.commits.frames && t.commits.nextRun == s.commits.nextRun
    requires t.launches == s.launches && t.ops == s.ops - {id}
    requires InSection(s, id) ==> FrameOf(s, id).phase.Ended?
    requires id in s.jobs.jobs
    ensures LaunchOk(t, l)
  {
    TraceGrown(s, t, l);
    assert Live(t, l) <==> Live(s, l) && s.launches[l].id != id;
  }

  lemma {:induction false} CompleteInv(g: M.Config, s: State, id: M.JobId, outcome: M.Outcome, now: int, draws: M.Draws)
    requires g.Valid() && Inv(g, s) && Possible(s, Complete(id, outcome, now, draws))
    ensures Inv(g, Completed(g, s, id, outcome, now, draws))
  {
    var t := Completed(g, s, id, outcome, now, draws);
    CompleteShape(g, s, id, outcome, now, draws);
    forall j | j in t.jobs.jobs ensures WasLaunched(t.jobs.trace, j) { StillLaunched(s.jobs.trace, t.jobs.trace, j); }
    forall l | 0 <= l < |t.launches| ensures LaunchOk(t, l) {
      assert LaunchOk(s, l);
      EndedLaunch(s, t, id, l);
    }
  }

  lemma {:induction false} SectionInv(g: M.Config, s: State, call: C.Step)
    requires g.Valid() && Inv(g, s) && Possible(s, Section(call))
    ensures Inv(g, Called(s, call))
  {
    var t := Called(s, call);
    CalledProjects(g, s, call);
    forall l | 0 <= l < |t.launches| ensures LaunchOk(t, l) {
      assert LaunchOk(s, l);
      assert Live(t, l) <==> Live(s, l);
      SectionLinked(s, call, l);
    }
  }

  lemma {:induction false} SectionLinked(s: State, call: C.Step, l: nat)
    requires l < |s.launches| && LaunchOk(s, l) && Possible(s, Section(call))
    ensures FrameLinked(Called(s, call), l) && s.commits.nextRun <= Called(s, call).commits.nextRun
  {
    assert Live(Called(s, call), l) <==> Live(s, l);
  }

  lemma {:induction false} NextInv(g: M.Config, s: State, step: Step)
    requires g.Valid() && Inv(g, s)
    ensures Inv(g, Next(g, s, step))
  {
    if Possible(s, step) {
      match step
      case Scheduler(m) => SchedulerInv(g, s, m);
      case Operate(id) => OperateInv(g, s, id);
      case Enter(id, size) => EnterInv(g, s, id, size);
      case Turn(id, now) => TurnInv(g, s, id, now);
      case Complete(id, outcome, now, draws) => CompleteInv(g, s, id, outcome, now, draws);
      case Section(call) => SectionInv(g, s, call);
    }
  }

  lemma {:induction false} RunInv(g: M.Config, steps: seq<Step>)
    requires g.Valid()
    ensures Inv(g, Execute(g, steps))
  {
    if steps != [] {
      RunInv(g, steps[..|steps| - 1]);
      NextInv(g, Execute(g, steps[..|steps| - 1]), steps[|steps| - 1]);
    }
  }

  // --- Possible steps --------------------------------------------------------

  lemma {:induction false} SchedulerStep(g: M.Config, s: State, m: R.Move)
    requires g.Valid() && Possible(s, Scheduler(m))
    ensures Next(g, s, Scheduler(m)) == Moved(g, s, m)
  {
  }

  lemma {:induction false} OperateStep(g: M.Config, s: State, id: M.JobId)
    requires g.Valid() && Possible(s, Operate(id))
    ensures Next(g, s, Operate(id)) == Operated(s, id)
  {
  }

  lemma {:induction false} EnterStep(g: M.Config, s: State, id: M.JobId, size: nat)
    requires g.Valid() && MayEnter(s, id)
    ensures Next(g, s, Enter(id, size)) == Entered(s, id, size)
  {
  }

  lemma {:induction false} TurnStep(g: M.Config, s: State, id: M.JobId, now: int)
    requires g.Valid() && Possible(s, Turn(id, now))
    ensures Next(g, s, Turn(id, now)) == Turned(g, s, id, now)
  {
  }

  lemma {:induction false} CompleteStep(g: M.Config, s: State, id: M.JobId, outcome: M.Outcome, now: int, draws: M.Draws)
    requires g.Valid() && Possible(s, Complete(id, outcome, now, draws))
    ensures Next(g, s, Complete(id, outcome, now, draws)) == Completed(g, s, id, outcome, now, draws)
  {
  }

  lemma {:induction false} SectionStep(g: M.Config, s: State, call: C.Step)
    requires g.Valid() && Possible(s, Section(call))
    ensures Next(g, s, Section(call)) == Called(s, call)
  {
  }

  /** What a job's execution looks like, and that no other job shares it. */
  ghost predicate OpLinked(s: State, id: M.JobId) {
    && id in s.jobs.jobs && id in s.ops && s.ops[id] < |s.launches| && s.launches[s.ops[id]].run.id < s.commits.nextRun
    && (s.launches[s.ops[id]].frame.Some? ==> InSection(s, id) && FrameOf(s, id).run == s.launches[s.ops[id]].run)
    && forall j :: j in s.ops && j != id ==> s.ops[j] != s.ops[id]
  }

  lemma {:induction false} OpFacts(g: M.Config, steps: seq<Step>, id: M.JobId)
    requires g.Valid() && id in Execute(g, steps).ops
    ensures OpLinked(Execute(g, steps), id)
  {
    RunInv(g, steps);
    assert LaunchOk(Execute(g, steps), Execute(g, steps).ops[id]);
  }

  // --- Results ---------------------------------------------------------------

  /** Each component, seen alone, is in a state of one of its own runs: whatever is
      proved about all runs of either holds of both together. */
  lemma {:induction false} ComponentsRun(g: M.Config, steps: seq<Step>)
    requires g.Valid()
    ensures Projects(g, Execute(g, steps))
  {
    RunInv(g, steps);
  }

  /** Every execution belongs to one launch that the trace records. */
  lemma {:induction false} ExecutionsAreLaunches(g: M.Config, steps: seq<Step>, l: nat)
    requires g.Valid() && l < |Execute(g, steps).launches|
    ensures LaunchedAt(Execute(g, steps).jobs.trace, Execute(g, steps).launches[l])
  {
    RunInv(g, steps);
    assert LaunchOk(Execute(g, steps), l);
  }

  /** A job aborted at any moment of a launch publishes nothing in that launch: not
      before, and not in whatever happens afterwards. */
  lemma {:induction false} AbortedPublishesNothing(g: M.Config, steps: seq<Step>, l: nat, j: nat)
    requires g.Valid() && l < |Execute(g, steps).launches| && j < |Execute(g, steps).jobs.trace|
    requires var s := Execute(g, steps); var x := s.launches[l];
             && s.jobs.trace[j].Aborted? && x.id in s.jobs.trace[j].ids
             && x.since <= j && NotLaunched(s.jobs.trace, x.id, x.since, j)
    ensures var s := Execute(g, steps); var x := s.launches[l];
            x.begun.None? && (x.frame.Some? ==> x.frame.value < |s.commits.frames| && !Published(s.commits.frames[x.frame.value]))
  {
    RunInv(g, steps);
    AbortedUnpublished(g, Execute(g, steps), l, j);
  }

  lemma {:induction false} AbortedUnpublished(g: M.Config, s: State, l: nat, j: nat)
    requires g.Valid() && Inv(g, s) && l < |s.launches| && j < |s.jobs.trace|
    requires s.jobs.trace[j].Aborted? && s.launches[l].id in s.jobs.trace[j].ids
    requires s.launches[l].since <= j && NotLaunched(s.jobs.trace, s.launches[l].id, s.launches[l].since, j)
    ensures var x := s.launches[l];
            x.begun.None? && (x.frame.Some? ==> x.frame.value < |s.commits.frames| && !Published(s.commits.frames[x.frame.value]))
  {
    var x := s.launches[l];
    assert LaunchOk(s, l);
    if x.begun.Some? {
      R.RunSafe(g, s.moves);
      T.CommitExcludesAbort(g, s.jobs.trace, x.id, x.begun.value, j);
    }
  }

  /** While an execution publishes, its job is in the table, committing, and its signal
      is not aborted. */
  lemma {:induction false} PublishingJobCommits(g: M.Config, steps: seq<Step>, l: nat)
    requires g.Valid() && l < |Execute(g, steps).launches| && Execute(g, steps).launches[l].frame.Some?
    requires var s := Execute(g, steps);
             s.launches[l].frame.value < |s.commits.frames| && s.commits.frames[s.launches[l].frame.value].phase.Publishing?
    ensures var s := Execute(g, steps); var id := s.launches[l].id;
            && id in s.jobs.jobs && id in s.ops && s.ops[id] == l
            && s.jobs.jobs[id].committing && s.jobs.jobs[id].abort.None?
  {
    var s := Execute(g, steps);
    RunInv(g, steps);
    assert LaunchOk(s, l);
    JobFacts(g, s, s.launches[l].id);
  }

  /** At its turn a frame goes on to publish, and its job to commit, iff the job's signal
      is not aborted and the run is not superseded; otherwise it ends unpublished and the
      scheduler does not notice. */
  lemma {:induction false} TurnDecides(g: M.Config, s: State, id: M.JobId, now: int)
    requires g.Valid() && Inv(g, s) && Possible(s, Turn(id, now)) && FrameOf(s, id).size > 0
    ensures var t, f := Turned(g, s, id, now), s.launches[s.ops[id]].frame.value;
            && (t.commits.frames[f].phase.Publishing? <==> GoesAhead(s, id))
            && (id in t.jobs.jobs && t.jobs.jobs[id].committing <==> GoesAhead(s, id))
            && (!GoesAhead(s, id) ==> t.jobs == s.jobs && t.commits.frames[f].phase.Ended? && t.commits.frames[f].log == [])
  {
    assert LaunchOk(s, s.ops[id]);
    TurnShape(g, s, id, now);
    if GoesAhead(s, id) { TurnGoes(g, s, id, now); }
  }

  lemma {:induction false} MovesGrow(g: M.Config, steps: seq<Step>, from: nat)
    requires g.Valid() && from <= |steps|
    ensures Execute(g, steps[..from]).moves <= Execute(g, steps).moves
  {
    if from == |steps| {
      assert steps[..from] == steps;
    } else {
      var n := |steps| - 1;
      assert steps[..n][..from] == steps[..from];
      MovesGrow(g, steps[..n], from);
      StepMoves(g, Execute(g, steps[..n]), steps[n]);
    }
  }

  lemma {:induction false} StepMoves(g: M.Config, s: State, step: Step)
    requires g.Valid()
    ensures s.moves <= Next(g, s, step).moves
  {
  }

  /** `stop` returns to a quiet commit section: once the scheduler stops and the jobs of
      that moment have ended, no job is left and no execution's frame waits or publishes. */
  lemma {:induction false} StopLeavesNoFrame(g: M.Config, steps: seq<Step>, from: nat, l: nat)
    requires g.Valid() && from <= |steps| && Execute(g, steps[..from]).jobs.stopping
    requires Execute(g, steps[..from]).jobs.jobs.Keys !! Execute(g, steps).jobs.jobs.Keys
    ensures Execute(g, steps).jobs.jobs == map[]
    ensures var s := Execute(g, steps);
            l < |s.launches| && s.launches[l].frame.Some? ==>
              s.launches[l].frame.value < |s.commits.frames| && s.commits.frames[s.launches[l].frame.value].phase.Ended?
  {
    var s, before := Execute(g, steps), Execute(g, steps[..from]);
    RunInv(g, steps);
    RunInv(g, steps[..from]);
    MovesGrow(g, steps, from);
    assert s.moves[..|before.moves|] == before.moves;
    SchedulerOutcomes.StopReturnsDrained(g, s.moves, |before.moves|);
    if l < |s.launches| { assert LaunchOk(s, l); }
  }
}
