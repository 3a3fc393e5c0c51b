/** The provider commit section (ingestion-commit.service.ts): a generation check
    and a lock made of promise tails. A commit call is a frame that first waits for
    the tail before it, then publishes one publication after the other, then
    releases its own tail. Frames and other calls interleave between awaits. */
module CommitSection {
  import opened Domain

  /** `id` is a fresh random identifier. */
  datatype Run = Run(provider: string, id: nat)

  datatype Phase = Waiting | Publishing | Ended

  datatype Mark = Begun(index: nat) | Done(index: nat, ok: bool)

  /** One commit call. `previous` is the frame whose tail it awaits, `log` what its
      publications have done so far. */
  datatype Frame = Frame(run: Run, size: nat, previous: Option<nat>, phase: Phase, log: seq<Mark>)

  datatype Entry = Entry(frame: nat, mark: Mark)

  datatype State = State(
    generations: map<string, nat>,
    tails: map<string, nat>,
    frames: seq<Frame>,
    nextRun: nat,
    trace: seq<Entry>)

  const INITIAL := State(map[], map[], [], 0, [])

  // --- Steps -----------------------------------------------------------------

  datatype Step =
    | Begin(provider: string)
    | Finish(run: Run)
    | Enter(run: Run, size: nat)
    | Resume(frame: nat, aborted: bool)
    | Publish(frame: nat)
    | Published(frame: nat, ok: bool)

  predicate Current(s: State, run: Run) {
    run.provider in s.generations && s.generations[run.provider] == run.id
  }

  /** The tail before the frame has resolved. */
  predicate Unblocked(s: State, c: nat)
    requires c < |s.frames|
  {
    var previous := s.frames[c].previous;
    previous.Some? ==> previous.value < |s.frames| && s.frames[previous.value].phase.Ended?
  }

  predicate InFlight(f: Frame) { |f.log| % 2 == 1 }

  /** The `finally` block: resolve the tail and forget it if it is the last one. */
  function Release(s: State, c: nat): State
    requires c < |s.frames|
  {
    var p := s.frames[c].run.provider;
    s.(frames := s.frames[c := s.frames[c].(phase := Ended)],
       tails := if p in s.tails && s.tails[p] == c then s.tails - {p} else s.tails)
  }

  function Record(s: State, c: nat, m: Mark): State
    requires c < |s.frames|
  {
    s.(frames := s.frames[c := s.frames[c].(log := s.frames[c].log + [m])], trace := s.trace + [Entry(c, m)])
  }

  function Next(s: State, step: Step): State {
    match step
    case Begin(p) => s.(generations := s.generations[p := s.nextRun], nextRun := s.nextRun + 1)
    case Finish(run) => if Current(s, run) then s.(generations := s.generations - {run.provider}) else s
    case Enter(run, size) =>
      if run.id >= s.nextRun then s
      else
        var previous := if run.provider in s.tails then Some(s.tails[run.provider]) else None;
        s.(frames := s.frames + [Frame(run, size, previous, Waiting, [])], tails := s.tails[run.provider := |s.frames|])
    case Resume(c, aborted) =>
      if c >= |s.frames| || !s.frames[c].phase.Waiting? || !Unblocked(s, c) then s
      else if aborted || !Current(s, s.frames[c].run) || s.frames[c].size == 0 then Release(s, c)
      else s.(frames := s.frames[c := s.frames[c].(phase := Publishing)])
    case Publish(c) =>
      if c >= |s.frames| || !s.frames[c].phase.Publishing? || InFlight(s.frames[c]) then s
      else Record(s, c, Begun(|s.frames[c].log| / 2))
    case Published(c, ok) =>
      if c >= |s.frames| || !s.frames[c].phase.Publishing? || !InFlight(s.frames[c]) then s
      else
        var t := Record(s, c, Done(|s.frames[c].log| / 2, ok));
        if ok && |t.frames[c].log| / 2 < t.frames[c].size then t else Release(t, c)
  }

  function Execute(steps: seq<Step>): State {
    if steps == [] then INITIAL else Next(Execute(steps[..|steps| - 1]), steps[|steps| - 1])
  }

  lemma {:induction false} ExecutePush(steps: seq<Step>, step: Step)
    ensures Execute(steps + [step]) == Next(Execute(steps), step)
  {
    assert (steps + [step])[..|steps|] == steps;
  }

  // --- Invariant -------------------------------------------------------------

  ghost predicate Alike(s: State, i: nat, j: nat) {
    i < |s.frames| && j < |s.frames| && s.frames[i].run.provider == s.frames[j].run.provider
  }

  /** Every earlier frame of the same provider has ended. */
  ghost predicate Clear(s: State, c: nat) {
    forall i: nat :: i < c && Alike(s, i, c) ==> s.frames[i].phase.Ended?
  }

  /** A frame waits for the frame of its provider that entered just before it. */
  ghost predicate Chained(s: State, c: nat)
    requires c < |s.frames|
  {
    match s.frames[c].previous
    case None => Clear(s, c)
    case Some(b) => b < c && Alike(s, b, c) && forall i: nat :: b < i < c ==> !Alike(s, i, c)
  }

  /** Publications in order, each finished before the next; a failed one is the last. */
  ghost predicate Orderly(f: Frame) {
    && |f.log| <= 2 * f.size
    && (forall i :: 0 <= i < |f.log| ==>
          if i % 2 == 0 then f.log[i] == Begun(i / 2)
          else f.log[i].Done? && f.log[i].index == i / 2 && (f.log[i].ok || i == |f.log| - 1))
    && (f.phase.Waiting? ==> f.log == [])
    && (f.phase.Publishing? ==> |f.log| < 2 * f.size && forall m :: m in f.log && m.Done? ==> m.ok)
    && (f.phase.Ended? ==> !InFlight(f))
  }

  ghost predicate FrameOk(s: State, c: nat)
    requires c < |s.frames|
  {
    && Chained(s, c)
    && Orderly(s.frames[c])
    && s.frames[c].run.id < s.nextRun
    && (!s.frames[c].phase.Waiting? ==> Clear(s, c))
  }

  /** A tail is kept exactly for a provider's last frame while that has not ended. */
  ghost predicate TailsOk(s: State) {
    && (forall p :: p in s.tails ==>
          s.tails[p] < |s.frames| && s.frames[s.tails[p]].run.provider == p && !s.frames[s.tails[p]].phase.Ended?
          && forall i :: s.tails[p] < i < |s.frames| ==> s.frames[i].run.provider != p)
    && (forall c :: 0 <= c < |s.frames| && s.frames[c].run.provider !in s.tails ==> s.frames[c].phase.Ended?)
  }

  /** What the provider's publications have done, frame by frame in order of entry. */
  ghost function Blocks(frames: seq<Frame>, p: string): seq<Mark> {
    if frames == [] then []
    else
      var n := |frames| - 1;
      if frames[n].run.provider == p then Blocks(frames[..n], p) + frames[n].log else Blocks(frames[..n], p)
  }

  /** What the trace shows of one provider. */
  ghost function Seen(s: State, n: nat, p: string): seq<Mark>
    requires n <= |s.trace|
  {
    if n == 0 then []
    else if s.trace[n - 1].frame < |s.frames| && s.frames[s.trace[n - 1].frame].run.provider == p
    then Seen(s, n - 1, p) + [s.trace[n - 1].mark]
    else Seen(s, n - 1, p)
  }

  ghost predicate Serial(s: State) {
    && (forall e :: e in s.trace ==> e.frame < |s.frames|)
    && forall p :: Seen(s, |s.trace|, p) == Blocks(s.frames, p)
  }

  ghost predicate Inv(s: State) {
    && (forall c :: 0 <= c < |s.frames| ==> FrameOk(s, c))
    && TailsOk(s)
    && Serial(s)
    && forall p :: p in s.generations ==> s.generations[p] < s.nextRun
  }

  // --- Preservation ----------------------------------------------------------

  /** t's frames are s's with the same runs, possibly moved on. */
  ghost predicate SameRuns(s: State, t: State) {
    && |s.frames| == |t.frames|
    && forall c :: 0 <= c < |s.frames| ==> t.frames[c].run == s.frames[c].run
  }

  lemma {:induction false} SeenSame(s: State, t: State, n: nat, p: string)
    requires n <= |s.trace| && s.trace <= t.trace && |s.frames| <= |t.frames|
    requires forall c :: 0 <= c < |s.frames| ==> t.frames[c].run == s.frames[c].run
    requires forall e :: e in s.trace ==> e.frame < |s.frames|
    ensures Seen(t, n, p) == Seen(s, n, p)
  {
    if n > 0 {
      SeenSame(s, t, n - 1, p);
      assert s.trace[n - 1] in s.trace;
    }
  }

  lemma {:induction false} BlocksSame(fs: seq<Frame>, gs: seq<Frame>, p: string)
    requires |fs| == |gs| && forall c :: 0 <= c < |fs| ==> gs[c].run == fs[c].run && gs[c].log == fs[c].log
    ensures Blocks(gs, p) == Blocks(fs, p)
  {
    if fs != [] { BlocksSame(fs[..|fs| - 1], gs[..|gs| - 1], p); }
  }

  /** A mark of frame c extends the provider's view when later frames are silent. */
  lemma {:induction false} BlocksMark(fs: seq<Frame>, c: nat, m: Mark, p: string)
    requires c < |fs|
    requires forall j :: c < j < |fs| && fs[j].run.provider == fs[c].run.provider ==> fs[j].log == []
    ensures Blocks(fs[c := fs[c].(log := fs[c].log + [m])], p)
         == if p == fs[c].run.provider then Blocks(fs, p) + [m] else Blocks(fs, p)
  {
    var n := |fs| - 1;
    var gs := fs[c := fs[c].(log := fs[c].log + [m])];
    if c == n {
      assert gs[..n] == fs[..n];
    } else {
      assert gs[..n] == fs[..n][c := fs[c].(log := fs[c].log + [m])];
      BlocksMark(fs[..n], c, m, p);
      assert gs[n] == fs[n];
    }
  }

  lemma {:induction false} SilentSerial(s: State, t: State)
    requires Serial(s) && SameRuns(s, t) && t.trace == s.trace
    requires forall c :: 0 <= c < |s.frames| ==> t.frames[c].log == s.frames[c].log
    ensures Serial(t)
  {
    forall p ensures Seen(t, |t.trace|, p) == Blocks(t.frames, p) {
      SeenSame(s, t, |s.trace|, p);
      BlocksSame(s.frames, t.frames, p);
    }
  }

  lemma {:induction false} RecordSerial(s: State, c: nat, m: Mark)
    requires Inv(s) && c < |s.frames| && s.frames[c].phase.Publishing?
    ensures Serial(Record(s, c, m))
  {
    var t := Record(s, c, m);
    forall j | c < j < |s.frames| && s.frames[j].run.provider == s.frames[c].run.provider ensures s.frames[j].log == [] {
      assert FrameOk(s, j) && Alike(s, c, j);
    }
    forall p ensures Seen(t, |t.trace|, p) == Blocks(t.frames, p) {
      SeenSame(s, t, |s.trace|, p);
      BlocksMark(s.frames, c, m, p);
    }
  }

  lemma {:induction false} EnterInv(s: State, run: Run, size: nat)
    requires Inv(s) && run.id < s.nextRun
    ensures Inv(Next(s, Enter(run, size)))
  {
    var t := Next(s, Enter(run, size));
    var n := |s.frames|;
    forall c | 0 <= c < |t.frames| ensures FrameOk(t, c) {
      if c < n {
        assert FrameOk(s, c) && t.frames[c] == s.frames[c];
        assert forall i: nat :: i <= c ==> (Alike(t, i, c) <==> Alike(s, i, c));
      } else if run.provider !in s.tails {
        assert Clear(t, c);
      }
    }
    forall p ensures Seen(t, |t.trace|, p) == Blocks(t.frames, p) {
      SeenSame(s, t, |s.trace|, p);
      assert t.frames[..n] == s.frames;
    }
  }

  /** Moving a frame on, when no frame of its provider is ahead of it. */
  lemma {:induction false} AdvanceFrames(s: State, t: State, c: nat)
    requires Inv(s) && SameRuns(s, t) && c < |s.frames| && Clear(s, c) && s.nextRun == t.nextRun
    requires forall i :: 0 <= i < |s.frames| && i != c ==> t.frames[i] == s.frames[i]
    requires t.frames[c].previous == s.frames[c].previous && Orderly(t.frames[c]) && !s.frames[c].phase.Ended?
    ensures forall i :: 0 <= i < |t.frames| ==> FrameOk(t, i)
  {
    forall i | 0 <= i < |t.frames| ensures FrameOk(t, i) {
      assert FrameOk(s, i);
      assert forall j: nat :: Alike(t, j, i) <==> Alike(s, j, i);
      if i > c && Alike(s, c, i) {
        assert !Clear(s, i);
      } else {
        assert Clear(s, i) ==> Clear(t, i);
      }
    }
  }

  lemma {:induction false} ReleaseInv(s: State, c: nat)
    requires Inv(s) && c < |s.frames| && Clear(s, c) && Orderly(s.frames[c].(phase := Ended)) && !s.frames[c].phase.Ended?
    ensures Inv(Release(s, c))
  {
    AdvanceFrames(s, Release(s, c), c);
    SilentSerial(s, Release(s, c));
  }

  /** An unblocked frame is next in line. */
  lemma {:induction false} UnblockedClear(s: State, c: nat)
    requires Inv(s) && c < |s.frames| && Unblocked(s, c)
    ensures Clear(s, c)
  {
    assert FrameOk(s, c);
    if s.frames[c].previous.Some? {
      var b := s.frames[c].previous.value;
      assert FrameOk(s, b);
      forall i: nat | i < c && Alike(s, i, c) ensures s.frames[i].phase.Ended? {
        if i < b { assert Alike(s, i, b); }
      }
    }
  }

  lemma {:induction false} ResumeInv(s: State, c: nat, aborted: bool)
    requires Inv(s)
    ensures Inv(Next(s, Resume(c, aborted)))
  {
    if c < |s.frames| && s.frames[c].phase.Waiting? && Unblocked(s, c) {
      UnblockedClear(s, c);
      assert FrameOk(s, c);
      if aborted || !Current(s, s.frames[c].run) || s.frames[c].size == 0 {
        ReleaseInv(s, c);
      } else {
        var t := Next(s, Resume(c, aborted));
        AdvanceFrames(s, t, c);
        SilentSerial(s, t);
      }
    }
  }

  lemma {:induction false} RecordInv(s: State, c: nat, m: Mark)
    requires Inv(s) && c < |s.frames| && s.frames[c].phase.Publishing?
    requires Orderly(Record(s, c, m).frames[c])
    ensures Inv(Record(s, c, m))
  {
    assert FrameOk(s, c);
    AdvanceFrames(s, Record(s, c, m), c);
    RecordSerial(s, c, m);
  }

  lemma {:induction false} PublishInv(s: State, c: nat)
    requires Inv(s)
    ensures Inv(Next(s, Publish(c)))
  {
    if c < |s.frames| && s.frames[c].phase.Publishing? && !InFlight(s.frames[c]) {
      assert FrameOk(s, c);
      RecordInv(s, c, Begun(|s.frames[c].log| / 2));
    }
  }

  /** The last publication, or a failed one, and the release are one step. */
  lemma {:induction false} LastMarkInv(s: State, c: nat, m: Mark)
    requires Inv(s) && c < |s.frames| && s.frames[c].phase.Publishing?
    requires Orderly(Release(Record(s, c, m), c).frames[c])
    ensures Inv(Release(Record(s, c, m), c))
  {
    var t := Record(s, c, m);
    var u := Release(t, c);
    assert FrameOk(s, c);
    AdvanceFrames(s, u, c);
    RecordSerial(s, c, m);
    SilentSerial(t, u);
  }

  lemma {:induction false} PublishedInv(s: State, c: nat, ok: bool)
    requires Inv(s)
    ensures Inv(Next(s, Published(c, ok)))
  {
    if c < |s.frames| && s.frames[c].phase.Publishing? && InFlight(s.frames[c]) {
      assert FrameOk(s, c);
      var f := s.frames[c];
      var m := Done(|f.log| / 2, ok);
      if ok && (|f.log| + 1) / 2 < f.size {
        RecordInv(s, c, m);
      } else {
        LastMarkInv(s, c, m);
      }
    }
  }

  lemma {:induction false} NextInv(s: State, step: Step)
    requires Inv(s)
    ensures Inv(Next(s, step))
  {
    match step
    case Begin(_) => GenerationInv(s, Next(s, step));
    case Finish(_) => GenerationInv(s, Next(s, step));
    case Enter(run, size) => if run.id < s.nextRun { EnterInv(s, run, size); }
    case Resume(c, aborted) => ResumeInv(s, c, aborted);
    case Publish(c) => PublishInv(s, c);
    case Published(c, ok) => PublishedInv(s, c, ok);
  }

  lemma {:induction false} GenerationInv(s: State, t: State)
    requires Inv(s) && t.frames == s.frames && t.tails == s.tails && t.trace == s.trace && t.nextRun >= s.nextRun
    requires forall p :: p in t.generations ==> t.generations[p] < t.nextRun
    ensures Inv(t)
  {
    forall c | 0 <= c < |t.frames| ensures FrameOk(t, c) {
      assert FrameOk(s, c);
      assert forall i: nat, j: nat :: Alike(t, i, j) <==> Alike(s, i, j);
    }
    SilentSerial(s, t);
  }

  lemma {:induction false} RunInv(steps: seq<Step>)
    ensures Inv(Execute(steps))
  {
    if steps != [] {
      RunInv(steps[..|steps| - 1]);
      NextInv(Execute(steps[..|steps| - 1]), steps[|steps| - 1]);
    }
  }

  // --- Results ---------------------------------------------------------------

  /** Uninterleaved, in order, first in first out: after every run a provider's part
      of the trace is the concatenation, in order of entry, of its frames' own
      publications, each frame's in order and one at a time. */
  lemma {:induction false} PublicationsAreSerial(steps: seq<Step>, p: string)
    ensures var s := Execute(steps);
            && Seen(s, |s.trace|, p) == Blocks(s.frames, p)
            && forall c :: 0 <= c < |s.frames| ==> Orderly(s.frames[c])
  {
    RunInv(steps);
    forall c | 0 <= c < |Execute(steps).frames| ensures Orderly(Execute(steps).frames[c]) {
      assert FrameOk(Execute(steps), c);
    }
  }

  /** Mutual exclusion in order of entry: a frame leaves the queue only after every
      earlier frame of its provider has ended. */
  lemma {:induction false} FirstInFirstOut(steps: seq<Step>, i: nat, j: nat)
    requires i < j && Alike(Execute(steps), i, j) && !Execute(steps).frames[j].phase.Waiting?
    ensures Execute(steps).frames[i].phase.Ended?
  {
    RunInv(steps);
    assert FrameOk(Execute(steps), j);
  }

  /** The run is no longer its provider's current one. */
  predicate Superseded(s: State, run: Run) { run.id < s.nextRun && !Current(s, run) }

  /** Not yet past the lock: not entered, still waiting, or ended with nothing done. */
  predicate Outside(s: State, c: nat) {
    c < |s.frames| ==> s.frames[c].log == [] && !s.frames[c].phase.Publishing?
  }

  /** A run that was superseded before its frame got the lock never publishes. */
  lemma {:induction false} SupersededPublishesNothing(steps: seq<Step>, from: nat, c: nat, run: Run)
    requires from <= |steps| && Superseded(Execute(steps[..from]), run) && Outside(Execute(steps[..from]), c)
    requires c < |Execute(steps).frames| && Execute(steps).frames[c].run == run
    ensures Outside(Execute(steps), c)
  {
    if from == |steps| {
      assert steps[..from] == steps;
    } else {
      var n := |steps| - 1;
      assert steps[..n][..from] == steps[..from];
      SupersededLong(steps[..n], from, run);
      RunsKept(Execute(steps[..n]), steps[n], c);
      if c < |Execute(steps[..n]).frames| {
        SupersededPublishesNothing(steps[..n], from, c, run);
      }
      StaysOutside(Execute(steps[..n]), steps[n], c);
    }
  }

  lemma {:induction false} RunsKept(s: State, step: Step, c: nat)
    ensures c < |s.frames| ==> c < |Next(s, step).frames| && Next(s, step).frames[c].run == s.frames[c].run
  {
  }

  lemma {:induction false} StaysOutside(s: State, step: Step, c: nat)
    requires Outside(s, c) && c < |s.frames| ==> Superseded(s, s.frames[c].run)
    requires Outside(s, c)
    ensures Outside(Next(s, step), c)
  {
  }

  lemma {:induction false} SupersededLong(steps: seq<Step>, from: nat, run: Run)
    requires from <= |steps| && Superseded(Execute(steps[..from]), run)
    ensures Superseded(Execute(steps), run)
  {
    if from == |steps| {
      assert steps[..from] == steps;
    } else {
      var n := |steps| - 1;
      assert steps[..n][..from] == steps[..from];
      SupersededLong(steps[..n], from, run);
    }
  }

  /** When its turn comes, a frame publishes iff its signal is not aborted and its
      run is current; otherwise it ends having done nothing. */
  lemma {:induction false} TurnDecides(s: State, c: nat, aborted: bool)
    requires Inv(s) && c < |s.frames| && s.frames[c].phase.Waiting? && Unblocked(s, c) && s.frames[c].size > 0
    ensures var f := Next(s, Resume(c, aborted)).frames[c];
            && (f.phase.Publishing? <==> !aborted && Current(s, s.frames[c].run))
            && (!f.phase.Publishing? ==> f.phase.Ended? && f.log == [])
  {
    assert FrameOk(s, c);
  }

  /** The queue never jams: while a provider has an unfinished frame, the first one
      is publishing or its turn has come. */
  lemma {:induction false} NoDeadlock(steps: seq<Step>, c: nat)
    requires c < |Execute(steps).frames| && !Execute(steps).frames[c].phase.Ended?
    ensures exists f: nat :: f <= c && Alike(Execute(steps), f, c) && !Execute(steps).frames[f].phase.Ended? && Unblocked(Execute(steps), f)
    decreases c
  {
    var s := Execute(steps);
    RunInv(steps);
    assert FrameOk(s, c);
    if !Unblocked(s, c) {
      var b := s.frames[c].previous.value;
      NoDeadlock(steps, b);
      var f: nat :| f <= b && Alike(s, f, b) && !s.frames[f].phase.Ended? && Unblocked(s, f);
      assert Alike(s, f, c);
    }
  }

  /** The tail map holds exactly the providers with an unfinished frame. */
  lemma {:induction false} TailsAreLive(steps: seq<Step>, p: string)
    ensures p in Execute(steps).tails
       <==> exists c :: 0 <= c < |Execute(steps).frames| && Execute(steps).frames[c].run.provider == p && !Execute(steps).frames[c].phase.Ended?
  {
    RunInv(steps);
    var s := Execute(steps);
    if p in s.tails { assert s.frames[s.tails[p]].run.provider == p; }
  }
}
