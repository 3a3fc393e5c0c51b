/** The collector agent's file outbox (remote-persistence.ts): bounded acceptance and
    delivery on one promise chain, in file-name order, with backoff and expiry. */
module RemotePersistence {
  import opened Domain
  import opened Texts
  import opened PublicationCommit

  const MAX_FILES: nat := 1000
  const MAX_SIZE: nat := 8 * 1024 * 1024
  const BACKOFF: seq<nat> := [30000, 60000, 120000, 300000]

  /** A pending file: the millisecond and identifier in its name, and its content. */
  datatype File = File(stamp: int, id: string, payload: Publication, bytes: nat)

  datatype Limits = Limits(maxBytes: nat, maxAgeMs: nat)

  // --- The directory ---------------------------------------------------------

  /** Name order of two different files: stamps have equally many digits. */
  predicate NameBefore(a: File, b: File) {
    a.stamp < b.stamp || (a.stamp == b.stamp && TextBefore(a.id, b.id))
  }

  /** The sorted listing with one more file. */
  function Insert(files: seq<File>, f: File): (r: seq<File>)
    ensures multiset(r) == multiset(files) + multiset{f}
    ensures |r| == |files| + 1
  {
    if files == [] then [f]
    else if NameBefore(f, files[0]) then [f] + files
    else
      assert files == [files[0]] + files[1..];
      [files[0]] + Insert(files[1..], f)
  }

  function Total(files: seq<File>): nat {
    if files == [] then 0 else files[0].bytes + Total(files[1..])
  }

  predicate Expired(f: File, now: int, l: Limits) { now - f.stamp > l.maxAgeMs }

  function Kept(files: seq<File>, now: int, l: Limits): seq<File> {
    if files == [] then []
    else (if Expired(files[0], now, l) then [] else [files[0]]) + Kept(files[1..], now, l)
  }

  function Gone(files: seq<File>, now: int, l: Limits): seq<File> {
    if files == [] then []
    else (if Expired(files[0], now, l) then [files[0]] else []) + Gone(files[1..], now, l)
  }

  // --- State and steps -------------------------------------------------------

  /** Where the delivery task on the chain is: not requested, waiting for its turn,
      or with these files still to post and the first of them so far along. */
  datatype Phase = Idle | Queued | Posting(rest: seq<File>, stage: Stage)

  datatype Stage = Unsent | Sent | Answered

  /** One delivery round of this process. */
  datatype Round = Round(startedAt: int, failedAt: Option<int>)

  /** `files` is the directory; it alone survives a crash. `accepted` to
      `expired` record what happened to files (`posted` lists every request made,
      `answered` those that got their answer), `rounds` this process's deliveries. */
  datatype State = State(
    files: seq<File>, phase: Phase, failures: nat, nextAttempt: int, clock: int,
    accepted: seq<File>, posted: seq<File>, answered: seq<File>, delivered: seq<File>, expired: seq<File>,
    rounds: seq<Round>)

  function Initial(clock: int): State { State([], Idle, 0, 0, clock, [], [], [], [], [], []) }

  datatype Step =
    | Accept(id: string, payload: Publication, bytes: nat, now: int)
    | Tick(now: int)
    | Begin(now: int)
    | Send
    | Answer
    | Unlink
    | Finish
    | Fail(now: int)
    | Crash

  function Pruned(s: State, now: int, l: Limits): State {
    s.(files := Kept(s.files, now, l), expired := s.expired + Gone(s.files, now, l), clock := now)
  }

  predicate Fits(files: seq<File>, bytes: nat, l: Limits) {
    bytes <= MAX_SIZE && |files| < MAX_FILES && Total(files) + bytes <= l.maxBytes
  }

  function Added(s: State, f: File): State {
    s.(files := Insert(s.files, f), accepted := s.accepted + [f])
  }

  /** An acceptance runs on the chain, so never while a delivery is posting. */
  function Accepted(s: State, id: string, payload: Publication, bytes: nat, now: int, l: Limits): State {
    if s.phase.Posting? then s
    else
      var t := Pruned(s, now, l);
      if !Fits(t.files, bytes, l) then t
      else
        Added(t, File(now, id, payload, bytes))
  }

  function BackoffOf(failures: nat): nat { BACKOFF[if failures < 3 then failures else 3] }

  function Failed(s: State, now: int): State {
    s.(phase := Idle, nextAttempt := now + BackoffOf(s.failures), failures := s.failures + 1, clock := now,
       rounds := if s.rounds == [] then [] else s.rounds[|s.rounds| - 1 := s.rounds[|s.rounds| - 1].(failedAt := Some(now))])
  }

  function Ticked(s: State, now: int): State {
    if !s.phase.Idle? || now < s.nextAttempt then s.(clock := now)
    else s.(phase := Queued, clock := now, rounds := s.rounds + [Round(now, None)])
  }

  function Begun(s: State, now: int, l: Limits): State {
    if !s.phase.Queued? then s
    else var t := Pruned(s, now, l); t.(phase := Posting(t.files, Unsent))
  }

  /** The first file's request goes out. */
  function SentFirst(s: State): State {
    if s.phase.Posting? && s.phase.rest != [] && s.phase.stage.Unsent?
    then s.(phase := Posting(s.phase.rest, Sent), posted := s.posted + [s.phase.rest[0]]) else s
  }

  function AnsweredFirst(s: State): State {
    if s.phase.Posting? && s.phase.rest != [] && s.phase.stage.Sent?
    then s.(phase := Posting(s.phase.rest, Answered), answered := s.answered + [s.phase.rest[0]]) else s
  }

  function Unlinked(s: State): State {
    if s.phase.Posting? && s.phase.stage.Answered? && s.phase.rest != [] && s.files != []
    then s.(phase := Posting(s.phase.rest[1..], Unsent), files := s.files[1..], delivered := s.delivered + [s.files[0]]) else s
  }

  /** All posted, or the agent is stopping. */
  function RoundEnded(s: State): State {
    if s.phase.Posting? && s.phase.stage.Unsent? then s.(phase := Idle, failures := 0, nextAttempt := 0) else s
  }

  function Crashed(s: State): State { s.(phase := Idle, failures := 0, nextAttempt := 0, rounds := []) }

  function Next(s: State, step: Step, l: Limits): State {
    match step
    case Accept(id, payload, bytes, now) => Accepted(s, id, payload, bytes, now, l)
    case Tick(now) => Ticked(s, now)
    case Begin(now) => Begun(s, now, l)
    case Send => SentFirst(s)
    case Answer => AnsweredFirst(s)
    case Unlink => Unlinked(s)
    case Finish => RoundEnded(s)
    case Fail(now) => if s.phase.Idle? then s else Failed(s, now)
    case Crash => Crashed(s)
  }

  function Execute(steps: seq<Step>, start: int, l: Limits): State {
    if steps == [] then Initial(start) else Next(Execute(steps[..|steps| - 1], start, l), steps[|steps| - 1], l)
  }

  predicate Timed(step: Step) { step.Accept? || step.Tick? || step.Begin? || step.Fail? }

  /** The clock does not go back. */
  ghost predicate Legal(steps: seq<Step>, start: int, l: Limits) {
    steps == [] ||
    (var n := |steps| - 1;
     var s := Execute(steps[..n], start, l);
     && Legal(steps[..n], start, l)
     && (Timed(steps[n]) ==> steps[n].now >= s.clock))
  }

  // --- Invariant -------------------------------------------------------------

  ghost predicate Ordered(files: seq<File>) {
    forall i, j :: 0 <= i < j < |files| ==> files[i].stamp <= files[j].stamp
  }

  /** Consecutive failures at the end of the rounds so far. */
  function Streak(rounds: seq<Round>): nat {
    if rounds == [] || rounds[|rounds| - 1].failedAt.None? then 0 else 1 + Streak(rounds[..|rounds| - 1])
  }

  /** A round that starts at `at` waits out the backoff of the failures before it. */
  ghost predicate WaitedFor(rounds: seq<Round>, at: int) {
    rounds != [] && rounds[|rounds| - 1].failedAt.Some? ==>
      Streak(rounds) > 0 && at >= rounds[|rounds| - 1].failedAt.value + BackoffOf(Streak(rounds) - 1)
  }

  ghost predicate Spaced(rounds: seq<Round>) {
    rounds == [] || (var n := |rounds| - 1; Spaced(rounds[..n]) && WaitedFor(rounds[..n], rounds[n].startedAt))
  }

  ghost predicate CapacityOk(s: State, l: Limits) {
    |s.files| <= MAX_FILES && Total(s.files) <= l.maxBytes && forall f :: f in s.files ==> f.bytes <= MAX_SIZE
  }

  ghost predicate Conserved(s: State) {
    multiset(s.accepted) == multiset(s.files) + multiset(s.delivered) + multiset(s.expired)
  }

  ghost predicate OrderOk(s: State) {
    && Ordered(s.files) && Ordered(s.posted)
    && (forall f, g :: f in s.posted && g in s.files ==> f.stamp <= g.stamp)
    && (forall f :: f in s.files ==> f.stamp <= s.clock)
    && (forall f :: f in s.posted ==> f.stamp <= s.clock)
    && (forall f :: f in s.answered ==> f in s.posted)
    && (forall f :: f in s.delivered ==> f in s.answered)
    && (s.phase.Posting? ==>
          && s.phase.rest == s.files
          && (!s.phase.stage.Unsent? ==> s.files != [] && s.files[0] in s.posted)
          && (s.phase.stage.Answered? ==> s.files[0] in s.answered))
  }

  ghost predicate RoundsOk(s: State) {
    && Spaced(s.rounds)
    && (s.phase.Idle? && s.rounds != [] && s.rounds[|s.rounds| - 1].failedAt.Some? ==>
          s.failures == Streak(s.rounds) > 0
          && s.nextAttempt == s.rounds[|s.rounds| - 1].failedAt.value + BackoffOf(s.failures - 1))
    && (s.phase.Idle? && (s.rounds == [] || s.rounds[|s.rounds| - 1].failedAt.None?) ==> s.failures == 0)
    && (!s.phase.Idle? ==> s.rounds != [] && s.rounds[|s.rounds| - 1].failedAt.None?
                           && s.failures == Streak(s.rounds[..|s.rounds| - 1]))
  }

  ghost predicate Inv(s: State, l: Limits) {
    CapacityOk(s, l) && Conserved(s) && OrderOk(s) && RoundsOk(s)
  }

  // --- Listings --------------------------------------------------------------

  lemma {:induction false} KeptConserves(files: seq<File>, now: int, l: Limits)
    ensures multiset(files) == multiset(Kept(files, now, l)) + multiset(Gone(files, now, l))
  {
    if files != [] {
      KeptConserves(files[1..], now, l);
      assert files == [files[0]] + files[1..];
      KeptCons(files, now, l);
    }
  }

  lemma {:induction false} KeptSmaller(files: seq<File>, now: int, l: Limits)
    ensures |Kept(files, now, l)| <= |files| && Total(Kept(files, now, l)) <= Total(files)
  {
    if files != [] {
      KeptSmaller(files[1..], now, l);
      KeptCons(files, now, l);
      assert ([files[0]] + Kept(files[1..], now, l))[1..] == Kept(files[1..], now, l);
    }
  }

  lemma {:induction false} KeptCons(files: seq<File>, now: int, l: Limits)
    requires files != []
    ensures var rest, gone := Kept(files[1..], now, l), Gone(files[1..], now, l);
            if Expired(files[0], now, l) then Kept(files, now, l) == rest && Gone(files, now, l) == [files[0]] + gone
            else Kept(files, now, l) == [files[0]] + rest && Gone(files, now, l) == gone
  {
    assert [] + Kept(files[1..], now, l) == Kept(files[1..], now, l);
    assert [] + Gone(files[1..], now, l) == Gone(files[1..], now, l);
  }

  lemma {:induction false} KeptMembers(files: seq<File>, now: int, l: Limits)
    ensures forall f :: f in Kept(files, now, l) ==> f in files && !Expired(f, now, l)
  {
    if files != [] {
      KeptMembers(files[1..], now, l);
      KeptCons(files, now, l);
    }
  }

  lemma {:induction false} KeptOrdered(files: seq<File>, now: int, l: Limits)
    requires Ordered(files)
    ensures Ordered(Kept(files, now, l))
  {
    if files != [] {
      KeptOrdered(files[1..], now, l);
      KeptMembers(files[1..], now, l);
      KeptCons(files, now, l);
      OrderedCons(files[0], Kept(files[1..], now, l));
    }
  }

  lemma {:induction false} OrderedCons(f: File, files: seq<File>)
    requires forall g :: g in files ==> f.stamp <= g.stamp
    ensures Ordered(files) ==> Ordered([f] + files)
  {
    if Ordered(files) {
      forall i, j | 0 <= i < j < |[f] + files| ensures ([f] + files)[i].stamp <= ([f] + files)[j].stamp {
        assert ([f] + files)[j] == files[j - 1] && files[j - 1] in files;
      }
    }
  }

  lemma {:induction false} InsertTotal(files: seq<File>, f: File)
    ensures Total(Insert(files, f)) == Total(files) + f.bytes
    ensures forall g :: g in Insert(files, f) <==> g in multiset(files) + multiset{f}
  {
    assert forall g :: g in Insert(files, f) <==> g in multiset(Insert(files, f));
    if files != [] {
      if NameBefore(f, files[0]) {
        assert ([f] + files)[1..] == files;
      } else {
        InsertTotal(files[1..], f);
        assert Insert(files, f)[1..] == Insert(files[1..], f);
      }
    }
  }

  lemma {:induction false} InsertOrdered(files: seq<File>, f: File)
    requires Ordered(files)
    ensures Ordered(Insert(files, f))
  {
    InsertTotal(files, f);
    if files != [] {
      if NameBefore(f, files[0]) {
        OrderedCons(f, files);
      } else {
        InsertOrdered(files[1..], f);
        InsertTotal(files[1..], f);
        OrderedCons(files[0], Insert(files[1..], f));
      }
    }
  }

  // --- Preservation ----------------------------------------------------------

  lemma {:induction false} PrunedCapacity(s: State, now: int, l: Limits)
    requires CapacityOk(s, l)
    ensures CapacityOk(Pruned(s, now, l), l)
  {
    KeptSmaller(s.files, now, l);
    KeptMembers(s.files, now, l);
  }

  lemma {:induction false} PrunedConserved(s: State, now: int, l: Limits)
    requires Conserved(s)
    ensures Conserved(Pruned(s, now, l))
  {
    KeptConserves(s.files, now, l);
  }

  lemma {:induction false} PrunedOrder(s: State, now: int, l: Limits)
    requires OrderOk(s) && !s.phase.Posting? && now >= s.clock
    ensures OrderOk(Pruned(s, now, l))
  {
    KeptMembers(s.files, now, l);
    KeptOrdered(s.files, now, l);
  }

  lemma {:induction false} PrunedInv(s: State, now: int, l: Limits)
    requires Inv(s, l) && !s.phase.Posting? && now >= s.clock
    ensures Inv(Pruned(s, now, l), l)
  {
    PrunedCapacity(s, now, l);
    PrunedConserved(s, now, l);
    PrunedOrder(s, now, l);
  }

  lemma {:induction false} AddCapacity(s: State, f: File, l: Limits)
    requires CapacityOk(s, l) && Fits(s.files, f.bytes, l)
    ensures CapacityOk(Added(s, f), l)
  {
    InsertTotal(s.files, f);
  }

  lemma {:induction false} AddOrder(s: State, f: File)
    requires OrderOk(s) && !s.phase.Posting? && f.stamp == s.clock
    ensures OrderOk(Added(s, f))
  {
    InsertTotal(s.files, f);
    InsertOrdered(s.files, f);
  }

  lemma {:induction false} AddConserved(s: State, f: File)
    requires Conserved(s)
    ensures Conserved(Added(s, f))
  {
  }

  lemma {:induction false} AddFile(s: State, f: File, l: Limits)
    requires Inv(s, l) && !s.phase.Posting? && Fits(s.files, f.bytes, l) && f.stamp == s.clock
    ensures Inv(Added(s, f), l)
  {
    AddCapacity(s, f, l);
    AddOrder(s, f);
    AddConserved(s, f);
  }

  /** Nothing about files changes, only the delivery task and the clock. */
  ghost predicate SameFiles(s: State, t: State) {
    && t.files == s.files && t.accepted == s.accepted && t.delivered == s.delivered && t.expired == s.expired
    && t.posted == s.posted && t.answered == s.answered && t.clock >= s.clock
    && (t.phase.Posting? ==> t.phase.rest == t.files && t.phase.stage.Unsent?)
  }

  lemma {:induction false} SameFilesOk(s: State, t: State, l: Limits)
    requires CapacityOk(s, l) && Conserved(s) && OrderOk(s) && SameFiles(s, t)
    ensures CapacityOk(t, l) && Conserved(t) && OrderOk(t)
  {
  }

  lemma {:induction false} AcceptedInv(s: State, id: string, payload: Publication, bytes: nat, now: int, l: Limits)
    requires Inv(s, l) && now >= s.clock
    ensures Inv(Accepted(s, id, payload, bytes, now, l), l)
  {
    if !s.phase.Posting? {
      PrunedInv(s, now, l);
      var t := Pruned(s, now, l);
      if Fits(t.files, bytes, l) { AddFile(t, File(now, id, payload, bytes), l); }
    }
  }

  lemma {:induction false} TickInv(s: State, now: int, l: Limits)
    requires Inv(s, l) && now >= s.clock
    ensures Inv(Ticked(s, now), l)
  {
    var t := Ticked(s, now);
    if s.phase.Posting? {
      assert CapacityOk(t, l) && Conserved(t) && OrderOk(t);
    } else {
      SameFilesOk(s, t, l);
    }
  }

  lemma {:induction false} FailedInv(s: State, now: int, l: Limits)
    requires Inv(s, l) && now >= s.clock && !s.phase.Idle?
    ensures Inv(Failed(s, now), l)
  {
    SameFilesOk(s, Failed(s, now), l);
  }

  lemma {:induction false} UnlinkConserved(s: State)
    requires Conserved(s)
    ensures Conserved(Unlinked(s))
  {
    if s.files != [] { assert s.files == [s.files[0]] + s.files[1..]; }
  }

  lemma {:induction false} UnlinkInv(s: State, l: Limits)
    requires Inv(s, l)
    ensures Inv(Unlinked(s), l)
  {
    UnlinkConserved(s);
    assert RoundsOk(Unlinked(s));
  }

  lemma {:induction false} SendInv(s: State, l: Limits)
    requires Inv(s, l)
    ensures Inv(SentFirst(s), l)
  {
    var t := SentFirst(s);
    if t != s {
      assert CapacityOk(t, l) && Conserved(t) && RoundsOk(t);
      assert s.files[0] in s.files;
    }
  }

  lemma {:induction false} AnswerInv(s: State, l: Limits)
    requires Inv(s, l)
    ensures Inv(AnsweredFirst(s), l)
  {
    var t := AnsweredFirst(s);
    assert CapacityOk(t, l) && Conserved(t) && RoundsOk(t);
  }

  lemma {:induction false} BeginInv(s: State, now: int, l: Limits)
    requires Inv(s, l) && now >= s.clock
    ensures Inv(Begun(s, now, l), l)
  {
    if s.phase.Queued? {
      PrunedInv(s, now, l);
      SameFilesOk(Pruned(s, now, l), Begun(s, now, l), l);
    }
  }

  lemma {:induction false} SettleInv(s: State, l: Limits)
    requires Inv(s, l)
    ensures Inv(RoundEnded(s), l) && Inv(Crashed(s), l)
  {
    SameFilesOk(s, Crashed(s), l);
    if s.phase.Posting? && s.phase.stage.Unsent? { SameFilesOk(s, RoundEnded(s), l); }
  }

  lemma {:induction false} NextInv(s: State, step: Step, l: Limits)
    requires Inv(s, l) && (Timed(step) ==> step.now >= s.clock)
    ensures Inv(Next(s, step, l), l)
  {
    match step
    case Accept(id, payload, bytes, now) => AcceptedInv(s, id, payload, bytes, now, l);
    case Tick(now) => TickInv(s, now, l);
    case Begin(now) => BeginInv(s, now, l);
    case Send => SendInv(s, l);
    case Answer => AnswerInv(s, l);
    case Unlink => UnlinkInv(s, l);
    case Finish => SettleInv(s, l);
    case Fail(now) => if !s.phase.Idle? { FailedInv(s, now, l); }
    case Crash => SettleInv(s, l);
  }

  lemma {:induction false} RunInv(steps: seq<Step>, start: int, l: Limits)
    requires Legal(steps, start, l)
    ensures Inv(Execute(steps, start, l), l)
  {
    if steps != [] {
      RunInv(steps[..|steps| - 1], start, l);
      NextInv(Execute(steps[..|steps| - 1], start, l), steps[|steps| - 1], l);
    }
  }

  // --- Results ---------------------------------------------------------------

  /** The outbox never exceeds its bounds, whatever is accepted. */
  lemma {:induction false} WithinBounds(steps: seq<Step>, start: int, l: Limits)
    requires Legal(steps, start, l)
    ensures var s := Execute(steps, start, l);
            |s.files| <= 1000 && Total(s.files) <= l.maxBytes && forall f :: f in s.files ==> f.bytes <= 8_388_608
  {
    RunInv(steps, start, l);
  }

  /** Every accepted file is still pending, was delivered, or has expired; a delivered
      one was sent and answered first. */
  lemma {:induction false} FilesConserved(steps: seq<Step>, start: int, l: Limits)
    requires Legal(steps, start, l)
    ensures var s := Execute(steps, start, l);
            && multiset(s.accepted) == multiset(s.files) + multiset(s.delivered) + multiset(s.expired)
            && forall f :: f in s.delivered ==> f in s.answered && f in s.posted
  {
    RunInv(steps, start, l);
  }

  /** Requests go out in order of their files' millisecond stamps, repeats and requests
      that are never answered included. Within one millisecond the order is that of
      random identifiers. */
  lemma {:induction false} PostedInStampOrder(steps: seq<Step>, start: int, l: Limits, i: nat, j: nat)
    requires Legal(steps, start, l) && i < j < |Execute(steps, start, l).posted|
    ensures Execute(steps, start, l).posted[i].stamp <= Execute(steps, start, l).posted[j].stamp
  {
    RunInv(steps, start, l);
  }

  lemma {:induction false} SpacedAt(rounds: seq<Round>, i: nat)
    requires Spaced(rounds) && i < |rounds|
    ensures WaitedFor(rounds[..i], rounds[i].startedAt)
  {
    var n := |rounds| - 1;
    if i < n {
      SpacedAt(rounds[..n], i);
      assert rounds[..n][..i] == rounds[..i];
    }
  }

  /** After k failures in a row the next round waits 30, 60, 120 or 300 seconds. */
  lemma {:induction false} RoundsBackOff(steps: seq<Step>, start: int, l: Limits, i: nat)
    requires Legal(steps, start, l) && i + 1 < |Execute(steps, start, l).rounds|
    ensures var r := Execute(steps, start, l).rounds;
            r[i].failedAt.Some? ==>
              var k := Streak(r[..i + 1]);
              && k > 0
              && r[i + 1].startedAt - r[i].failedAt.value >= if k == 1 then 30_000 else if k == 2 then 60_000 else if k == 3 then 120_000 else 300_000
  {
    RunInv(steps, start, l);
    SpacedAt(Execute(steps, start, l).rounds, i + 1);
  }

  // --- The agent -------------------------------------------------------------

  class Agent {
    const limits: Limits
    /** The outbox directory, as a sorted listing. */
    var files: seq<File>
    var phase: Phase
    var failures: nat
    var nextAttempt: int
    ghost var clock: int
    ghost var accepted: seq<File>
    ghost var posted: seq<File>
    ghost var answered: seq<File>
    ghost var delivered: seq<File>
    ghost var expired: seq<File>
    ghost var rounds: seq<Round>

    ghost function Abs(): State
      reads this
    {
      State(files, phase, failures, nextAttempt, clock, accepted, posted, answered, delivered, expired, rounds)
    }

    constructor (limits: Limits, ghost start: int)
      ensures Abs() == Initial(start) && this.limits == limits && Inv(Abs(), limits)
    {
      this.limits := limits;
      files, phase, failures, nextAttempt := [], Idle, 0, 0;
      clock, accepted, posted, answered, delivered, expired, rounds := start, [], [], [], [], [], [];
    }

    /** Lists the directory, unlinking what is too old. */
    method Pending(now: int) returns (result: seq<File>)
      modifies this`files, this`expired, this`clock
      ensures Abs() == Pruned(old(Abs()), now, limits) && result == files
    {
      result := [];
      ghost var dead: seq<File> := [];
      var all := files;
      assert all[0..] == all;
      for i := 0 to |all|
        invariant result + Kept(all[i..], now, limits) == Kept(all, now, limits)
        invariant dead + Gone(all[i..], now, limits) == Gone(all, now, limits)
        invariant Abs() == old(Abs())
      {
        assert all[i..][0] == all[i] && all[i..][1..] == all[i + 1..];
        KeptCons(all[i..], now, limits);
        if now - all[i].stamp > limits.maxAgeMs {
          dead := dead + [all[i]];
        } else {
          result := result + [all[i]];
        }
      }
      assert all[|all|..] == [];
      files := result;
      expired, clock := expired + dead, now;
    }

    method Size(list: seq<File>) returns (n: nat)
      ensures n == Total(list)
    {
      n := 0;
      assert list[0..] == list;
      for i := 0 to |list|
        invariant n + Total(list[i..]) == Total(list)
      {
        assert list[i..][1..] == list[i + 1..];
        n := n + list[i].bytes;
      }
      assert list[|list|..] == [];
    }

    /** Accepts a publication into the directory, or refuses it for lack of room. */
    method CommitPublication(id: string, payload: Publication, bytes: nat, now: int) returns (ok: bool)
      requires Inv(Abs(), limits) && !phase.Posting? && now >= clock
      modifies this
      ensures Abs() == Accepted(old(Abs()), id, payload, bytes, now, limits) && Inv(Abs(), limits)
      ensures var pending := Kept(old(files), now, limits);
              ok <==> bytes <= 8_388_608 && |pending| < 1000 && Total(pending) + bytes <= limits.maxBytes
    {
      AcceptedInv(Abs(), id, payload, bytes, now, limits);
      ok := Enqueue(id, payload, bytes, now);
    }

    method Enqueue(id: string, payload: Publication, bytes: nat, now: int) returns (ok: bool)
      requires !phase.Posting?
      modifies this
      ensures Abs() == Accepted(old(Abs()), id, payload, bytes, now, limits)
      ensures ok <==> Fits(Kept(old(files), now, limits), bytes, limits)
    {
      var list := Pending(now);
      var used := Size(list);
      ok := bytes <= MAX_SIZE && |list| < MAX_FILES && used + bytes <= limits.maxBytes;
      if ok {
        var f := File(now, id, payload, bytes);
        files := Insert(files, f);
        accepted := accepted + [f];
      }
    }

    method Tick(now: int)
      requires Inv(Abs(), limits) && now >= clock
      modifies this
      ensures Abs() == Ticked(old(Abs()), now) && Inv(Abs(), limits)
    {
      TickInv(Abs(), now, limits);
      if phase.Idle? && now >= nextAttempt {
        phase := Queued;
        rounds := rounds + [Round(now, None)];
      }
      clock := now;
    }

    method BeginRound(now: int)
      requires Inv(Abs(), limits) && phase.Queued? && now >= clock
      modifies this
      ensures Abs() == Begun(old(Abs()), now, limits) && Inv(Abs(), limits)
    {
      BeginInv(Abs(), now, limits);
      var list := Pending(now);
      phase := Posting(list, Unsent);
    }

    method SendFirst()
      requires Inv(Abs(), limits) && phase.Posting? && phase.rest != [] && phase.stage.Unsent?
      modifies this
      ensures Abs() == SentFirst(old(Abs())) && Inv(Abs(), limits)
    {
      SendInv(Abs(), limits);
      posted := posted + [phase.rest[0]];
      phase := Posting(phase.rest, Sent);
    }

    /** The server answers the first file with success. */
    method ReceiveAnswer()
      requires Inv(Abs(), limits) && phase.Posting? && phase.rest != [] && phase.stage.Sent?
      modifies this
      ensures Abs() == AnsweredFirst(old(Abs())) && Inv(Abs(), limits)
    {
      AnswerInv(Abs(), limits);
      answered := answered + [phase.rest[0]];
      phase := Posting(phase.rest, Answered);
    }

    method UnlinkFirst()
      requires Inv(Abs(), limits) && phase.Posting? && phase.stage.Answered?
      modifies this
      ensures Abs() == Unlinked(old(Abs())) && Inv(Abs(), limits)
    {
      UnlinkInv(Abs(), limits);
      delivered := delivered + [files[0]];
      files := files[1..];
      phase := Posting(phase.rest[1..], Unsent);
    }

    method EndRound()
      requires Inv(Abs(), limits) && phase.Posting? && phase.stage.Unsent?
      modifies this
      ensures Abs() == RoundEnded(old(Abs())) && Inv(Abs(), limits)
    {
      SettleInv(Abs(), limits);
      failures, nextAttempt, phase := 0, 0, Idle;
    }

    method FailRound(now: int)
      requires Inv(Abs(), limits) && !phase.Idle? && now >= clock
      modifies this
      ensures Abs() == Failed(old(Abs()), now) && Inv(Abs(), limits)
    {
      FailedInv(Abs(), now, limits);
      nextAttempt := now + BACKOFF[if failures < 3 then failures else 3];
      failures := failures + 1;
      phase, clock := Idle, now;
      rounds := rounds[|rounds| - 1 := rounds[|rounds| - 1].(failedAt := Some(now))];
    }
  }
}
