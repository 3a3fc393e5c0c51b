/** Delivery from the extension's outbox to the server (outbox.ts, publisher.ts,
    persistence.service.ts): a FIFO resender that may lose requests, lose replies,
    time out, or be killed at any moment, against a server that keeps receipts. */
module Delivery {
  import opened Domain
  import opened OrderedMaps
  import opened PublicationCommit

  const CAPACITY: nat := 1000
  const MAX_BYTES: nat := 8 * 1024 * 1024
  const ROUNDS: nat := 20

  predicate KnownProvider(p: string) {
    p in {"bet365", "betano", "superbet", "blaze", "estrelabet"}
  }

  /** `flushUnlocked` between its awaits. `attempt` numbers the request in flight. */
  datatype Phase = Idle | Looping(round: nat) | Sending(round: nat, key: nat, attempt: nat, reply: Option<bool>)

  /** A publication the server has taken in, from this outbox or from another client. */
  datatype Effect = Effect(own: bool, publication: Publication)

  /** `store` is the object store under its auto-incremented key. `log` lists what the
      outbox ever accepted, `history` what the server has taken in from anyone and
      `effects` what it has taken in from here, oldest first. A request once sent may
      reach the server late, more than once, or never. */
  datatype State = State(
    store: map<nat, Publication>,
    nextKey: nat,
    phase: Phase,
    sent: seq<Publication>,
    server: Store,
    log: seq<Publication>,
    effects: seq<Publication>,
    history: seq<Effect>)

  const START := State(map[], 1, Idle, [], EMPTY, [], [], [])

  datatype Step =
    | Enqueue(payload: Publication, bytes: nat)
    | Flush
    | Read
    | Arrive(request: nat)
    | Foreign(other: Publication)
    | Confirm
    | GiveUp
    | Crash

  // --- The object store ------------------------------------------------------

  ghost predicate IsOldest(store: map<nat, Publication>, k: nat) {
    k in store && forall l :: l in store ==> k <= l
  }

  /** Where a cursor over the store starts. */
  function Oldest(store: map<nat, Publication>, k: nat, n: nat): (r: Option<nat>)
    requires k <= n
    ensures r.Some? ==> k <= r.value < n && r.value in store && forall l :: k <= l < r.value ==> l !in store
    ensures r.None? ==> forall l :: k <= l < n ==> l !in store
    decreases n - k
  {
    if k == n then None else if k in store then Some(k) else Oldest(store, k + 1, n)
  }

  /** The stored publications below key n in key order. */
  ghost function Contents(store: map<nat, Publication>, n: nat): seq<Publication> {
    if n == 0 then [] else Contents(store, n - 1) + if n - 1 in store then [store[n - 1]] else []
  }

  // --- Steps -----------------------------------------------------------------

  /** The state after an accepted publication. */
  function Grown(s: State, p: Publication): State {
    s.(store := s.store[s.nextKey := p], nextKey := s.nextKey + 1, log := s.log + [p])
  }

  function Enqueued(s: State, p: Publication, bytes: nat): State {
    if bytes > MAX_BYTES || |s.store| >= CAPACITY then s
    else Grown(s, p)
  }

  /** Sends the oldest entry, or ends the flush: after twenty rounds, with nothing
      left, or with an error on an unknown provider. */
  function AfterRead(s: State): State {
    if !s.phase.Looping? then s
    else
      var oldest := Oldest(s.store, 0, s.nextKey);
      if s.phase.round >= ROUNDS || oldest.None? || !KnownProvider(s.store[oldest.value].provider) then s.(phase := Idle)
      else s.(phase := Sending(s.phase.round, oldest.value, |s.sent|, None), sent := s.sent + [s.store[oldest.value]])
  }

  function Arrived(s: State, j: nat): State {
    if j >= |s.sent| then s
    else
      var (t, reply) := Commit(s.server, s.sent[j]);
      s.(server := t,
         effects := if reply.Refused? || reply.AlreadyReceived? then s.effects else s.effects + [s.sent[j]],
         history := if reply.Refused? || reply.AlreadyReceived? then s.history else s.history + [Effect(true, s.sent[j])],
         phase := if s.phase.Sending? && s.phase.attempt == j then s.phase.(reply := Some(!reply.Refused?)) else s.phase)
  }

  /** Another client publishes. */
  function Shared(s: State, p: Publication): State {
    var (t, reply) := Commit(s.server, p);
    s.(server := t, history := if reply.Refused? || reply.AlreadyReceived? then s.history else s.history + [Effect(false, p)])
  }

  function Confirmed(s: State): State {
    if s.phase.Sending? && s.phase.reply == Some(true) then s.(store := s.store - {s.phase.key}, phase := Looping(s.phase.round + 1)) else s
  }

  function Next(s: State, step: Step): State {
    match step
    case Enqueue(p, bytes) => Enqueued(s, p, bytes)
    case Flush => if s.phase.Idle? then s.(phase := Looping(0)) else s
    case Read => AfterRead(s)
    case Arrive(j) => Arrived(s, j)
    case Foreign(p) => Shared(s, p)
    case Confirm => Confirmed(s)
    case GiveUp => if s.phase.Sending? then s.(phase := Idle) else s
    case Crash => s.(phase := Idle)
  }

  function Execute(steps: seq<Step>): State {
    if steps == [] then START else Next(Execute(steps[..|steps| - 1]), steps[|steps| - 1])
  }

  /** Every payload gets a run identifier of its own. */
  ghost predicate FreshId(s: State, p: Publication) {
    && p.runId.Some? && (forall q :: q in s.log ==> q.runId != p.runId)
    && forall e :: e in s.history ==> e.publication.runId != p.runId
  }

  /** Other clients make up identifiers of their own. */
  ghost predicate OtherId(s: State, p: Publication) {
    forall q :: q in s.log ==> q.runId != p.runId
  }

  ghost predicate Identified(s: State, step: Step) {
    (step.Enqueue? ==> FreshId(s, step.payload)) && (step.Foreign? ==> OtherId(s, step.other))
  }

  ghost predicate Legal(steps: seq<Step>) {
    steps == [] ||
    (var n := |steps| - 1;
     Legal(steps[..n]) && Identified(Execute(steps[..n]), steps[n]))
  }

  lemma {:induction false} LegalPush(steps: seq<Step>, step: Step)
    requires Legal(steps) && Identified(Execute(steps), step)
    ensures Legal(steps + [step]) && Execute(steps + [step]) == Next(Execute(steps), step)
  {
    assert (steps + [step])[..|steps|] == steps;
  }

  // --- Invariant -------------------------------------------------------------

  /** How many publications have left the outbox. */
  ghost function Removed(s: State): int { |s.log| - |s.store| }

  ghost predicate OutboxOk(s: State) {
    && (forall k :: k in s.store ==> k < s.nextKey)
    && |s.store| <= CAPACITY
    && 0 <= Removed(s)
    && Contents(s.store, s.nextKey) == s.log[Removed(s)..]
  }

  function Publications(h: seq<Effect>): seq<Publication> {
    if h == [] then [] else Publications(h[..|h| - 1]) + [h[|h| - 1].publication]
  }

  /** The part of a history that came from this outbox. */
  function OwnOf(h: seq<Effect>): seq<Publication> {
    if h == [] then []
    else if h[|h| - 1].own then OwnOf(h[..|h| - 1]) + [h[|h| - 1].publication]
    else OwnOf(h[..|h| - 1])
  }

  /** The server is what these publications make it, each with its receipt. */
  ghost predicate Taken(server: Store, all: seq<Publication>) {
    && server == CommitAll(all)
    && (forall p :: p in all && p.runId.Some? ==> (p.provider, p.runId.value) in server.receipts
                                                  && server.receipts[(p.provider, p.runId.value)] == p)
    && (forall k :: k in server.receipts ==> server.receipts[k] in all && server.receipts[k].runId == Some(k.1))
    && forall p :: p in all ==> ValidPublication(p)
  }

  /** What others published carries none of this outbox's identifiers. */
  ghost predicate Apart(s: State) {
    forall e, q :: e in s.history && !e.own && q in s.log ==> q.runId != e.publication.runId
  }

  ghost predicate ServerOk(s: State) {
    && Removed(s) <= |s.effects| <= Removed(s) + 1
    && s.effects <= s.log
    && s.effects == OwnOf(s.history)
    && Taken(s.server, Publications(s.history))
    && Apart(s)
  }

  ghost predicate IdsOk(s: State) {
    && (forall p :: p in s.log ==> p.runId.Some?)
    && forall i, j :: 0 <= i < j < |s.log| ==> s.log[i].runId != s.log[j].runId
  }

  ghost predicate UpToHead(s: State, p: Publication) {
    exists i :: 0 <= i <= Removed(s) && i < |s.log| && s.log[i] == p
  }

  /** Only publications up to the outbox head were ever sent. */
  ghost predicate SentOk(s: State) {
    forall p :: p in s.sent ==> UpToHead(s, p)
  }

  ghost predicate PhaseOk(s: State) {
    s.phase.Sending? ==>
      && IsOldest(s.store, s.phase.key)
      && s.phase.attempt < |s.sent| && s.sent[s.phase.attempt] == s.store[s.phase.key]
      && (s.phase.reply == Some(true) ==> |s.effects| == Removed(s) + 1)
  }

  ghost predicate Inv(s: State) {
    OutboxOk(s) && ServerOk(s) && IdsOk(s) && SentOk(s) && PhaseOk(s)
  }

  // --- Contents --------------------------------------------------------------

  lemma {:induction false} ContentsSame(a: map<nat, Publication>, b: map<nat, Publication>, n: nat)
    requires forall k :: 0 <= k < n ==> (k in a <==> k in b) && (k in a ==> a[k] == b[k])
    ensures Contents(a, n) == Contents(b, n)
  {
    if n > 0 { ContentsSame(a, b, n - 1); }
  }

  lemma {:induction false} ContentsEmpty(a: map<nat, Publication>, n: nat)
    requires forall k :: 0 <= k < n ==> k !in a
    ensures Contents(a, n) == []
  {
    if n > 0 { ContentsEmpty(a, n - 1); }
  }

  /** The oldest entry is the head, and removing it leaves the tail. */
  lemma {:induction false} ContentsHead(a: map<nat, Publication>, k: nat, n: nat)
    requires k < n && IsOldest(a, k)
    ensures Contents(a, n) == [a[k]] + Contents(a - {k}, n)
  {
    if k == n - 1 {
      ContentsEmpty(a, k);
      ContentsEmpty(a - {k}, n);
    } else {
      ContentsHead(a, k, n - 1);
      assert n - 1 in a <==> n - 1 in a - {k};
    }
  }

  lemma {:induction false} RemoveSize(a: map<nat, Publication>, k: nat)
    requires k in a
    ensures |a - {k}| == |a| - 1
  {
    assert a.Keys == (a - {k}).Keys + {k};
  }

  lemma {:induction false} AddSize(a: map<nat, Publication>, k: nat, p: Publication)
    requires k !in a
    ensures |a[k := p]| == |a| + 1
  {
    assert a[k := p].Keys == a.Keys + {k};
  }

  /** The outbox head is the first publication not yet removed. */
  lemma {:induction false} HeadIsNext(s: State, k: nat)
    requires OutboxOk(s) && IsOldest(s.store, k)
    ensures Removed(s) < |s.log| && s.log[Removed(s)] == s.store[k]
  {
    ContentsHead(s.store, k, s.nextKey);
    assert s.log[Removed(s)..][0] == s.store[k];
  }

  // --- Preservation ----------------------------------------------------------

  lemma {:induction false} StillSent(s: State, t: State)
    requires SentOk(s) && s.log <= t.log && Removed(s) <= Removed(t) && t.sent == s.sent
    ensures SentOk(t)
  {
    forall p | p in t.sent ensures UpToHead(t, p) {
      assert UpToHead(s, p);
      var i :| 0 <= i <= Removed(s) && i < |s.log| && s.log[i] == p;
      assert t.log[i] == p;
    }
  }

  lemma {:induction false} IdsPush(s: State, p: Publication)
    requires IdsOk(s) && FreshId(s, p)
    ensures IdsOk(s.(log := s.log + [p]))
  {
    var log := s.log + [p];
    forall i, j | 0 <= i < j < |log| ensures log[i].runId != log[j].runId {
      if j == |s.log| { assert s.log[i] in s.log; }
    }
  }

  lemma {:induction false} EnqueueOutbox(s: State, t: State, p: Publication)
    requires OutboxOk(s) && |s.store| < CAPACITY && t == Grown(s, p)
    ensures OutboxOk(t) && Removed(t) == Removed(s)
  {
    AddSize(s.store, s.nextKey, p);
    ContentsSame(s.store, t.store, s.nextKey);
    assert t.log[Removed(t)..] == s.log[Removed(s)..] + [p];
  }

  lemma {:induction false} EnqueuePhase(s: State, t: State, p: Publication)
    requires OutboxOk(s) && PhaseOk(s) && |s.store| < CAPACITY && t == Grown(s, p)
    ensures PhaseOk(t)
  {
    AddSize(s.store, s.nextKey, p);
  }

  lemma {:induction false} StillTaken(s: State, t: State)
    requires ServerOk(s) && t.server == s.server && t.effects == s.effects && t.history == s.history
    requires Removed(t) == Removed(s) && s.log <= t.log && Apart(t)
    ensures ServerOk(t)
  {
  }

  lemma {:induction false} ApartPush(s: State, t: State, p: Publication)
    requires Apart(s) && FreshId(s, p) && t.history == s.history && t.log == s.log + [p]
    ensures Apart(t)
  {
  }

  lemma {:induction false} EnqueuedRecords(s: State, t: State, p: Publication)
    requires ServerOk(s) && IdsOk(s) && SentOk(s) && FreshId(s, p)
    requires t == s.(store := t.store, nextKey := t.nextKey, log := s.log + [p]) && Removed(t) == Removed(s)
    ensures ServerOk(t) && IdsOk(t) && SentOk(t)
  {
    StillSent(s, t);
    ApartPush(s, t, p);
    StillTaken(s, t);
    IdsPush(s, p);
  }

  lemma {:induction false} EnqueuedInv(s: State, p: Publication, bytes: nat)
    requires Inv(s) && FreshId(s, p)
    ensures Inv(Enqueued(s, p, bytes))
  {
    var t := Enqueued(s, p, bytes);
    if t != s {
      EnqueueOutbox(s, t, p);
      EnqueuedRecords(s, t, p);
      EnqueuePhase(s, t, p);
    }
  }

  lemma {:induction false} ReadPhase(s: State)
    requires OutboxOk(s) && s.phase.Looping?
    ensures var t := AfterRead(s);
            PhaseOk(t) && (t.phase.Sending? ==> 0 <= Removed(s) < |s.log| && t.sent == s.sent + [s.log[Removed(s)]])
  {
    var t := AfterRead(s);
    if t.phase.Sending? { HeadIsNext(s, t.phase.key); }
  }

  lemma {:induction false} ReadInv(s: State)
    requires Inv(s)
    ensures Inv(AfterRead(s))
  {
    if s.phase.Looping? {
      var t := AfterRead(s);
      ReadPhase(s);
      StillTaken(s, t);
      if t.phase.Sending? { SendHead(s, t); }
    }
  }

  lemma {:induction false} SendHead(s: State, t: State)
    requires SentOk(s) && 0 <= Removed(s) < |s.log| && t.log == s.log && t.store == s.store
    requires t.sent == s.sent + [s.log[Removed(s)]]
    ensures SentOk(t)
  {
    forall p | p in t.sent ensures UpToHead(t, p) {
      if p in s.sent {
        assert UpToHead(s, p);
      } else {
        assert t.log[Removed(t)] == p;
      }
    }
  }

  lemma {:induction false} ConfirmInv(s: State)
    requires Inv(s)
    ensures Inv(Confirmed(s))
  {
    if s.phase.Sending? && s.phase.reply == Some(true) {
      var t, k := Confirmed(s), s.phase.key;
      HeadIsNext(s, k);
      RemoveSize(s.store, k);
      ContentsHead(s.store, k, s.nextKey);
      assert t.log[Removed(t)..] == s.log[Removed(s)..][1..];
      StillSent(s, t);
    }
  }

  /** Committing only adds the publication's own receipt. */
  lemma {:induction false} ReceiptsAfterCommit(s: Store, p: Publication)
    ensures var (t, reply) := Commit(s, p);
            t.receipts == if reply.Refused? || reply.AlreadyReceived? || p.runId.None? then s.receipts
                          else s.receipts[(p.provider, p.runId.value) := p]
    ensures var reply := ReplyTo(s, p);
            !reply.Refused? && !reply.AlreadyReceived? && p.runId.Some? ==> (p.provider, p.runId.value) !in s.receipts
  {
  }

  lemma {:induction false} HistoryMembers(h: seq<Effect>, p: Publication)
    ensures p in Publications(h) <==> Effect(true, p) in h || Effect(false, p) in h
    ensures p in OwnOf(h) <==> Effect(true, p) in h
  {
    if h != [] {
      HistoryMembers(h[..|h| - 1], p);
      assert h == h[..|h| - 1] + [h[|h| - 1]];
    }
  }

  /** The first request for the next publication takes effect; anything else that
      arrives is recognised or refused, and changes nothing. */
  lemma {:induction false} ArriveEffect(s: State, j: nat)
    requires Inv(s) && j < |s.sent|
    ensures var (t, reply) := Commit(s.server, s.sent[j]);
            && (reply.Refused? || reply.AlreadyReceived? ==> t == s.server)
            && (reply.AlreadyReceived? ==> s.sent[j] in s.effects)
            && (!reply.Refused? && !reply.AlreadyReceived? ==>
                  |s.effects| == Removed(s) < |s.log| && s.sent[j] == s.log[|s.effects|] && ValidPublication(s.sent[j]))
  {
    var p := s.sent[j];
    var (t, reply) := Commit(s.server, p);
    assert p in s.sent && UpToHead(s, p);
    var i :| 0 <= i <= Removed(s) && i < |s.log| && s.log[i] == p;
    HistoryMembers(s.history, p);
    if i < |s.effects| {
      assert s.effects[i] == s.log[i];
      assert p in s.effects;
    }
    if reply.AlreadyReceived? {
      assert p in s.log && p in Publications(s.history);
      assert Effect(false, p) !in s.history;
    }
  }

  lemma {:induction false} TakenPush(server: Store, all: seq<Publication>, p: Publication)
    requires Taken(server, all) && ValidPublication(p)
    requires !ReplyTo(server, p).Refused? && !ReplyTo(server, p).AlreadyReceived?
    ensures Taken(Commit(server, p).0, all + [p])
  {
    ReceiptsAfterCommit(server, p);
    assert (all + [p])[..|all|] == all;
  }

  lemma {:induction false} HistoryPush(h: seq<Effect>, e: Effect)
    ensures Publications(h + [e]) == Publications(h) + [e.publication]
    ensures OwnOf(h + [e]) == if e.own then OwnOf(h) + [e.publication] else OwnOf(h)
  {
    assert (h + [e])[..|h|] == h;
  }

  lemma {:induction false} EffectServerOk(s: State, p: Publication)
    requires ServerOk(s) && |s.effects| == Removed(s) < |s.log| && p == s.log[|s.effects|] && ValidPublication(p)
    requires !ReplyTo(s.server, p).Refused? && !ReplyTo(s.server, p).AlreadyReceived?
    ensures ServerOk(s.(server := Commit(s.server, p).0, effects := s.effects + [p], history := s.history + [Effect(true, p)]))
  {
    TakenPush(s.server, Publications(s.history), p);
    HistoryPush(s.history, Effect(true, p));
    assert s.log[..|s.effects| + 1] == s.effects + [p];
  }

  lemma {:induction false} OthersServerOk(s: State, server: Store, p: Publication)
    requires ServerOk(s) && OtherId(s, p) && Taken(server, Publications(s.history) + [p])
    ensures ServerOk(s.(server := server, history := s.history + [Effect(false, p)]))
  {
    HistoryPush(s.history, Effect(false, p));
    var t := s.(server := server, history := s.history + [Effect(false, p)]);
    assert Removed(t) == Removed(s);
    forall e, q | e in t.history && !e.own && q in t.log ensures q.runId != e.publication.runId {
      assert e in s.history || e == Effect(false, p);
    }
  }

  lemma {:induction false} UnchangedByCommit(server: Store, p: Publication)
    requires ReplyTo(server, p).Refused? || ReplyTo(server, p).AlreadyReceived?
    ensures Commit(server, p).0 == server
  {
  }

  lemma {:induction false} SharedServerOk(s: State, p: Publication)
    requires ServerOk(s) && OtherId(s, p)
    ensures ServerOk(Shared(s, p))
  {
    var server, reply := Commit(s.server, p).0, ReplyTo(s.server, p);
    if reply.Refused? || reply.AlreadyReceived? {
      UnchangedByCommit(s.server, p);
      assert Shared(s, p) == s;
    } else {
      TakenPush(s.server, Publications(s.history), p);
      OthersServerOk(s, server, p);
      assert Shared(s, p) == s.(server := server, history := s.history + [Effect(false, p)]);
    }
  }

  lemma {:induction false} SharedInv(s: State, p: Publication)
    requires Inv(s) && OtherId(s, p)
    ensures Inv(Shared(s, p))
  {
    var t := Shared(s, p);
    SharedServerOk(s, p);
    assert t == s.(server := t.server, history := t.history);
    ElsewhereInv(s, t);
  }

  /** Nothing but the server's side changed. */
  lemma {:induction false} ElsewhereInv(s: State, t: State)
    requires Inv(s) && ServerOk(t) && t == s.(server := t.server, history := t.history)
    ensures Inv(t)
  {
    StillSent(s, t);
  }

  /** An accepted reply for the head means the head has taken effect. */
  lemma {:induction false} ArrivePhase(s: State, j: nat)
    requires Inv(s) && j < |s.sent|
    ensures PhaseOk(Arrived(s, j))
  {
    var p, reply := s.sent[j], ReplyTo(s.server, s.sent[j]);
    ArriveEffect(s, j);
    if s.phase.Sending? && s.phase.attempt == j && reply.AlreadyReceived? {
      HeadIsNext(s, s.phase.key);
      var i :| 0 <= i < |s.effects| && s.effects[i] == p;
      assert s.log[i] == p == s.log[Removed(s)];
    }
  }

  lemma {:induction false} ArriveServerOk(s: State, j: nat)
    requires Inv(s) && j < |s.sent|
    ensures ServerOk(Arrived(s, j))
  {
    var p, t := s.sent[j], Arrived(s, j);
    ArriveEffect(s, j);
    var reply := ReplyTo(s.server, p);
    if reply.Refused? || reply.AlreadyReceived? {
      assert t == s.(phase := t.phase);
    } else {
      EffectServerOk(s, p);
      assert t == s.(server := Commit(s.server, p).0, effects := s.effects + [p], history := s.history + [Effect(true, p)], phase := t.phase);
    }
  }

  lemma {:induction false} ArriveInv(s: State, j: nat)
    requires Inv(s)
    ensures Inv(Arrived(s, j))
  {
    if j < |s.sent| {
      var t := Arrived(s, j);
      ArriveServerOk(s, j);
      ArrivePhase(s, j);
      assert t == s.(server := t.server, effects := t.effects, history := t.history, phase := t.phase);
      StillSent(s, t);
    }
  }

  lemma {:induction false} NextInv(s: State, step: Step)
    requires Inv(s) && Identified(s, step)
    ensures Inv(Next(s, step))
  {
    match step
    case Enqueue(p, bytes) =>
      EnqueuedInv(s, p, bytes);
      assert Next(s, step) == Enqueued(s, p, bytes);
    case Read =>
      ReadInv(s);
      assert Next(s, step) == AfterRead(s);
    case Arrive(j) =>
      ArriveInv(s, j);
      assert Next(s, step) == Arrived(s, j);
    case Foreign(p) =>
      SharedInv(s, p);
      assert Next(s, step) == Shared(s, p);
    case Confirm =>
      ConfirmInv(s);
      assert Next(s, step) == Confirmed(s);
    case _ =>
      IdleInv(s);
      assert Next(s, step) in {s, s.(phase := Idle), s.(phase := Looping(0))};
  }

  lemma {:induction false} IdleInv(s: State)
    requires Inv(s)
    ensures Inv(s.(phase := Idle)) && Inv(s.(phase := Looping(0)))
  {
  }

  lemma {:induction false} RunInv(steps: seq<Step>)
    requires Legal(steps)
    ensures Inv(Execute(steps))
  {
    if steps != [] {
      RunInv(steps[..|steps| - 1]);
      NextInv(Execute(steps[..|steps| - 1]), steps[|steps| - 1]);
    }
  }

  // --- Results ---------------------------------------------------------------

  /** Exactly once, first in first out, through every loss, delay and crash and
      whatever other clients publish in between: the outbox is the rest of the accepted
      log; of the publications the server has taken in, those from this outbox are the
      removed part plus at most the head, in order and each once; and the server's
      state is what committing all it has taken in, once each, gives. */
  lemma {:induction false} ExactlyOnceFifo(steps: seq<Step>)
    requires Legal(steps)
    ensures var s := Execute(steps);
            && 0 <= Removed(s) && Contents(s.store, s.nextKey) == s.log[Removed(s)..] && |s.store| <= 1000
            && s.effects == OwnOf(s.history) && s.effects <= s.log && Removed(s) <= |s.effects| <= Removed(s) + 1
            && (forall i, j :: 0 <= i < j < |s.effects| ==> s.effects[i] != s.effects[j])
            && s.server == CommitAll(Publications(s.history))
  {
    RunInv(steps);
    var s := Execute(steps);
    forall i, j | 0 <= i < j < |s.effects| ensures s.effects[i] != s.effects[j] {
      assert s.effects[i] == s.log[i] && s.effects[j] == s.log[j];
    }
  }

  lemma {:induction false} EffectsValid(s: State, i: nat)
    requires ServerOk(s) && i < |s.effects|
    ensures ValidPublication(s.effects[i]) && s.effects[i] == s.log[i]
  {
    HistoryMembers(s.history, s.effects[i]);
  }

  /** A publication the server can never accept blocks every later one: neither it nor
      anything queued behind it ever leaves the outbox or takes effect. */
  lemma {:induction false} InvalidHeadBlocks(steps: seq<Step>, i: nat)
    requires Legal(steps) && i < |Execute(steps).log| && !ValidPublication(Execute(steps).log[i])
    ensures var s := Execute(steps);
            && 0 <= Removed(s) <= i && |s.effects| <= i
            && Contents(s.store, s.nextKey) == s.log[Removed(s)..]
  {
    RunInv(steps);
    var s := Execute(steps);
    assert |s.effects| <= i by {
      if i < |s.effects| { EffectsValid(s, i); }
    }
  }

  /** One undisturbed attempt: read the head, send it, get the reply, confirm. */
  function Attempt(s: State): seq<Step> { [Flush, Read, Arrive(|s.sent|), Confirm] }

  lemma {:induction false} AttemptRuns(steps: seq<Step>)
    requires Legal(steps)
    ensures var s := Execute(steps);
            var t := AfterRead(Next(s, Flush));
            Legal(steps + Attempt(s)) && Execute(steps + Attempt(s)) == Confirmed(Arrived(t, |s.sent|))
  {
    var s := Execute(steps);
    var a, b, c := steps + [Flush], steps + [Flush] + [Read], steps + [Flush] + [Read] + [Arrive(|s.sent|)];
    LegalPush(steps, Flush);
    LegalPush(a, Read);
    LegalPush(b, Arrive(|s.sent|));
    LegalPush(c, Confirm);
    assert steps + Attempt(s) == c + [Confirm];
  }

  /** From rest, an undisturbed attempt takes the head out of the outbox iff the head's
      provider is known and the server does not refuse it; otherwise nothing leaves. */
  lemma {:induction false} HeadLeavesIff(steps: seq<Step>)
    requires Legal(steps) && Execute(steps).phase.Idle? && Execute(steps).store != map[]
    ensures var s := Execute(steps);
            var t := Execute(steps + Attempt(s));
            && Legal(steps + Attempt(s))
            && 0 <= Removed(s) < |s.log|
            && var head := s.log[Removed(s)];
               Removed(t) == if head.provider in {"bet365", "betano", "superbet", "blaze", "estrelabet"} && !ReplyTo(s.server, head).Refused? then Removed(s) + 1
                             else Removed(s)
  {
    RunInv(steps);
    AttemptRuns(steps);
    HeadAttempt(Execute(steps));
  }

  /** A flush in its loop sends the head, or ends after twenty rounds, with nothing left or
      at an unknown provider. */
  lemma {:induction false} ReadMeans(s: State)
    requires OutboxOk(s) && s.phase.Looping?
    ensures s.phase.round >= 20 || s.store == map[] ==> AfterRead(s) == s.(phase := Idle)
    ensures s.phase.round < 20 && s.store != map[] ==>
              && 0 <= Removed(s) < |s.log|
              && var head := s.log[Removed(s)];
                 if head.provider in {"bet365", "betano", "superbet", "blaze", "estrelabet"} then AfterRead(s).phase.Sending? && AfterRead(s).sent == s.sent + [head]
                 else AfterRead(s) == s.(phase := Idle)
  {
    var oldest := Oldest(s.store, 0, s.nextKey);
    if s.store != map[] {
      assert oldest.Some? by { var l :| l in s.store; }
      assert IsOldest(s.store, oldest.value);
      HeadIsNext(s, oldest.value);
      RemoveSize(s.store, oldest.value);
    }
  }

  /** What reading does when something waits. */
  lemma {:induction false} HeadRead(s: State, k: nat)
    requires OutboxOk(s) && s.phase.Idle? && Oldest(s.store, 0, s.nextKey) == Some(k)
    ensures AfterRead(Next(s, Flush)) == if KnownProvider(s.store[k].provider)
                                         then s.(phase := Sending(0, k, |s.sent|, None), sent := s.sent + [s.store[k]])
                                         else s
  {
  }

  lemma {:induction false} HeadAnswered(s: State, t: State, k: nat)
    requires k in s.store && t == s.(phase := Sending(0, k, |s.sent|, None), sent := s.sent + [s.store[k]])
    ensures Confirmed(Arrived(t, |s.sent|)).log == s.log
    ensures Confirmed(Arrived(t, |s.sent|)).store == if ReplyTo(s.server, s.store[k]).Refused? then s.store else s.store - {k}
  {
  }

  lemma {:induction false} HeadAttempt(s: State)
    requires OutboxOk(s) && s.phase.Idle? && s.store != map[]
    ensures var t := Confirmed(Arrived(AfterRead(Next(s, Flush)), |s.sent|));
            && 0 <= Removed(s) < |s.log|
            && var head := s.log[Removed(s)];
               Removed(t) == if KnownProvider(head.provider) && !ReplyTo(s.server, head).Refused? then Removed(s) + 1 else Removed(s)
  {
    var oldest := Oldest(s.store, 0, s.nextKey);
    assert oldest.Some? by { var l :| l in s.store; }
    var k := oldest.value;
    assert IsOldest(s.store, k);
    HeadIsNext(s, k);
    HeadRead(s, k);
    RemoveSize(s.store, k);
    if KnownProvider(s.store[k].provider) { HeadAnswered(s, AfterRead(Next(s, Flush)), k); }
  }

  /** What left the outbox has reached the server: nothing accepted is ever lost. */
  lemma {:induction false} NothingLost(steps: seq<Step>, p: Publication)
    requires Legal(steps) && p in Execute(steps).log
    ensures var s := Execute(steps); p in s.effects || p in Contents(s.store, s.nextKey)
  {
    RunInv(steps);
    var s := Execute(steps);
    var i :| 0 <= i < |s.log| && s.log[i] == p;
    if i < Removed(s) {
      assert s.effects[i] == p;
    } else {
      assert s.log[Removed(s)..][i - Removed(s)] == p;
    }
  }

  /** Repeating a request, at any later time, changes nothing on the server. */
  lemma {:induction false} RepeatHasNoEffect(steps: seq<Step>, j: nat)
    requires Legal(steps) && j < |Execute(steps).sent| && Execute(steps).sent[j] in Execute(steps).effects
    ensures Arrived(Execute(steps), j).server == Execute(steps).server
    ensures Arrived(Execute(steps), j).effects == Execute(steps).effects
  {
    RunInv(steps);
    RepeatRecognised(Execute(steps), j);
  }

  lemma {:induction false} RepeatRecognised(s: State, j: nat)
    requires ServerOk(s) && IdsOk(s) && j < |s.sent| && s.sent[j] in s.effects
    ensures ReplyTo(s.server, s.sent[j]).AlreadyReceived?
  {
    HistoryMembers(s.history, s.sent[j]);
    assert s.sent[j] in s.log;
  }

  // --- The objects -----------------------------------------------------------

  lemma {:induction false} ContentsLength(a: map<nat, Publication>, n: nat)
    requires forall k :: k in a ==> k < n
    ensures |Contents(a, n)| == |a|
  {
    if n == 0 {
      assert a.Keys == {};
    } else if n - 1 in a {
      var b := a - {n - 1};
      RemoveSize(a, n - 1);
      ContentsSame(a, b, n - 1);
      ContentsLength(b, n - 1);
    } else {
      ContentsLength(a, n - 1);
    }
  }

  lemma {:induction false} SendingOldest(steps: seq<Step>)
    requires Legal(steps) && Execute(steps).phase.Sending?
    ensures IsOldest(Execute(steps).store, Execute(steps).phase.key)
  {
    RunInv(steps);
  }

  class Outbox {
    var store: map<nat, Publication>
    var nextKey: nat

    ghost predicate Valid()
      reads this
    {
      (forall k :: k in store ==> k < nextKey) && |store| <= CAPACITY
    }

    /** Waiting publications, oldest first. */
    ghost function Queue(): seq<Publication>
      reads this
    {
      Contents(store, nextKey)
    }

    constructor ()
      ensures Valid() && Queue() == [] && store == map[] && nextKey == 1
    {
      store, nextKey := map[], 1;
      new;
      ContentsEmpty(store, nextKey);
    }

    method Enqueue(p: Publication, bytes: nat) returns (ok: bool)
      requires Valid()
      modifies this
      ensures Valid()
      ensures ok <==> bytes <= 8_388_608 && |old(Queue())| < 1000
      ensures Queue() == if ok then old(Queue()) + [p] else old(Queue())
      ensures store == if ok then old(store)[old(nextKey) := p] else old(store)
      ensures nextKey == if ok then old(nextKey) + 1 else old(nextKey)
    {
      ContentsLength(store, nextKey);
      if bytes > MAX_BYTES || |store| >= CAPACITY { return false; }
      AddSize(store, nextKey, p);
      ContentsSame(store, store[nextKey := p], nextKey);
      store, nextKey := store[nextKey := p], nextKey + 1;
      ok := true;
    }

    /** The entry a cursor meets first. */
    method First() returns (key: Option<nat>)
      requires Valid()
      ensures key == Oldest(store, 0, nextKey)
      ensures key.None? <==> Queue() == []
      ensures key.Some? ==> IsOldest(store, key.value) && store[key.value] == Queue()[0]
    {
      key := Oldest(store, 0, nextKey);
      if key.Some? {
        ContentsHead(store, key.value, nextKey);
      } else {
        ContentsEmpty(store, nextKey);
      }
    }

    method Remove(key: nat)
      requires Valid()
      modifies this`store
      ensures Valid() && store == old(store) - {key}
      ensures IsOldest(old(store), key) ==> old(Queue()) == [old(store)[key]] + Queue()
    {
      if key in store {
        RemoveSize(store, key);
        if IsOldest(store, key) { ContentsHead(store, key, nextKey); }
        store := store - {key};
      } else {
        assert store - {key} == store;
      }
    }

    method Count() returns (n: nat)
      requires Valid()
      ensures n == |Queue()|
    {
      ContentsLength(store, nextKey);
      n := |store|;
    }
  }

  /** The publisher, its outbox and the service it reports to. */
  class Publisher {
    const outbox: Outbox
    const service: PersistenceService
    var phase: Phase
    var sent: seq<Publication>
    ghost var log: seq<Publication>
    ghost var effects: seq<Publication>
    ghost var history: seq<Effect>
    ghost var steps: seq<Step>

    ghost function Abs(): State
      reads this, outbox, service
    {
      State(outbox.store, outbox.nextKey, phase, sent, service.Abs(), log, effects, history)
    }

    ghost predicate Valid()
      reads this, outbox, service
    {
      Legal(steps) && Abs() == Execute(steps) && outbox.Valid()
    }

    constructor ()
      ensures Valid() && fresh(outbox) && fresh(service) && steps == []
    {
      outbox := new Outbox();
      service := new PersistenceService();
      phase, sent := Idle, [];
      log, effects, history, steps := [], [], [], [];
    }

    ghost method Log(step: Step)
      requires Legal(steps) && Identified(Execute(steps), step)
      requires Abs() == Next(Execute(steps), step) && outbox.Valid()
      modifies this`steps
      ensures Valid() && steps == old(steps) + [step]
    {
      LegalPush(steps, step);
      steps := steps + [step];
    }

    method Queue(p: Publication, bytes: nat) returns (ok: bool)
      requires Valid() && FreshId(Abs(), p)
      modifies this, outbox
      ensures Valid() && steps == old(steps) + [Enqueue(p, bytes)]
      ensures ok <==> bytes <= 8_388_608 && |old(outbox.store)| < 1000
    {
      ContentsLength(outbox.store, outbox.nextKey);
      ok := outbox.Enqueue(p, bytes);
      if ok { log := log + [p]; }
      Log(Enqueue(p, bytes));
    }

    /** Joins the flush under way, if any. */
    method StartFlush()
      requires Valid()
      modifies this
      ensures Valid() && steps == old(steps) + [Flush]
    {
      if phase.Idle? { phase := Looping(0); }
      Log(Flush);
    }

    method ReadOldest()
      requires Valid()
      modifies this
      ensures Valid() && steps == old(steps) + [Read]
    {
      if phase.Looping? {
        var key := outbox.First();
        if phase.round >= ROUNDS || key.None? || !KnownProvider(outbox.store[key.value].provider) {
          phase := Idle;
        } else {
          phase, sent := Sending(phase.round, key.value, |sent|, None), sent + [outbox.store[key.value]];
        }
      }
      Log(Read);
    }

    /** A request reaches the service, now or much later. */
    method Deliver(j: nat)
      requires Valid() && j < |sent|
      modifies this, service
      ensures Valid() && steps == old(steps) + [Arrive(j)]
    {
      ghost var s := Abs();
      var reply := service.Transact(sent[j]);
      assert service.Abs() == Commit(s.server, s.sent[j]).0 && reply == Commit(s.server, s.sent[j]).1;
      if reply != Refused && reply != AlreadyReceived {
        effects, history := effects + [sent[j]], history + [Effect(true, sent[j])];
      }
      if phase.Sending? && phase.attempt == j { phase := phase.(reply := Some(reply != Refused)); }
      assert Abs() == Arrived(s, j);
      Log(Arrive(j));
    }

    /** The service takes a publication of another client. */
    method ServeOther(p: Publication)
      requires Valid() && OtherId(Abs(), p)
      modifies this, service
      ensures Valid() && steps == old(steps) + [Foreign(p)]
    {
      var reply := service.Transact(p);
      if reply != Refused && reply != AlreadyReceived { history := history + [Effect(false, p)]; }
      Log(Foreign(p));
    }

    method ConfirmSent()
      requires Valid() && phase.Sending? && phase.reply == Some(true)
      modifies this, outbox
      ensures Valid() && steps == old(steps) + [Confirm]
    {
      SendingOldest(steps);
      outbox.Remove(phase.key);
      phase := Looping(phase.round + 1);
      Log(Confirm);
    }

    /** A timeout, a lost reply or an error response ends the flush. */
    method Abandon()
      requires Valid() && phase.Sending?
      modifies this
      ensures Valid() && steps == old(steps) + [GiveUp]
    {
      phase := Idle;
      Log(GiveUp);
    }
  }
}
