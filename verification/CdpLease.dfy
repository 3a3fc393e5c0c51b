/** Shared CDP connections and their leases (cdp-lease.ts). Promise settlements,
    releases and disconnections interleave freely. */
module CdpLease {
  import opened Domain

  datatype Link = Connecting | Connected | Failed | Lost

  /** One connection object; `closes` counts the calls of its close(). */
  datatype Entry = Entry(endpoint: string, users: int, link: Link, closes: nat)

  /** One acquireCdp call: waiting for the connection, holding a lease, or done. */
  datatype Stage = Waiting | Holding | Released | Rejected

  datatype Caller = Caller(entry: nat, stage: Stage)

  datatype State = State(connections: map<string, nat>, entries: seq<Entry>, callers: seq<Caller>)

  const INITIAL := State(map[], [], [])

  datatype Step =
    | Acquire(endpoint: string)
    | Connect(entry: nat)
    | Fail(entry: nat)
    | Disconnect(entry: nat)
    | Resolve(caller: nat)
    | Reject(caller: nat)
    | Release(caller: nat)

  predicate IsCurrent(s: State, e: nat)
    requires e < |s.entries|
  {
    s.entries[e].endpoint in s.connections && s.connections[s.entries[e].endpoint] == e
  }

  /** Forgets the entry, unless a newer one has taken its endpoint. */
  function Evicted(s: State, e: nat): State
    requires e < |s.entries|
  {
    if IsCurrent(s, e) then s.(connections := s.connections - {s.entries[e].endpoint}) else s
  }

  function WithEntry(s: State, e: nat, x: Entry): State
    requires e < |s.entries|
  {
    s.(entries := s.entries[e := x])
  }

  function WithStage(s: State, c: nat, stage: Stage): State
    requires c < |s.callers|
  {
    s.(callers := s.callers[c := s.callers[c].(stage := stage)])
  }

  function Acquired(s: State, endpoint: string): State {
    if endpoint in s.connections && s.connections[endpoint] < |s.entries| then
      var e := s.connections[endpoint];
      WithEntry(s, e, s.entries[e].(users := s.entries[e].users + 1)).(callers := s.callers + [Caller(e, Waiting)])
    else
      State(s.connections[endpoint := |s.entries|], s.entries + [Entry(endpoint, 1, Connecting, 0)],
            s.callers + [Caller(|s.entries|, Waiting)])
  }

  function LinkOf(s: State, c: nat): Option<Link> {
    if c < |s.callers| && s.callers[c].entry < |s.entries| then Some(s.entries[s.callers[c].entry].link) else None
  }

  /** Gives the lease back; the last one closes the connection. */
  function ReleasedBy(s: State, c: nat): State
    requires c < |s.callers| && s.callers[c].entry < |s.entries|
  {
    var e := s.callers[c].entry;
    var x := s.entries[e].(users := s.entries[e].users - 1);
    var t := WithStage(WithEntry(s, e, x), c, Released);
    if x.users != 0 then t else WithEntry(Evicted(t, e), e, x.(closes := x.closes + 1))
  }

  function Next(s: State, step: Step): State {
    match step
    case Acquire(endpoint) => Acquired(s, endpoint)
    case Connect(e) => if e < |s.entries| && s.entries[e].link.Connecting? then WithEntry(s, e, s.entries[e].(link := Connected)) else s
    case Fail(e) =>
      if e < |s.entries| && s.entries[e].link.Connecting? then Evicted(WithEntry(s, e, s.entries[e].(link := Failed)), e) else s
    case Disconnect(e) =>
      if e < |s.entries| && s.entries[e].link.Connected? then Evicted(WithEntry(s, e, s.entries[e].(link := Lost)), e) else s
    case Resolve(c) =>
      if LinkOf(s, c) in {Some(Connected), Some(Lost)} && s.callers[c].stage.Waiting? then WithStage(s, c, Holding) else s
    case Reject(c) =>
      if LinkOf(s, c) == Some(Failed) && s.callers[c].stage.Waiting? then
        var e := s.callers[c].entry;
        WithStage(WithEntry(s, e, s.entries[e].(users := s.entries[e].users - 1)), c, Rejected)
      else s
    case Release(c) => if LinkOf(s, c).Some? && s.callers[c].stage.Holding? then ReleasedBy(s, c) else s
  }

  function Execute(steps: seq<Step>): State {
    if steps == [] then INITIAL else Next(Execute(steps[..|steps| - 1]), steps[|steps| - 1])
  }

  // --- Accounting ------------------------------------------------------------

  predicate Uses(c: Caller, e: nat) { c.entry == e && (c.stage.Waiting? || c.stage.Holding?) }

  /** Callers that wait for the entry or hold a lease on it. */
  function UsersOf(callers: seq<Caller>, e: nat): nat {
    if callers == [] then 0
    else UsersOf(callers[..|callers| - 1], e) + if Uses(callers[|callers| - 1], e) then 1 else 0
  }

  ghost predicate EntryOk(s: State, e: nat)
    requires e < |s.entries|
  {
    var x := s.entries[e];
    && x.users == UsersOf(s.callers, e)
    && x.closes <= 1
    && (x.closes == 1 <==> (x.link.Connected? || x.link.Lost?) && x.users == 0)
    && (x.link.Connecting? ==> x.users > 0)
    && (IsCurrent(s, e) ==> (x.link.Connecting? || x.link.Connected?) && x.users > 0)
  }

  ghost predicate Inv(s: State) {
    && (forall e :: 0 <= e < |s.entries| ==> EntryOk(s, e))
    && (forall p :: p in s.connections ==> s.connections[p] < |s.entries| && s.entries[s.connections[p]].endpoint == p)
    && forall c :: 0 <= c < |s.callers| ==>
         && s.callers[c].entry < |s.entries|
         && (s.callers[c].stage.Holding? ==> s.entries[s.callers[c].entry].link in {Connected, Lost})
  }

  lemma {:induction false} UsersUpdate(callers: seq<Caller>, i: nat, c: Caller, e: nat)
    requires i < |callers|
    ensures UsersOf(callers[i := c], e)
         == UsersOf(callers, e) + (if Uses(c, e) then 1 else 0) - if Uses(callers[i], e) then 1 else 0
  {
    var n := |callers| - 1;
    if i < n {
      UsersUpdate(callers[..n], i, c, e);
      assert callers[i := c][..n] == callers[..n][i := c];
    } else {
      assert callers[i := c][..n] == callers[..n];
    }
  }

  lemma {:induction false} NoUsers(callers: seq<Caller>, e: nat)
    requires forall i :: 0 <= i < |callers| ==> callers[i].entry != e
    ensures UsersOf(callers, e) == 0
  {
    if callers != [] { NoUsers(callers[..|callers| - 1], e); }
  }

  lemma {:induction false} SomeUser(callers: seq<Caller>, c: nat, e: nat)
    requires c < |callers| && Uses(callers[c], e)
    ensures UsersOf(callers, e) > 0
  {
    if c < |callers| - 1 { SomeUser(callers[..|callers| - 1], c, e); }
  }

  // --- Preservation ----------------------------------------------------------

  lemma {:induction false} AcquiredInv(s: State, endpoint: string)
    requires Inv(s)
    ensures Inv(Acquired(s, endpoint))
  {
    var t := Acquired(s, endpoint);
    var fresh_ := endpoint !in s.connections;
    var used := if fresh_ then |s.entries| else s.connections[endpoint];
    if fresh_ { NoUsers(s.callers, |s.entries|); }
    forall e | 0 <= e < |t.entries| ensures EntryOk(t, e) {
      if e < |s.entries| { assert EntryOk(s, e); }
    }
  }

  /** A change of link that leaves all counts alone. */
  lemma {:induction false} RelinkInv(s: State, e: nat, link: Link)
    requires Inv(s) && e < |s.entries|
    requires (s.entries[e].link.Connecting? && link in {Connected, Failed}) || (s.entries[e].link.Connected? && link.Lost?)
    ensures var t := WithEntry(s, e, s.entries[e].(link := link)); Inv(if link.Connected? then t else Evicted(t, e))
  {
    var t := WithEntry(s, e, s.entries[e].(link := link));
    var u := if link.Connected? then t else Evicted(t, e);
    forall i | 0 <= i < |u.entries| ensures EntryOk(u, i) { assert EntryOk(s, i); }
  }

  lemma {:induction false} ResolveInv(s: State, c: nat)
    requires Inv(s)
    ensures Inv(Next(s, Resolve(c)))
  {
    if LinkOf(s, c) in {Some(Connected), Some(Lost)} && s.callers[c].stage.Waiting? {
      var t := Next(s, Resolve(c));
      forall e | 0 <= e < |t.entries| ensures EntryOk(t, e) {
        assert EntryOk(s, e);
        UsersUpdate(s.callers, c, s.callers[c].(stage := Holding), e);
      }
    }
  }

  lemma {:induction false} RejectInv(s: State, c: nat)
    requires Inv(s)
    ensures Inv(Next(s, Reject(c)))
  {
    if LinkOf(s, c) == Some(Failed) && s.callers[c].stage.Waiting? {
      var t := Next(s, Reject(c));
      forall e | 0 <= e < |t.entries| ensures EntryOk(t, e) {
        assert EntryOk(s, e);
        UsersUpdate(s.callers, c, s.callers[c].(stage := Rejected), e);
      }
    }
  }

  lemma {:induction false} ReleaseInv(s: State, c: nat)
    requires Inv(s)
    ensures Inv(Next(s, Release(c)))
  {
    if LinkOf(s, c).Some? && s.callers[c].stage.Holding? {
      var t, e := Next(s, Release(c)), s.callers[c].entry;
      SomeUser(s.callers, c, e);
      forall i | 0 <= i < |t.entries| ensures EntryOk(t, i) {
        assert EntryOk(s, i);
        UsersUpdate(s.callers, c, s.callers[c].(stage := Released), i);
      }
    }
  }

  lemma {:induction false} NextInv(s: State, step: Step)
    requires Inv(s)
    ensures Inv(Next(s, step))
  {
    match step
    case Acquire(endpoint) => AcquiredInv(s, endpoint);
    case Connect(e) => if e < |s.entries| && s.entries[e].link.Connecting? { RelinkInv(s, e, Connected); }
    case Fail(e) => if e < |s.entries| && s.entries[e].link.Connecting? { RelinkInv(s, e, Failed); }
    case Disconnect(e) => if e < |s.entries| && s.entries[e].link.Connected? { RelinkInv(s, e, Lost); }
    case Resolve(c) => ResolveInv(s, c);
    case Reject(c) => RejectInv(s, c);
    case Release(c) => ReleaseInv(s, c);
  }

  lemma {:induction false} RunInv(steps: seq<Step>)
    ensures Inv(Execute(steps))
  {
    if steps != [] {
      RunInv(steps[..|steps| - 1]);
      NextInv(Execute(steps[..|steps| - 1]), steps[|steps| - 1]);
    }
  }

  // --- Results ---------------------------------------------------------------

  /** Under any interleaving an entry's user count is the number of callers waiting for
      it plus the number of leases not yet released. */
  lemma {:induction false} UsersAreCallers(steps: seq<Step>, e: nat)
    requires e < |Execute(steps).entries|
    ensures Execute(steps).entries[e].users == UsersOf(Execute(steps).callers, e)
  {
    RunInv(steps);
    assert EntryOk(Execute(steps), e);
  }

  /** A connection is closed at most once, and exactly when it was established and
      nobody waits for it or holds a lease on it any more; in particular never under a
      holder. */
  lemma {:induction false} ClosedOnceByLast(steps: seq<Step>, e: nat)
    requires e < |Execute(steps).entries|
    ensures var x := Execute(steps).entries[e];
            && x.closes <= 1
            && (x.closes == 1 <==> x.link in {Connected, Lost} && UsersOf(Execute(steps).callers, e) == 0)
  {
    RunInv(steps);
    assert EntryOk(Execute(steps), e);
  }

  /** The endpoint's entry, while there is one, is being established or open, is in
      use, and was not closed. */
  lemma {:induction false} CurrentIsLive(steps: seq<Step>, endpoint: string)
    requires endpoint in Execute(steps).connections
    ensures var s := Execute(steps); var e := s.connections[endpoint];
            && e < |s.entries| && s.entries[e].endpoint == endpoint
            && s.entries[e].link in {Connecting, Connected} && s.entries[e].users > 0 && s.entries[e].closes == 0
  {
    RunInv(steps);
    var s := Execute(steps);
    assert EntryOk(s, s.connections[endpoint]);
  }

  /** The entry a step is about. */
  function Subject(s: State, step: Step): Option<nat> {
    match step
    case Acquire(_) => None
    case Connect(e) => Some(e)
    case Fail(e) => Some(e)
    case Disconnect(e) => Some(e)
    case Resolve(c) => if c < |s.callers| then Some(s.callers[c].entry) else None
    case Reject(c) => if c < |s.callers| then Some(s.callers[c].entry) else None
    case Release(c) => if c < |s.callers| then Some(s.callers[c].entry) else None
  }

  /** An entry is dropped from the map only by a step about itself: an old one never
      evicts a newer one of the same endpoint. */
  lemma {:induction false} OnlyOwnEviction(steps: seq<Step>, step: Step, endpoint: string)
    requires endpoint in Execute(steps).connections
    ensures var s, t := Execute(steps), Next(Execute(steps), step);
            Subject(s, step) != Some(s.connections[endpoint]) ==>
              endpoint in t.connections && t.connections[endpoint] == s.connections[endpoint]
  {
    RunInv(steps);
  }

  // --- The module's state ----------------------------------------------------

  class Connections {
    var connections: map<string, nat>
    var entries: seq<Entry>
    /** The activations of acquireCdp and their leases' released flags. */
    var callers: seq<Caller>
    ghost var steps: seq<Step>

    ghost function Abs(): State
      reads this
    {
      State(connections, entries, callers)
    }

    ghost predicate Valid()
      reads this
    {
      Abs() == Execute(steps)
    }

    constructor ()
      ensures Valid() && steps == []
    {
      connections, entries, callers := map[], [], [];
      steps := [];
    }

    ghost method Log(step: Step)
      requires Abs() == Next(Execute(steps), step)
      modifies this`steps
      ensures Valid() && steps == old(steps) + [step]
    {
      steps := steps + [step];
      assert steps[..|steps| - 1] == old(steps);
    }

    method AcquireCdp(endpoint: string) returns (caller: nat)
      requires Valid()
      modifies this
      ensures Valid() && steps == old(steps) + [Acquire(endpoint)]
      ensures caller == |old(callers)| < |callers| && callers[caller].stage.Waiting?
    {
      RunInv(steps);
      if endpoint !in connections {
        connections := connections[endpoint := |entries|];
        entries := entries + [Entry(endpoint, 0, Connecting, 0)];
      }
      var e := connections[endpoint];
      entries := entries[e := entries[e].(users := entries[e].users + 1)];
      caller := |callers|;
      callers := callers + [Caller(e, Waiting)];
      Log(Acquire(endpoint));
    }

    method Evict(e: nat)
      requires e < |entries|
      modifies this`connections
      ensures Abs() == Evicted(old(Abs()), e)
    {
      var endpoint := entries[e].endpoint;
      if endpoint in connections && connections[endpoint] == e { connections := connections - {endpoint}; }
    }

    method OnConnected(e: nat)
      requires Valid() && e < |entries| && entries[e].link.Connecting?
      modifies this
      ensures Valid() && steps == old(steps) + [Connect(e)]
    {
      entries := entries[e := entries[e].(link := Connected)];
      Log(Connect(e));
    }

    method OnFailed(e: nat)
      requires Valid() && e < |entries| && entries[e].link.Connecting?
      modifies this
      ensures Valid() && steps == old(steps) + [Fail(e)]
    {
      entries := entries[e := entries[e].(link := Failed)];
      Evict(e);
      Log(Fail(e));
    }

    method OnDisconnected(e: nat)
      requires Valid() && e < |entries| && entries[e].link.Connected?
      modifies this
      ensures Valid() && steps == old(steps) + [Disconnect(e)]
    {
      entries := entries[e := entries[e].(link := Lost)];
      Evict(e);
      Log(Disconnect(e));
    }

    /** The awaited connection settles for one caller; true if it now holds a lease. */
    method Settle(c: nat) returns (leased: bool)
      requires Valid() && c < |callers| && callers[c].stage.Waiting? && LinkOf(Abs(), c) != Some(Connecting)
      modifies this
      ensures Valid() && steps == old(steps) + [if leased then Resolve(c) else Reject(c)]
    {
      RunInv(steps);
      var e := callers[c].entry;
      leased := entries[e].link != Failed;
      if leased {
        callers := callers[c := callers[c].(stage := Holding)];
        Log(Resolve(c));
      } else {
        entries := entries[e := entries[e].(users := entries[e].users - 1)];
        callers := callers[c := callers[c].(stage := Rejected)];
        Log(Reject(c));
      }
    }

    /** A lease's release function; calling it again does nothing. */
    method ReleaseLease(c: nat)
      requires Valid() && c < |callers| && callers[c].stage in {Holding, Released}
      modifies this
      ensures Valid() && steps == old(steps) + [Release(c)]
    {
      RunInv(steps);
      if callers[c].stage.Holding? {
        var e := callers[c].entry;
        callers := callers[c := callers[c].(stage := Released)];
        entries := entries[e := entries[e].(users := entries[e].users - 1)];
        if entries[e].users == 0 {
          Evict(e);
          entries := entries[e := entries[e].(closes := entries[e].closes + 1)];
        }
      }
      Log(Release(c));
    }
  }
}
