/** The market journal in file mode (market-journal.ts): an append-only log of
    observations and an in-memory index of the latest one per scope. */
module MarketJournal {
  import opened Domain
  import opened MarketChanges

  /** `at` is None when the stated time is not a canonical instant. */
  datatype Batch = Batch(scope: string, complete: bool, at: Option<int>, matches: seq<Match>, source: string)

  datatype Snapshot = Snapshot(key: Key, marketId: string, selectionId: string, odds: Option<real>, line: Option<real>,
                               suspended: Option<bool>, inPlay: Option<bool>, at: Option<int>)

  /** A logged observation. The content hash is the batch itself. */
  datatype Entry = Entry(batch: Batch, snapshots: seq<Snapshot>, changes: seq<Change>)

  type Latest = map<string, Entry>

  // --- Snapshots -------------------------------------------------------------

  /** Suspended at any level wins; otherwise the innermost stated value. */
  function Suspension(s: Option<bool>, m: Option<bool>, e: Option<bool>): (r: Option<bool>)
    ensures r == Some(true) <==> s == Some(true) || m == Some(true) || e == Some(true)
    ensures r == None <==> s == None && m == None && e == None
  {
    if s == Some(true) || m == Some(true) || e == Some(true) then Some(true) else Or(s, Or(m, e))
  }

  function SnapshotOf(e: Match, m: Market, s: Selection): Snapshot {
    Snapshot(MatchKey(e), m.id, s.id, s.odds, Or(s.line, m.line), Suspension(s.suspended, m.suspended, e.suspended),
             Or(s.inPlay, Or(m.inPlay, e.inPlay)), Or(m.fetchedAt, e.fetchedAt))
  }

  function OfMarket(e: Match, m: Market, ss: seq<Selection>): seq<Snapshot> {
    if ss == [] then [] else [SnapshotOf(e, m, ss[0])] + OfMarket(e, m, ss[1..])
  }

  function OfMatch(e: Match, ms: seq<Market>): seq<Snapshot> {
    if ms == [] then [] else OfMarket(e, ms[0], ms[0].selections) + OfMatch(e, ms[1..])
  }

  function Snapshots(es: seq<Match>): seq<Snapshot> {
    if es == [] then [] else OfMatch(es[0], es[0].markets) + Snapshots(es[1..])
  }

  /** x states the inner value where there is one and the outer one otherwise. */
  predicate Inherits<T(==)>(x: Option<T>, inner: Option<T>, outer: Option<T>) {
    (inner.Some? ==> x == inner) && (inner.None? ==> x == outer)
  }

  /** The snapshot is the selection's: suspended if any level says so. */
  predicate Tells(x: Snapshot, e: Match, m: Market, s: Selection) {
    && x.key == (e.provider, e.eventId) && x.marketId == m.id && x.selectionId == s.id && x.odds == s.odds
    && Inherits(x.line, s.line, m.line) && Inherits(x.at, m.fetchedAt, e.fetchedAt)
    && (s.inPlay.Some? ==> x.inPlay == s.inPlay) && (s.inPlay.None? ==> Inherits(x.inPlay, m.inPlay, e.inPlay))
    && (s.suspended == Some(true) || m.suspended == Some(true) || e.suspended == Some(true) ==> x.suspended == Some(true))
    && (s.suspended != Some(true) && m.suspended != Some(true) && e.suspended != Some(true) ==>
          (x.suspended == if s.suspended == None && m.suspended == None && e.suspended == None then None else Some(false)))
  }

  lemma {:induction false} SnapshotTells(x: Snapshot, e: Match, m: Market, s: Selection)
    ensures x == SnapshotOf(e, m, s) <==> Tells(x, e, m, s)
  {
    var o := Or(s.suspended, Or(m.suspended, e.suspended));
    if o.Some? {
      var v: bool := o.value;
      assert o == Some(v);
    }
    assert Tells(SnapshotOf(e, m, s), e, m, s);
  }

  lemma {:induction false} OfMarketAt(e: Match, m: Market, ss: seq<Selection>, i: nat)
    ensures |OfMarket(e, m, ss)| == |ss|
    ensures i < |ss| ==> Tells(OfMarket(e, m, ss)[i], e, m, ss[i])
  {
    if ss != [] {
      OfMarketAt(e, m, ss[1..], if i > 0 then i - 1 else 0);
      SnapshotTells(SnapshotOf(e, m, ss[0]), e, m, ss[0]);
    }
  }

  lemma {:induction false} JoinAgain<T>(a: seq<T>, b: seq<T>, c: seq<T>)
    ensures a + (b + c) == (a + b) + c
  {
  }

  lemma {:induction false} OfMatchConcat(e: Match, ms: seq<Market>, ns: seq<Market>)
    ensures OfMatch(e, ms + ns) == OfMatch(e, ms) + OfMatch(e, ns)
  {
    if ms == [] {
      assert ms + ns == ns;
    } else {
      OfMatchConcat(e, ms[1..], ns);
      assert (ms + ns)[1..] == ms[1..] + ns && (ms + ns)[0] == ms[0];
      JoinAgain(OfMarket(e, ms[0], ms[0].selections), OfMatch(e, ms[1..]), OfMatch(e, ns));
    }
  }

  lemma {:induction false} SnapshotsConcat(es: seq<Match>, fs: seq<Match>)
    ensures Snapshots(es + fs) == Snapshots(es) + Snapshots(fs)
  {
    if es == [] {
      assert es + fs == fs;
    } else {
      SnapshotsConcat(es[1..], fs);
      assert (es + fs)[1..] == es[1..] + fs && (es + fs)[0] == es[0];
      JoinAgain(OfMatch(es[0], es[0].markets), Snapshots(es[1..]), Snapshots(fs));
    }
  }

  /** The snapshots of market j of match i stand together, one per selection and in the
      order of the selections, behind those of the markets and matches before it. */
  lemma {:induction false} SnapshotsInOrder(es: seq<Match>, i: nat, j: nat, k: nat)
    requires i < |es| && j < |es[i].markets| && k < |es[i].markets[j].selections|
    ensures var at := |Snapshots(es[..i])| + |OfMatch(es[i], es[i].markets[..j])| + k;
            at < |Snapshots(es)| && Tells(Snapshots(es)[at], es[i], es[i].markets[j], es[i].markets[j].selections[k])
  {
    var e := es[i];
    var ms, m := e.markets, e.markets[j];
    assert es == es[..i] + ([e] + es[i + 1..]);
    SnapshotsConcat(es[..i], [e] + es[i + 1..]);
    assert ms == ms[..j] + ([m] + ms[j + 1..]);
    OfMatchConcat(e, ms[..j], [m] + ms[j + 1..]);
    assert ([e] + es[i + 1..])[1..] == es[i + 1..] && ([m] + ms[j + 1..])[1..] == ms[j + 1..];
    OfMarketAt(e, m, m.selections, k);
  }

  lemma {:induction false} OfMarketAll(e: Match, m: Market, ss: seq<Selection>, x: Snapshot)
    ensures x in OfMarket(e, m, ss) <==> exists s :: s in ss && Tells(x, e, m, s)
  {
    if ss != [] {
      OfMarketAll(e, m, ss[1..], x);
      SnapshotTells(x, e, m, ss[0]);
      forall s ensures s in ss <==> s == ss[0] || s in ss[1..] { assert ss == [ss[0]] + ss[1..]; }
    }
  }

  lemma {:induction false} OfMatchAll(e: Match, ms: seq<Market>, x: Snapshot)
    ensures x in OfMatch(e, ms) <==> exists m, s :: m in ms && s in m.selections && Tells(x, e, m, s)
  {
    if ms != [] {
      OfMatchAll(e, ms[1..], x);
      OfMarketAll(e, ms[0], ms[0].selections, x);
      forall m ensures m in ms <==> m == ms[0] || m in ms[1..] { assert ms == [ms[0]] + ms[1..]; }
    }
  }

  /** Every selection of every market is a snapshot, and nothing else is. */
  lemma {:induction false} SnapshotsAll(es: seq<Match>, x: Snapshot)
    ensures x in Snapshots(es) <==> exists e, m, s :: e in es && m in e.markets && s in m.selections && Tells(x, e, m, s)
  {
    if es != [] {
      SnapshotsAll(es[1..], x);
      OfMatchAll(es[0], es[0].markets, x);
      forall e ensures e in es <==> e == es[0] || e in es[1..] { assert es == [es[0]] + es[1..]; }
    }
  }

  // --- Acceptance ------------------------------------------------------------

  predicate SelectionsOk(ss: seq<Selection>) {
    && (forall i, j :: 0 <= i < j < |ss| ==> ss[i].id != ss[j].id)
    && forall s :: s in ss && s.odds.Some? ==> s.odds.value > 1.0
  }

  predicate MatchOk(e: Match, at: int) {
    e.fetchedAt == Some(at) && UniqueMarkets(e.markets) && forall m :: m in e.markets ==> SelectionsOk(m.selections)
  }

  /** A stated scope and time, at least one match, no duplicate at any level. */
  predicate BatchOk(b: Batch) {
    && b.scope != "" && b.at.Some? && b.matches != []
    && UniqueEvents(b.matches)
    && forall e :: e in b.matches ==> MatchOk(e, b.at.value)
  }

  method CheckSelections(ss: seq<Selection>) returns (ok: bool)
    ensures ok <==> SelectionsOk(ss)
  {
    var ids: set<string> := {};
    for i := 0 to |ss|
      invariant SelectionsOk(ss[..i]) && ids == set j | 0 <= j < i :: ss[j].id
    {
      if ss[i].id in ids || (ss[i].odds.Some? && ss[i].odds.value <= 1.0) { return false; }
      ids := ids + {ss[i].id};
    }
    assert ss[..|ss|] == ss;
    ok := true;
  }

  method CheckMarkets(ms: seq<Market>) returns (ok: bool)
    ensures ok <==> UniqueMarkets(ms) && forall m :: m in ms ==> SelectionsOk(m.selections)
  {
    var ids: set<string> := {};
    for i := 0 to |ms|
      invariant UniqueMarkets(ms[..i]) && (forall m :: m in ms[..i] ==> SelectionsOk(m.selections))
      invariant ids == set j | 0 <= j < i :: ms[j].id
    {
      if ms[i].id in ids { return false; }
      ids := ids + {ms[i].id};
      var good := CheckSelections(ms[i].selections);
      if !good { assert ms[i] in ms; return false; }
    }
    assert ms[..|ms|] == ms;
    ok := true;
  }

  method CheckBatch(b: Batch) returns (ok: bool)
    ensures ok <==> BatchOk(b)
  {
    if b.scope == "" || b.at.None? || b.matches == [] { return false; }
    var es, ids: set<Key> := b.matches, {};
    for i := 0 to |es|
      invariant UniqueEvents(es[..i]) && (forall e :: e in es[..i] ==> MatchOk(e, b.at.value))
      invariant ids == set j | 0 <= j < i :: MatchKey(es[j])
    {
      if MatchKey(es[i]) in ids || es[i].fetchedAt != b.at { assert es[i] in es; return false; }
      ids := ids + {MatchKey(es[i])};
      var good := CheckMarkets(es[i].markets);
      if !good { assert es[i] in es; return false; }
    }
    assert es[..|es|] == es;
    ok := true;
  }

  predicate OneProvider(es: seq<Match>) {
    forall e, f :: e in es && f in es ==> e.provider == f.provider
  }

  method Mixed(es: seq<Match>) returns (mixed: bool)
    ensures mixed <==> !OneProvider(es)
  {
    for i := 0 to |es|
      invariant forall j :: 0 <= j < i ==> es[j].provider == es[0].provider
    {
      if es[i].provider != es[0].provider {
        assert es[i] in es && es[0] in es;
        return true;
      }
    }
    mixed := false;
  }

  function EntryOf(latest: Latest, b: Batch): Entry
    requires b.at.Some?
  {
    Entry(b, Snapshots(b.matches), Changes(if b.scope in latest then latest[b.scope].batch.matches else [], b.matches, b.at.value, b.complete))
  }

  datatype Verdict = Rejected | Ignored | Accepted(entry: Entry)

  /** What `append` does with a batch, before it touches the log. */
  function Decide(latest: Latest, b: Batch): Verdict {
    var known := b.scope in latest;
    if !BatchOk(b) then Rejected
    else if known && !OneProvider(latest[b.scope].batch.matches + b.matches) then Rejected
    else if !OneProvider(b.matches) then Rejected
    else if known && latest[b.scope].batch.at.Some? && b.at.value < latest[b.scope].batch.at.value then Ignored
    else if known && b.at == latest[b.scope].batch.at then if b == latest[b.scope].batch then Ignored else Rejected
    else if !b.complete then Rejected
    else Accepted(EntryOf(latest, b))
  }

  function Load(log: seq<Entry>): Latest {
    if log == [] then map[]
    else Load(log[..|log| - 1])[log[|log| - 1].batch.scope := log[|log| - 1]]
  }

  // --- Runs with crashes -----------------------------------------------------

  /** `index` is None while the process is down. */
  datatype State = State(log: seq<Entry>, index: Option<Latest>)

  datatype Step = Ingest(batch: Batch) | CrashAfterAppend(batch: Batch) | Crash | Restart

  function Next(s: State, step: Step): State {
    match step
    case Ingest(b) =>
      if s.index.None? then s
      else
        var v := Decide(s.index.value, b);
        if v.Accepted? then State(s.log + [v.entry], Some(s.index.value[b.scope := v.entry])) else s
    case CrashAfterAppend(b) =>
      if s.index.None? then s
      else
        var v := Decide(s.index.value, b);
        State(if v.Accepted? then s.log + [v.entry] else s.log, None)
    case Crash => s.(index := None)
    case Restart => if s.index.None? then s.(index := Some(Load(s.log))) else s
  }

  function Execute(steps: seq<Step>): State {
    if steps == [] then State([], None) else Next(Execute(steps[..|steps| - 1]), steps[|steps| - 1])
  }

  /** The scope's logged changes, oldest first. */
  function ScopeChanges(log: seq<Entry>, scope: string): seq<Change> {
    if log == [] then []
    else
      var n := |log| - 1;
      ScopeChanges(log[..n], scope) + if log[n].batch.scope == scope then log[n].changes else []
  }

  ghost predicate LogOk(log: seq<Entry>) {
    && (forall i :: 0 <= i < |log| ==> BatchOk(log[i].batch) && log[i].batch.complete && OneProvider(log[i].batch.matches))
    && (forall i, j :: 0 <= i < j < |log| && log[i].batch.scope == log[j].batch.scope ==>
          log[i].batch.at.value < log[j].batch.at.value && OneProvider(log[i].batch.matches + log[j].batch.matches))
    && forall scope :: scope in Load(log) ==>
         Fold(map[], ScopeChanges(log, scope)) == IndexOf(Load(log)[scope].batch.matches)
  }

  ghost predicate Inv(s: State) {
    && LogOk(s.log)
    && (s.index.Some? ==> s.index.value == Load(s.log))
  }

  lemma {:induction false} LoadIsLast(log: seq<Entry>, scope: string)
    ensures scope in Load(log) ==> exists i :: 0 <= i < |log| && log[i] == Load(log)[scope] && log[i].batch.scope == scope
                                               && forall j :: i < j < |log| ==> log[j].batch.scope != scope
    ensures scope !in Load(log) ==> forall i :: 0 <= i < |log| ==> log[i].batch.scope != scope
    ensures scope !in Load(log) ==> ScopeChanges(log, scope) == []
  {
    if log != [] {
      var n := |log| - 1;
      LoadIsLast(log[..n], scope);
      if scope in Load(log) {
        if log[n].batch.scope == scope {
          assert log[n] == Load(log)[scope];
        } else {
          var i :| 0 <= i < n && log[..n][i] == Load(log[..n])[scope] && log[..n][i].batch.scope == scope
                   && forall j :: i < j < n ==> log[..n][j].batch.scope != scope;
          assert log[i] == Load(log)[scope];
        }
      } else {
        forall i | 0 <= i < |log| ensures log[i].batch.scope != scope {
          if i < n { assert log[..n][i] == log[i]; }
        }
      }
    }
  }

  function PriorMatches(latest: Latest, scope: string): seq<Match> {
    if scope in latest then latest[scope].batch.matches else []
  }

  /** The new entry starts from the index the log already folds to. */
  lemma {:induction false} PriorFolds(log: seq<Entry>, scope: string)
    requires LogOk(log)
    ensures UniqueEvents(PriorMatches(Load(log), scope))
    ensures Fold(map[], ScopeChanges(log, scope)) == IndexOf(PriorMatches(Load(log), scope))
  {
    LoadIsLast(log, scope);
  }

  lemma {:induction false} AcceptedBatch(latest: Latest, b: Batch)
    requires Decide(latest, b).Accepted?
    ensures b.at.Some? && b.complete && Unique(b.matches)
    ensures EntryOf(latest, b).changes == Changes(PriorMatches(latest, b.scope), b.matches, b.at.value, true)
  {
  }

  lemma {:induction false} AppendFolds(log: seq<Entry>, b: Batch)
    requires LogOk(log) && Decide(Load(log), b).Accepted?
    ensures Fold(map[], ScopeChanges(log, b.scope) + EntryOf(Load(log), b).changes) == IndexOf(b.matches)
  {
    PriorFolds(log, b.scope);
    AcceptedBatch(Load(log), b);
    FoldConcat(map[], ScopeChanges(log, b.scope), EntryOf(Load(log), b).changes);
    ChangesAccountForIndex(PriorMatches(Load(log), b.scope), b.matches, b.at.value);
  }

  lemma {:induction false} AcceptedAfter(latest: Latest, b: Batch)
    requires Decide(latest, b).Accepted? && b.scope in latest && latest[b.scope].batch.at.Some?
    ensures b.at.Some? && latest[b.scope].batch.at.value < b.at.value && OneProvider(latest[b.scope].batch.matches + b.matches)
  {
  }

  lemma {:induction false} AppendTimes(log: seq<Entry>, b: Batch, i: nat)
    requires LogOk(log) && Decide(Load(log), b).Accepted? && i < |log| && log[i].batch.scope == b.scope
    ensures log[i].batch.at.Some? && b.at.Some? && log[i].batch.at.value < b.at.value
    ensures OneProvider(log[i].batch.matches + b.matches)
  {
    LoadIsLast(log, b.scope);
    var l :| 0 <= l < |log| && log[l] == Load(log)[b.scope] && log[l].batch.scope == b.scope
             && forall j :: l < j < |log| ==> log[j].batch.scope != b.scope;
    assert BatchOk(log[l].batch) && BatchOk(log[i].batch);
    AcceptedAfter(Load(log), b);
    if i < l {
      Shared(log[i].batch.matches, log[l].batch.matches, b.matches);
    }
  }

  lemma {:induction false} Shared(a: seq<Match>, b: seq<Match>, c: seq<Match>)
    requires OneProvider(a + b) && OneProvider(b + c) && b != []
    ensures OneProvider(a + c)
  {
    forall e, f | e in a + c && f in a + c ensures e.provider == f.provider {
      assert e in a + b || e in b + c;
      assert f in a + b || f in b + c;
      assert b[0] in a + b && b[0] in b + c;
    }
  }

  lemma {:induction false} AppendScope(log: seq<Entry>, b: Batch, scope: string)
    requires LogOk(log) && Decide(Load(log), b).Accepted? && (scope == b.scope || scope in Load(log))
    ensures var e := EntryOf(Load(log), b);
            Fold(map[], ScopeChanges(log + [e], scope)) == IndexOf((if scope == b.scope then e else Load(log)[scope]).batch.matches)
  {
    var e := EntryOf(Load(log), b);
    assert (log + [e])[..|log|] == log;
    if scope == b.scope {
      AppendFolds(log, b);
    } else {
      assert ScopeChanges(log, scope) + [] == ScopeChanges(log, scope);
      assert ScopeChanges(log + [e], scope) == ScopeChanges(log, scope);
    }
  }

  lemma {:induction false} AppendPairs(log: seq<Entry>, b: Batch, i: nat, j: nat)
    requires LogOk(log) && Decide(Load(log), b).Accepted? && i < j <= |log|
    requires var longer := log + [EntryOf(Load(log), b)]; longer[i].batch.scope == longer[j].batch.scope
    ensures var longer := log + [EntryOf(Load(log), b)];
            && longer[i].batch.at.Some? && longer[j].batch.at.Some? && longer[i].batch.at.value < longer[j].batch.at.value
            && OneProvider(longer[i].batch.matches + longer[j].batch.matches)
  {
    if j == |log| { AppendTimes(log, b, i); }
  }

  lemma {:induction false} LoadPush(log: seq<Entry>, e: Entry)
    ensures Load(log + [e]) == Load(log)[e.batch.scope := e]
  {
    assert (log + [e])[..|log|] == log;
  }

  lemma {:induction false} AppendFoldsAll(log: seq<Entry>, b: Batch)
    requires LogOk(log) && Decide(Load(log), b).Accepted?
    ensures var longer := log + [EntryOf(Load(log), b)];
            forall scope :: scope in Load(longer) ==>
              Fold(map[], ScopeChanges(longer, scope)) == IndexOf(Load(longer)[scope].batch.matches)
  {
    var longer := log + [EntryOf(Load(log), b)];
    LoadPush(log, EntryOf(Load(log), b));
    forall scope | scope in Load(longer)
      ensures Fold(map[], ScopeChanges(longer, scope)) == IndexOf(Load(longer)[scope].batch.matches)
    {
      AppendScope(log, b, scope);
    }
  }

  lemma {:induction false} AppendOk(log: seq<Entry>, b: Batch)
    requires LogOk(log) && Decide(Load(log), b).Accepted?
    ensures LogOk(log + [EntryOf(Load(log), b)])
  {
    var longer := log + [EntryOf(Load(log), b)];
    forall i, j | 0 <= i < j < |longer| && longer[i].batch.scope == longer[j].batch.scope
      ensures longer[i].batch.at.Some? && longer[j].batch.at.Some? && longer[i].batch.at.value < longer[j].batch.at.value
      ensures OneProvider(longer[i].batch.matches + longer[j].batch.matches)
    {
      AppendPairs(log, b, i, j);
    }
    AppendFoldsAll(log, b);
  }

  lemma {:induction false} AppendInv(log: seq<Entry>, b: Batch)
    requires LogOk(log) && Decide(Load(log), b).Accepted?
    ensures var e := EntryOf(Load(log), b);
            Inv(State(log + [e], Some(Load(log)[b.scope := e]))) && Inv(State(log + [e], None))
  {
    AppendOk(log, b);
    LoadPush(log, EntryOf(Load(log), b));
  }

  lemma {:induction false} IngestInv(s: State, b: Batch)
    requires Inv(s)
    ensures Inv(Next(s, Ingest(b))) && Inv(Next(s, CrashAfterAppend(b)))
  {
    if s.index.Some? {
      assert s.index.value == Load(s.log);
      if Decide(Load(s.log), b).Accepted? {
        AppendInv(s.log, b);
      }
    }
  }

  lemma {:induction false} NextInv(s: State, step: Step)
    requires Inv(s)
    ensures Inv(Next(s, step))
  {
    match step
    case Ingest(b) => IngestInv(s, b);
    case CrashAfterAppend(b) => IngestInv(s, b);
    case Crash =>
    case Restart =>
  }

  lemma {:induction false} RunInv(steps: seq<Step>)
    ensures Inv(Execute(steps))
  {
    if steps != [] {
      RunInv(steps[..|steps| - 1]);
      NextInv(Execute(steps[..|steps| - 1]), steps[|steps| - 1]);
    }
  }

  // --- Results ---------------------------------------------------------------

  /** Reloading never changes the index, whenever the process stops and restarts. */
  lemma {:induction false} ReloadRebuildsIndex(steps: seq<Step>)
    requires Execute(steps).index.Some?
    ensures Execute(steps + [Crash, Restart]) == Execute(steps)
  {
    RunInv(steps);
    var a, b := steps + [Crash], steps + [Crash, Restart];
    assert b[..|b| - 1] == a && a[..|a| - 1] == steps;
  }

  /** Accepted times of a scope strictly increase. */
  lemma {:induction false} TimesIncrease(steps: seq<Step>, i: nat, j: nat)
    requires i < j < |Execute(steps).log| && Execute(steps).log[i].batch.scope == Execute(steps).log[j].batch.scope
    ensures var log := Execute(steps).log;
            log[i].batch.at.Some? && log[j].batch.at.Some? && log[i].batch.at.value < log[j].batch.at.value
  {
    RunInv(steps);
  }

  /** Folding what a scope's log says was added and removed, from nothing, gives
      exactly the events and markets of its latest observation. */
  lemma {:induction false} LogFoldsToLatest(steps: seq<Step>, scope: string)
    requires Execute(steps).index.Some? && scope in Execute(steps).index.value
    ensures Fold(map[], ScopeChanges(Execute(steps).log, scope)) == IndexOf(Execute(steps).index.value[scope].batch.matches)
  {
    RunInv(steps);
  }

  /** The log only grows, through crashes too. */
  lemma {:induction false} LogGrows(steps: seq<Step>, from: nat)
    requires from <= |steps|
    ensures Execute(steps[..from]).log <= Execute(steps).log
  {
    if from == |steps| {
      assert steps[..from] == steps;
    } else {
      assert steps[..|steps| - 1][..from] == steps[..from];
      LogGrows(steps[..|steps| - 1], from);
    }
  }

  /** A writer that crashed between the append and the index update can repeat the
      batch after the restart: it is recognised, not logged twice. */
  lemma {:induction false} RetryIsIgnored(steps: seq<Step>, b: Batch)
    requires Execute(steps).index.Some? && Decide(Execute(steps).index.value, b).Accepted?
    ensures Execute(steps + [CrashAfterAppend(b), Restart, Ingest(b)]) == Execute(steps + [Ingest(b)])
  {
    RunInv(steps);
    var t1, t2, t3, t4 := steps + [CrashAfterAppend(b)], steps + [CrashAfterAppend(b), Restart],
                          steps + [CrashAfterAppend(b), Restart, Ingest(b)], steps + [Ingest(b)];
    assert t1[..|t1| - 1] == steps && t2[..|t2| - 1] == t1 && t3[..|t3| - 1] == t2 && t4[..|t4| - 1] == steps;
    var s := Execute(steps);
    assert s == State(s.log, Some(Load(s.log)));
    assert Execute(t1) == Next(s, CrashAfterAppend(b));
    assert Execute(t2) == Next(Execute(t1), Restart);
    assert Execute(t3) == Next(Execute(t2), Ingest(b));
    assert Execute(t4) == Next(s, Ingest(b));
    RetryState(s.log, b);
  }

  lemma {:induction false} RetryState(log: seq<Entry>, b: Batch)
    requires Decide(Load(log), b).Accepted?
    ensures var s := State(log, Some(Load(log)));
            Next(Next(Next(s, CrashAfterAppend(b)), Restart), Ingest(b)) == Next(s, Ingest(b))
  {
    var e := EntryOf(Load(log), b);
    LoadPush(log, e);
    RepeatIgnored(Load(log)[b.scope := e], b);
  }

  lemma {:induction false} RepeatIgnored(latest: Latest, b: Batch)
    requires b.scope in latest && latest[b.scope].batch == b && BatchOk(b) && OneProvider(b.matches)
    ensures Decide(latest, b) == Ignored
  {
    assert forall e :: e in b.matches + b.matches <==> e in b.matches;
  }

  // --- The journal -----------------------------------------------------------

  class Journal {
    var latest: Latest
    /** The log file. */
    var log: seq<Entry>
    ghost var steps: seq<Step>

    ghost predicate Valid()
      reads this
    {
      Execute(steps) == State(log, Some(latest))
    }

    /** Opens the journal over whatever log earlier processes left behind. */
    constructor Open(log: seq<Entry>, ghost history: seq<Step>)
      requires Execute(history) == State(log, None)
      ensures Valid() && this.log == log && steps == history + [Restart] && latest == Load(log)
    {
      latest, this.log := map[], log;
      steps := history + [Restart];
      new;
      ReadLog();
      assert steps[..|steps| - 1] == history;
    }

    method ReadLog()
      requires latest == map[]
      modifies this`latest
      ensures latest == Load(log)
    {
      for i := 0 to |log|
        invariant latest == Load(log[..i])
      {
        assert log[..i + 1][..i] == log[..i];
        latest := latest[log[i].batch.scope := log[i]];
      }
      assert log[..|log|] == log;
    }

    /** One queued append. None is an observation that changes nothing. */
    method Ingest(b: Batch) returns (verdict: Verdict)
      requires Valid()
      modifies this
      ensures Valid() && steps == old(steps) + [Step.Ingest(b)]
      ensures verdict == Decide(old(latest), b)
      ensures verdict.Accepted? ==> log == old(log) + [verdict.entry] && b.scope in latest && latest[b.scope] == verdict.entry
      ensures !verdict.Accepted? ==> log == old(log) && latest == old(latest)
    {
      verdict := Judge(b);
      if verdict.Accepted? {
        log := log + [verdict.entry];
        latest := latest[b.scope := verdict.entry];
      }
      steps := steps + [Step.Ingest(b)];
      assert steps[..|steps| - 1] == old(steps);
    }

    method Judge(b: Batch) returns (verdict: Verdict)
      ensures verdict == Decide(latest, b)
    {
      var ok := CheckBatch(b);
      if !ok { return Rejected; }
      var last := if b.scope in latest then Some(latest[b.scope]) else None;
      var mixed := Mixed(if last.Some? then last.value.batch.matches + b.matches else b.matches);
      if last.Some? && mixed { return Rejected; }
      mixed := Mixed(b.matches);
      if mixed { return Rejected; }
      if last.Some? && last.value.batch.at.Some? && b.at.value < last.value.batch.at.value { return Ignored; }
      if last.Some? && b.at == last.value.batch.at {
        return if b == last.value.batch then Ignored else Rejected;
      }
      var changes := MarketChangesOf(if last.Some? then last.value.batch.matches else [], b.matches, b.at.value, b.complete);
      if !b.complete { return Rejected; }
      verdict := Accepted(Entry(b, Snapshots(b.matches), changes));
    }
  }
}
