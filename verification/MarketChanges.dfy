/** Detailed matches with their markets, and the changes from one observation of
    them to the next (market-model.ts, market-journal.ts `marketChanges`). */
module MarketChanges {
  import opened Domain
  import opened OrderedMaps

  /** Numbers are finite; `content` stands for the fields that are only carried along. */
  datatype Selection = Selection(id: string, odds: Option<real>, line: Option<real>, suspended: Option<bool>, inPlay: Option<bool>, content: string)

  datatype Market = Market(id: string, line: Option<real>, suspended: Option<bool>, inPlay: Option<bool>,
                           fetchedAt: Option<int>, selections: seq<Selection>, content: string)

  datatype Match = Match(provider: string, eventId: string, fetchedAt: Option<int>, suspended: Option<bool>, inPlay: Option<bool>,
                         markets: seq<Market>, content: string)

  datatype Price = Price(odds: Option<real>, line: Option<real>)

  datatype Change =
    | EventAdded(key: Key, at: int, match_: Match)
    | EventRemoved(key: Key, at: int, match_: Match)
    | MarketAdded(key: Key, marketId: string, at: int, market: Market)
    | MarketRemoved(key: Key, marketId: string, at: int, market: Market)
    | MarketSuspended(key: Key, marketId: string, at: int)
    | MarketReopened(key: Key, marketId: string, at: int)
    | OddsChanged(key: Key, marketId: string, selectionId: string, at: int, before: Price, after: Price)

  function MatchKey(e: Match): Key { (e.provider, e.eventId) }

  function Or<T>(a: Option<T>, b: Option<T>): Option<T> { if a.Some? then a else b }

  // --- One market ------------------------------------------------------------

  /** First selection with the identifier. */
  function FindSelection(ss: seq<Selection>, id: string): (s: Option<Selection>)
    ensures s.Some? ==> s.value in ss && s.value.id == id
    ensures s.None? ==> forall x :: x in ss ==> x.id != id
  {
    if ss == [] then None else if ss[0].id == id then Some(ss[0]) else FindSelection(ss[1..], id)
  }

  predicate Moved(prior: Market, m: Market, p: Selection, s: Selection) {
    p.odds != s.odds || p.line != s.line || prior.line != m.line
  }

  function OddsChange(k: Key, prior: Market, m: Market, p: Selection, s: Selection, at: int): Change {
    OddsChanged(k, m.id, s.id, at, Price(p.odds, Or(p.line, prior.line)), Price(s.odds, Or(s.line, m.line)))
  }

  function SelectionChanges(k: Key, prior: Market, m: Market, ss: seq<Selection>, at: int): seq<Change> {
    if ss == [] then []
    else
      var s, p := ss[0], FindSelection(prior.selections, ss[0].id);
      (if p.Some? && Moved(prior, m, p.value, s) then [OddsChange(k, prior, m, p.value, s, at)] else [])
      + SelectionChanges(k, prior, m, ss[1..], at)
  }

  function SuspensionChanges(k: Key, prior: Market, m: Market, at: int): seq<Change> {
    if prior.suspended == Some(false) && m.suspended == Some(true) then [MarketSuspended(k, m.id, at)]
    else if prior.suspended == Some(true) && m.suspended == Some(false) then [MarketReopened(k, m.id, at)]
    else []
  }

  function MarketPair(k: Key, prior: Option<Market>, m: Market, at: int): seq<Change> {
    match prior
    case None => [MarketAdded(k, m.id, at, m)]
    case Some(q) => SuspensionChanges(k, q, m, at) + SelectionChanges(k, q, m, m.selections, at)
  }

  // --- One event -------------------------------------------------------------

  type MarketMap = seq<(string, Market)>
  type MatchMap = seq<(Key, Match)>

  function ByMarketId(ms: seq<Market>): MarketMap {
    if ms == [] then [] else Put(ByMarketId(ms[..|ms| - 1]), ms[|ms| - 1].id, ms[|ms| - 1])
  }

  function ByEvent(es: seq<Match>): MatchMap {
    if es == [] then [] else Put(ByEvent(es[..|es| - 1]), MatchKey(es[|es| - 1]), es[|es| - 1])
  }

  function MarketsGone(k: Key, prev: MarketMap, at: int): seq<Change> {
    if prev == [] then [] else [MarketRemoved(k, prev[0].0, at, prev[0].1)] + MarketsGone(k, prev[1..], at)
  }

  function MarketsFrom(k: Key, ms: seq<Market>, prev: MarketMap, at: int, complete: bool): seq<Change> {
    if ms == [] then if complete then MarketsGone(k, prev, at) else []
    else MarketPair(k, Get(prev, ms[0].id), ms[0], at) + MarketsFrom(k, ms[1..], Del(prev, ms[0].id), at, complete)
  }

  function EventPair(prev: Option<Match>, e: Match, at: int, complete: bool): seq<Change> {
    match prev
    case None => [EventAdded(MatchKey(e), at, e)] + MarketsFrom(MatchKey(e), e.markets, [], at, complete)
    case Some(o) => MarketsFrom(MatchKey(e), e.markets, ByMarketId(o.markets), at, complete)
  }

  // --- Whole observation -----------------------------------------------------

  function EventsGone(prev: MatchMap, at: int): seq<Change> {
    if prev == [] then [] else [EventRemoved(prev[0].0, at, prev[0].1)] + EventsGone(prev[1..], at)
  }

  function EventsFrom(es: seq<Match>, prev: MatchMap, at: int, complete: bool): seq<Change> {
    if es == [] then if complete then EventsGone(prev, at) else []
    else EventPair(Get(prev, MatchKey(es[0])), es[0], at, complete) + EventsFrom(es[1..], Del(prev, MatchKey(es[0])), at, complete)
  }

  function Changes(before: seq<Match>, after: seq<Match>, at: int, complete: bool): seq<Change> {
    EventsFrom(after, ByEvent(before), at, complete)
  }

  // --- The loops -------------------------------------------------------------

  method MarketChangesOf(before: seq<Match>, after: seq<Match>, at: int, complete: bool) returns (result: seq<Change>)
    ensures result == Changes(before, after, at, complete)
  {
    result := [];
    var oldEvents := EventMap(before);
    for i := 0 to |after|
      invariant result + EventsFrom(after[i..], oldEvents, at, complete) == Changes(before, after, at, complete)
    {
      var e, rest := after[i], after[i + 1..];
      assert after[i..][1..] == rest;
      var prev := Get(oldEvents, MatchKey(e));
      oldEvents := Del(oldEvents, MatchKey(e));
      var changes := EventChanges(prev, e, at, complete);
      ghost var later := EventsFrom(rest, oldEvents, at, complete);
      assert result + (changes + later) == (result + changes) + later;
      result := result + changes;
    }
    if complete {
      var gone := GoneEvents(oldEvents, at);
      result := result + gone;
    }
  }

  method GoneEvents(oldEvents: MatchMap, at: int) returns (result: seq<Change>)
    ensures result == EventsGone(oldEvents, at)
  {
    result := [];
    for j := 0 to |oldEvents|
      invariant result + EventsGone(oldEvents[j..], at) == EventsGone(oldEvents, at)
    {
      result := result + [EventRemoved(oldEvents[j].0, at, oldEvents[j].1)];
    }
  }

  method EventMap(es: seq<Match>) returns (m: MatchMap)
    ensures m == ByEvent(es)
  {
    m := [];
    for i := 0 to |es|
      invariant m == ByEvent(es[..i])
    {
      assert es[..i + 1][..i] == es[..i];
      m := Put(m, MatchKey(es[i]), es[i]);
    }
    assert es[..|es|] == es;
  }

  method MarketMapOf(ms: seq<Market>) returns (m: MarketMap)
    ensures m == ByMarketId(ms)
  {
    m := [];
    for i := 0 to |ms|
      invariant m == ByMarketId(ms[..i])
    {
      assert ms[..i + 1][..i] == ms[..i];
      m := Put(m, ms[i].id, ms[i]);
    }
    assert ms[..|ms|] == ms;
  }

  method EventChanges(prev: Option<Match>, e: Match, at: int, complete: bool) returns (result: seq<Change>)
    ensures result == EventPair(prev, e, at, complete)
  {
    var oldMarkets: MarketMap := [];
    if prev.Some? { oldMarkets := MarketMapOf(prev.value.markets); }
    result := MarketsLoop(MatchKey(e), e.markets, oldMarkets, at, complete);
    if prev.None? { result := [EventAdded(MatchKey(e), at, e)] + result; }
  }

  lemma {:induction false} MarketsStep(k: Key, ms: seq<Market>, i: nat, prev: MarketMap, at: int, complete: bool, done: seq<Change>)
    requires i < |ms|
    ensures done + MarketsFrom(k, ms[i..], prev, at, complete)
         == (done + MarketPair(k, Get(prev, ms[i].id), ms[i], at)) + MarketsFrom(k, ms[i + 1..], Del(prev, ms[i].id), at, complete)
  {
    assert ms[i..][0] == ms[i] && ms[i..][1..] == ms[i + 1..];
  }

  method MarketsLoop(k: Key, ms: seq<Market>, prev: MarketMap, at: int, complete: bool) returns (result: seq<Change>)
    ensures result == MarketsFrom(k, ms, prev, at, complete)
  {
    result := [];
    var oldMarkets := prev;
    ghost var total := MarketsFrom(k, ms, prev, at, complete);
    assert ms[0..] == ms;
    for i := 0 to |ms|
      invariant result + MarketsFrom(k, ms[i..], oldMarkets, at, complete) == total
    {
      var m := ms[i];
      MarketsStep(k, ms, i, oldMarkets, at, complete, result);
      var prior := Get(oldMarkets, m.id);
      oldMarkets := Del(oldMarkets, m.id);
      var changes := OneMarketChanges(k, prior, m, at);
      result := result + changes;
    }
    assert ms[|ms|..] == [];
    if complete {
      var gone := Gone(k, oldMarkets, at);
      result := result + gone;
    }
  }

  method OneMarketChanges(k: Key, prior: Option<Market>, m: Market, at: int) returns (result: seq<Change>)
    ensures result == MarketPair(k, prior, m, at)
  {
    if prior.None? { return [MarketAdded(k, m.id, at, m)]; }
    result := SameMarketChanges(k, prior.value, m, at);
  }

  method Gone(k: Key, oldMarkets: MarketMap, at: int) returns (result: seq<Change>)
    ensures result == MarketsGone(k, oldMarkets, at)
  {
    result := [];
    for j := 0 to |oldMarkets|
      invariant result + MarketsGone(k, oldMarkets[j..], at) == MarketsGone(k, oldMarkets, at)
    {
      result := result + [MarketRemoved(k, oldMarkets[j].0, at, oldMarkets[j].1)];
    }
  }

  method SameMarketChanges(k: Key, prior: Market, m: Market, at: int) returns (result: seq<Change>)
    ensures result == MarketPair(k, Some(prior), m, at)
  {
    result := [];
    if prior.suspended == Some(false) && m.suspended == Some(true) { result := result + [MarketSuspended(k, m.id, at)]; }
    if prior.suspended == Some(true) && m.suspended == Some(false) { result := result + [MarketReopened(k, m.id, at)]; }
    var i := 0;
    while i < |m.selections|
      invariant 0 <= i <= |m.selections|
      invariant result + SelectionChanges(k, prior, m, m.selections[i..], at) == MarketPair(k, Some(prior), m, at)
    {
      var s := m.selections[i];
      var p := FindSelection(prior.selections, s.id);
      if p.Some? && (p.value.odds != s.odds || p.value.line != s.line || prior.line != m.line) {
        result := result + [OddsChange(k, prior, m, p.value, s, at)];
      }
      i := i + 1;
    }
  }

  // --- Every index change is accounted for -----------------------------------

  /** Which events, and which markets of each, an observation lists. */
  type Index = map<Key, set<string>>

  function MarketIds(ms: seq<Market>): set<string> { set m | m in ms :: m.id }

  function IndexOf(es: seq<Match>): Index {
    if es == [] then map[] else IndexOf(es[1..])[(es[0].provider, es[0].eventId) := MarketIds(es[0].markets)]
  }

  predicate UniqueMarkets(ms: seq<Market>) {
    forall i, j :: 0 <= i < j < |ms| ==> ms[i].id != ms[j].id
  }

  predicate UniqueEvents(es: seq<Match>) {
    forall i, j :: 0 <= i < j < |es| ==> es[i].provider != es[j].provider || es[i].eventId != es[j].eventId
  }

  /** No event twice and no market twice in one event. */
  predicate Unique(es: seq<Match>) {
    UniqueEvents(es) && forall e :: e in es ==> UniqueMarkets(e.markets)
  }

  function Apply(x: Index, c: Change): Index {
    match c
    case EventAdded(k, _, _) => x[k := {}]
    case EventRemoved(k, _, _) => x - {k}
    case MarketAdded(k, id, _, _) => if k in x then x[k := x[k] + {id}] else x
    case MarketRemoved(k, id, _, _) => if k in x then x[k := x[k] - {id}] else x
    case _ => x
  }

  function Fold(x: Index, cs: seq<Change>): Index
    decreases cs
  {
    if cs == [] then x else Fold(Apply(x, cs[0]), cs[1..])
  }

  lemma {:induction false} FoldConcat(x: Index, a: seq<Change>, b: seq<Change>)
    ensures Fold(x, a + b) == Fold(Fold(x, a), b)
    decreases a
  {
    if a == [] {
      assert a + b == b;
    } else {
      assert (a + b)[0] == a[0] && (a + b)[1..] == a[1..] + b;
      FoldConcat(Apply(x, a[0]), a[1..], b);
    }
  }

  lemma {:induction false} SelectionsKeepIndex(x: Index, k: Key, prior: Market, m: Market, ss: seq<Selection>, at: int)
    ensures Fold(x, SelectionChanges(k, prior, m, ss, at)) == x
  {
    if ss != [] {
      SelectionsKeepIndex(x, k, prior, m, ss[1..], at);
      var p := FindSelection(prior.selections, ss[0].id);
      if p.Some? && Moved(prior, m, p.value, ss[0]) {
        FoldConcat(x, [OddsChange(k, prior, m, p.value, ss[0], at)], SelectionChanges(k, prior, m, ss[1..], at));
      } else {
        assert SelectionChanges(k, prior, m, ss, at) == SelectionChanges(k, prior, m, ss[1..], at);
      }
    }
  }

  lemma {:induction false} MarketPairFold(x: Index, k: Key, prior: Option<Market>, m: Market, at: int)
    requires k in x && (prior.Some? ==> m.id in x[k])
    ensures Fold(x, MarketPair(k, prior, m, at)) == x[k := x[k] + {m.id}]
  {
    if prior.Some? {
      FoldConcat(x, SuspensionChanges(k, prior.value, m, at), SelectionChanges(k, prior.value, m, m.selections, at));
      SelectionsKeepIndex(x, k, prior.value, m, m.selections, at);
      assert x[k] + {m.id} == x[k];
    }
  }

  function Ids(prev: MarketMap): set<string> { set e | e in prev :: e.0 }

  lemma {:induction false} MarketsGoneFold(x: Index, k: Key, prev: MarketMap, at: int)
    requires k in x
    ensures Fold(x, MarketsGone(k, prev, at)) == x[k := x[k] - Ids(prev)]
  {
    if prev == [] {
      assert Ids(prev) == {} && x[k] - Ids(prev) == x[k];
    } else {
      var y := x[k := x[k] - {prev[0].0}];
      MarketsGoneFold(y, k, prev[1..], at);
      assert Ids(prev) == {prev[0].0} + Ids(prev[1..]) by { assert prev == [prev[0]] + prev[1..]; }
      assert y[k] - Ids(prev[1..]) == x[k] - Ids(prev);
    }
  }

  lemma {:induction false} IdsDel(prev: MarketMap, id: string)
    ensures Ids(Del(prev, id)) == Ids(prev) - {id}
    ensures id in Ids(prev) <==> Get(prev, id).Some?
  {
    if prev != [] {
      IdsDel(prev[1..], id);
      assert prev == [prev[0]] + prev[1..];
      assert Ids(prev) == {prev[0].0} + Ids(prev[1..]);
      if prev[0].0 != id {
        assert Ids([prev[0]] + Del(prev[1..], id)) == {prev[0].0} + Ids(Del(prev[1..], id));
      }
    }
  }

  /** From an index that lists `done` and the old markets to one that lists `done`
      and the new markets. */
  lemma {:induction false} MarketsFold(x: Index, k: Key, ms: seq<Market>, prev: MarketMap, done: set<string>, at: int)
    requires k in x && x[k] == done + Ids(prev)
    requires UniqueMarkets(ms) && done !! Ids(prev) && done !! MarketIds(ms)
    ensures Fold(x, MarketsFrom(k, ms, prev, at, true)) == x[k := done + MarketIds(ms)]
  {
    if ms == [] {
      MarketsGoneFold(x, k, prev, at);
      assert x[k] - Ids(prev) == done + MarketIds(ms);
    } else {
      var m := ms[0];
      assert ms == [m] + ms[1..];
      assert MarketIds(ms) == {m.id} + MarketIds(ms[1..]);
      IdsDel(prev, m.id);
      MarketPairFold(x, k, Get(prev, m.id), m, at);
      var y := x[k := x[k] + {m.id}];
      FoldConcat(x, MarketPair(k, Get(prev, m.id), m, at), MarketsFrom(k, ms[1..], Del(prev, m.id), at, true));
      assert m.id !in MarketIds(ms[1..]);
      assert y[k] == done + {m.id} + Ids(Del(prev, m.id));
      MarketsFold(y, k, ms[1..], Del(prev, m.id), done + {m.id}, at);
      assert done + {m.id} + MarketIds(ms[1..]) == done + MarketIds(ms);
      assert y[k := done + MarketIds(ms)] == x[k := done + MarketIds(ms)];
    }
  }

  lemma {:induction false} IdsOfMarkets(ms: seq<Market>)
    ensures Ids(ByMarketId(ms)) == MarketIds(ms)
  {
    if ms != [] {
      var n := |ms| - 1;
      IdsOfMarkets(ms[..n]);
      PutIds(ByMarketId(ms[..n]), ms[n].id, ms[n]);
      assert ms == ms[..n] + [ms[n]];
    }
  }

  lemma {:induction false} PutIds(m: MarketMap, id: string, v: Market)
    ensures Ids(Put(m, id, v)) == Ids(m) + {id}
  {
    if m != [] {
      PutIds(m[1..], id, v);
      assert m == [m[0]] + m[1..];
      assert Ids(m) == {m[0].0} + Ids(m[1..]);
      if m[0].0 != id {
        assert Ids([m[0]] + Put(m[1..], id, v)) == {m[0].0} + Ids(Put(m[1..], id, v));
      } else {
        assert Ids([(id, v)] + m[1..]) == {id} + Ids(m[1..]);
      }
    }
  }

  lemma {:induction false} EventPairFold(x: Index, prev: Option<Match>, e: Match, at: int)
    requires UniqueMarkets(e.markets)
    requires prev.Some? ==> MatchKey(e) in x && x[MatchKey(e)] == MarketIds(prev.value.markets)
    ensures Fold(x, EventPair(prev, e, at, true)) == x[MatchKey(e) := MarketIds(e.markets)]
  {
    var k := MatchKey(e);
    match prev {
      case None =>
        var y := x[k := {}];
        FoldConcat(x, [EventAdded(k, at, e)], MarketsFrom(k, e.markets, [], at, true));
        assert Fold(x, [EventAdded(k, at, e)]) == y;
        MarketsFold(y, k, e.markets, [], {}, at);
        assert {} + MarketIds(e.markets) == MarketIds(e.markets);
      case Some(o) =>
        IdsOfMarkets(o.markets);
        assert x[k] == {} + Ids(ByMarketId(o.markets));
        MarketsFold(x, k, e.markets, ByMarketId(o.markets), {}, at);
        assert {} + MarketIds(e.markets) == MarketIds(e.markets);
    }
  }

  /** The index lists the remaining old events as they were. */
  ghost predicate Lists(x: Index, prev: MatchMap) {
    forall k :: Get(prev, k).Some? ==> k in x && x[k] == MarketIds(Get(prev, k).value.markets)
  }

  function Keys(prev: MatchMap): set<Key> { set e | e in prev :: e.0 }

  lemma {:induction false} HasKeys(prev: MatchMap, k: Key)
    ensures k in Keys(prev) <==> Get(prev, k).Some?
  {
    GetHas(prev, k);
    if Has(prev, k) {
      var i :| 0 <= i < |prev| && prev[i].0 == k;
      assert prev[i] in prev;
    }
  }

  lemma {:induction false} EventsGoneFold(x: Index, prev: MatchMap, at: int)
    ensures Fold(x, EventsGone(prev, at)) == x - Keys(prev)
  {
    if prev == [] {
      assert Keys(prev) == {} && x - Keys(prev) == x;
    } else {
      EventsGoneFold(x - {prev[0].0}, prev[1..], at);
      assert prev == [prev[0]] + prev[1..];
      assert Keys(prev) == {prev[0].0} + Keys(prev[1..]);
      assert x - {prev[0].0} - Keys(prev[1..]) == x - Keys(prev);
    }
  }

  lemma {:induction false} IndexKeys(es: seq<Match>)
    ensures forall k :: k in IndexOf(es) <==> exists i :: 0 <= i < |es| && MatchKey(es[i]) == k
  {
    if es != [] {
      IndexKeys(es[1..]);
      forall k ensures k in IndexOf(es) <==> exists i :: 0 <= i < |es| && MatchKey(es[i]) == k {
        if i :| 0 <= i < |es| && MatchKey(es[i]) == k {
          if i > 0 { assert MatchKey(es[1..][i - 1]) == k; }
        }
        if k in IndexOf(es[1..]) {
          var j :| 0 <= j < |es[1..]| && MatchKey(es[1..][j]) == k;
          assert MatchKey(es[j + 1]) == k;
        }
      }
    }
  }

  /** One event compared: its old entry is done with and its new markets listed. */
  lemma {:induction false} RestLists(x: Index, prev: MatchMap, k: Key, ids: set<string>)
    requires Lists(x, prev)
    ensures Lists(x[k := ids], Del(prev, k)) && Keys(Del(prev, k)) == Keys(prev) - {k}
  {
    forall j | Get(Del(prev, k), j).Some?
      ensures j in x[k := ids] && x[k := ids][j] == MarketIds(Get(Del(prev, k), j).value.markets)
    {
      GetDel(prev, k, j);
    }
    forall j ensures j in Keys(Del(prev, k)) <==> j in Keys(prev) - {k} {
      HasKeys(Del(prev, k), j);
      HasKeys(prev, j);
      GetDel(prev, k, j);
    }
  }

  lemma {:induction false} EventsFold(x: Index, es: seq<Match>, prev: MatchMap, at: int)
    requires Unique(es) && Lists(x, prev)
    ensures Fold(x, EventsFrom(es, prev, at, true)) == (x - Keys(prev)) + IndexOf(es)
    decreases es
  {
    if es == [] {
      EventsGoneFold(x, prev, at);
    } else {
      var e, k := es[0], MatchKey(es[0]);
      var rest, ids := Del(prev, k), MarketIds(e.markets);
      assert e in es;
      EventPairFold(x, Get(prev, k), e, at);
      FoldConcat(x, EventPair(Get(prev, k), e, at, true), EventsFrom(es[1..], rest, at, true));
      RestLists(x, prev, k, ids);
      EventsFold(x[k := ids], es[1..], rest, at);
      FirstIndexed(x, es, Keys(prev));
    }
  }

  lemma {:induction false} FirstIndexed(x: Index, es: seq<Match>, ks: set<Key>)
    requires UniqueEvents(es) && es != []
    ensures var k, ids := MatchKey(es[0]), MarketIds(es[0].markets);
            (x[k := ids] - (ks - {k})) + IndexOf(es[1..]) == (x - ks) + IndexOf(es)
  {
    IndexKeys(es[1..]);
    assert MatchKey(es[0]) !in IndexOf(es[1..]);
  }

  lemma {:induction false} OldLists(es: seq<Match>)
    requires UniqueEvents(es)
    ensures forall k :: Get(ByEvent(es), k).Some? <==> k in IndexOf(es)
    ensures Lists(IndexOf(es), ByEvent(es))
  {
    IndexKeys(es);
    forall k
      ensures Get(ByEvent(es), k).Some? <==> k in IndexOf(es)
      ensures Get(ByEvent(es), k).Some? ==> k in IndexOf(es) && IndexOf(es)[k] == MarketIds(Get(ByEvent(es), k).value.markets)
    {
      if i :| 0 <= i < |es| && MatchKey(es[i]) == k {
        GetByEvent(es, i);
        IndexAt(es, i);
      } else {
        GetByEventNone(es, k);
      }
    }
  }

  lemma {:induction false} GetByEvent(es: seq<Match>, i: nat)
    requires UniqueEvents(es) && i < |es|
    ensures Get(ByEvent(es), MatchKey(es[i])) == Some(es[i])
  {
    var n := |es| - 1;
    GetPut(ByEvent(es[..n]), MatchKey(es[n]), es[n], MatchKey(es[i]));
    if i < n { GetByEvent(es[..n], i); }
  }

  lemma {:induction false} GetByEventNone(es: seq<Match>, k: Key)
    requires forall i :: 0 <= i < |es| ==> MatchKey(es[i]) != k
    ensures Get(ByEvent(es), k) == None
  {
    if es != [] {
      var n := |es| - 1;
      GetByEventNone(es[..n], k);
      GetPut(ByEvent(es[..n]), MatchKey(es[n]), es[n], k);
    }
  }

  lemma {:induction false} IndexAt(es: seq<Match>, i: nat)
    requires UniqueEvents(es) && i < |es|
    ensures MatchKey(es[i]) in IndexOf(es) && IndexOf(es)[MatchKey(es[i])] == MarketIds(es[i].markets)
  {
    if i > 0 { IndexAt(es[1..], i - 1); }
  }

  /** Between two complete, duplicate-free observations the additions and removals
      turn the one's events and markets into exactly the other's. */
  lemma {:induction false} ChangesAccountForIndex(before: seq<Match>, after: seq<Match>, at: int)
    requires UniqueEvents(before) && Unique(after)
    ensures Fold(IndexOf(before), Changes(before, after, at, true)) == IndexOf(after)
  {
    OldLists(before);
    EventsFold(IndexOf(before), after, ByEvent(before), at);
    forall k ensures k in Keys(ByEvent(before)) <==> k in IndexOf(before) {
      HasKeys(ByEvent(before), k);
    }
    assert IndexOf(before) - Keys(ByEvent(before)) == map[];
  }

  // --- Every change is warranted, and every warranted change is reported -----

  /** The change is the price move of selection s from p: a line a selection does not
      state is its market's. */
  predicate Repriced(c: Change, k: Key, prior: Market, m: Market, p: Selection, s: Selection, at: int) {
    && (p.odds != s.odds || p.line != s.line || prior.line != m.line)
    && c.OddsChanged? && c.key == k && c.marketId == m.id && c.selectionId == s.id && c.at == at
    && c.before.odds == p.odds && c.after.odds == s.odds
    && c.before.line == (if p.line.Some? then p.line else prior.line)
    && c.after.line == (if s.line.Some? then s.line else m.line)
  }

  /** p is the first selection with the identifier. */
  predicate Finds(ss: seq<Selection>, id: string, p: Selection) {
    exists i :: 0 <= i < |ss| && ss[i] == p && p.id == id && forall j :: 0 <= j < i ==> ss[j].id != id
  }

  predicate SelectionWarrants(c: Change, k: Key, prior: Market, m: Market, s: Selection, at: int) {
    exists p :: p in prior.selections && Finds(prior.selections, s.id, p) && Repriced(c, k, prior, m, p, s, at)
  }

  /** A listed market is new, or was suspended, reopened or repriced. */
  predicate MarketWarrants(c: Change, k: Key, prior: Option<Market>, m: Market, at: int) {
    match prior
    case None => c == MarketAdded(k, m.id, at, m)
    case Some(q) =>
      || (q.suspended == Some(false) && m.suspended == Some(true) && c == MarketSuspended(k, m.id, at))
      || (q.suspended == Some(true) && m.suspended == Some(false) && c == MarketReopened(k, m.id, at))
      || exists s :: s in m.selections && SelectionWarrants(c, k, q, m, s, at)
  }

  function LastMarket(ms: seq<Market>, id: string): (m: Option<Market>)
    ensures m.Some? ==> exists i :: 0 <= i < |ms| && ms[i] == m.value && m.value.id == id && forall j :: i < j < |ms| ==> ms[j].id != id
    ensures m.None? ==> forall x :: x in ms ==> x.id != id
  {
    if ms == [] then None else if ms[|ms| - 1].id == id then Some(ms[|ms| - 1]) else LastMarket(ms[..|ms| - 1], id)
  }

  function LastMatch(es: seq<Match>, k: Key): (e: Option<Match>)
    ensures e.Some? ==> exists i :: 0 <= i < |es| && es[i] == e.value && (e.value.provider, e.value.eventId) == k
                                    && forall j :: i < j < |es| ==> (es[j].provider, es[j].eventId) != k
    ensures e.None? ==> forall x :: x in es ==> (x.provider, x.eventId) != k
  {
    if es == [] then None
    else if (es[|es| - 1].provider, es[|es| - 1].eventId) == k then Some(es[|es| - 1])
    else LastMatch(es[..|es| - 1], k)
  }

  /** What listed market i is compared with: a repeated identifier has no predecessor. */
  function PriorMarket(prev: seq<Market>, ms: seq<Market>, i: nat): Option<Market>
    requires i < |ms|
  {
    if exists j :: 0 <= j < i && ms[j].id == ms[i].id then None else LastMarket(prev, ms[i].id)
  }

  function PriorMatch(before: seq<Match>, after: seq<Match>, i: nat): Option<Match>
    requires i < |after|
  {
    if exists j :: 0 <= j < i && after[j].provider == after[i].provider && after[j].eventId == after[i].eventId then None
    else LastMatch(before, (after[i].provider, after[i].eventId))
  }

  predicate MarketLost(c: Change, k: Key, prev: seq<Market>, ms: seq<Market>, at: int) {
    && c.MarketRemoved? && c.key == k && c.at == at && LastMarket(prev, c.marketId) == Some(c.market)
    && forall m :: m in ms ==> m.id != c.marketId
  }

  /** A listed event is new, one of its markets warrants the change, or one is gone. */
  predicate EventWarrants(c: Change, prev: Option<Match>, e: Match, at: int) {
    var k, markets := (e.provider, e.eventId), if prev.Some? then prev.value.markets else [];
    || (prev.None? && c == EventAdded(k, at, e))
    || (exists i :: 0 <= i < |e.markets| && MarketWarrants(c, k, PriorMarket(markets, e.markets, i), e.markets[i], at))
    || MarketLost(c, k, markets, e.markets, at)
  }

  predicate EventLost(c: Change, before: seq<Match>, after: seq<Match>, at: int) {
    && c.EventRemoved? && c.at == at && LastMatch(before, c.key) == Some(c.match_)
    && forall e :: e in after ==> (e.provider, e.eventId) != c.key
  }

  predicate Warranted(c: Change, before: seq<Match>, after: seq<Match>, at: int) {
    || (exists i :: 0 <= i < |after| && EventWarrants(c, PriorMatch(before, after, i), after[i], at))
    || EventLost(c, before, after, at)
  }

  lemma {:induction false} FindMeans(ss: seq<Selection>, id: string, p: Selection)
    ensures FindSelection(ss, id) == Some(p) <==> Finds(ss, id, p)
  {
    if ss != [] && ss[0].id != id {
      FindMeans(ss[1..], id, p);
      if i :| 0 <= i < |ss| && ss[i] == p && p.id == id && forall j :: 0 <= j < i ==> ss[j].id != id {
        assert ss[1..][i - 1] == p;
      }
      if i :| 0 <= i < |ss[1..]| && ss[1..][i] == p && p.id == id && forall j :: 0 <= j < i ==> ss[1..][j].id != id {
        assert ss[i + 1] == p;
        assert forall j :: 0 < j < i + 1 ==> ss[j] == ss[1..][j - 1];
      }
    }
  }

  lemma {:induction false} SelectionExact(c: Change, k: Key, prior: Market, m: Market, s: Selection, at: int)
    ensures SelectionWarrants(c, k, prior, m, s, at)
       <==> var p := FindSelection(prior.selections, s.id);
            p.Some? && Moved(prior, m, p.value, s) && c == OddsChange(k, prior, m, p.value, s, at)
  {
    forall p: Selection ensures FindSelection(prior.selections, s.id) == Some(p) <==> Finds(prior.selections, s.id, p) {
      FindMeans(prior.selections, s.id, p);
    }
  }

  lemma {:induction false} SelectionsExact(c: Change, k: Key, prior: Market, m: Market, ss: seq<Selection>, at: int)
    ensures c in SelectionChanges(k, prior, m, ss, at) <==> exists s :: s in ss && SelectionWarrants(c, k, prior, m, s, at)
  {
    if ss != [] {
      SelectionsExact(c, k, prior, m, ss[1..], at);
      SelectionExact(c, k, prior, m, ss[0], at);
      forall s ensures s in ss <==> s == ss[0] || s in ss[1..] { assert ss == [ss[0]] + ss[1..]; }
      assert c in SelectionChanges(k, prior, m, ss, at)
        <==> SelectionWarrants(c, k, prior, m, ss[0], at) || c in SelectionChanges(k, prior, m, ss[1..], at);
    }
  }

  lemma {:induction false} MarketPairExact(c: Change, k: Key, prior: Option<Market>, m: Market, at: int)
    ensures c in MarketPair(k, prior, m, at) <==> MarketWarrants(c, k, prior, m, at)
  {
    if prior.Some? { SelectionsExact(c, k, prior.value, m, m.selections, at); }
  }

  lemma {:induction false} MarketsGoneExact(c: Change, k: Key, prev: MarketMap, at: int)
    requires Distinct(prev)
    ensures c in MarketsGone(k, prev, at) <==> c.MarketRemoved? && c.key == k && c.at == at && Get(prev, c.marketId) == Some(c.market)
  {
    if prev != [] {
      DistinctTail(prev);
      MarketsGoneExact(c, k, prev[1..], at);
    }
  }

  /** What the walk compares listed market i with, given the old markets left. */
  function LeftMarket(prev: MarketMap, ms: seq<Market>, i: nat): Option<Market>
    requires i < |ms|
  {
    if exists j :: 0 <= j < i && ms[j].id == ms[i].id then None else Get(prev, ms[i].id)
  }

  ghost predicate WalkWarrants(c: Change, k: Key, ms: seq<Market>, prev: MarketMap, at: int) {
    || (exists i :: 0 <= i < |ms| && MarketWarrants(c, k, LeftMarket(prev, ms, i), ms[i], at))
    || (c.MarketRemoved? && c.key == k && c.at == at && (forall m :: m in ms ==> m.id != c.marketId)
        && Get(prev, c.marketId) == Some(c.market))
  }

  lemma {:induction false} LeftStep(prev: MarketMap, ms: seq<Market>, i: nat)
    requires i + 1 < |ms|
    ensures LeftMarket(Del(prev, ms[0].id), ms[1..], i) == LeftMarket(prev, ms, i + 1)
  {
    GetDel(prev, ms[0].id, ms[i + 1].id);
    if j :| 0 <= j < i + 1 && ms[j].id == ms[i + 1].id && j > 0 { assert ms[1..][j - 1] == ms[j]; }
    if j :| 0 <= j < i && ms[1..][j].id == ms[1..][i].id { assert ms[j + 1].id == ms[i + 1].id; }
  }

  lemma {:induction false} WalkStep(c: Change, k: Key, ms: seq<Market>, prev: MarketMap, at: int)
    requires ms != []
    ensures WalkWarrants(c, k, ms, prev, at)
       <==> MarketWarrants(c, k, Get(prev, ms[0].id), ms[0], at) || WalkWarrants(c, k, ms[1..], Del(prev, ms[0].id), at)
  {
    var rest, tail := Del(prev, ms[0].id), ms[1..];
    forall i | 0 <= i < |tail| ensures tail[i] == ms[i + 1] && LeftMarket(rest, tail, i) == LeftMarket(prev, ms, i + 1) {
      LeftStep(prev, ms, i);
    }
    assert LeftMarket(prev, ms, 0) == Get(prev, ms[0].id);
    assert (exists i :: 0 <= i < |ms| && MarketWarrants(c, k, LeftMarket(prev, ms, i), ms[i], at))
      <==> MarketWarrants(c, k, Get(prev, ms[0].id), ms[0], at)
           || exists i :: 0 <= i < |tail| && MarketWarrants(c, k, LeftMarket(rest, tail, i), tail[i], at) by {
      assert forall i :: 0 < i < |ms| ==> ms[i] == tail[i - 1] && LeftMarket(prev, ms, i) == LeftMarket(rest, tail, i - 1);
    }
    if c.MarketRemoved? { GetDel(prev, ms[0].id, c.marketId); }
    assert ms == [ms[0]] + tail;
  }

  lemma {:induction false} MarketsExact(c: Change, k: Key, ms: seq<Market>, prev: MarketMap, at: int)
    requires Distinct(prev)
    ensures c in MarketsFrom(k, ms, prev, at, true) <==> WalkWarrants(c, k, ms, prev, at)
  {
    if ms == [] {
      MarketsGoneExact(c, k, prev, at);
    } else {
      var rest := Del(prev, ms[0].id);
      DelDistinct(prev, ms[0].id);
      MarketPairExact(c, k, Get(prev, ms[0].id), ms[0], at);
      MarketsExact(c, k, ms[1..], rest, at);
      WalkStep(c, k, ms, prev, at);
    }
  }

  lemma {:induction false} GetByMarketId(ms: seq<Market>, id: string)
    ensures Get(ByMarketId(ms), id) == LastMarket(ms, id) && Distinct(ByMarketId(ms))
  {
    if ms != [] {
      var n := |ms| - 1;
      GetByMarketId(ms[..n], id);
      GetPut(ByMarketId(ms[..n]), ms[n].id, ms[n], id);
      PutDistinct(ByMarketId(ms[..n]), ms[n].id, ms[n]);
    }
  }

  lemma {:induction false} EventFound(es: seq<Match>, k: Key)
    ensures Get(ByEvent(es), k) == LastMatch(es, k) && Distinct(ByEvent(es))
  {
    if es != [] {
      var n := |es| - 1;
      EventFound(es[..n], k);
      GetPut(ByEvent(es[..n]), MatchKey(es[n]), es[n], k);
      PutDistinct(ByEvent(es[..n]), MatchKey(es[n]), es[n]);
    }
  }

  lemma {:induction false} EventMarketsExact(c: Change, k: Key, prev: seq<Market>, ms: seq<Market>, at: int)
    ensures c in MarketsFrom(k, ms, ByMarketId(prev), at, true)
       <==> (exists i :: 0 <= i < |ms| && MarketWarrants(c, k, PriorMarket(prev, ms, i), ms[i], at)) || MarketLost(c, k, prev, ms, at)
  {
    GetByMarketId(prev, "");
    forall id ensures Get(ByMarketId(prev), id) == LastMarket(prev, id) { GetByMarketId(prev, id); }
    assert forall i :: 0 <= i < |ms| ==> LeftMarket(ByMarketId(prev), ms, i) == PriorMarket(prev, ms, i);
    MarketsExact(c, k, ms, ByMarketId(prev), at);
  }

  lemma {:induction false} EventPairExact(c: Change, prev: Option<Match>, e: Match, at: int)
    ensures c in EventPair(prev, e, at, true) <==> EventWarrants(c, prev, e, at)
  {
    assert ByMarketId([]) == [];
    EventMarketsExact(c, MatchKey(e), if prev.Some? then prev.value.markets else [], e.markets, at);
  }

  lemma {:induction false} EventsGoneExact(c: Change, prev: MatchMap, at: int)
    requires Distinct(prev)
    ensures c in EventsGone(prev, at) <==> c.EventRemoved? && c.at == at && Get(prev, c.key) == Some(c.match_)
  {
    if prev != [] {
      DistinctTail(prev);
      EventsGoneExact(c, prev[1..], at);
    }
  }

  function LeftMatch(prev: MatchMap, es: seq<Match>, i: nat): Option<Match>
    requires i < |es|
  {
    if exists j :: 0 <= j < i && es[j].provider == es[i].provider && es[j].eventId == es[i].eventId then None
    else Get(prev, (es[i].provider, es[i].eventId))
  }

  ghost predicate ListedWarrants(c: Change, es: seq<Match>, prev: MatchMap, at: int) {
    exists i :: 0 <= i < |es| && EventWarrants(c, LeftMatch(prev, es, i), es[i], at)
  }

  ghost predicate RoundWarrants(c: Change, es: seq<Match>, prev: MatchMap, at: int) {
    || ListedWarrants(c, es, prev, at)
    || (c.EventRemoved? && c.at == at && (forall e :: e in es ==> (e.provider, e.eventId) != c.key)
        && Get(prev, c.key) == Some(c.match_))
  }

  lemma {:induction false} LeftMatchStep(prev: MatchMap, es: seq<Match>, i: nat)
    requires i + 1 < |es|
    ensures LeftMatch(Del(prev, MatchKey(es[0])), es[1..], i) == LeftMatch(prev, es, i + 1)
  {
    GetDel(prev, MatchKey(es[0]), MatchKey(es[i + 1]));
    if j :| 0 <= j < i + 1 && MatchKey(es[j]) == MatchKey(es[i + 1]) && j > 0 { assert es[1..][j - 1] == es[j]; }
    if j :| 0 <= j < i && MatchKey(es[1..][j]) == MatchKey(es[1..][i]) { assert MatchKey(es[j + 1]) == MatchKey(es[i + 1]); }
  }

  lemma {:induction false} ListedStep(c: Change, es: seq<Match>, prev: MatchMap, at: int)
    requires es != []
    ensures ListedWarrants(c, es, prev, at)
       <==> EventWarrants(c, Get(prev, MatchKey(es[0])), es[0], at) || ListedWarrants(c, es[1..], Del(prev, MatchKey(es[0])), at)
  {
    var rest, tail := Del(prev, MatchKey(es[0])), es[1..];
    assert LeftMatch(prev, es, 0) == Get(prev, MatchKey(es[0]));
    if i :| 0 <= i < |es| && EventWarrants(c, LeftMatch(prev, es, i), es[i], at) && i > 0 {
      LeftMatchStep(prev, es, i - 1);
      assert EventWarrants(c, LeftMatch(rest, tail, i - 1), tail[i - 1], at);
    }
    if i :| 0 <= i < |tail| && EventWarrants(c, LeftMatch(rest, tail, i), tail[i], at) {
      LeftMatchStep(prev, es, i);
      assert EventWarrants(c, LeftMatch(prev, es, i + 1), es[i + 1], at);
    }
  }

  lemma {:induction false} RoundStep(c: Change, es: seq<Match>, prev: MatchMap, at: int)
    requires es != []
    ensures RoundWarrants(c, es, prev, at)
       <==> EventWarrants(c, Get(prev, MatchKey(es[0])), es[0], at) || RoundWarrants(c, es[1..], Del(prev, MatchKey(es[0])), at)
  {
    ListedStep(c, es, prev, at);
    if c.EventRemoved? { GetDel(prev, MatchKey(es[0]), c.key); }
    assert es == [es[0]] + es[1..];
  }

  lemma {:induction false} EventsExact(c: Change, es: seq<Match>, prev: MatchMap, at: int)
    requires Distinct(prev)
    ensures c in EventsFrom(es, prev, at, true) <==> RoundWarrants(c, es, prev, at)
    decreases es
  {
    if es == [] {
      EventsGoneExact(c, prev, at);
    } else {
      var rest := Del(prev, MatchKey(es[0]));
      DelDistinct(prev, MatchKey(es[0]));
      EventPairExact(c, Get(prev, MatchKey(es[0])), es[0], at);
      EventsExact(c, es[1..], rest, at);
      RoundStep(c, es, prev, at);
    }
  }

  /** A complete diff reports exactly the warranted changes, duplicates or not. */
  lemma {:induction false} ChangesExact(c: Change, before: seq<Match>, after: seq<Match>, at: int)
    ensures c in Changes(before, after, at, true) <==> Warranted(c, before, after, at)
  {
    var prev := ByEvent(before);
    EventFound(before, ("", ""));
    forall k ensures Get(prev, k) == LastMatch(before, k) { EventFound(before, k); }
    assert forall i :: 0 <= i < |after| ==> LeftMatch(prev, after, i) == PriorMatch(before, after, i);
    EventsExact(c, after, prev, at);
  }

  /** What the diff does not show: a surviving market is silent iff its suspension
      did not flip between true and false and no selection it kept was repriced. A
      suspension that passes through null, and selections added or dropped, are not
      reported. */
  lemma {:induction false} SilentIff(k: Key, prior: Market, m: Market, at: int)
    ensures MarketPair(k, Some(prior), m, at) == []
       <==> && (prior.suspended.None? || m.suspended.None? || prior.suspended == m.suspended)
            && KeptPrices(prior, m, m.selections)
  {
    SilentSelections(k, prior, m, m.selections, at);
    var a, b := SuspensionChanges(k, prior, m, at), SelectionChanges(k, prior, m, m.selections, at);
    assert |a + b| == |a| + |b|;
    if prior.suspended.Some? && m.suspended.Some? {
      var x: bool, y: bool := prior.suspended.value, m.suspended.value;
      assert prior.suspended == Some(x) && m.suspended == Some(y);
      assert a == [] <==> x == y;
    }
    assert MarketPair(k, Some(prior), m, at) == a + b;
  }

  predicate KeptPrices(prior: Market, m: Market, ss: seq<Selection>) {
    forall s, p :: s in ss && p in prior.selections && Finds(prior.selections, s.id, p) ==>
      p.odds == s.odds && p.line == s.line && prior.line == m.line
  }

  lemma {:induction false} SilentSelections(k: Key, prior: Market, m: Market, ss: seq<Selection>, at: int)
    ensures SelectionChanges(k, prior, m, ss, at) == [] <==> KeptPrices(prior, m, ss)
  {
    if ss != [] {
      SilentSelections(k, prior, m, ss[1..], at);
      assert ss == [ss[0]] + ss[1..];
      forall p: Selection ensures FindSelection(prior.selections, ss[0].id) == Some(p) <==> Finds(prior.selections, ss[0].id, p) {
        FindMeans(prior.selections, ss[0].id, p);
      }
    }
  }
}
