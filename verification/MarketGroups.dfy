/** Which markets are compared with each other, and which prices count, in terms of the
    providers' own listings (market-analytics.ts). */
module MarketGroups {
  import opened Domain
  import opened OrderedMaps
  import opened MarketAnalytics

  // --- Grouping --------------------------------------------------------------

  /** A winner market of the match or of one of its first three maps, in good health. */
  predicate Counts(m: Market) {
    m.healthy && (m.category == "match_winner" || (m.category == "map_winner" && m.mapNumber in {Some(1), Some(2), Some(3)}))
  }

  /** Two markets ask the same question. */
  predicate Alike(a: Market, b: Market) {
    a.category == b.category && a.mapNumber == b.mapNumber && a.period == b.period && a.line == b.line
  }

  /** The counting markets of one provider, in order. */
  function OfProvider(name: string, ms: seq<Market>): seq<Entry> {
    if ms == [] then []
    else
      var n := |ms| - 1;
      if Counts(ms[n]) then OfProvider(name, ms[..n]) + [Entry(ms[n], name)] else OfProvider(name, ms[..n])
  }

  /** The counting markets of all healthy providers, in order. */
  function Offers(ps: seq<Provider>): seq<Entry> {
    if ps == [] then []
    else
      var n := |ps| - 1;
      if ps[n].healthy then Offers(ps[..n]) + OfProvider(ps[n].name, ps[n].markets) else Offers(ps[..n])
  }

  /** Those that ask the same question as m, in order. */
  function Same(es: seq<Entry>, m: Market): seq<Entry> {
    if es == [] then []
    else
      var n := |es| - 1;
      if Alike(es[n].market, m) then Same(es[..n], m) + [es[n]] else Same(es[..n], m)
  }

  lemma {:induction false} OffersHave(ps: seq<Provider>, e: Entry)
    ensures e in Offers(ps) <==> exists i :: 0 <= i < |ps| && ps[i].healthy && ps[i].name == e.provider && e.market in ps[i].markets && Counts(e.market)
  {
    if ps != [] {
      var n := |ps| - 1;
      OffersHave(ps[..n], e);
      OfProviderHas(ps[n].name, ps[n].markets, e);
      if i :| 0 <= i < |ps[..n]| && ps[..n][i].healthy && ps[..n][i].name == e.provider && e.market in ps[..n][i].markets && Counts(e.market) {
        assert ps[i] == ps[..n][i];
      }
      if i :| 0 <= i < |ps| && ps[i].healthy && ps[i].name == e.provider && e.market in ps[i].markets && Counts(e.market) {
        assert i < n ==> ps[..n][i] == ps[i];
      }
    }
  }

  lemma {:induction false} OfProviderHas(name: string, ms: seq<Market>, e: Entry)
    ensures e in OfProvider(name, ms) <==> e.provider == name && e.market in ms && Counts(e.market)
  {
    if ms != [] {
      var n := |ms| - 1;
      OfProviderHas(name, ms[..n], e);
      assert ms == ms[..n] + [ms[n]];
      assert e == Entry(e.market, e.provider);
    }
  }

  lemma {:induction false} SameHas(es: seq<Entry>, m: Market, e: Entry)
    ensures e in Same(es, m) <==> e in es && Alike(e.market, m)
  {
    if es != [] {
      var n := |es| - 1;
      SameHas(es[..n], m, e);
      assert es == es[..n] + [es[n]];
    }
  }

  lemma {:induction false} SameAlike(es: seq<Entry>, a: Market, b: Market)
    requires Alike(a, b)
    ensures Same(es, a) == Same(es, b)
  {
    if es != [] { SameAlike(es[..|es| - 1], a, b); }
  }

  lemma {:induction false} SameConcat(es: seq<Entry>, fs: seq<Entry>, m: Market)
    ensures Same(es + fs, m) == Same(es, m) + Same(fs, m)
  {
    if fs == [] {
      assert es + fs == es;
    } else {
      var n := |fs| - 1;
      SameConcat(es, fs[..n], m);
      assert (es + fs)[..|es + fs| - 1] == es + fs[..n];
    }
  }

  /** The groups hold exactly these entries, each under its own question. */
  ghost predicate Holds(gs: Groups, es: seq<Entry>) {
    && Distinct(gs)
    && (forall m: Market {:trigger KeyOfMarket(m)} :: Entries(gs, KeyOfMarket(m)) == Same(es, m))
    && forall k :: Get(gs, k).Some? ==> exists e :: e in es && KeyOfMarket(e.market) == k
  }

  lemma {:induction false} AlikeKeys(a: Market, b: Market)
    ensures KeyOfMarket(a) == KeyOfMarket(b) <==> Alike(a, b)
  {
  }

  lemma {:induction false} CountsIff(m: Market)
    ensures Usable(m) <==> Counts(m)
  {
  }

  lemma {:induction false} HoldsMore(gs: Groups, es: seq<Entry>, e: Entry)
    requires Holds(gs, es)
    ensures Holds(Put(gs, KeyOfMarket(e.market), Entries(gs, KeyOfMarket(e.market)) + [e]), es + [e])
  {
    var k, next := KeyOfMarket(e.market), Put(gs, KeyOfMarket(e.market), Entries(gs, KeyOfMarket(e.market)) + [e]);
    PutDistinct(gs, k, Entries(gs, k) + [e]);
    forall m: Market ensures Entries(next, KeyOfMarket(m)) == Same(es + [e], m) {
      GetPut(gs, k, Entries(gs, k) + [e], KeyOfMarket(m));
      AlikeKeys(e.market, m);
      SameConcat(es, [e], m);
      assert Same([e], m) == if Alike(e.market, m) then [e] else [];
      assert Entries(gs, KeyOfMarket(m)) == Same(es, m);
    }
    forall j | Get(next, j).Some? ensures exists f :: f in es + [e] && KeyOfMarket(f.market) == j {
      GetPut(gs, k, Entries(gs, k) + [e], j);
      if j == k {
        assert e in es + [e];
      } else {
        var f :| f in es && KeyOfMarket(f.market) == j;
        assert f in es + [e];
      }
    }
  }

  lemma {:induction false} AddHolds(gs: Groups, es: seq<Entry>, provider: string, ms: seq<Market>)
    requires Holds(gs, es)
    ensures Holds(AddMarkets(gs, provider, ms), es + OfProvider(provider, ms))
  {
    if ms == [] {
      assert es + [] == es;
    } else {
      var n := |ms| - 1;
      AddHolds(gs, es, provider, ms[..n]);
      CountsIff(ms[n]);
      if Counts(ms[n]) {
        HoldsMore(AddMarkets(gs, provider, ms[..n]), es + OfProvider(provider, ms[..n]), Entry(ms[n], provider));
        assert es + OfProvider(provider, ms) == (es + OfProvider(provider, ms[..n])) + [Entry(ms[n], provider)];
      }
    }
  }

  lemma {:induction false} GroupHolds(ps: seq<Provider>)
    ensures Holds(GroupAll(ps), Offers(ps))
  {
    if ps != [] {
      var n := |ps| - 1;
      GroupHolds(ps[..n]);
      AddHolds(GroupAll(ps[..n]), Offers(ps[..n]), ps[n].name, ps[n].markets);
    }
  }

  /** A group is all the counting entries that ask its question. */
  ghost predicate IsQuestion(g: seq<Entry>, es: seq<Entry>) { g != [] && g == Same(es, g[0].market) }

  lemma {:induction false} GroupIsQuestion(gs: Groups, es: seq<Entry>, i: nat)
    requires Holds(gs, es) && i < |gs|
    ensures IsQuestion(gs[i].1, es) && gs[i].0 == KeyOfMarket(gs[i].1[0].market)
  {
    EntryGet(gs, gs[i].0, gs[i].1);
    assert gs[i] == (gs[i].0, gs[i].1) && gs[i] in gs;
    var e :| e in es && KeyOfMarket(e.market) == gs[i].0;
    var g := Same(es, e.market);
    assert Entries(gs, KeyOfMarket(e.market)) == g;
    assert Alike(e.market, e.market);
    SameHas(es, e.market, e);
    assert g[0] in g;
    SameHas(es, e.market, g[0]);
    SameAlike(es, g[0].market, e.market);
    AlikeKeys(g[0].market, e.market);
  }

  lemma {:induction false} GroupsDiffer(gs: Groups, es: seq<Entry>, i: nat, j: nat)
    requires Holds(gs, es) && i < |gs| && j < |gs| && i != j
    ensures gs[i].1 != [] && gs[j].1 != [] && !Alike(gs[i].1[0].market, gs[j].1[0].market)
  {
    GroupIsQuestion(gs, es, i);
    GroupIsQuestion(gs, es, j);
    AlikeKeys(gs[i].1[0].market, gs[j].1[0].market);
    assert gs[i].0 != gs[j].0;
  }

  /** The entries, split by what they ask: every group is all the entries of one question
      in listing order, different groups ask different questions, and every entry is in
      one. */
  ghost predicate SplitByQuestion(gs: Groups, es: seq<Entry>) {
    && (forall i :: 0 <= i < |gs| ==> IsQuestion(gs[i].1, es))
    && (forall i, j :: 0 <= i < |gs| && 0 <= j < |gs| && i != j ==> !Alike(gs[i].1[0].market, gs[j].1[0].market))
    && forall e :: e in es ==> exists i :: 0 <= i < |gs| && e in gs[i].1
  }

  /** The counting markets of healthy providers are split by what they ask. */
  lemma {:induction false} GroupsMean(ps: seq<Provider>)
    ensures SplitByQuestion(GroupAll(ps), Offers(ps))
  {
    GroupHolds(ps);
    HoldsSplit(GroupAll(ps), Offers(ps));
  }

  lemma {:induction false} HoldsSplit(gs: Groups, es: seq<Entry>)
    requires Holds(gs, es)
    ensures SplitByQuestion(gs, es)
  {
    forall i | 0 <= i < |gs| ensures IsQuestion(gs[i].1, es) { GroupIsQuestion(gs, es, i); }
    forall i, j | 0 <= i < |gs| && 0 <= j < |gs| && i != j ensures !Alike(gs[i].1[0].market, gs[j].1[0].market) {
      GroupsDiffer(gs, es, i, j);
    }
    forall e | e in es ensures exists i :: 0 <= i < |gs| && e in gs[i].1 { EntryPlaced(gs, es, e); }
  }

  lemma {:induction false} EntryPlaced(gs: Groups, es: seq<Entry>, e: Entry)
    requires Holds(gs, es) && e in es
    ensures exists i :: 0 <= i < |gs| && e in gs[i].1
  {
    var k := KeyOfMarket(e.market);
    SameHas(es, e.market, e);
    assert e in Entries(gs, k);
    GetHas(gs, k);
    var i :| 0 <= i < |gs| && gs[i] == (k, Get(gs, k).value);
  }

  /** Two entries share a group iff they ask the same question. */
  lemma {:induction false} SharedIff(ps: seq<Provider>, e: Entry, f: Entry)
    requires e in Offers(ps) && f in Offers(ps)
    ensures (exists i :: 0 <= i < |GroupAll(ps)| && e in GroupAll(ps)[i].1 && f in GroupAll(ps)[i].1) <==> Alike(e.market, f.market)
  {
    var gs, es := GroupAll(ps), Offers(ps);
    GroupsMean(ps);
    var i :| 0 <= i < |gs| && e in gs[i].1;
    SameHas(es, gs[i].1[0].market, e);
    SameHas(es, gs[i].1[0].market, f);
    if j :| 0 <= j < |gs| && e in gs[j].1 && f in gs[j].1 {
      SameHas(es, gs[j].1[0].market, e);
      SameHas(es, gs[j].1[0].market, f);
    }
  }

  // --- Which prices count ----------------------------------------------------

  /** Which team the selection is for, if any. */
  predicate ForSide(inp: Input, s: Selection, side: Side) {
    match side
    case TeamA => inp.canonical(s.name) == inp.canonical(inp.teamA)
    case TeamB => inp.canonical(s.name) == inp.canonical(inp.teamB) && inp.canonical(s.name) != inp.canonical(inp.teamA)
  }

  /** A healthy selection of the side with a price above 1. */
  predicate PricedFor(inp: Input, s: Selection, side: Side) {
    s.healthy && s.odds.Some? && s.odds.value > 1.0 && ForSide(inp, s, side)
  }

  /** A market prices both sides: exactly two selections, one for each. */
  predicate TwoSided(inp: Input, m: Market) {
    |m.selections| == 2
    && ((PricedFor(inp, m.selections[0], TeamA) && PricedFor(inp, m.selections[1], TeamB))
        || (PricedFor(inp, m.selections[0], TeamB) && PricedFor(inp, m.selections[1], TeamA)))
  }

  /** c is what the entry's market offers on c's side. */
  predicate OfferedBy(inp: Input, e: Entry, c: Candidate) {
    && c.provider == e.provider && c.marketId == e.market.id
    && exists k :: 0 <= k < |e.market.selections| && PricedFor(inp, e.market.selections[k], c.side)
                   && c.selectionId == e.market.selections[k].id && e.market.selections[k].odds == Some(c.odds)
  }

  /** The entry is its provider's only one in the group. */
  ghost predicate OnlyOne(g: seq<Entry>, i: int)
    requires 0 <= i < |g|
  {
    forall j :: 0 <= j < |g| && g[j].provider == g[i].provider ==> j == i
  }

  lemma {:induction false} CountOnlyOne(g: seq<Entry>, i: nat)
    requires i < |g|
    ensures CountOf(g, g[i].provider) == 1 <==> OnlyOne(g, i)
  {
    CountBounds(g, i);
    CountSome(g, i);
    if OnlyOne(g, i) { CountRest(g, i, 0); }
  }

  lemma {:induction false} CountRest(g: seq<Entry>, i: nat, k: nat)
    requires k <= |g| && i < |g| && OnlyOne(g, i)
    ensures CountOf(g[k..], g[i].provider) == if k <= i then 1 else 0
    decreases |g| - k
  {
    assert g[0..] == g;
    if k < |g| {
      assert g[k..][1..] == g[k + 1..];
      CountRest(g, i, k + 1);
    }
  }

  lemma {:induction false} PairMeans(inp: Input, e: Entry, c: Candidate)
    ensures c in PairOf(SidesOf(inp), e) <==> TwoSided(inp, e.market) && OfferedBy(inp, e, c)
  {
    var p := PairOf(SidesOf(inp), e);
    if p != [] { assert p == [p[0], p[1]]; }
    if |e.market.selections| == 2 {
      var s, t := e.market.selections[0], e.market.selections[1];
      if TwoSided(inp, e.market) && OfferedBy(inp, e, c) {
        var k :| 0 <= k < 2 && PricedFor(inp, e.market.selections[k], c.side)
                 && c.selectionId == e.market.selections[k].id && e.market.selections[k].odds == Some(c.odds);
        assert c == p[k];
      }
      if c in p {
        if c == p[0] { assert PricedFor(inp, e.market.selections[0], c.side); } else { assert PricedFor(inp, e.market.selections[1], c.side); }
      }
    }
  }

  lemma {:induction false} ValidInHas(sides: Sides, all: seq<Entry>, es: seq<Entry>, c: Candidate)
    ensures c in ValidIn(sides, all, es) <==> exists i :: 0 <= i < |es| && CountOf(all, es[i].provider) == 1 && c in PairOf(sides, es[i])
  {
    if es != [] {
      ValidInHas(sides, all, es[1..], c);
      if i :| 0 <= i < |es[1..]| && CountOf(all, es[1..][i].provider) == 1 && c in PairOf(sides, es[1..][i]) { assert es[i + 1] == es[1..][i]; }
      if i :| 0 <= i < |es| && CountOf(all, es[i].provider) == 1 && c in PairOf(sides, es[i]) { assert i > 0 ==> es[1..][i - 1] == es[i]; }
    }
  }

  /** The prices that count in a group: those of a two-sided market that is its provider's
      only one there. */
  ghost predicate CountsIn(inp: Input, g: seq<Entry>, c: Candidate) {
    exists i :: 0 <= i < |g| && OnlyOne(g, i) && TwoSided(inp, g[i].market) && OfferedBy(inp, g[i], c)
  }

  lemma {:induction false} ValidMeans(inp: Input, g: seq<Entry>, c: Candidate)
    ensures c in ValidIn(SidesOf(inp), g, g) <==> CountsIn(inp, g, c)
  {
    ValidInHas(SidesOf(inp), g, g, c);
    forall i | 0 <= i < |g| ensures CountOf(g, g[i].provider) == 1 && c in PairOf(SidesOf(inp), g[i]) <==>
                                    OnlyOne(g, i) && TwoSided(inp, g[i].market) && OfferedBy(inp, g[i], c)
    {
      CountOnlyOne(g, i);
      PairMeans(inp, g[i], c);
    }
  }
}
