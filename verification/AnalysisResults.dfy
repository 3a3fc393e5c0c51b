/** What a reported analysis says of the prices it compares (market-analytics.ts). */
module AnalysisResults {
  import opened Domain
  import opened Texts
  import opened MarketAnalytics
  import opened MarketGroups
  import opened FairPrices

  // --- The prices of one side ------------------------------------------------

  ghost predicate OneEach(cs: seq<Candidate>) {
    forall i, j :: 0 <= i < |cs| && 0 <= j < |cs| && cs[i].provider == cs[j].provider ==> i == j
  }

  /** The counting prices of one side, one for each provider. */
  ghost predicate Lists(inp: Input, g: seq<Entry>, side: Side, cs: seq<Candidate>) {
    OneEach(cs) && forall c :: c in cs <==> CountsIn(inp, g, c) && c.side == side
  }

  lemma {:induction false} OneEachPush(cs: seq<Candidate>, c: Candidate)
    requires OneEach(cs) && c.provider !in ProvidersOf(cs)
    ensures OneEach(cs + [c])
  {
    forall i | 0 <= i < |cs| ensures cs[i].provider != c.provider { assert cs[i] in cs; }
  }

  lemma {:induction false} ProvidersPush(cs: seq<Candidate>, c: Candidate)
    ensures ProvidersOf(cs + [c]) == ProvidersOf(cs) + {c.provider}
  {
  }

  lemma {:induction false} AllProviders(cs: seq<Candidate>)
    ensures |ProvidersOf(cs)| <= |cs|
    ensures |ProvidersOf(cs)| == |cs| ==> OneEach(cs)
  {
    if cs != [] {
      var front, c := cs[..|cs| - 1], cs[|cs| - 1];
      assert cs == front + [c];
      AllProviders(front);
      ProvidersPush(front, c);
      if c.provider !in ProvidersOf(front) && OneEach(front) { OneEachPush(front, c); }
    }
  }

  lemma {:induction false} SideLists(inp: Input, g: seq<Entry>, side: Side)
    ensures Lists(inp, g, side, OnSide(ValidIn(SidesOf(inp), g, g), side))
    ensures |OnSide(ValidIn(SidesOf(inp), g, g), side)| == |ProvidersOf(ValidIn(SidesOf(inp), g, g))|
  {
    var valid := ValidIn(SidesOf(inp), g, g);
    var cs := OnSide(valid, side);
    OnSideMembers(valid, side);
    OneCandidatePerSide(SidesOf(inp), g, side);
    BothSides(SidesOf(inp), g, g);
    forall p | p in ProvidersOf(valid) ensures p in ProvidersOf(cs) {
      var c :| c in valid && c.provider == p;
      assert HasPartner(valid, c);
      var d :| d in valid && d.provider == p && d.side == Other(c.side);
      assert (if c.side == side then c else d) in cs;
    }
    assert ProvidersOf(cs) == ProvidersOf(valid);
    AllProviders(cs);
    forall c ensures c in valid <==> CountsIn(inp, g, c) { ValidMeans(inp, g, c); }
  }

  // --- Best, next best, median -----------------------------------------------

  /** c is a highest price; of equally high ones the provider that comes first. */
  ghost predicate IsBest(cs: seq<Candidate>, c: Candidate) {
    c in cs && forall d :: d in cs && d != c ==> d.odds < c.odds || (d.odds == c.odds && !TextBefore(d.provider, c.provider))
  }

  /** The highest price besides the best one, if there is one. */
  ghost predicate IsNextBest(cs: seq<Candidate>, best: Candidate, next: Option<real>) {
    && (next.None? <==> forall c :: c in cs ==> c == best)
    && (next.Some? ==> (exists c :: c in cs && c != best && c.odds == next.value) && forall c :: c in cs && c != best ==> c.odds <= next.value)
  }

  /** The middle value, or the mean of the two middle ones. */
  ghost predicate IsMedian(xs: seq<real>, m: real) {
    exists s :: Ascending(s) && multiset(s) == multiset(xs) && xs != [] && |s| == |xs|
      && m == if |s| % 2 == 1 then s[|s| / 2] else (s[|s| / 2 - 1] + s[|s| / 2]) / 2.0
  }

  lemma {:induction false} MedianIs(xs: seq<real>)
    requires xs != []
    ensures IsMedian(xs, Median(xs))
  {
    SortAscending(xs);
  }

  /** Neither of a sorted pair is ahead the wrong way. */
  ghost predicate Ranked(cs: seq<Candidate>) {
    forall i, j :: 0 <= i < j < |cs| ==> !Ahead(cs[j], cs[i])
  }

  lemma {:induction false} AheadOrder(a: Candidate, b: Candidate, c: Candidate)
    ensures !Ahead(a, b) && !Ahead(b, c) ==> !Ahead(a, c)
  {
    TextOrder(a.provider, b.provider);
    TextOrder(b.provider, c.provider);
    TextOrder(a.provider, c.provider);
    if TextBefore(a.provider, c.provider) && TextBefore(c.provider, b.provider) { TextTransitive(a.provider, c.provider, b.provider); }
    if TextBefore(b.provider, a.provider) && TextBefore(a.provider, c.provider) { TextTransitive(b.provider, a.provider, c.provider); }
  }

  lemma {:induction false} AheadOneWay(a: Candidate, b: Candidate)
    ensures !(Ahead(a, b) && Ahead(b, a))
  {
    TextOrder(a.provider, b.provider);
  }

  lemma {:induction false} InsertRanked(c: Candidate, cs: seq<Candidate>)
    requires Ranked(cs)
    ensures Ranked(InsertBy(c, cs))
  {
    if cs == [] {
    } else if Ahead(c, cs[0]) {
      AheadOneWay(c, cs[0]);
      forall j | 0 <= j < |cs| ensures !Ahead(cs[j], c) {
        if j > 0 && Ahead(cs[j], c) { AheadOrder(cs[j], cs[0], c); }
      }
    } else {
      InsertRanked(c, cs[1..]);
      var r := InsertBy(c, cs[1..]);
      forall j | 0 <= j < |r| ensures !Ahead(r[j], cs[0]) {
        assert r[j] in multiset(r);
        if r[j] != c { var i :| 0 <= i < |cs[1..]| && cs[1..][i] == r[j]; assert cs[i + 1] == r[j]; }
      }
    }
  }

  lemma {:induction false} SortRanked(cs: seq<Candidate>)
    ensures Ranked(SortBy(cs))
  {
    if cs != [] {
      SortRanked(cs[..|cs| - 1]);
      InsertRanked(cs[|cs| - 1], SortBy(cs[..|cs| - 1]));
    }
  }

  lemma {:induction false} SortHas(cs: seq<Candidate>, c: Candidate)
    ensures c in SortBy(cs) <==> c in cs
  {
    assert c in SortBy(cs) <==> c in multiset(SortBy(cs));
    assert c in cs <==> c in multiset(cs);
  }

  lemma {:induction false} BestIs(cs: seq<Candidate>)
    requires cs != []
    ensures IsBest(cs, Best(cs))
  {
    var r := SortBy(cs);
    SortRanked(cs);
    SortHas(cs, r[0]);
    forall d | d in cs && d != r[0] ensures d.odds < r[0].odds || (d.odds == r[0].odds && !TextBefore(d.provider, r[0].provider)) {
      SortHas(cs, d);
      var i :| 0 <= i < |r| && r[i] == d;
    }
  }

  lemma {:induction false} SortOneEach(cs: seq<Candidate>)
    requires OneEach(cs)
    ensures forall i, j :: 0 <= i < j < |cs| ==> SortBy(cs)[i] != SortBy(cs)[j]
  {
    var r := SortBy(cs);
    forall i, j | 0 <= i < j < |r| ensures r[i] != r[j] {
      if r[i] == r[j] { Repeats(r, cs, i, j); }
    }
  }

  lemma {:induction false} Repeats(r: seq<Candidate>, cs: seq<Candidate>, i: nat, j: nat)
    requires multiset(r) == multiset(cs) && i < j < |r| && OneEach(cs)
    ensures r[i] != r[j]
  {
    var c := r[i];
    assert r == r[..j] + r[j..] && r[..j][i] == c && r[j..][0] == r[j];
    OneOf(cs, c);
  }

  lemma {:induction false} OneOf(cs: seq<Candidate>, c: Candidate)
    requires OneEach(cs)
    ensures multiset(cs)[c] <= 1
  {
    if cs != [] {
      var n := |cs| - 1;
      assert OneEach(cs[..n]) by {
        forall i, j | 0 <= i < n && 0 <= j < n && cs[..n][i].provider == cs[..n][j].provider ensures i == j { assert cs[i].provider == cs[j].provider; }
      }
      OneOf(cs[..n], c);
      assert cs == cs[..n] + [cs[n]];
      forall i | 0 <= i < n ensures cs[..n][i] != cs[n] { assert cs[i].provider != cs[n].provider; }
    }
  }

  lemma {:induction false} NextBestIs(cs: seq<Candidate>)
    requires cs != [] && OneEach(cs)
    ensures IsNextBest(cs, Best(cs), NextBest(cs))
  {
    var r := SortBy(cs);
    SortRanked(cs);
    SortDescending(cs);
    SortOneEach(cs);
    forall c ensures c in r <==> c in cs { SortHas(cs, c); }
    if |cs| >= 2 {
      assert r[1] in r && r[1] != r[0];
      forall c | c in cs && c != r[0] ensures c.odds <= r[1].odds { var i :| 0 <= i < |r| && r[i] == c; }
    }
  }

  // --- Outliers and value bets -----------------------------------------------

  /** Further from the median than so many per cent of it. */
  predicate Apart(odds: real, median: real, percent: real) {
    (if odds >= median then odds - median else median - odds) * 100.0 > percent * median
  }

  lemma {:induction false} ApartIff(c: Candidate, m: real, percent: real)
    requires m > 0.0
    ensures Deviates(c, m, percent) <==> Apart(c.odds, m, percent)
  {
    var d := if c.odds >= m then c.odds - m else m - c.odds;
    var q := d / m;
    assert q * m == d;
    assert (c.odds - m) / m == if c.odds >= m then q else -q by { Quotient(c.odds - m, m, if c.odds >= m then q else -q); }
    assert Magnitude((c.odds - m) / m * 100.0) == q * 100.0 by { assert q >= 0.0 by { if q < 0.0 { NegativeProduct(q, m); } } }
    ScaleIff(q * 100.0, percent, m);
    assert (q * 100.0) * m == d * 100.0;
  }

  lemma {:induction false} Quotient(x: real, m: real, q: real)
    requires m > 0.0 && q * m == x
    ensures x / m == q
  {
    WholeFraction(q, m);
  }

  lemma {:induction false} NegativeProduct(q: real, m: real)
    requires q < 0.0 && m > 0.0
    ensures q * m < 0.0
  {
  }

  lemma {:induction false} ScaleIff(x: real, y: real, m: real)
    requires m > 0.0
    ensures x > y <==> x * m > y * m
  {
    if x > y {
      assert (x - y) * m > 0.0;
    } else {
      assert (y - x) * m >= 0.0;
    }
  }

  /** The provider's margin-free probability of the first side, from its two prices. */
  ghost predicate IsFair(p: real, a: real, b: real) { p * (a + b) == b }

  lemma {:induction false} FairOfPair(a: real, b: real)
    requires a > 1.0 && b > 1.0
    ensures DeVig([a, b]).Some? && |DeVig([a, b]).value| == 2
    ensures IsFair(DeVig([a, b]).value[0], a, b) && IsFair(DeVig([a, b]).value[1], b, a)
  {
    DeVigEntry([a, b], 0);
    DeVigEntry([a, b], 1);
    var ps, f := Inverses([a, b]), DeVig([a, b]).value;
    assert ps == [ps[0], ps[1]] && ps[..1] == [ps[0]] && ps[..1][..0] == [];
    assert Sum(ps[..1]) == ps[0] && Sum(ps) == ps[0] + ps[1];
    CrossMultiply(f[0], ps[0], ps[1], a, b);
    CrossMultiply(f[1], ps[1], ps[0], b, a);
  }

  lemma {:induction false} CrossMultiply(p: real, x: real, y: real, a: real, b: real)
    requires x * a == 1.0 && y * b == 1.0 && p * (x + y) == x
    ensures p * (a + b) == b
  {
    calc {
      b;
      (x * a) * b;
      x * (a * b);
      (p * (x + y)) * (a * b);
      p * ((x + y) * (a * b));
      { assert (x + y) * (a * b) == (x * a) * b + (y * b) * a; }
      p * (b + a);
    }
  }

  /** For every provider with a price on the first side, its fair probability of `side`. */
  ghost predicate FairList(cs: seq<Candidate>, ds: seq<Candidate>, side: Side, xs: seq<real>) {
    && |xs| == |cs|
    && forall i :: 0 <= i < |cs| ==>
         exists d :: d in ds && d.provider == cs[i].provider
                     && if side.TeamA? then IsFair(xs[i], cs[i].odds, d.odds) else IsFair(xs[i], d.odds, cs[i].odds)
  }

  lemma {:induction false} PriceIs(cs: seq<Candidate>, provider: string)
    requires PriceOf(cs, provider).Some?
    ensures exists d :: d in cs && d.provider == provider && d.odds == PriceOf(cs, provider).value
  {
    if cs[0].provider == provider { assert cs[0] in cs; } else { PriceIs(cs[1..], provider); }
  }

  lemma {:induction false} FairListed(cs: seq<Candidate>, ds: seq<Candidate>, side: Side)
    requires Priced(cs, ds)
    ensures FairList(cs, ds, side, FairOf(cs, ds, side))
  {
    if cs != [] {
      assert cs[0] in cs;
      FairOfPair(cs[0].odds, PriceOf(ds, cs[0].provider).value);
      PriceIs(ds, cs[0].provider);
      FairListed(cs[1..], ds, side);
      var xs := FairOf(cs, ds, side);
      forall i | 0 <= i < |cs|
        ensures exists d :: d in ds && d.provider == cs[i].provider
                            && if side.TeamA? then IsFair(xs[i], cs[i].odds, d.odds) else IsFair(xs[i], d.odds, cs[i].odds)
      {
        if i > 0 { assert cs[1..][i - 1] == cs[i] && FairOf(cs[1..], ds, side)[i - 1] == xs[i]; }
      }
    }
  }

  // --- A result --------------------------------------------------------------

  /** Value bets of one side beat the median fair probability by the least edge. */
  ghost predicate ValueOn(inp: Input, cs: seq<Candidate>, ds: seq<Candidate>, side: Side, bets: seq<Candidate>) {
    exists xs, p :: FairList(cs, ds, side, xs) && IsMedian(xs, p)
      && forall c :: c in bets && c.side == side <==> c in (if side.TeamA? then cs else ds) && Beats(inp, |cs|, c.odds, p)
  }

  /** Outliers of one side are more than the threshold apart from its median, where three
      or more providers price it. */
  ghost predicate OutlyingOn(inp: Input, cs: seq<Candidate>, side: Side, outliers: seq<Candidate>) {
    exists m :: IsMedian(OddsOf(cs), m)
      && forall c :: c in outliers && c.side == side <==> |cs| >= 3 && c in cs && Apart(c.odds, m, inp.outlierThreshold)
  }

  /** Two opposite prices whose inverses add up to less than 1. */
  ghost predicate SurePair(cs: seq<Candidate>, ds: seq<Candidate>) {
    exists a, b :: a in cs && b in ds && a.odds > 1.0 && b.odds > 1.0 && 1.0 / a.odds + 1.0 / b.odds < 1.0
  }

  /** The shown stakes are the stakes to the cent; together they are 100 or 100.01. */
  ghost predicate ShowsStakes(x: Arbitrage) {
    && -0.005 <= x.shownA - x.stakeA <= 0.005 && -0.005 <= x.shownB - x.stakeB <= 0.005
    && (x.shownA * 100.0).Floor as real == x.shownA * 100.0 && (x.shownA + x.shownB == 100.0 || x.shownA + x.shownB == 100.01)
  }

  lemma {:induction false} StakesShown(a: real, b: real)
    requires a > 1.0 && b > 1.0 && ArbitrageOf(a, b).Some?
    ensures ShowsStakes(ArbitrageOf(a, b).value)
  {
    var x := ArbitrageOf(a, b).value;
    CentsOfComplement(x.stakeA);
    assert x.shownA * 100.0 == Cents(x.stakeA) as real;
  }

  /** The value-bet rule for one price. */
  predicate Beats(inp: Input, providers: nat, odds: real, p: real) {
    && inp.matching == "matched" && (inp.confidence.None? || inp.confidence.value >= 0.8) && providers >= 3
    && (odds * p - 1.0) * 100.0 >= (if inp.minEdge.None? then 5.0 else inp.minEdge.value)
  }

  /** A result compares the counting prices cs and ds of the two sides of one question. */
  ghost predicate Compares(inp: Input, g: seq<Entry>, cs: seq<Candidate>, ds: seq<Candidate>, r: Analysis) {
    && g != [] && Lists(inp, g, TeamA, cs) && Lists(inp, g, TeamB, ds) && |cs| == |ds| >= 2
    && r.category == g[0].market.category && r.mapNumber == g[0].market.mapNumber
    && IsBest(cs, r.bestA) && IsNextBest(cs, r.bestA, r.nextA)
    && IsBest(ds, r.bestB) && IsNextBest(ds, r.bestB, r.nextB)
    && (r.arbitrage.Some? <==> SurePair(cs, ds))
    && (r.arbitrage.Some? ==> PaysBack(r.arbitrage.value, r.bestA.odds, r.bestB.odds) && ShowsStakes(r.arbitrage.value))
    && OutlyingOn(inp, cs, TeamA, r.outliers) && OutlyingOn(inp, ds, TeamB, r.outliers)
    && ValueOn(inp, cs, ds, TeamA, r.valueBets) && ValueOn(inp, cs, ds, TeamB, r.valueBets)
  }

  lemma {:induction false} OutliersOn(inp: Input, cs: seq<Candidate>, other: seq<Candidate>, side: Side, outliers: seq<Candidate>)
    requires cs != [] && (forall c :: c in cs ==> c.odds > 1.0 && c.side == side) && forall c :: c in other ==> c.odds > 1.0 && c.side != side
    requires other != []
    requires forall c :: c in outliers <==> c in Outliers(cs, inp.outlierThreshold) || c in Outliers(other, inp.outlierThreshold)
    ensures OutlyingOn(inp, cs, side, outliers)
  {
    var m := Median(OddsOf(cs));
    MedianIs(OddsOf(cs));
    OutliersExact(cs, inp.outlierThreshold);
    OutliersExact(other, inp.outlierThreshold);
    forall c ensures c in outliers && c.side == side <==> |cs| >= 3 && c in cs && Apart(c.odds, m, inp.outlierThreshold) {
      ApartIff(c, m, inp.outlierThreshold);
    }
  }

  lemma {:induction false} ValueBetsOn(inp: Input, cs: seq<Candidate>, ds: seq<Candidate>, side: Side, bets: seq<Candidate>)
    requires cs != [] && |ds| == |cs| && Priced(cs, ds) && (forall c :: c in cs ==> c.side.TeamA?) && forall d :: d in ds ==> d.side.TeamB?
    requires forall c :: c in bets <==> c in ValueBets(inp, cs, ds, TeamA, |cs|) || c in ValueBets(inp, cs, ds, TeamB, |cs|)
    ensures ValueOn(inp, cs, ds, side, bets)
  {
    var xs, p := FairOf(cs, ds, side), FairProbability(cs, ds, side);
    FairListed(cs, ds, side);
    FairComplete(cs, ds);
    MedianIs(xs);
    forall c ensures c in bets && c.side == side <==> c in (if side.TeamA? then cs else ds) && Beats(inp, |cs|, c.odds, p) {
      OneBet(inp, cs, ds, TeamA, c);
      OneBet(inp, cs, ds, TeamB, c);
    }
  }

  lemma {:induction false} BeatsIff(inp: Input, providers: nat, odds: real, p: real)
    ensures Trusted(inp, providers) && Edge(odds, p) >= MinEdge(inp) <==> Beats(inp, providers, odds, p)
  {
  }

  lemma {:induction false} OneBet(inp: Input, cs: seq<Candidate>, ds: seq<Candidate>, side: Side, c: Candidate)
    requires cs != [] && Priced(cs, ds)
    ensures c in ValueBets(inp, cs, ds, side, |cs|) <==>
              c in (if side.TeamA? then cs else ds) && Beats(inp, |cs|, c.odds, FairProbability(cs, ds, side))
  {
    ValueBetsMean(inp, cs, ds, side, |cs|);
    BeatsIff(inp, |cs|, c.odds, FairProbability(cs, ds, side));
  }

  lemma {:induction false} ResultMeans(inp: Input, g: seq<Entry>) returns (cs: seq<Candidate>, ds: seq<Candidate>)
    requires g != [] && AnalyzeGroup(inp, g).Some?
    ensures Compares(inp, g, cs, ds, AnalyzeGroup(inp, g).value)
  {
    var valid, r := ValidIn(SidesOf(inp), g, g), AnalyzeGroup(inp, g).value;
    cs, ds := OnSide(valid, TeamA), OnSide(valid, TeamB);
    SideLists(inp, g, TeamA);
    SideLists(inp, g, TeamB);
    OnSideMembers(valid, TeamA);
    OnSideMembers(valid, TeamB);
    SidesPriced(SidesOf(inp), g);
    BestIs(cs);
    BestIs(ds);
    NextBestIs(cs);
    NextBestIs(ds);
    OutliersOn(inp, cs, ds, TeamA, r.outliers);
    OutliersOn(inp, ds, cs, TeamB, r.outliers);
    ValueBetsOn(inp, cs, ds, TeamA, r.valueBets);
    ValueBetsOn(inp, cs, ds, TeamB, r.valueBets);
    ResultArbitrage(inp, g);
  }

  lemma {:induction false} SurePairIff(cs: seq<Candidate>)
    ensures SurePair(OnSide(cs, TeamA), OnSide(cs, TeamB)) <==>
              exists a, b :: a in cs && b in cs && a.side.TeamA? && b.side.TeamB? && Profitable(a, b)
  {
    OnSideMembers(cs, TeamA);
    OnSideMembers(cs, TeamB);
    if SurePair(OnSide(cs, TeamA), OnSide(cs, TeamB)) {
      var a, b :| a in OnSide(cs, TeamA) && b in OnSide(cs, TeamB) && a.odds > 1.0 && b.odds > 1.0 && 1.0 / a.odds + 1.0 / b.odds < 1.0;
      assert Profitable(a, b);
    }
  }

  lemma {:induction false} ResultArbitrage(inp: Input, g: seq<Entry>)
    requires g != [] && AnalyzeGroup(inp, g).Some?
    ensures var valid, r := ValidIn(SidesOf(inp), g, g), AnalyzeGroup(inp, g).value;
            && (r.arbitrage.Some? <==> SurePair(OnSide(valid, TeamA), OnSide(valid, TeamB)))
            && (r.arbitrage.Some? ==> PaysBack(r.arbitrage.value, r.bestA.odds, r.bestB.odds) && ShowsStakes(r.arbitrage.value))
  {
    AnalysisArbitrage(inp, g);
    AnalysisExists(inp, g);
    var r := AnalyzeGroup(inp, g).value;
    if r.arbitrage.Some? { StakesShown(r.bestA.odds, r.bestB.odds); }
    SurePairIff(ValidIn(SidesOf(inp), g, g));
  }

  lemma {:induction false} ResultFrom(inp: Input, gs: Groups, r: Analysis) returns (i: nat)
    requires r in AnalyzeGroups(inp, gs)
    ensures i < |gs| && gs[i].1 != [] && AnalyzeGroup(inp, gs[i].1) == Some(r)
  {
    var n := |gs| - 1;
    if r in AnalyzeGroups(inp, gs[..n]) { i := ResultFrom(inp, gs[..n], r); } else { i := n; }
  }

  lemma {:induction false} ResultLast(inp: Input, gs: Groups, r: Analysis)
    requires gs != [] && gs[|gs| - 1].1 != [] && AnalyzeGroup(inp, gs[|gs| - 1].1) == Some(r)
    ensures r in AnalyzeGroups(inp, gs)
  {
  }

  lemma {:induction false} ResultEarlier(inp: Input, gs: Groups, r: Analysis)
    requires gs != [] && r in AnalyzeGroups(inp, gs[..|gs| - 1])
    ensures r in AnalyzeGroups(inp, gs)
  {
  }

  lemma {:induction false} ResultOf(inp: Input, gs: Groups, i: nat, r: Analysis)
    requires i < |gs| && gs[i].1 != [] && AnalyzeGroup(inp, gs[i].1) == Some(r)
    ensures r in AnalyzeGroups(inp, gs)
  {
    if i == |gs| - 1 {
      ResultLast(inp, gs, r);
    } else {
      ResultOf(inp, gs[..|gs| - 1], i, r);
      ResultEarlier(inp, gs, r);
    }
  }

  /** Every result compares the prices of one question only: the entries g are all the
      counting markets of healthy providers with one category, map, period and line. */
  lemma {:induction false} ResultsMean(inp: Input, r: Analysis) returns (g: seq<Entry>, cs: seq<Candidate>, ds: seq<Candidate>)
    requires r in AnalyzeGroups(inp, GroupAll(inp.providers))
    ensures IsQuestion(g, Offers(inp.providers)) && Compares(inp, g, cs, ds, r)
  {
    var gs := GroupAll(inp.providers);
    var i := ResultFrom(inp, gs, r);
    g := gs[i].1;
    GroupsMean(inp.providers);
    cs, ds := ResultMeans(inp, g);
  }

  /** Every question that two providers price on both sides has a result. */
  lemma {:induction false} QuestionsAnswered(inp: Input, e: Entry, a: Candidate, b: Candidate) returns (r: Analysis)
    requires e in Offers(inp.providers) && a.provider != b.provider
    requires CountsIn(inp, Same(Offers(inp.providers), e.market), a) && CountsIn(inp, Same(Offers(inp.providers), e.market), b)
    ensures r in AnalyzeGroups(inp, GroupAll(inp.providers)) && AnalyzeGroup(inp, Same(Offers(inp.providers), e.market)) == Some(r)
  {
    var gs, es := GroupAll(inp.providers), Offers(inp.providers);
    var g := Same(es, e.market);
    GroupsMean(inp.providers);
    var i :| 0 <= i < |gs| && e in gs[i].1;
    SameHas(es, gs[i].1[0].market, e);
    SameAlike(es, e.market, gs[i].1[0].market);
    assert gs[i].1 == g;
    ValidMeans(inp, g, a);
    ValidMeans(inp, g, b);
    AnalysisExists(inp, g);
    var valid := ValidIn(SidesOf(inp), g, g);
    assert a.provider in ProvidersOf(valid) && b.provider in ProvidersOf(valid);
    TwoElements(ProvidersOf(valid), a.provider, b.provider);
    r := AnalyzeGroup(inp, g).value;
    ResultOf(inp, gs, i, r);
  }

  lemma {:induction false} TwoElements<T>(s: set<T>, a: T, b: T)
    requires a in s && b in s && a != b
    ensures |s| >= 2
  {
    assert |s - {a}| == |s| - 1 && b in s - {a};
  }
}
