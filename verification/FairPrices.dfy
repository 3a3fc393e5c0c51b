/** What the fair prices and value bets of an analysed market mean (market-analytics.ts). */
module FairPrices {
  import opened Domain
  import opened MarketAnalytics

  // --- The median of complements ---------------------------------------------

  /** Every value's complement to 1, back to front. */
  function Complements(s: seq<real>): seq<real> {
    if s == [] then [] else Complements(s[1..]) + [1.0 - s[0]]
  }

  lemma {:induction false} ComplementsAt(s: seq<real>)
    ensures |Complements(s)| == |s|
    ensures forall i :: 0 <= i < |s| ==> Complements(s)[i] == 1.0 - s[|s| - 1 - i]
  {
    if s != [] {
      ComplementsAt(s[1..]);
      var r := Complements(s[1..]);
      forall i | 0 <= i < |s| ensures Complements(s)[i] == 1.0 - s[|s| - 1 - i] {
        if i < |r| { assert r[i] == 1.0 - s[1..][|r| - 1 - i]; }
      }
    }
  }

  lemma {:induction false} ComplementsAscending(s: seq<real>)
    requires Ascending(s)
    ensures Ascending(Complements(s))
  {
    ComplementsAt(s);
  }

  lemma {:induction false} CountPush(x: real, s: seq<real>, v: real)
    ensures multiset([x] + s)[v] == multiset(s)[v] + if x == v then 1 else 0
  {
  }

  lemma {:induction false} CountSnoc(s: seq<real>, x: real, v: real)
    ensures multiset(s + [x])[v] == multiset(s)[v] + if x == v then 1 else 0
  {
  }

  lemma {:induction false} ComplementsCount(s: seq<real>, v: real)
    ensures multiset(Complements(s))[v] == multiset(s)[1.0 - v]
  {
    if s != [] {
      ComplementsCount(s[1..], v);
      CountPush(s[0], s[1..], 1.0 - v);
      CountSnoc(Complements(s[1..]), 1.0 - s[0], v);
      assert s == [s[0]] + s[1..];
    }
  }

  ghost predicate Complementary(xs: seq<real>, ys: seq<real>) {
    |xs| == |ys| && forall i :: 0 <= i < |xs| ==> ys[i] == 1.0 - xs[i]
  }

  lemma {:induction false} ComplementaryCount(xs: seq<real>, ys: seq<real>, v: real)
    requires Complementary(xs, ys)
    ensures multiset(ys)[v] == multiset(xs)[1.0 - v]
  {
    if xs != [] {
      ComplementaryCount(xs[1..], ys[1..], v);
      assert xs == [xs[0]] + xs[1..] && ys == [ys[0]] + ys[1..];
    }
  }

  /** The first of an ascending list is the least of its elements. */
  lemma {:induction false} FirstIsLeast(a: seq<real>, b: seq<real>)
    requires a != [] && Ascending(a) && multiset(a) == multiset(b)
    ensures b != [] && a[0] <= b[0]
  {
    assert a[0] in multiset(a);
    assert b[0] in multiset(b) && b[0] in multiset(a);
    var i :| 0 <= i < |a| && a[i] == b[0];
  }

  /** A bag has one ascending arrangement. */
  lemma {:induction false} AscendingUnique(a: seq<real>, b: seq<real>)
    requires Ascending(a) && Ascending(b) && multiset(a) == multiset(b)
    ensures a == b
  {
    if a == [] {
      assert |multiset(b)| == 0;
    } else {
      FirstIsLeast(a, b);
      FirstIsLeast(b, a);
      assert a == [a[0]] + a[1..] && b == [b[0]] + b[1..];
      assert multiset(a[1..]) == multiset(a) - multiset{a[0]} && multiset(b[1..]) == multiset(b) - multiset{b[0]};
      AscendingUnique(a[1..], b[1..]);
    }
  }

  lemma {:induction false} SortComplement(xs: seq<real>, ys: seq<real>)
    requires Complementary(xs, ys)
    ensures Sort(ys) == Complements(Sort(xs))
  {
    SortAscending(xs);
    SortAscending(ys);
    ComplementsAscending(Sort(xs));
    forall v ensures multiset(Complements(Sort(xs)))[v] == multiset(ys)[v] {
      ComplementsCount(Sort(xs), v);
      ComplementaryCount(xs, ys, v);
    }
    AscendingUnique(Sort(ys), Complements(Sort(xs)));
  }

  lemma {:induction false} MedianComplement(xs: seq<real>, ys: seq<real>)
    requires xs != [] && Complementary(xs, ys)
    ensures Median(xs) + Median(ys) == 1.0
  {
    SortComplement(xs, ys);
    MedianOfComplements(Sort(xs));
  }

  /** The middle of a sorted list, as `Median` takes it. */
  function Middle(s: seq<real>): real
    requires s != []
  {
    var m := |s| / 2;
    if |s| % 2 == 1 then s[m] else (s[m - 1] + s[m]) / 2.0
  }

  lemma {:induction false} MedianOfComplements(s: seq<real>)
    requires s != []
    ensures |Complements(s)| == |s| && Middle(s) + Middle(Complements(s)) == 1.0
  {
    ComplementsAt(s);
    var n, m := |s|, |s| / 2;
    if n % 2 == 1 {
      assert n - 1 - m == m;
    } else {
      assert n - 1 - (m - 1) == m;
    }
  }

  lemma {:induction false} MedianBetween(xs: seq<real>, low: real, high: real)
    requires xs != [] && forall i :: 0 <= i < |xs| ==> low < xs[i] < high
    ensures low < Median(xs) < high
  {
    var s := Sort(xs);
    forall i | 0 <= i < |s| ensures low < s[i] < high { assert s[i] in multiset(s) && s[i] in multiset(xs); }
  }

  lemma {:induction false} MedianPrice(xs: seq<real>)
    requires xs != [] && Prices(xs)
    ensures Median(xs) > 1.0
  {
    var s := Sort(xs);
    forall i | 0 <= i < |s| ensures s[i] > 1.0 { assert s[i] in multiset(s) && s[i] in multiset(xs); }
  }

  // --- Every provider prices both sides --------------------------------------

  function Other(side: Side): Side { if side.TeamA? then TeamB else TeamA }

  /** Every candidate has one of its provider on the other side. */
  ghost predicate Paired(cs: seq<Candidate>) {
    forall c {:trigger HasPartner(cs, c)} :: c in cs ==> HasPartner(cs, c)
  }

  ghost predicate HasPartner(cs: seq<Candidate>, c: Candidate) {
    exists d :: d in cs && d.provider == c.provider && d.side == Other(c.side)
  }

  lemma {:induction false} PairedConcat(a: seq<Candidate>, b: seq<Candidate>)
    requires Paired(a) && Paired(b)
    ensures Paired(a + b)
  {
    forall c | c in a + b ensures HasPartner(a + b, c) {
      assert if c in a then HasPartner(a, c) else HasPartner(b, c);
      var d :| (d in a || d in b) && d.provider == c.provider && d.side == Other(c.side);
      assert d in a + b;
    }
  }

  lemma {:induction false} PairPaired(sides: Sides, e: Entry)
    ensures Paired(PairOf(sides, e))
  {
    var p := PairOf(sides, e);
    if p != [] {
      assert p == [p[0], p[1]] && p[0].provider == p[1].provider && p[0].side == Other(p[1].side);
      assert HasPartner(p, p[0]) by { assert p[1] in p; }
      assert HasPartner(p, p[1]) by { assert p[0] in p; }
    }
  }

  lemma {:induction false} BothSides(sides: Sides, all: seq<Entry>, es: seq<Entry>)
    ensures Paired(ValidIn(sides, all, es))
  {
    if es != [] {
      BothSides(sides, all, es[1..]);
      PairPaired(sides, es[0]);
      PairedConcat(if CountOf(all, es[0].provider) == 1 then PairOf(sides, es[0]) else [], ValidIn(sides, all, es[1..]));
    }
  }

  lemma {:induction false} PriceFound(cs: seq<Candidate>, c: Candidate)
    requires c in cs && forall d :: d in cs ==> d.odds > 1.0
    ensures PriceOf(cs, c.provider).Some? && PriceOf(cs, c.provider).value > 1.0
  {
    assert cs[0] in cs;
    if cs[0].provider != c.provider { PriceFound(cs[1..], c); }
  }

  /** Each listed price meets one of the same provider on the other side. */
  ghost predicate Priced(as_: seq<Candidate>, bs: seq<Candidate>) {
    forall a :: a in as_ ==> a.odds > 1.0 && PriceOf(bs, a.provider).Some? && PriceOf(bs, a.provider).value > 1.0
  }

  lemma {:induction false} PairedPriced(cs: seq<Candidate>)
    requires Paired(cs) && forall c :: c in cs ==> c.odds > 1.0
    ensures Priced(OnSide(cs, TeamA), OnSide(cs, TeamB))
  {
    OnSideMembers(cs, TeamA);
    OnSideMembers(cs, TeamB);
    var as_, bs := OnSide(cs, TeamA), OnSide(cs, TeamB);
    forall a | a in as_ ensures a.odds > 1.0 && PriceOf(bs, a.provider).Some? && PriceOf(bs, a.provider).value > 1.0 {
      assert HasPartner(cs, a);
      var d :| d in cs && d.provider == a.provider && d.side == Other(a.side);
      PriceFound(bs, d);
    }
  }

  lemma {:induction false} SidesPriced(sides: Sides, es: seq<Entry>)
    ensures Priced(OnSide(ValidIn(sides, es, es), TeamA), OnSide(ValidIn(sides, es, es), TeamB))
    ensures forall c :: c in ValidIn(sides, es, es) ==> c.odds > 1.0
  {
    BothSides(sides, es, es);
    ValidOdds(sides, es, es);
    PairedPriced(ValidIn(sides, es, es));
  }

  // --- Fair probabilities ----------------------------------------------------

  lemma {:induction false} DeVigPair(a: real, b: real)
    requires a > 1.0 && b > 1.0
    ensures var f := DeVig([a, b]); f.Some? && |f.value| == 2 && 0.0 < f.value[0] < 1.0 && f.value[0] + f.value[1] == 1.0
  {
    DeVigNormalises([a, b]);
    var f := DeVig([a, b]).value;
    assert f == [f[0], f[1]] && f[..1] == [f[0]] && f[..1][..0] == [];
    assert Sum(f[..1]) == f[0];
  }

  /** No provider is left out: its margin-free probabilities of the two sides are
      proper and complementary. */
  lemma {:induction false} FairComplete(as_: seq<Candidate>, bs: seq<Candidate>)
    requires Priced(as_, bs)
    ensures var xs, ys := FairOf(as_, bs, TeamA), FairOf(as_, bs, TeamB);
            && |xs| == |as_| && |ys| == |as_|
            && forall i :: 0 <= i < |as_| ==> 0.0 < xs[i] < 1.0 && ys[i] == 1.0 - xs[i]
  {
    if as_ != [] {
      assert as_[0] in as_;
      DeVigPair(as_[0].odds, PriceOf(bs, as_[0].provider).value);
      FairComplete(as_[1..], bs);
    }
  }

  /** A side's fair probability: the median over the providers. */
  function FairProbability(as_: seq<Candidate>, bs: seq<Candidate>, side: Side): real {
    if FairOf(as_, bs, side) == [] then 0.0 else Median(FairOf(as_, bs, side))
  }

  /** The two fair probabilities form a book without margin. */
  lemma {:induction false} FairBook(as_: seq<Candidate>, bs: seq<Candidate>)
    requires as_ != [] && Priced(as_, bs)
    ensures 0.0 < FairProbability(as_, bs, TeamA) < 1.0
    ensures FairProbability(as_, bs, TeamA) + FairProbability(as_, bs, TeamB) == 1.0
  {
    FairComplete(as_, bs);
    MedianBetween(FairOf(as_, bs, TeamA), 0.0, 1.0);
    MedianComplement(FairOf(as_, bs, TeamA), FairOf(as_, bs, TeamB));
  }

  // --- Value bets ------------------------------------------------------------

  /** By how many per cent a price beats the fair one. */
  function Edge(odds: real, probability: real): real { (odds * probability - 1.0) * 100.0 }

  lemma {:induction false} EdgeMeans(odds: real, probability: real)
    requires probability > 0.0
    ensures (odds / (1.0 / probability) - 1.0) * 100.0 == Edge(odds, probability)
  {
    var fair := 1.0 / probability;
    assert fair * probability == 1.0;
    assert fair > 0.0 by { if fair <= 0.0 { NotPositive(fair, probability); } }
    var q := odds / fair;
    assert q * fair == odds;
    Reorder(q, fair, probability);
  }

  lemma {:induction false} NotPositive(x: real, y: real)
    requires x <= 0.0 && y > 0.0
    ensures x * y <= 0.0
  {
  }

  lemma {:induction false} Reorder(q: real, fair: real, p: real)
    requires fair * p == 1.0
    ensures (q * fair) * p == q
  {
    assert (q * fair) * p == q * (fair * p);
  }

  function MinEdge(inp: Input): real { if inp.minEdge.Some? then inp.minEdge.value else 5.0 }

  /** Value bets are reported only for a settled, confident match of three providers. */
  predicate Trusted(inp: Input, providers: nat) {
    inp.matching == "matched" && (inp.confidence.None? || inp.confidence.value >= 0.8) && providers >= 3
  }

  lemma {:induction false} EdgedMeans(cs: seq<Candidate>, probability: real, minEdge: real)
    requires probability > 0.0
    ensures forall c :: c in Edged(cs, probability, minEdge) <==> c in cs && Edge(c.odds, probability) >= minEdge
  {
    if cs != [] {
      EdgeMeans(cs[0].odds, probability);
      EdgedMeans(cs[1..], probability, minEdge);
      assert cs == [cs[0]] + cs[1..];
    }
  }

  lemma {:induction false} ValueBetsMean(inp: Input, as_: seq<Candidate>, bs: seq<Candidate>, side: Side, providers: nat)
    requires as_ != [] && Priced(as_, bs)
    ensures forall c :: c in ValueBets(inp, as_, bs, side, providers) <==>
              && Trusted(inp, providers) && c in (if side.TeamA? then as_ else bs)
              && Edge(c.odds, FairProbability(as_, bs, side)) >= MinEdge(inp)
  {
    FairBook(as_, bs);
    FairComplete(as_, bs);
    EdgedMeans(if side.TeamA? then as_ else bs, FairProbability(as_, bs, side), MinEdge(inp));
  }

  /** The fair probability of a side of an analysed market. */
  function FairFor(inp: Input, es: seq<Entry>, side: Side): real {
    var valid := ValidIn(SidesOf(inp), es, es);
    FairProbability(OnSide(valid, TeamA), OnSide(valid, TeamB), side)
  }

  /** An analysed market: every contributing provider has a fair probability for each
      side, the two sides' fair probabilities are proper and add up to 1, and the value
      bets are exactly the trusted prices that beat the fair one by the least edge. */
  lemma {:induction false} ValueBetsExact(inp: Input, es: seq<Entry>)
    requires es != [] && AnalyzeGroup(inp, es).Some?
    ensures var valid := ValidIn(SidesOf(inp), es, es);
            var as_, bs, count := OnSide(valid, TeamA), OnSide(valid, TeamB), |ProvidersOf(valid)|;
            && |FairOf(as_, bs, TeamA)| == count && |FairOf(as_, bs, TeamB)| == count
            && 0.0 < FairFor(inp, es, TeamA) < 1.0 && FairFor(inp, es, TeamA) + FairFor(inp, es, TeamB) == 1.0
            && forall c :: c in AnalyzeGroup(inp, es).value.valueBets <==>
                 Trusted(inp, count) && c in valid && Edge(c.odds, FairFor(inp, es, c.side)) >= MinEdge(inp)
  {
    var valid := ValidIn(SidesOf(inp), es, es);
    var as_, bs, count := OnSide(valid, TeamA), OnSide(valid, TeamB), |ProvidersOf(valid)|;
    SidesPriced(SidesOf(inp), es);
    FairBook(as_, bs);
    FairComplete(as_, bs);
    ValueBetsMean(inp, as_, bs, TeamA, count);
    ValueBetsMean(inp, as_, bs, TeamB, count);
    OnSideMembers(valid, TeamA);
    OnSideMembers(valid, TeamB);
  }

  lemma {:induction false} EdgeBound(odds: real, probability: real, edge: real)
    requires odds > 1.0 && Edge(odds, probability) >= edge > 0.0
    ensures 1.0 / odds < probability
  {
    var i := 1.0 / odds;
    assert i * odds == 1.0;
    if i >= probability { Scale(odds, probability, i); }
  }

  lemma {:induction false} Scale(k: real, x: real, y: real)
    requires k > 0.0 && x <= y
    ensures k * x <= k * y
  {
  }

  /** Value on both sides is never an accident of the margin: with a positive least
      edge, value bets on opposite sides come with an arbitrage. */
  lemma {:induction false} ValueOnBothSidesPays(inp: Input, es: seq<Entry>, a: Candidate, b: Candidate)
    requires es != [] && AnalyzeGroup(inp, es).Some? && MinEdge(inp) > 0.0
    requires a in AnalyzeGroup(inp, es).value.valueBets && a.side.TeamA?
    requires b in AnalyzeGroup(inp, es).value.valueBets && b.side.TeamB?
    ensures AnalyzeGroup(inp, es).value.arbitrage.Some?
  {
    ValueBetsExact(inp, es);
    SidesPriced(SidesOf(inp), es);
    EdgeBound(a.odds, FairFor(inp, es, TeamA), MinEdge(inp));
    EdgeBound(b.odds, FairFor(inp, es, TeamB), MinEdge(inp));
    assert Profitable(a, b);
    AnalysisArbitrage(inp, es);
  }

  // --- Outliers --------------------------------------------------------------

  lemma {:induction false} DeviatingMeans(cs: seq<Candidate>, median: real, threshold: real)
    requires median != 0.0
    ensures forall c :: c in Deviating(cs, median, threshold) <==> c in cs && Deviates(c, median, threshold)
  {
    if cs != [] {
      DeviatingMeans(cs[1..], median, threshold);
      assert cs == [cs[0]] + cs[1..];
    }
  }

  /** Where three or more prices are compared, the outliers are exactly those further
      from the median than the threshold. */
  lemma {:induction false} OutliersExact(cs: seq<Candidate>, threshold: real)
    requires cs != [] && forall c :: c in cs ==> c.odds > 1.0
    ensures var m := Median(OddsOf(cs));
            && m > 1.0
            && forall c :: c in Outliers(cs, threshold) <==> |cs| >= 3 && c in cs && Deviates(c, m, threshold)
  {
    var m := Median(OddsOf(cs));
    MedianPrice(OddsOf(cs));
    DeviatingMeans(SortBy(cs), m, threshold);
    forall c ensures c in SortBy(cs) <==> c in cs {
      assert c in SortBy(cs) <==> c in multiset(SortBy(cs));
      assert c in cs <==> c in multiset(cs);
    }
  }
}
