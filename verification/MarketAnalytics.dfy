/** Comparing equivalent markets across providers (market-analytics.ts), over exact
    real numbers. */
module MarketAnalytics {
  import opened Domain
  import opened OrderedMaps
  import opened Texts

  datatype Side = TeamA | TeamB

  datatype Selection = Selection(id: string, name: string, odds: Option<real>, healthy: bool)

  datatype Market = Market(id: string, category: string, mapNumber: Option<int>, period: Option<string>, line: Option<string>,
                           healthy: bool, selections: seq<Selection>)

  datatype Provider = Provider(name: string, healthy: bool, markets: seq<Market>)

  datatype Candidate = Candidate(side: Side, selectionId: string, marketId: string, provider: string, odds: real)

  datatype Entry = Entry(market: Market, provider: string)

  type GroupKey = (string, Option<int>, Option<string>, Option<string>)

  // --- Grouping --------------------------------------------------------------

  predicate Usable(m: Market) {
    m.healthy && (m.category == "match_winner" || (m.category == "map_winner" && m.mapNumber.Some? && 1 <= m.mapNumber.value <= 3))
  }

  function KeyOfMarket(m: Market): GroupKey { (m.category, m.mapNumber, m.period, m.line) }

  type Groups = seq<(GroupKey, seq<Entry>)>

  function Entries(gs: Groups, k: GroupKey): seq<Entry> { if Get(gs, k).Some? then Get(gs, k).value else [] }

  function AddMarkets(gs: Groups, provider: string, ms: seq<Market>): Groups {
    if ms == [] then gs
    else
      var n := |ms| - 1;
      var before, m := AddMarkets(gs, provider, ms[..n]), ms[n];
      if Usable(m) then Put(before, KeyOfMarket(m), Entries(before, KeyOfMarket(m)) + [Entry(m, provider)]) else before
  }

  function GroupAll(ps: seq<Provider>): Groups {
    if ps == [] then []
    else
      var n := |ps| - 1;
      if ps[n].healthy then AddMarkets(GroupAll(ps[..n]), ps[n].name, ps[n].markets) else GroupAll(ps[..n])
  }

  // --- Candidates ------------------------------------------------------------

  function CountOf(es: seq<Entry>, provider: string): nat {
    if es == [] then 0 else (if es[0].provider == provider then 1 else 0) + CountOf(es[1..], provider)
  }

  /** The canonical names of the two teams, and how names are made canonical. */
  datatype Sides = Sides(teamA: string, teamB: string, canonical: string -> string)

  function SideOf(sides: Sides, name: string): Option<Side> {
    if sides.canonical(name) == sides.teamA then Some(TeamA) else if sides.canonical(name) == sides.teamB then Some(TeamB) else None
  }

  function CandidateOf(sides: Sides, e: Entry, s: Selection): Option<Candidate> {
    var side := SideOf(sides, s.name);
    if side.None? || !s.healthy || s.odds.None? || s.odds.value <= 1.0 then None
    else Some(Candidate(side.value, s.id, e.market.id, e.provider, s.odds.value))
  }

  /** A complete two-sided market's candidates, or none. */
  function PairOf(sides: Sides, e: Entry): seq<Candidate> {
    if |e.market.selections| != 2 then []
    else
      var a, b := CandidateOf(sides, e, e.market.selections[0]), CandidateOf(sides, e, e.market.selections[1]);
      if a.None? || b.None? || a.value.side == b.value.side then [] else [a.value, b.value]
  }

  /** Candidates of entries whose provider lists the market once in `all`. */
  function ValidIn(sides: Sides, all: seq<Entry>, es: seq<Entry>): seq<Candidate> {
    if es == [] then []
    else (if CountOf(all, es[0].provider) == 1 then PairOf(sides, es[0]) else []) + ValidIn(sides, all, es[1..])
  }

  function OnSide(cs: seq<Candidate>, side: Side): seq<Candidate> {
    if cs == [] then [] else if cs[0].side == side then [cs[0]] + OnSide(cs[1..], side) else OnSide(cs[1..], side)
  }

  function ProvidersOf(cs: seq<Candidate>): set<string> { set c | c in cs :: c.provider }

  /** Providers of the entries that contribute. */
  function Survivors(sides: Sides, all: seq<Entry>, es: seq<Entry>): seq<string> {
    if es == [] then []
    else if CountOf(all, es[0].provider) == 1 && PairOf(sides, es[0]) != [] then [es[0].provider] + Survivors(sides, all, es[1..])
    else Survivors(sides, all, es[1..])
  }

  lemma {:induction false} OnSideConcat(a: seq<Candidate>, b: seq<Candidate>, side: Side)
    ensures OnSide(a + b, side) == OnSide(a, side) + OnSide(b, side)
  {
    if a == [] {
      assert a + b == b;
    } else {
      assert (a + b)[1..] == a[1..] + b;
      OnSideConcat(a[1..], b, side);
    }
  }

  lemma {:induction false} PairSides(sides: Sides, e: Entry, side: Side)
    ensures |OnSide(PairOf(sides, e), side)| == if PairOf(sides, e) == [] then 0 else 1
    ensures forall c :: c in PairOf(sides, e) ==> c.provider == e.provider && c.odds > 1.0
  {
    var p := PairOf(sides, e);
    if p != [] {
      assert p[1..] == [p[1]] && p[1..][1..] == [];
      assert OnSide(p[1..], side) == if p[1].side == side then [p[1]] else [];
    }
  }

  lemma {:induction false} CountBounds(all: seq<Entry>, i: nat)
    requires i < |all|
    ensures CountOf(all, all[i].provider) == 1 ==> forall j :: 0 <= j < |all| && j != i ==> all[j].provider != all[i].provider
  {
    if CountOf(all, all[i].provider) == 1 {
      forall j | 0 <= j < |all| && j != i ensures all[j].provider != all[i].provider {
        if all[j].provider == all[i].provider { CountTwo(all, if i < j then i else j, if i < j then j else i); }
      }
    }
  }

  lemma {:induction false} CountSome(es: seq<Entry>, i: nat)
    requires i < |es|
    ensures CountOf(es, es[i].provider) >= 1
  {
    if i > 0 { CountSome(es[1..], i - 1); }
  }

  lemma {:induction false} CountTwo(es: seq<Entry>, i: nat, j: nat)
    requires i < j < |es| && es[i].provider == es[j].provider
    ensures CountOf(es, es[i].provider) >= 2
  {
    if i > 0 { CountTwo(es[1..], i - 1, j - 1); } else { CountSome(es[1..], j - 1); }
  }

  lemma {:induction false} SidesOfSurvivors(sides: Sides, all: seq<Entry>, es: seq<Entry>, side: Side)
    ensures |OnSide(ValidIn(sides, all, es), side)| == |Survivors(sides, all, es)|
    ensures ProvidersOf(ValidIn(sides, all, es)) == set p | p in Survivors(sides, all, es)
    ensures forall p :: p in Survivors(sides, all, es) ==> exists i :: 0 <= i < |es| && es[i].provider == p && CountOf(all, p) == 1
  {
    if es != [] {
      SidesOfSurvivors(sides, all, es[1..], side);
      var head := if CountOf(all, es[0].provider) == 1 then PairOf(sides, es[0]) else [];
      PairSides(sides, es[0], side);
      OnSideConcat(head, ValidIn(sides, all, es[1..]), side);
      forall p | p in Survivors(sides, all, es) ensures exists i :: 0 <= i < |es| && es[i].provider == p && CountOf(all, p) == 1 {
        if p in Survivors(sides, all, es[1..]) {
          var i :| 0 <= i < |es[1..]| && es[1..][i].provider == p && CountOf(all, p) == 1;
          assert es[i + 1].provider == p;
        } else {
          assert es[0].provider == p;
        }
      }
      assert ProvidersOf(ValidIn(sides, all, es)) == ProvidersOf(head) + ProvidersOf(ValidIn(sides, all, es[1..]));
      if head != [] { assert head[0] in head; }
    }
  }

  lemma {:induction false} SurvivorsDistinct(sides: Sides, all: seq<Entry>, k: nat)
    requires k <= |all|
    ensures |set p | p in Survivors(sides, all, all[k..])| == |Survivors(sides, all, all[k..])|
    decreases |all| - k
  {
    var es := all[k..];
    if k < |all| {
      assert es[1..] == all[k + 1..];
      SurvivorsDistinct(sides, all, k + 1);
      var rest := Survivors(sides, all, es[1..]);
      if CountOf(all, es[0].provider) == 1 && PairOf(sides, es[0]) != [] {
        CountBounds(all, k);
        SidesOfSurvivors(sides, all, es[1..], TeamA);
        assert es[0].provider !in rest;
        assert (set p | p in Survivors(sides, all, es)) == {es[0].provider} + set p | p in rest;
      }
    }
  }

  /** Each provider that contributes has exactly one candidate on each side, so the
      two sides always have as many candidates as there are providers. */
  lemma {:induction false} OneCandidatePerSide(sides: Sides, es: seq<Entry>, side: Side)
    ensures |OnSide(ValidIn(sides, es, es), side)| == |ProvidersOf(ValidIn(sides, es, es))|
  {
    SidesOfSurvivors(sides, es, es, side);
    assert es[0..] == es;
    SurvivorsDistinct(sides, es, 0);
  }

  lemma {:induction false} ValidOdds(sides: Sides, all: seq<Entry>, es: seq<Entry>)
    ensures forall c :: c in ValidIn(sides, all, es) ==> c.odds > 1.0
  {
    if es != [] {
      ValidOdds(sides, all, es[1..]);
      PairSides(sides, es[0], TeamA);
    }
  }

  // --- Sorting and medians ---------------------------------------------------

  /** Higher odds first, then by provider. */
  predicate Ahead(a: Candidate, b: Candidate) {
    a.odds > b.odds || (a.odds == b.odds && TextBefore(a.provider, b.provider))
  }

  function InsertBy(c: Candidate, cs: seq<Candidate>): (r: seq<Candidate>)
    ensures |r| == |cs| + 1 && multiset(r) == multiset(cs) + multiset{c}
  {
    if cs == [] || Ahead(c, cs[0]) then [c] + cs
    else
      assert cs == [cs[0]] + cs[1..];
      [cs[0]] + InsertBy(c, cs[1..])
  }

  function SortBy(cs: seq<Candidate>): (r: seq<Candidate>)
    ensures |r| == |cs| && multiset(r) == multiset(cs)
  {
    if cs == [] then []
    else
      var n := |cs| - 1;
      assert cs == cs[..n] + [cs[n]];
      InsertBy(cs[n], SortBy(cs[..n]))
  }

  predicate Descending(cs: seq<Candidate>) { forall i, j :: 0 <= i < j < |cs| ==> cs[i].odds >= cs[j].odds }

  lemma {:induction false} InsertDescending(c: Candidate, cs: seq<Candidate>)
    requires Descending(cs)
    ensures Descending(InsertBy(c, cs))
  {
    if cs == [] || Ahead(c, cs[0]) {
    } else {
      InsertDescending(c, cs[1..]);
      var r := InsertBy(c, cs[1..]);
      forall k | 0 <= k < |r| ensures cs[0].odds >= r[k].odds {
        assert r[k] in multiset(r);
        if r[k] != c { var i :| 0 <= i < |cs[1..]| && cs[1..][i] == r[k]; assert cs[i + 1] == r[k]; }
      }
    }
  }

  lemma {:induction false} SortDescending(cs: seq<Candidate>)
    ensures Descending(SortBy(cs))
  {
    if cs != [] {
      SortDescending(cs[..|cs| - 1]);
      InsertDescending(cs[|cs| - 1], SortBy(cs[..|cs| - 1]));
    }
  }

  /** The side's best price: the first after sorting. */
  function Best(cs: seq<Candidate>): Candidate
    requires cs != []
  {
    SortBy(cs)[0]
  }

  lemma {:induction false} BestIsHighest(cs: seq<Candidate>)
    requires cs != []
    ensures Best(cs) in cs && forall c :: c in cs ==> c.odds <= Best(cs).odds
  {
    SortDescending(cs);
    var r := SortBy(cs);
    assert r[0] in multiset(r) && r[0] in multiset(cs);
    forall c | c in cs ensures c.odds <= r[0].odds {
      assert c in multiset(cs) && c in multiset(r);
      var i :| 0 <= i < |r| && r[i] == c;
    }
  }

  function Insert(x: real, xs: seq<real>): (r: seq<real>)
    ensures |r| == |xs| + 1 && multiset(r) == multiset(xs) + multiset{x}
  {
    if xs == [] || x <= xs[0] then [x] + xs
    else
      assert xs == [xs[0]] + xs[1..];
      [xs[0]] + Insert(x, xs[1..])
  }

  function Sort(xs: seq<real>): (r: seq<real>)
    ensures |r| == |xs| && multiset(r) == multiset(xs)
  {
    if xs == [] then []
    else
      assert xs == [xs[0]] + xs[1..];
      Insert(xs[0], Sort(xs[1..]))
  }

  predicate Ascending(xs: seq<real>) { forall i, j :: 0 <= i < j < |xs| ==> xs[i] <= xs[j] }

  lemma {:induction false} InsertAscending(x: real, xs: seq<real>)
    requires Ascending(xs)
    ensures Ascending(Insert(x, xs))
  {
    if xs == [] || x <= xs[0] {
    } else {
      InsertAscending(x, xs[1..]);
      var r := Insert(x, xs[1..]);
      forall k | 0 <= k < |r| ensures xs[0] <= r[k] {
        assert r[k] in multiset(r);
        if r[k] != x { var i :| 0 <= i < |xs[1..]| && xs[1..][i] == r[k]; assert xs[i + 1] == r[k]; }
      }
    }
  }

  lemma {:induction false} SortAscending(xs: seq<real>)
    ensures Ascending(Sort(xs))
  {
    if xs != [] {
      SortAscending(xs[1..]);
      InsertAscending(xs[0], Sort(xs[1..]));
    }
  }

  function Median(xs: seq<real>): real
    requires xs != []
  {
    var s, m := Sort(xs), |xs| / 2;
    if |xs| % 2 == 1 then s[m] else (s[m - 1] + s[m]) / 2.0
  }

  function Below(xs: seq<real>, v: real): nat {
    if xs == [] then 0 else (if xs[0] < v then 1 else 0) + Below(xs[1..], v)
  }

  function Above(xs: seq<real>, v: real): nat {
    if xs == [] then 0 else (if xs[0] > v then 1 else 0) + Above(xs[1..], v)
  }

  lemma {:induction false} InsertCounts(x: real, xs: seq<real>, v: real)
    ensures Below(Insert(x, xs), v) == Below(xs, v) + if x < v then 1 else 0
    ensures Above(Insert(x, xs), v) == Above(xs, v) + if x > v then 1 else 0
  {
    if xs == [] || x <= xs[0] {
      assert ([x] + xs)[1..] == xs;
    } else {
      InsertCounts(x, xs[1..], v);
      assert ([xs[0]] + Insert(x, xs[1..]))[1..] == Insert(x, xs[1..]);
    }
  }

  lemma {:induction false} SortCounts(xs: seq<real>, v: real)
    ensures Below(Sort(xs), v) == Below(xs, v) && Above(Sort(xs), v) == Above(xs, v)
  {
    if xs != [] {
      SortCounts(xs[1..], v);
      InsertCounts(xs[0], Sort(xs[1..]), v);
    }
  }

  /** Nothing from position k on is below v; nothing before it is above. */
  lemma {:induction false} BelowPrefix(xs: seq<real>, v: real, k: nat)
    requires k <= |xs| && forall i :: k <= i < |xs| ==> xs[i] >= v
    ensures Below(xs, v) <= k
  {
    if xs != [] { BelowPrefix(xs[1..], v, if k > 0 then k - 1 else 0); }
  }

  lemma {:induction false} AboveSuffix(xs: seq<real>, v: real, k: nat)
    requires k <= |xs| && forall i :: 0 <= i < k ==> xs[i] <= v
    ensures Above(xs, v) <= |xs| - k
  {
    if xs != [] { AboveSuffix(xs[1..], v, if k > 0 then k - 1 else 0); }
  }

  /** At most half the values lie below the median and at most half above. */
  lemma {:induction false} MedianSplits(xs: seq<real>)
    requires xs != []
    ensures 2 * Below(xs, Median(xs)) <= |xs| && 2 * Above(xs, Median(xs)) <= |xs|
  {
    var s, m, v := Sort(xs), |xs| / 2, Median(xs);
    SortAscending(xs);
    SortCounts(xs, v);
    assert |xs| % 2 == 0 ==> s[m - 1] <= v <= s[m];
    BelowPrefix(s, v, m);
    AboveSuffix(s, v, if |xs| % 2 == 1 then m + 1 else m);
  }

  // --- Removing the margin ---------------------------------------------------

  predicate Prices(odds: seq<real>) { forall i :: 0 <= i < |odds| ==> odds[i] > 1.0 }

  function Inverse(o: real): (p: real)
    requires o > 1.0
    ensures 0.0 < p < 1.0 && p * o == 1.0
  {
    1.0 / o
  }

  function Inverses(odds: seq<real>): (ps: seq<real>)
    requires Prices(odds)
    ensures |ps| == |odds| && forall i :: 0 <= i < |odds| ==> ps[i] == Inverse(odds[i])
  {
    seq(|odds|, i requires 0 <= i < |odds| => Inverse(odds[i]))
  }

  function Sum(xs: seq<real>): real { if xs == [] then 0.0 else Sum(xs[..|xs| - 1]) + xs[|xs| - 1] }

  function Scaled(xs: seq<real>, total: real): (ys: seq<real>)
    requires total > 0.0
    ensures |ys| == |xs| && forall i :: 0 <= i < |xs| ==> ys[i] == xs[i] / total
  {
    seq(|xs|, i requires 0 <= i < |xs| => xs[i] / total)
  }

  predicate Positive(xs: seq<real>) { forall i :: 0 <= i < |xs| ==> xs[i] > 0.0 }

  lemma {:induction false} SumPositive(xs: seq<real>)
    requires Positive(xs)
    ensures Sum(xs) >= 0.0 && (xs != [] ==> Sum(xs) > 0.0)
  {
    if xs != [] { SumPositive(xs[..|xs| - 1]); }
  }

  /** market-analytics.ts `deVigProbabilities`. */
  function DeVig(odds: seq<real>): Option<seq<real>> {
    if (|odds| != 2 && |odds| != 3) || !Prices(odds) then None
    else
      SumPositive(Inverses(odds));
      Some(Scaled(Inverses(odds), Sum(Inverses(odds))))
  }

  lemma {:induction false} AddFractions(x: real, y: real, s: real)
    requires s > 0.0
    ensures x / s + y / s == (x + y) / s
  {
  }

  lemma {:induction false} ScaledSum(xs: seq<real>, total: real)
    requires total > 0.0
    ensures Sum(Scaled(xs, total)) == Sum(xs) / total
  {
    if xs != [] {
      var n := |xs| - 1;
      ScaledSum(xs[..n], total);
      assert Scaled(xs, total)[..n] == Scaled(xs[..n], total);
      AddFractions(Sum(xs[..n]), xs[n], total);
    }
  }

  lemma {:induction false} PartOfSum(xs: seq<real>, i: nat)
    requires Positive(xs) && i < |xs|
    ensures xs[i] <= Sum(xs) && (|xs| >= 2 ==> xs[i] < Sum(xs))
  {
    var n := |xs| - 1;
    SumPositive(xs[..n]);
    if i < n { PartOfSum(xs[..n], i); }
  }

  lemma {:induction false} ProperFraction(a: real, b: real)
    requires 0.0 < a < b
    ensures 0.0 < a / b < 1.0 && (a / b) * b == a
  {
    var q := a / b;
    assert q * b == a;
    if q >= 1.0 { AtLeast(q, b); }
  }

  lemma {:induction false} AtLeast(q: real, b: real)
    requires q >= 1.0 && b > 0.0
    ensures q * b >= b
  {
  }

  lemma {:induction false} DeVigSum(odds: seq<real>)
    requires Prices(odds) && (|odds| == 2 || |odds| == 3)
    ensures Sum(DeVig(odds).value) == 1.0
  {
    var ps := Inverses(odds);
    SumPositive(ps);
    ScaledSum(ps, Sum(ps));
    WholeFraction(1.0, Sum(ps));
  }

  lemma {:induction false} DeVigEntry(odds: seq<real>, i: nat)
    requires Prices(odds) && (|odds| == 2 || |odds| == 3) && i < |odds|
    ensures DeVig(odds).Some? && |DeVig(odds).value| == |odds| && 0.0 < DeVig(odds).value[i] < 1.0
    ensures DeVig(odds).value[i] * Sum(Inverses(odds)) == Inverse(odds[i])
  {
    var ps := Inverses(odds);
    SumPositive(ps);
    PartOfSum(ps, i);
    ProperFraction(ps[i], Sum(ps));
  }

  /** De-vigged prices of a two- or three-way market are probabilities: each strictly
      between 0 and 1, together 1. */
  lemma {:induction false} DeVigNormalises(odds: seq<real>)
    requires Prices(odds) && (|odds| == 2 || |odds| == 3)
    ensures DeVig(odds).Some? && |DeVig(odds).value| == |odds| && Sum(DeVig(odds).value) == 1.0
    ensures forall i :: 0 <= i < |odds| ==> 0.0 < DeVig(odds).value[i] < 1.0
  {
    DeVigSum(odds);
    forall i | 0 <= i < |odds| ensures 0.0 < DeVig(odds).value[i] < 1.0 { DeVigEntry(odds, i); }
  }

  // --- Arbitrage -------------------------------------------------------------

  /** Rounds to cents, halves up. */
  function Cents(x: real): int { (x * 100.0 + 0.5).Floor }

  function Round(x: real): real { Cents(x) as real / 100.0 }

  datatype Arbitrage = Arbitrage(inverseSum: real, stakeA: real, stakeB: real, expectedReturn: real, shownA: real, shownB: real)

  function ArbitrageOf(a: real, b: real): Option<Arbitrage>
    requires a > 1.0 && b > 1.0
  {
    var inverseSum := 1.0 / a + 1.0 / b;
    if inverseSum >= 1.0 then None
    else
      var stakeA := (100.0 * (1.0 / a)) / inverseSum;
      Some(Arbitrage(inverseSum, stakeA, 100.0 - stakeA, 100.0 / inverseSum, Round(stakeA), Round(100.0 - stakeA)))
  }

  /** Betting on both makes an arbitrage. */
  predicate Profitable(a: Candidate, b: Candidate) {
    a.odds > 1.0 && b.odds > 1.0 && 1.0 / a.odds + 1.0 / b.odds < 1.0
  }

  lemma {:induction false} InverseMonotone(a: real, b: real)
    requires 0.0 < a <= b
    ensures 1.0 / b <= 1.0 / a
  {
  }

  lemma {:induction false} BetterProfits(a: Candidate, b: Candidate, x: Candidate, y: Candidate)
    requires Profitable(a, b) && a.odds <= x.odds && b.odds <= y.odds
    ensures Profitable(x, y)
  {
    InverseMonotone(a.odds, x.odds);
    InverseMonotone(b.odds, y.odds);
  }

  /** Both outcomes pay the expected return, which exceeds the stake of 100; in cents
      the stakes add up to 100 or, when both round up, to 100.01. */
  predicate PaysBack(x: Arbitrage, a: real, b: real) {
    && x.stakeA + x.stakeB == 100.0
    && x.stakeA * a == x.expectedReturn && x.stakeB * b == x.expectedReturn && x.expectedReturn > 100.0
    && (Cents(x.stakeA) + Cents(x.stakeB) == 10000 || Cents(x.stakeA) + Cents(x.stakeB) == 10001)
  }

  lemma {:induction false} WholeFraction(x: real, s: real)
    requires s > 0.0
    ensures (x * s) / s == x
  {
  }

  /** A reported arbitrage pays whichever side wins. */
  lemma {:induction false} ArbitragePays(a: real, b: real)
    requires a > 1.0 && b > 1.0 && ArbitrageOf(a, b).Some?
    ensures PaysBack(ArbitrageOf(a, b).value, a, b)
  {
    var s := 1.0 / a + 1.0 / b;
    CentsOfComplement((100.0 * (1.0 / a)) / s);
  }

  lemma {:induction false} CentsOfComplement(x: real)
    ensures Cents(x) + Cents(100.0 - x) in {10000, 10001}
  {
  }

  // --- The analysis ----------------------------------------------------------

  datatype Input = Input(
    canonicalId: Option<string>,
    matching: string,
    teamA: string,
    teamB: string,
    canonical: string -> string,
    confidence: Option<real>,
    providers: seq<Provider>,
    outlierThreshold: real,
    minEdge: Option<real>)

  function SidesOf(inp: Input): Sides { Sides(inp.canonical(inp.teamA), inp.canonical(inp.teamB), inp.canonical) }

  /** A settled match of two teams that also differ by canonical name. */
  predicate Comparable(inp: Input) {
    && inp.canonicalId.Some? && inp.canonicalId.value != ""
    && inp.matching in {"matched", "partial"}
    && inp.teamA != inp.teamB
    && SidesOf(inp).teamA != SidesOf(inp).teamB
  }

  datatype Analysis = Analysis(category: string, mapNumber: Option<int>, bestA: Candidate, nextA: Option<real>, bestB: Candidate, nextB: Option<real>,
                               outliers: seq<Candidate>, valueBets: seq<Candidate>, arbitrage: Option<Arbitrage>)

  function OddsOf(cs: seq<Candidate>): (xs: seq<real>)
    ensures |xs| == |cs| && forall i :: 0 <= i < |cs| ==> xs[i] == cs[i].odds
  {
    seq(|cs|, i requires 0 <= i < |cs| => cs[i].odds)
  }

  function Magnitude(x: real): real { if x < 0.0 then -x else x }

  predicate Deviates(c: Candidate, median: real, threshold: real)
    requires median != 0.0
  {
    Magnitude((c.odds - median) / median * 100.0) > threshold
  }

  function Deviating(cs: seq<Candidate>, median: real, threshold: real): seq<Candidate>
    requires median != 0.0
  {
    if cs == [] then []
    else (if Deviates(cs[0], median, threshold) then [cs[0]] else []) + Deviating(cs[1..], median, threshold)
  }

  /** Prices far from the median; only where three or more are compared. */
  function Outliers(cs: seq<Candidate>, threshold: real): seq<Candidate> {
    if |cs| < 3 then []
    else
      var m := Median(OddsOf(cs));
      if m == 0.0 then [] else Deviating(SortBy(cs), m, threshold)
  }

  function NextBest(cs: seq<Candidate>): Option<real> { if |cs| < 2 then None else Some(SortBy(cs)[1].odds) }

  /** The provider's first price on the other side. */
  function PriceOf(cs: seq<Candidate>, provider: string): Option<real> {
    if cs == [] then None else if cs[0].provider == provider then Some(cs[0].odds) else PriceOf(cs[1..], provider)
  }

  /** Margin-free probabilities of one side, provider by provider. */
  function FairOf(as_: seq<Candidate>, bs: seq<Candidate>, side: Side): seq<real> {
    if as_ == [] then []
    else
      var b := PriceOf(bs, as_[0].provider);
      var fair := if b.None? then None else DeVig([as_[0].odds, b.value]);
      (if fair.Some? && |fair.value| == 2 then [fair.value[if side.TeamA? then 0 else 1]] else []) + FairOf(as_[1..], bs, side)
  }

  function Edged(cs: seq<Candidate>, fairProbability: real, minEdge: real): seq<Candidate>
    requires fairProbability != 0.0
  {
    if cs == [] then []
    else (if (cs[0].odds / (1.0 / fairProbability) - 1.0) * 100.0 >= minEdge then [cs[0]] else []) + Edged(cs[1..], fairProbability, minEdge)
  }

  function ValueBets(inp: Input, as_: seq<Candidate>, bs: seq<Candidate>, side: Side, providers: nat): seq<Candidate> {
    var fair := FairOf(as_, bs, side);
    var confident := inp.confidence.None? || inp.confidence.value >= 0.8;
    if inp.matching != "matched" || !confident || providers < 3 || fair == [] || Median(fair) == 0.0 then []
    else Edged(if side.TeamA? then as_ else bs, Median(fair), if inp.minEdge.Some? then inp.minEdge.value else 5.0)
  }

  function AnalyzeGroup(inp: Input, es: seq<Entry>): Option<Analysis>
    requires es != []
  {
    var valid := ValidIn(SidesOf(inp), es, es);
    var as_, bs, count := OnSide(valid, TeamA), OnSide(valid, TeamB), |ProvidersOf(valid)|;
    if count < 2 || |as_| != count || |bs| != count then None
    else
      var a, b := Best(as_), Best(bs);
      Some(Analysis(es[0].market.category, es[0].market.mapNumber, a, NextBest(as_), b, NextBest(bs),
                    Outliers(as_, inp.outlierThreshold) + Outliers(bs, inp.outlierThreshold),
                    ValueBets(inp, as_, bs, TeamA, count) + ValueBets(inp, as_, bs, TeamB, count),
                    if a.odds > 1.0 && b.odds > 1.0 then ArbitrageOf(a.odds, b.odds) else None))
  }

  lemma {:induction false} OnSideMembers(cs: seq<Candidate>, side: Side)
    ensures forall c :: c in OnSide(cs, side) <==> c in cs && c.side == side
  {
    if cs != [] {
      OnSideMembers(cs[1..], side);
      assert cs == [cs[0]] + cs[1..];
    }
  }

  /** A group is analysed iff two providers contribute: the sides never differ in
      number. Its best prices are the highest of their sides. */
  lemma {:induction false} AnalysisExists(inp: Input, es: seq<Entry>)
    requires es != []
    ensures var valid := ValidIn(SidesOf(inp), es, es);
            && (AnalyzeGroup(inp, es).Some? <==> |ProvidersOf(valid)| >= 2)
            && (AnalyzeGroup(inp, es).Some? ==>
                  var r := AnalyzeGroup(inp, es).value;
                  && OnSide(valid, TeamA) != [] && r.bestA == Best(OnSide(valid, TeamA))
                  && OnSide(valid, TeamB) != [] && r.bestB == Best(OnSide(valid, TeamB))
                  && r.arbitrage == if r.bestA.odds > 1.0 && r.bestB.odds > 1.0 then ArbitrageOf(r.bestA.odds, r.bestB.odds) else None)
  {
    OneCandidatePerSide(SidesOf(inp), es, TeamA);
    OneCandidatePerSide(SidesOf(inp), es, TeamB);
  }

  lemma {:induction false} BestMeans(cs: seq<Candidate>, side: Side)
    requires OnSide(cs, side) != []
    ensures var b := Best(OnSide(cs, side)); b in cs && b.side == side && forall c :: c in cs && c.side == side ==> c.odds <= b.odds
  {
    BestIsHighest(OnSide(cs, side));
    OnSideMembers(cs, side);
  }

  /** An analysed group reports an arbitrage iff some pair of opposite prices makes
      one, and then it pays back whichever side wins. */
  lemma {:induction false} AnalysisArbitrage(inp: Input, es: seq<Entry>)
    requires es != [] && AnalyzeGroup(inp, es).Some?
    ensures var valid, r := ValidIn(SidesOf(inp), es, es), AnalyzeGroup(inp, es).value;
            && (r.arbitrage.Some? <==> exists a, b :: a in valid && b in valid && a.side.TeamA? && b.side.TeamB? && Profitable(a, b))
            && (r.arbitrage.Some? ==> PaysBack(r.arbitrage.value, r.bestA.odds, r.bestB.odds))
  {
    var valid, r := ValidIn(SidesOf(inp), es, es), AnalyzeGroup(inp, es).value;
    AnalysisExists(inp, es);
    ValidOdds(SidesOf(inp), es, es);
    BestMeans(valid, TeamA);
    BestMeans(valid, TeamB);
    DecidedByBest(valid, r.bestA, r.bestB);
    if r.arbitrage.Some? { ArbitragePays(r.bestA.odds, r.bestB.odds); }
  }

  lemma {:induction false} DecidedByBest(cs: seq<Candidate>, x: Candidate, y: Candidate)
    requires forall c :: c in cs ==> c.odds > 1.0
    requires x in cs && x.side.TeamA? && forall c :: c in cs && c.side.TeamA? ==> c.odds <= x.odds
    requires y in cs && y.side.TeamB? && forall c :: c in cs && c.side.TeamB? ==> c.odds <= y.odds
    ensures ArbitrageOf(x.odds, y.odds).Some?
       <==> exists a, b :: a in cs && b in cs && a.side.TeamA? && b.side.TeamB? && Profitable(a, b)
  {
    assert ArbitrageOf(x.odds, y.odds).Some? <==> Profitable(x, y);
    if a, b :| a in cs && b in cs && a.side.TeamA? && b.side.TeamB? && Profitable(a, b) { BetterProfits(a, b, x, y); }
  }

  function UpCount(cs: seq<Candidate>, median: real): nat {
    if cs == [] then 0 else (if cs[0].odds > median then 1 else 0) + UpCount(cs[1..], median)
  }

  lemma {:induction false} UpIsAbove(cs: seq<Candidate>, median: real)
    ensures UpCount(cs, median) == Above(OddsOf(cs), median)
  {
    if cs != [] {
      UpIsAbove(cs[1..], median);
      assert OddsOf(cs)[1..] == OddsOf(cs[1..]);
    }
  }

  lemma {:induction false} UpSort(c: Candidate, cs: seq<Candidate>, median: real)
    ensures UpCount(InsertBy(c, cs), median) == UpCount(cs, median) + if c.odds > median then 1 else 0
  {
    if cs == [] || Ahead(c, cs[0]) {
      assert ([c] + cs)[1..] == cs;
    } else {
      UpSort(c, cs[1..], median);
      assert ([cs[0]] + InsertBy(c, cs[1..]))[1..] == InsertBy(c, cs[1..]);
    }
  }

  lemma {:induction false} UpSorted(cs: seq<Candidate>, median: real)
    ensures UpCount(SortBy(cs), median) == UpCount(cs, median)
  {
    if cs != [] {
      var n := |cs| - 1;
      UpSorted(cs[..n], median);
      UpSort(cs[n], SortBy(cs[..n]), median);
      UpSnoc(cs[..n], cs[n], median);
      assert cs[..n] + [cs[n]] == cs;
    }
  }

  lemma {:induction false} UpSnoc(cs: seq<Candidate>, c: Candidate, median: real)
    ensures UpCount(cs + [c], median) == UpCount(cs, median) + if c.odds > median then 1 else 0
  {
    if cs == [] {
      assert [c][1..] == [];
    } else {
      assert (cs + [c])[1..] == cs[1..] + [c];
      UpSnoc(cs[1..], c, median);
    }
  }

  lemma {:induction false} UpConcat(a: seq<Candidate>, b: seq<Candidate>, median: real)
    ensures UpCount(a + b, median) == UpCount(a, median) + UpCount(b, median)
  {
    if a == [] {
      assert a + b == b;
    } else {
      assert (a + b)[1..] == a[1..] + b;
      UpConcat(a[1..], b, median);
    }
  }

  lemma {:induction false} DeviatingUp(cs: seq<Candidate>, median: real, threshold: real)
    requires median != 0.0
    ensures UpCount(Deviating(cs, median, threshold), median) <= UpCount(cs, median)
  {
    if cs != [] {
      DeviatingUp(cs[1..], median, threshold);
      var head := if Deviates(cs[0], median, threshold) then [cs[0]] else [];
      UpConcat(head, Deviating(cs[1..], median, threshold), median);
      assert head != [] ==> head[1..] == [];
    }
  }

  /** At most half of a side's prices can be reported as upward outliers. */
  lemma {:induction false} OutliersAreFew(cs: seq<Candidate>, threshold: real)
    requires cs != []
    ensures 2 * UpCount(Outliers(cs, threshold), Median(OddsOf(cs))) <= |cs|
  {
    var m := Median(OddsOf(cs));
    MedianSplits(OddsOf(cs));
    UpIsAbove(cs, m);
    UpSorted(cs, m);
    if |cs| >= 3 && m != 0.0 { DeviatingUp(SortBy(cs), m, threshold); }
  }

  // --- The loops -------------------------------------------------------------

  method GroupMarkets(ps: seq<Provider>) returns (gs: Groups)
    ensures gs == GroupAll(ps)
  {
    gs := [];
    for i := 0 to |ps|
      invariant gs == GroupAll(ps[..i])
    {
      assert ps[..i + 1][..i] == ps[..i];
      if ps[i].healthy {
        ghost var before := gs;
        var ms := ps[i].markets;
        for j := 0 to |ms|
          invariant gs == AddMarkets(before, ps[i].name, ms[..j])
        {
          assert ms[..j + 1][..j] == ms[..j];
          if Usable(ms[j]) {
            gs := Put(gs, KeyOfMarket(ms[j]), Entries(gs, KeyOfMarket(ms[j])) + [Entry(ms[j], ps[i].name)]);
          }
        }
        assert ms[..|ms|] == ms;
      }
    }
    assert ps[..|ps|] == ps;
  }

  function AnalyzeGroups(inp: Input, gs: Groups): seq<Analysis> {
    if gs == [] then []
    else
      var n := |gs| - 1;
      var r := if gs[n].1 == [] then None else AnalyzeGroup(inp, gs[n].1);
      AnalyzeGroups(inp, gs[..n]) + if r.Some? then [r.value] else []
  }

  method AnalyzeMarkets(inp: Input) returns (results: seq<Analysis>)
    ensures results == if Comparable(inp) then AnalyzeGroups(inp, GroupAll(inp.providers)) else []
  {
    results := [];
    if inp.canonicalId.None? || inp.canonicalId.value == "" || inp.matching !in {"matched", "partial"} || inp.teamA == inp.teamB {
      return;
    }
    var sides := SidesOf(inp);
    if sides.teamA == sides.teamB { return; }
    var gs := GroupMarkets(inp.providers);
    for i := 0 to |gs|
      invariant results == AnalyzeGroups(inp, gs[..i])
    {
      assert gs[..i + 1][..i] == gs[..i];
      if gs[i].1 != [] {
        var r := AnalyzeGroup(inp, gs[i].1);
        if r.Some? { results := results + [r.value]; }
      }
    }
    assert gs[..|gs|] == gs;
  }
}
