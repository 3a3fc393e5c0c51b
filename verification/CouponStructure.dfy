/** The structural coupon decoder (protocol.parser.ts `couponStructure`). */
module CouponStructure {
  import opened Domain
  import opened Bet365Records

  datatype Market = Market(fields: Fields, records: seq<Record>, selections: seq<Fields>)

  /** `head` is the group's own record's fields; a group opened by a market that
      follows no group has none. */
  datatype Group = Group(head: Option<Fields>, records: seq<Record>, markets: seq<Market>)

  datatype Coupon = Coupon(groups: seq<Group>, unassociated: seq<Record>)

  /** Whether the last group, and in it the last market, still take records. */
  datatype Cursor = Cursor(inGroup: bool, inMarket: bool)

  // --- The loop --------------------------------------------------------------

  function AddMarket(gs: seq<Group>, m: Market): seq<Group>
    requires gs != []
  {
    var n := |gs| - 1;
    gs[n := gs[n].(markets := gs[n].markets + [m])]
  }

  function LastMarket(gs: seq<Group>): Option<Market> {
    if gs == [] || gs[|gs| - 1].markets == [] then None
    else Some(gs[|gs| - 1].markets[|gs[|gs| - 1].markets| - 1])
  }

  function ReplaceMarket(gs: seq<Group>, m: Market): seq<Group>
    requires LastMarket(gs).Some?
  {
    var n := |gs| - 1;
    gs[n := gs[n].(markets := gs[n].markets[|gs[n].markets| - 1 := m])]
  }

  function Extended(m: Market, r: Record): Market {
    Market(m.fields, m.records + [r], if r.kind == "PA" then m.selections + [r.fields] else m.selections)
  }

  datatype State = State(coupon: Coupon, cursor: Cursor)

  function Step(s: State, r: Record): State {
    var gs := s.coupon.groups;
    if r.kind == "EV" || r.kind == "CL" then
      State(s.coupon.(unassociated := s.coupon.unassociated + [r]), Cursor(false, false))
    else if r.kind == "MG" then
      State(s.coupon.(groups := gs + [Group(Some(r.fields), [], [])]), Cursor(true, false))
    else if r.kind == "MA" then
      var open := if s.cursor.inGroup && gs != [] then gs else gs + [Group(None, [], [])];
      State(s.coupon.(groups := AddMarket(open, Market(r.fields, [], []))), Cursor(true, true))
    else if s.cursor.inMarket && LastMarket(gs).Some? then
      s.(coupon := s.coupon.(groups := ReplaceMarket(gs, Extended(LastMarket(gs).value, r))))
    else if s.cursor.inGroup && gs != [] then
      s.(coupon := s.coupon.(groups := gs[|gs| - 1 := gs[|gs| - 1].(records := gs[|gs| - 1].records + [r])]))
    else
      s.(coupon := s.coupon.(unassociated := s.coupon.unassociated + [r]))
  }

  function Decode(rs: seq<Record>): State {
    if rs == [] then State(Coupon([], []), Cursor(false, false)) else Step(Decode(rs[..|rs| - 1]), rs[|rs| - 1])
  }

  method CouponStructureOf(rs: seq<Record>) returns (c: Coupon)
    ensures c == Decode(rs).coupon
  {
    var groups: seq<Group>, unassociated: seq<Record> := [], [];
    var inGroup, inMarket := false, false;
    for i := 0 to |rs|
      invariant Decode(rs[..i]) == State(Coupon(groups, unassociated), Cursor(inGroup, inMarket))
      invariant inGroup ==> groups != []
      invariant inMarket ==> inGroup && LastMarket(groups).Some?
    {
      assert rs[..i + 1][..i] == rs[..i];
      var r := rs[i];
      if r.kind == "EV" || r.kind == "CL" {
        inGroup, inMarket := false, false;
        unassociated := unassociated + [r];
      } else if r.kind == "MG" {
        groups := groups + [Group(Some(r.fields), [], [])];
        inGroup, inMarket := true, false;
      } else if r.kind == "MA" {
        if !inGroup { groups := groups + [Group(None, [], [])]; }
        groups := AddMarket(groups, Market(r.fields, [], []));
        inGroup, inMarket := true, true;
      } else if r.kind == "PA" && inMarket {
        var m := LastMarket(groups).value;
        m := m.(selections := m.selections + [r.fields]);
        groups := ReplaceMarket(groups, m.(records := m.records + [r]));
      } else if inMarket {
        var m := LastMarket(groups).value;
        groups := ReplaceMarket(groups, m.(records := m.records + [r]));
      } else if inGroup {
        var n := |groups| - 1;
        groups := groups[n := groups[n].(records := groups[n].records + [r])];
      } else {
        unassociated := unassociated + [r];
      }
    }
    assert rs[..|rs|] == rs;
    c := Coupon(groups, unassociated);
  }

  // --- Reading a coupon back -------------------------------------------------

  function MarketParts(ms: seq<Market>): seq<Record> {
    if ms == [] then []
    else MarketParts(ms[..|ms| - 1]) + [Record("MA", ms[|ms| - 1].fields)] + ms[|ms| - 1].records
  }

  function GroupParts(g: Group): seq<Record> {
    (if g.head.Some? then [Record("MG", g.head.value)] else []) + g.records + MarketParts(g.markets)
  }

  /** All records of the groups: each group's head, its own records, its markets. */
  function Parts(gs: seq<Group>): seq<Record> {
    if gs == [] then [] else Parts(gs[..|gs| - 1]) + GroupParts(gs[|gs| - 1])
  }

  /** s is an interleaving of a and b: every element comes from exactly one of them
      and both keep their order. */
  ghost predicate Shuffle<T>(s: seq<T>, a: seq<T>, b: seq<T>)
    decreases |s|
  {
    if s == [] then a == [] && b == []
    else
      var n := |s| - 1;
      || (a != [] && a[|a| - 1] == s[n] && Shuffle(s[..n], a[..|a| - 1], b))
      || (b != [] && b[|b| - 1] == s[n] && Shuffle(s[..n], a, b[..|b| - 1]))
  }

  lemma {:induction false} ShuffleLeft<T>(s: seq<T>, a: seq<T>, b: seq<T>, x: T)
    requires Shuffle(s, a, b)
    ensures Shuffle(s + [x], a + [x], b)
  {
    assert (s + [x])[..|s|] == s && (a + [x])[..|a|] == a;
  }

  lemma {:induction false} ShuffleRight<T>(s: seq<T>, a: seq<T>, b: seq<T>, x: T)
    requires Shuffle(s, a, b)
    ensures Shuffle(s + [x], a, b + [x])
  {
    assert (s + [x])[..|s|] == s && (b + [x])[..|b|] == b;
  }

  /** An interleaving loses and invents nothing. */
  lemma {:induction false} ShuffleConserves<T>(s: seq<T>, a: seq<T>, b: seq<T>)
    requires Shuffle(s, a, b)
    ensures multiset(s) == multiset(a) + multiset(b) && |s| == |a| + |b|
    decreases |s|
  {
    if s != [] {
      var n := |s| - 1;
      assert s == s[..n] + [s[n]];
      if a != [] && a[|a| - 1] == s[n] && Shuffle(s[..n], a[..|a| - 1], b) {
        ShuffleConserves(s[..n], a[..|a| - 1], b);
        assert a == a[..|a| - 1] + [a[|a| - 1]];
      } else {
        ShuffleConserves(s[..n], a, b[..|b| - 1]);
        assert b == b[..|b| - 1] + [b[|b| - 1]];
      }
    }
  }

  // --- Runs ------------------------------------------------------------------

  predicate Boundary(r: Record) { r.kind in {"MA", "MG", "EV", "CL"} }

  /** The records up to the next boundary. */
  function Run(rs: seq<Record>): seq<Record> {
    if rs == [] || Boundary(rs[0]) then [] else [rs[0]] + Run(rs[1..])
  }

  function SelectionsIn(rs: seq<Record>): seq<Fields> {
    if rs == [] then []
    else
      var n := |rs| - 1;
      if rs[n].kind == "PA" then SelectionsIn(rs[..n]) + [rs[n].fields] else SelectionsIn(rs[..n])
  }

  /** What the markets should be, read off the feed: for each MA record the records
      up to the next MA, MG, EV or CL, with their PA records as selections. */
  function MarketRuns(rs: seq<Record>): seq<Market> {
    if rs == [] then []
    else if rs[0].kind == "MA" then [Market(rs[0].fields, Run(rs[1..]), SelectionsIn(Run(rs[1..])))] + MarketRuns(rs[1..])
    else MarketRuns(rs[1..])
  }

  /** What the headed groups' own records should be. */
  function GroupRuns(rs: seq<Record>): seq<(Fields, seq<Record>)> {
    if rs == [] then []
    else if rs[0].kind == "MG" then [(rs[0].fields, Run(rs[1..]))] + GroupRuns(rs[1..])
    else GroupRuns(rs[1..])
  }

  function AllMarkets(gs: seq<Group>): seq<Market> {
    if gs == [] then [] else AllMarkets(gs[..|gs| - 1]) + gs[|gs| - 1].markets
  }

  function Heads(gs: seq<Group>): seq<(Fields, seq<Record>)> {
    if gs == [] then []
    else
      var n := |gs| - 1;
      if gs[n].head.Some? then Heads(gs[..n]) + [(gs[n].head.value, gs[n].records)] else Heads(gs[..n])
  }

  /** No boundary since the start of rs. */
  predicate Unbroken(rs: seq<Record>) { forall r :: r in rs ==> !Boundary(r) }

  lemma {:induction false} RunSnoc(rs: seq<Record>, r: Record)
    ensures Run(rs + [r]) == if Unbroken(rs) && !Boundary(r) then Run(rs) + [r] else Run(rs)
  {
    if rs == [] {
      assert (rs + [r])[1..] == [];
    } else {
      assert (rs + [r])[1..] == rs[1..] + [r];
      RunSnoc(rs[1..], r);
      assert rs == [rs[0]] + rs[1..];
    }
  }

  /** The last market's fields and records change by r; all others stay. */
  function ExtendLast(ms: seq<Market>, r: Record): seq<Market> {
    if ms == [] then ms else ms[|ms| - 1 := Extended(ms[|ms| - 1], r)]
  }

  function ExtendHead(hs: seq<(Fields, seq<Record>)>, r: Record): seq<(Fields, seq<Record>)> {
    if hs == [] then hs else hs[|hs| - 1 := (hs[|hs| - 1].0, hs[|hs| - 1].1 + [r])]
  }

  /** Is the feed so far inside a market, and inside a group before any market? */
  function LastBoundary(rs: seq<Record>): string {
    if rs == [] then "" else if Boundary(rs[|rs| - 1]) then rs[|rs| - 1].kind else LastBoundary(rs[..|rs| - 1])
  }

  lemma {:induction false} LastBoundaryCons(r: Record, rs: seq<Record>)
    ensures LastBoundary([r] + rs) == if Unbroken(rs) then if Boundary(r) then r.kind else "" else LastBoundary(rs)
    ensures Unbroken(rs) ==> LastBoundary(rs) == ""
    ensures !Unbroken(rs) ==> LastBoundary(rs) in {"MA", "MG", "EV", "CL"}
  {
    if rs == [] {
      assert ([r] + rs)[..0] == [] && ([r] + rs)[0] == r;
    } else {
      var n := |rs| - 1;
      assert ([r] + rs)[..|rs|] == [r] + rs[..n];
      assert ([r] + rs)[|rs|] == rs[n];
      LastBoundaryCons(r, rs[..n]);
      assert rs == rs[..n] + [rs[n]];
    }
  }

  /** The market that rs[0] opens, when r follows. */
  lemma {:induction false} FirstMarketSnoc(rs: seq<Record>, r: Record)
    ensures var m := Market(rs[0].fields, Run(rs[1..]), SelectionsIn(Run(rs[1..])));
            Market(rs[0].fields, Run(rs[1..] + [r]), SelectionsIn(Run(rs[1..] + [r])))
            == if Unbroken(rs[1..]) && !Boundary(r) then Extended(m, r) else m
    requires rs != []
  {
    RunSnoc(rs[1..], r);
    var run := Run(rs[1..]);
    assert (run + [r])[..|run|] == run;
  }

  lemma {:induction false} ExtendTail(m: Market, ms: seq<Market>, r: Record)
    ensures ms != [] ==> ExtendLast([m] + ms, r) == [m] + ExtendLast(ms, r)
    ensures ExtendLast([m], r) == [Extended(m, r)]
  {
  }

  lemma {:induction false} MarketRunsSnoc(rs: seq<Record>, r: Record)
    ensures MarketRuns(rs + [r])
         == if r.kind == "MA" then MarketRuns(rs) + [Market(r.fields, [], [])]
            else if !Boundary(r) && LastBoundary(rs) == "MA" then ExtendLast(MarketRuns(rs), r)
            else MarketRuns(rs)
    ensures LastBoundary(rs) == "MA" ==> MarketRuns(rs) != []
  {
    if rs == [] {
      assert (rs + [r])[1..] == [];
    } else {
      assert (rs + [r])[1..] == rs[1..] + [r];
      MarketRunsSnoc(rs[1..], r);
      assert [rs[0]] + rs[1..] == rs;
      LastBoundaryCons(rs[0], rs[1..]);
      if Unbroken(rs[1..]) { NoMarkets(rs[1..]); }
      if rs[0].kind == "MA" {
        FirstMarketSnoc(rs, r);
        OpenedSnoc(Market(rs[0].fields, Run(rs[1..]), SelectionsIn(Run(rs[1..]))), rs[1..], r);
      }
    }
  }

  /** A market followed by the markets of the rest of the feed, when r follows. */
  lemma {:induction false} OpenedSnoc(m: Market, rest: seq<Record>, r: Record)
    requires Unbroken(rest) ==> MarketRuns(rest) == [] && LastBoundary(rest) == ""
    requires LastBoundary(rest) == "MA" ==> MarketRuns(rest) != []
    requires MarketRuns(rest + [r])
          == if r.kind == "MA" then MarketRuns(rest) + [Market(r.fields, [], [])]
             else if !Boundary(r) && LastBoundary(rest) == "MA" then ExtendLast(MarketRuns(rest), r)
             else MarketRuns(rest)
    ensures [if Unbroken(rest) && !Boundary(r) then Extended(m, r) else m] + MarketRuns(rest + [r])
         == if r.kind == "MA" then [m] + MarketRuns(rest) + [Market(r.fields, [], [])]
            else if !Boundary(r) && (Unbroken(rest) || LastBoundary(rest) == "MA") then ExtendLast([m] + MarketRuns(rest), r)
            else [m] + MarketRuns(rest)
  {
    ExtendTail(m, MarketRuns(rest), r);
    assert [m] + [] == [m] && [Extended(m, r)] + [] == [Extended(m, r)];
  }

  lemma {:induction false} NoMarkets(rs: seq<Record>)
    requires Unbroken(rs)
    ensures MarketRuns(rs) == [] && GroupRuns(rs) == []
  {
    if rs != [] {
      assert rs[0] in rs;
      NoMarkets(rs[1..]);
    }
  }

  lemma {:induction false} GroupRunsSnoc(rs: seq<Record>, r: Record)
    ensures GroupRuns(rs + [r])
         == if r.kind == "MG" then GroupRuns(rs) + [(r.fields, [])]
            else if !Boundary(r) && LastBoundary(rs) == "MG" then ExtendHead(GroupRuns(rs), r)
            else GroupRuns(rs)
    ensures LastBoundary(rs) == "MG" ==> GroupRuns(rs) != []
  {
    if rs == [] {
      assert (rs + [r])[1..] == [];
    } else {
      assert (rs + [r])[1..] == rs[1..] + [r];
      GroupRunsSnoc(rs[1..], r);
      RunSnoc(rs[1..], r);
      assert [rs[0]] + rs[1..] == rs;
      LastBoundaryCons(rs[0], rs[1..]);
      if Unbroken(rs[1..]) { NoMarkets(rs[1..]); }
    }
  }

  // --- The decoder is lossless -----------------------------------------------

  ghost predicate CursorOk(rs: seq<Record>, s: State) {
    && (s.cursor.inMarket <==> LastBoundary(rs) == "MA")
    && (s.cursor.inGroup <==> LastBoundary(rs) == "MA" || LastBoundary(rs) == "MG")
    && (s.cursor.inGroup ==> s.coupon.groups != [])
    && (s.cursor.inMarket ==> LastMarket(s.coupon.groups).Some?)
    && (LastBoundary(rs) == "MG" ==> s.coupon.groups[|s.coupon.groups| - 1].head.Some? && s.coupon.groups[|s.coupon.groups| - 1].markets == [])
  }

  ghost predicate Faithful(rs: seq<Record>, s: State) {
    && CursorOk(rs, s)
    && AllMarkets(s.coupon.groups) == MarketRuns(rs)
    && Heads(s.coupon.groups) == GroupRuns(rs)
    && Shuffle(rs, s.coupon.unassociated, Parts(s.coupon.groups))
  }

  lemma {:induction false} PartsPush(gs: seq<Group>, g: Group)
    ensures Parts(gs + [g]) == Parts(gs) + GroupParts(g)
    ensures AllMarkets(gs + [g]) == AllMarkets(gs) + g.markets
    ensures Heads(gs + [g]) == if g.head.Some? then Heads(gs) + [(g.head.value, g.records)] else Heads(gs)
  {
    assert (gs + [g])[..|gs|] == gs;
  }

  lemma {:induction false} AddMarketMeans(gs: seq<Group>, m: Market)
    requires gs != [] && m.records == []
    ensures Parts(AddMarket(gs, m)) == Parts(gs) + [Record("MA", m.fields)]
    ensures AllMarkets(AddMarket(gs, m)) == AllMarkets(gs) + [m]
    ensures Heads(AddMarket(gs, m)) == Heads(gs) && LastMarket(AddMarket(gs, m)) == Some(m)
  {
    var n := |gs| - 1;
    var g, h := gs[n], gs[n].(markets := gs[n].markets + [m]);
    assert gs == gs[..n] + [g] && AddMarket(gs, m) == gs[..n] + [h];
    PartsPush(gs[..n], g);
    PartsPush(gs[..n], h);
    assert h.markets[..|g.markets|] == g.markets;
    assert GroupParts(h) == GroupParts(g) + [Record("MA", m.fields)];
  }

  lemma {:induction false} ReplaceMarketMeans(gs: seq<Group>, r: Record)
    requires LastMarket(gs).Some?
    ensures var hs := ReplaceMarket(gs, Extended(LastMarket(gs).value, r));
            && Parts(hs) == Parts(gs) + [r] && AllMarkets(hs) == ExtendLast(AllMarkets(gs), r)
            && Heads(hs) == Heads(gs) && LastMarket(hs).Some?
  {
    var n := |gs| - 1;
    var g, k := gs[n], |gs[n].markets| - 1;
    var m := Extended(g.markets[k], r);
    var h := g.(markets := g.markets[k := m]);
    assert gs == gs[..n] + [g] && ReplaceMarket(gs, m) == gs[..n] + [h];
    PartsPush(gs[..n], g);
    PartsPush(gs[..n], h);
    assert h.markets[..k] == g.markets[..k];
    assert GroupParts(h) == GroupParts(g) + [r];
    assert AllMarkets(gs) == AllMarkets(gs[..n]) + g.markets;
  }

  lemma {:induction false} GroupRecordMeans(gs: seq<Group>, r: Record)
    requires gs != [] && gs[|gs| - 1].markets == [] && gs[|gs| - 1].head.Some?
    ensures var n := |gs| - 1; var hs := gs[n := gs[n].(records := gs[n].records + [r])];
            Parts(hs) == Parts(gs) + [r] && AllMarkets(hs) == AllMarkets(gs) && Heads(hs) == ExtendHead(Heads(gs), r)
  {
    var n := |gs| - 1;
    var g, h := gs[n], gs[n].(records := gs[n].records + [r]);
    assert gs == gs[..n] + [g] && gs[n := h] == gs[..n] + [h];
    PartsPush(gs[..n], g);
    PartsPush(gs[..n], h);
    assert GroupParts(h) == GroupParts(g) + [r];
  }

  lemma {:induction false} BoundaryStep(rs: seq<Record>, s: State, r: Record)
    requires Faithful(rs, s) && Boundary(r)
    ensures Faithful(rs + [r], Step(s, r))
  {
    var gs := s.coupon.groups;
    assert (rs + [r])[..|rs|] == rs;
    MarketRunsSnoc(rs, r);
    GroupRunsSnoc(rs, r);
    if r.kind == "EV" || r.kind == "CL" {
      ShuffleLeft(rs, s.coupon.unassociated, Parts(gs), r);
    } else {
      ShuffleRight(rs, s.coupon.unassociated, Parts(gs), r);
      assert r == Record(r.kind, r.fields);
      if r.kind == "MG" {
        PartsPush(gs, Group(Some(r.fields), [], []));
        assert GroupParts(Group(Some(r.fields), [], [])) == [r];
      } else {
        var open := if s.cursor.inGroup && gs != [] then gs else gs + [Group(None, [], [])];
        PartsPush(gs, Group(None, [], []));
        assert GroupParts(Group(None, [], [])) == [];
        AddMarketMeans(open, Market(r.fields, [], []));
      }
    }
  }

  lemma {:induction false} ContentStep(rs: seq<Record>, s: State, r: Record)
    requires Faithful(rs, s) && !Boundary(r)
    ensures Faithful(rs + [r], Step(s, r))
  {
    var gs := s.coupon.groups;
    assert (rs + [r])[..|rs|] == rs;
    MarketRunsSnoc(rs, r);
    GroupRunsSnoc(rs, r);
    if s.cursor.inMarket {
      ReplaceMarketMeans(gs, r);
      ShuffleRight(rs, s.coupon.unassociated, Parts(gs), r);
    } else if s.cursor.inGroup {
      GroupRecordMeans(gs, r);
      ShuffleRight(rs, s.coupon.unassociated, Parts(gs), r);
    } else {
      ShuffleLeft(rs, s.coupon.unassociated, Parts(gs), r);
    }
  }

  lemma {:induction false} DecodeFaithful(rs: seq<Record>)
    ensures Faithful(rs, Decode(rs))
  {
    if rs != [] {
      var n := |rs| - 1;
      DecodeFaithful(rs[..n]);
      assert rs == rs[..n] + [rs[n]];
      if Boundary(rs[n]) {
        BoundaryStep(rs[..n], Decode(rs[..n]), rs[n]);
      } else {
        ContentStep(rs[..n], Decode(rs[..n]), rs[n]);
      }
    }
  }

  /** Lossless: the feed is an interleaving of the unassociated records and the
      groups' records, so every record lands in exactly one bucket and buckets keep
      feed order. */
  lemma {:induction false} DecoderIsLossless(rs: seq<Record>)
    ensures var c := Decode(rs).coupon;
            && Shuffle(rs, c.unassociated, Parts(c.groups))
            && multiset(rs) == multiset(c.unassociated) + multiset(Parts(c.groups))
  {
    DecodeFaithful(rs);
    ShuffleConserves(rs, Decode(rs).coupon.unassociated, Parts(Decode(rs).coupon.groups));
  }

  /** The markets, over all groups in order, are exactly the runs after the MA
      records, with their PA records as selections; the records a group keeps itself
      are exactly the run after its MG record. */
  lemma {:induction false} BucketsAreRuns(rs: seq<Record>)
    ensures AllMarkets(Decode(rs).coupon.groups) == MarketRuns(rs)
    ensures Heads(Decode(rs).coupon.groups) == GroupRuns(rs)
  {
    DecodeFaithful(rs);
  }
}
