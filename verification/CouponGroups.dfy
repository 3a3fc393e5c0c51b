/** In which group of a decoded coupon each market lies (protocol.parser.ts
    `couponStructure`). */
module CouponGroups {
  import opened Domain
  import opened Bet365Records
  import opened CouponStructure

  // --- Read off the feed -----------------------------------------------------

  /** A group begins at an MG record, and at an MA record that follows no group: the
      last boundary before it is an EV or CL record, or there is none. */
  predicate Opens(rs: seq<Record>, q: nat)
    requires q < |rs|
  {
    || rs[q].kind == "MG"
    || (rs[q].kind == "MA" && LastBoundary(rs[..q]) in {"", "EV", "CL"})
  }

  /** The group that begins at q is the one for the market record at p: no group is
      opened or closed in between. */
  ghost predicate Owns(rs: seq<Record>, q: nat, p: nat) {
    && q <= p < |rs| && rs[p].kind == "MA" && Opens(rs, q)
    && forall k :: q < k <= p ==> rs[k].kind !in {"MG", "EV", "CL"}
  }

  function HeadAt(r: Record): Option<Fields> {
    if r.kind == "MG" then Some(r.fields) else None
  }

  /** Where groups begin. */
  function Openings(rs: seq<Record>): seq<nat> {
    if rs == [] then []
    else
      var n := |rs| - 1;
      if Opens(rs, n) then Openings(rs[..n]) + [n] else Openings(rs[..n])
  }

  /** Where markets begin. */
  function MarketStarts(rs: seq<Record>): seq<nat> {
    if rs == [] then []
    else
      var n := |rs| - 1;
      if rs[n].kind == "MA" then MarketStarts(rs[..n]) + [n] else MarketStarts(rs[..n])
  }

  // --- Read off the coupon ---------------------------------------------------

  /** For every market of the coupon, in order, the number of its group. */
  function Places(gs: seq<Group>): seq<nat> {
    if gs == [] then []
    else
      var n := |gs| - 1;
      Places(gs[..n]) + Copies(n, |gs[n].markets|)
  }

  function Copies(n: nat, count: nat): seq<nat> {
    if count == 0 then [] else Copies(n, count - 1) + [n]
  }

  lemma {:induction false} PlacesPush(gs: seq<Group>, g: Group)
    ensures Places(gs + [g]) == Places(gs) + Copies(|gs|, |g.markets|)
  {
    assert (gs + [g])[..|gs|] == gs;
  }

  lemma {:induction false} PlacesSame(gs: seq<Group>, g: Group)
    requires gs != [] && |g.markets| == |gs[|gs| - 1].markets|
    ensures Places(gs[|gs| - 1 := g]) == Places(gs)
  {
    assert gs[|gs| - 1 := g][..|gs| - 1] == gs[..|gs| - 1];
  }

  lemma {:induction false} PlacesAdd(gs: seq<Group>, m: Market)
    requires gs != []
    ensures Places(AddMarket(gs, m)) == Places(gs) + [|gs| - 1]
  {
    assert AddMarket(gs, m)[..|gs| - 1] == gs[..|gs| - 1];
  }

  // --- The two agree ---------------------------------------------------------

  /** Groups begin where the feed says, with the head it gives them, and every market
      is in the group that owns its record. */
  ghost predicate Placed(rs: seq<Record>, gs: seq<Group>) {
    HeadsOk(rs, gs, Openings(rs)) && OwnersOk(rs, Openings(rs), MarketStarts(rs), Places(gs))
  }

  /** The g-th group begins at os[g], with that record's head. */
  ghost predicate HeadsOk(rs: seq<Record>, gs: seq<Group>, os: seq<nat>) {
    |gs| == |os| && forall g :: 0 <= g < |gs| ==> os[g] < |rs| && gs[g].head == HeadAt(rs[os[g]])
  }

  /** The j-th market record is ms[j], and the group numbered ps[j] owns it. */
  ghost predicate OwnersOk(rs: seq<Record>, os: seq<nat>, ms: seq<nat>, ps: seq<nat>) {
    |ps| == |ms| && forall j :: 0 <= j < |ps| ==> ps[j] < |os| && Owns(rs, os[ps[j]], ms[j])
  }

  /** While a group takes records, nothing since its start has closed it. */
  ghost predicate GroupOpen(rs: seq<Record>, s: State) {
    s.cursor.inGroup ==> OpenSince(rs, Openings(rs))
  }

  ghost predicate OpenSince(rs: seq<Record>, os: seq<nat>) {
    && os != []
    && var q := os[|os| - 1];
       q < |rs| && Opens(rs, q) && forall k :: q < k < |rs| ==> rs[k].kind !in {"MG", "EV", "CL"}
  }

  lemma {:induction false} OpenSinceStill(rs: seq<Record>, r: Record, os: seq<nat>)
    requires OpenSince(rs, os) && r.kind !in {"MG", "EV", "CL"}
    ensures OpenSince(rs + [r], os)
    ensures r.kind == "MA" ==> Owns(rs + [r], os[|os| - 1], |rs|)
  {
    OpensStill(rs, r, os[|os| - 1]);
  }

  lemma {:induction false} OpenSinceNow(rs: seq<Record>, r: Record, os: seq<nat>)
    requires Opens(rs + [r], |rs|)
    ensures OpenSince(rs + [r], os + [|rs|])
  {
  }

  lemma {:induction false} OpensStill(rs: seq<Record>, r: Record, q: nat)
    requires q < |rs|
    ensures Opens(rs + [r], q) == Opens(rs, q)
  {
    assert (rs + [r])[..q] == rs[..q];
  }

  lemma {:induction false} OwnsStill(rs: seq<Record>, r: Record, q: nat, p: nat)
    requires Owns(rs, q, p)
    ensures Owns(rs + [r], q, p)
  {
    OpensStill(rs, r, q);
  }

  lemma {:induction false} StartsSnoc(rs: seq<Record>, r: Record)
    ensures Openings(rs + [r]) == if Opens(rs + [r], |rs|) then Openings(rs) + [|rs|] else Openings(rs)
    ensures MarketStarts(rs + [r]) == if r.kind == "MA" then MarketStarts(rs) + [|rs|] else MarketStarts(rs)
    ensures Opens(rs + [r], |rs|) <==> r.kind == "MG" || (r.kind == "MA" && LastBoundary(rs) in {"", "EV", "CL"})
  {
    assert (rs + [r])[..|rs|] == rs;
  }

  lemma {:induction false} HeadsStill(rs: seq<Record>, r: Record, gs: seq<Group>, hs: seq<Group>, os: seq<nat>)
    requires HeadsOk(rs, gs, os) && |hs| == |gs| && forall g :: 0 <= g < |gs| ==> hs[g].head == gs[g].head
    ensures HeadsOk(rs + [r], hs, os)
  {
    forall g | 0 <= g < |hs| ensures os[g] < |rs| + 1 && hs[g].head == HeadAt((rs + [r])[os[g]]) {
      assert hs[g].head == gs[g].head;
    }
  }

  lemma {:induction false} HeadsOpen(rs: seq<Record>, r: Record, gs: seq<Group>, os: seq<nat>, head: Option<Fields>)
    requires HeadsOk(rs, gs, os) && head == HeadAt(r)
    ensures HeadsOk(rs + [r], gs + [Group(head, [], [])], os + [|rs|])
  {
  }

  lemma {:induction false} OwnersStill(rs: seq<Record>, r: Record, os: seq<nat>, ms: seq<nat>, ps: seq<nat>)
    requires OwnersOk(rs, os, ms, ps)
    ensures OwnersOk(rs + [r], os, ms, ps)
  {
    forall j | 0 <= j < |ps| ensures ps[j] < |os| && Owns(rs + [r], os[ps[j]], ms[j]) { OwnsStill(rs, r, os[ps[j]], ms[j]); }
  }

  lemma {:induction false} OwnersOpen(rs: seq<Record>, os: seq<nat>, ms: seq<nat>, ps: seq<nat>, q: nat)
    requires OwnersOk(rs, os, ms, ps)
    ensures OwnersOk(rs, os + [q], ms, ps)
  {
  }

  lemma {:induction false} OwnersPush(rs: seq<Record>, os: seq<nat>, ms: seq<nat>, ps: seq<nat>, g: nat, p: nat)
    requires OwnersOk(rs, os, ms, ps) && g < |os| && Owns(rs, os[g], p)
    ensures OwnersOk(rs, os, ms + [p], ps + [g])
  {
  }

  /** A record that opens nothing changes neither side. */
  lemma {:induction false} PlacedStill(rs: seq<Record>, r: Record, gs: seq<Group>, hs: seq<Group>)
    requires Placed(rs, gs) && r.kind != "MA" && r.kind != "MG"
    requires |hs| == |gs| && Places(hs) == Places(gs) && forall g :: 0 <= g < |gs| ==> hs[g].head == gs[g].head
    ensures Placed(rs + [r], hs)
  {
    StartsSnoc(rs, r);
    HeadsStill(rs, r, gs, hs, Openings(rs));
    OwnersStill(rs, r, Openings(rs), MarketStarts(rs), Places(gs));
  }

  /** A group record opens a new group, still empty. */
  lemma {:induction false} PlacedHeaded(rs: seq<Record>, r: Record, gs: seq<Group>)
    requires Placed(rs, gs) && r.kind == "MG"
    ensures Placed(rs + [r], gs + [Group(Some(r.fields), [], [])])
  {
    StartsSnoc(rs, r);
    PlacesPush(gs, Group(Some(r.fields), [], []));
    HeadsOpen(rs, r, gs, Openings(rs), Some(r.fields));
    OwnersStill(rs, r, Openings(rs), MarketStarts(rs), Places(gs));
    OwnersOpen(rs + [r], Openings(rs), MarketStarts(rs), Places(gs), |rs|);
    assert Places(gs) + [] == Places(gs);
  }

  lemma {:induction false} AddMarketHeads(gs: seq<Group>, m: Market)
    requires gs != []
    ensures |AddMarket(gs, m)| == |gs| && forall g :: 0 <= g < |gs| ==> AddMarket(gs, m)[g].head == gs[g].head
  {
  }

  /** Both readings, put together. */
  lemma {:induction false} PlacedFrom(rs: seq<Record>, gs: seq<Group>, os: seq<nat>, ms: seq<nat>, ps: seq<nat>)
    requires os == Openings(rs) && ms == MarketStarts(rs) && ps == Places(gs)
    requires HeadsOk(rs, gs, os) && OwnersOk(rs, os, ms, ps)
    ensures Placed(rs, gs)
  {
  }

  /** The last group owns the new record, and takes its market. */
  lemma {:induction false} MarketJoins(rs: seq<Record>, r: Record, gs: seq<Group>, m: Market, os: seq<nat>, ms: seq<nat>, ps: seq<nat>)
    requires gs != [] && |gs| == |os| && HeadsOk(rs, gs, os) && OwnersOk(rs, os, ms, ps)
    requires Owns(rs + [r], os[|gs| - 1], |rs|)
    ensures HeadsOk(rs + [r], AddMarket(gs, m), os)
    ensures OwnersOk(rs + [r], os, ms + [|rs|], ps + [|gs| - 1])
  {
    AddMarketHeads(gs, m);
    HeadsStill(rs, r, gs, AddMarket(gs, m), os);
    OwnersStill(rs, r, os, ms, ps);
    OwnersPush(rs + [r], os, ms, ps, |gs| - 1, |rs|);
  }

  lemma {:induction false} PlacedMarket(rs: seq<Record>, r: Record, gs: seq<Group>, m: Market, os: seq<nat>)
    requires Placed(rs, gs) && r.kind == "MA" && gs != [] && !Opens(rs + [r], |rs|)
    requires os == Openings(rs) && |os| == |gs| && Owns(rs + [r], os[|os| - 1], |rs|)
    ensures Placed(rs + [r], AddMarket(gs, m))
  {
    var ms, ps := MarketStarts(rs), Places(gs);
    MarketJoins(rs, r, gs, m, os, ms, ps);
    StartsSnoc(rs, r);
    PlacesAdd(gs, m);
    PlacedFrom(rs + [r], AddMarket(gs, m), os, ms + [|rs|], ps + [|gs| - 1]);
  }

  lemma {:induction false} HeadsAdd(rs: seq<Record>, gs: seq<Group>, os: seq<nat>, m: Market)
    requires HeadsOk(rs, gs, os) && gs != []
    ensures HeadsOk(rs, AddMarket(gs, m), os)
  {
    AddMarketHeads(gs, m);
  }

  lemma {:induction false} PlacedHeadless(rs: seq<Record>, r: Record, gs: seq<Group>, m: Market)
    requires Placed(rs, gs) && r.kind == "MA" && Opens(rs + [r], |rs|)
    ensures Placed(rs + [r], AddMarket(gs + [Group(None, [], [])], m))
  {
    var os, ms, ps, started := Openings(rs), MarketStarts(rs), Places(gs), gs + [Group(None, [], [])];
    StartsSnoc(rs, r);
    PlacesPush(gs, Group(None, [], []));
    assert ps + [] == ps;
    PlacesAdd(started, m);
    HeadsOpen(rs, r, gs, os, None);
    HeadsAdd(rs + [r], started, os + [|rs|], m);
    OwnersStill(rs, r, os, ms, ps);
    OwnersOpen(rs + [r], os, ms, ps, |rs|);
    assert Owns(rs + [r], |rs|, |rs|);
    OwnersPush(rs + [r], os + [|rs|], ms, ps, |os|, |rs|);
    PlacedFrom(rs + [r], AddMarket(started, m), os + [|rs|], ms + [|rs|], ps + [|os|]);
  }

  /** What a market record does to the groups and the cursor. */
  lemma {:induction false} MarketShape(s: State, r: Record)
    requires r.kind == "MA" && (s.cursor.inGroup ==> s.coupon.groups != [])
    ensures var t, m, gs := Step(s, r), Market(r.fields, [], []), s.coupon.groups;
            && t.cursor.inGroup
            && t.coupon.groups == if s.cursor.inGroup then AddMarket(gs, m) else AddMarket(gs + [Group(None, [], [])], m)
  {
  }

  /** What a record that opens no group does to them. */
  lemma {:induction false} OtherShape(s: State, r: Record)
    requires r.kind != "MA" && r.kind != "MG"
    ensures var gs, t := s.coupon.groups, Step(s, r);
            && |t.coupon.groups| == |gs| && Places(t.coupon.groups) == Places(gs)
            && (forall g :: 0 <= g < |gs| ==> t.coupon.groups[g].head == gs[g].head)
            && (t.cursor.inGroup ==> s.cursor.inGroup && r.kind !in {"MG", "EV", "CL"})
  {
    var gs, hs := s.coupon.groups, Step(s, r).coupon.groups;
    if gs != hs {
      assert hs == gs[|gs| - 1 := hs[|gs| - 1]];
      PlacesSame(gs, hs[|gs| - 1]);
    }
  }

  /** A market record goes into the open group. */
  lemma {:induction false} MarketInGroup(rs: seq<Record>, s: State, r: Record, os: seq<nat>)
    requires Placed(rs, s.coupon.groups) && r.kind == "MA" && s.cursor.inGroup && s.coupon.groups != []
    requires os == Openings(rs) && |os| == |s.coupon.groups| && OpenSince(rs, os) && !Opens(rs + [r], |rs|)
    ensures Placed(rs + [r], Step(s, r).coupon.groups) && GroupOpen(rs + [r], Step(s, r))
  {
    StartsSnoc(rs, r);
    MarketShape(s, r);
    OpenSinceStill(rs, r, os);
    PlacedMarket(rs, r, s.coupon.groups, Market(r.fields, [], []), os);
  }

  /** Outside any group it goes into a new headless one. */
  lemma {:induction false} MarketAlone(rs: seq<Record>, s: State, r: Record)
    requires Placed(rs, s.coupon.groups) && r.kind == "MA" && !s.cursor.inGroup && Opens(rs + [r], |rs|)
    ensures Placed(rs + [r], Step(s, r).coupon.groups) && GroupOpen(rs + [r], Step(s, r))
  {
    StartsSnoc(rs, r);
    MarketShape(s, r);
    OpenSinceNow(rs, r, Openings(rs));
    PlacedHeadless(rs, r, s.coupon.groups, Market(r.fields, [], []));
  }

  lemma {:induction false} MarketStep(rs: seq<Record>, s: State, r: Record)
    requires CursorOk(rs, s) && Placed(rs, s.coupon.groups) && GroupOpen(rs, s) && r.kind == "MA"
    ensures Placed(rs + [r], Step(s, r).coupon.groups) && GroupOpen(rs + [r], Step(s, r))
  {
    LastBoundaryKinds(rs);
    StartsSnoc(rs, r);
    assert Opens(rs + [r], |rs|) <==> !s.cursor.inGroup;
    if s.cursor.inGroup { MarketInGroup(rs, s, r, Openings(rs)); } else { MarketAlone(rs, s, r); }
  }

  lemma {:induction false} LastBoundaryKinds(rs: seq<Record>)
    ensures LastBoundary(rs) in {"", "MA", "MG", "EV", "CL"}
  {
    if rs != [] { LastBoundaryKinds(rs[..|rs| - 1]); }
  }

  lemma {:induction false} GroupStep(rs: seq<Record>, s: State, r: Record)
    requires Placed(rs, s.coupon.groups) && r.kind == "MG"
    ensures Placed(rs + [r], Step(s, r).coupon.groups) && GroupOpen(rs + [r], Step(s, r))
  {
    StartsSnoc(rs, r);
    OpenSinceNow(rs, r, Openings(rs));
    PlacedHeaded(rs, r, s.coupon.groups);
  }

  lemma {:induction false} OtherStep(rs: seq<Record>, s: State, r: Record)
    requires Placed(rs, s.coupon.groups) && GroupOpen(rs, s) && r.kind != "MG" && r.kind != "MA"
    ensures Placed(rs + [r], Step(s, r).coupon.groups) && GroupOpen(rs + [r], Step(s, r))
  {
    StartsSnoc(rs, r);
    OtherShape(s, r);
    PlacedStill(rs, r, s.coupon.groups, Step(s, r).coupon.groups);
    if Step(s, r).cursor.inGroup { OpenSinceStill(rs, r, Openings(rs)); }
  }

  lemma {:induction false} DecodePlaced(rs: seq<Record>)
    ensures Placed(rs, Decode(rs).coupon.groups) && GroupOpen(rs, Decode(rs))
  {
    if rs != [] {
      var n := |rs| - 1;
      var s := Decode(rs[..n]);
      DecodePlaced(rs[..n]);
      DecodeFaithful(rs[..n]);
      assert rs == rs[..n] + [rs[n]];
      if rs[n].kind == "MA" {
        MarketStep(rs[..n], s, rs[n]);
      } else if rs[n].kind == "MG" {
        GroupStep(rs[..n], s, rs[n]);
      } else {
        OtherStep(rs[..n], s, rs[n]);
      }
    }
  }

  lemma {:induction false} OwnerUnique(rs: seq<Record>, q: nat, q': nat, p: nat)
    requires Owns(rs, q, p) && Owns(rs, q', p)
    ensures q == q'
  {
    if q < q' { MiddleNeverOpens(rs, q, q'); }
    if q' < q { MiddleNeverOpens(rs, q', q); }
  }

  /** Inside a group a market record opens no other. */
  lemma {:induction false} MiddleNeverOpens(rs: seq<Record>, q: nat, k: nat)
    requires q < k < |rs| && Opens(rs, q)
    requires forall i :: q < i <= k ==> rs[i].kind !in {"MG", "EV", "CL"}
    ensures !Opens(rs, k)
  {
    GroupGoesOn(rs, q, k);
  }

  lemma {:induction false} GroupGoesOn(rs: seq<Record>, q: nat, k: nat)
    requires q < k <= |rs| && Opens(rs, q)
    requires forall i :: q < i < k ==> rs[i].kind !in {"MG", "EV", "CL"}
    ensures LastBoundary(rs[..k]) in {"MA", "MG"}
  {
    assert rs[..k][..k - 1] == rs[..k - 1] && rs[..k][k - 1] == rs[k - 1];
    if k - 1 > q { GroupGoesOn(rs, q, k - 1); }
  }

  /** The j-th market of the coupon is the j-th market run of the feed and lies in the
      group that begins at the only record owning its MA record: the MG record before
      it when no EV or CL record stands between, and otherwise the first MA record after
      that EV or CL record, whose group has no head. Groups keep feed order. */
  lemma {:induction false} MarketsInTheirGroups(rs: seq<Record>)
    ensures var gs := Decode(rs).coupon.groups;
            && AllMarkets(gs) == MarketRuns(rs) && Placed(rs, gs)
    ensures forall q, q', p :: Owns(rs, q, p) && Owns(rs, q', p) ==> q == q'
  {
    DecodePlaced(rs);
    DecodeFaithful(rs);
    forall q, q', p | Owns(rs, q, p) && Owns(rs, q', p) ensures q == q' { OwnerUnique(rs, q, q', p); }
  }
}
