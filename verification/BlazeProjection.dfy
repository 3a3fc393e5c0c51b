/** What the projection of a Blaze snapshot keeps: exactly one sport's events and what
    they refer to (capture-projection.ts). */
module BlazeProjection {
  import opened Domain
  import opened OrderedMaps
  import opened BlazeFeed
  import opened BlazePreservation
  import opened BlazeMerge

  // --- What an event is and refers to ----------------------------------------

  predicate OfSport(e: Json, sport: Esport) {
    e.Obj? && Get(e.fields, "desc").Some? && Get(e.fields, "desc").value.Obj?
    && Get(Get(e.fields, "desc").value.fields, "sport") == Some(Str(if sport.Cs2? then "109" else if sport.Lol? then "110" else "194"))
  }

  /** The event's tournament has this key: its text, or the text form of what else stands there. */
  predicate RefersTo(lib: Library, e: Json, key: string) {
    e.Obj? && Get(e.fields, "desc").Some? && Get(e.fields, "desc").value.Obj?
    && var t: Option<Json> := Get(Get(e.fields, "desc").value.fields, "tournament");
       t == Some(Str(key)) || (!(t.Some? && t.value.Str?) && lib.text(t) == key)
  }

  /** The event has markets of this type. */
  predicate Offers(e: Json, kind: string) {
    e.Obj? && Get(e.fields, "markets").Some? && Get(e.fields, "markets").value.Obj? && Has(Get(e.fields, "markets").value.fields, kind)
  }

  lemma {:induction false} EventsOfMeans(sport: Esport, events: Fields, a: (string, Json))
    requires EventsOf(sport, events).Ok?
    ensures a in EventsOf(sport, events).value <==> a in events && OfSport(a.1, sport)
  {
    if events != [] {
      EventsOfMeans(sport, events[1..], a);
      assert events == [events[0]] + events[1..];
    }
  }

  /** Some of the events refers to the tournament. */
  ghost predicate AnyRefers(lib: Library, events: Fields, key: string) { exists i :: 0 <= i < |events| && RefersTo(lib, events[i].1, key) }

  /** Some of the events has markets of the type. */
  ghost predicate AnyOffers(events: Fields, kind: string) { exists i :: 0 <= i < |events| && Offers(events[i].1, kind) }

  lemma {:induction false} AnyTail(lib: Library, events: Fields, key: string)
    requires events != []
    ensures AnyRefers(lib, events, key) <==> RefersTo(lib, events[0].1, key) || AnyRefers(lib, events[1..], key)
    ensures AnyOffers(events, key) <==> Offers(events[0].1, key) || AnyOffers(events[1..], key)
  {
    if AnyRefers(lib, events[1..], key) { var i :| 0 <= i < |events[1..]| && RefersTo(lib, events[1..][i].1, key); assert events[i + 1] == events[1..][i]; }
    if AnyOffers(events[1..], key) { var i :| 0 <= i < |events[1..]| && Offers(events[1..][i].1, key); assert events[i + 1] == events[1..][i]; }
    if AnyRefers(lib, events, key) { var i :| 0 <= i < |events| && RefersTo(lib, events[i].1, key); assert i > 0 ==> events[1..][i - 1] == events[i]; }
    if AnyOffers(events, key) { var i :| 0 <= i < |events| && Offers(events[i].1, key); assert i > 0 ==> events[1..][i - 1] == events[i]; }
  }

  lemma {:induction false} UsedByMeans(lib: Library, events: Fields, key: string)
    requires UsedBy(lib, events).Ok?
    ensures key in UsedBy(lib, events).value.tournaments <==> AnyRefers(lib, events, key)
    ensures key in UsedBy(lib, events).value.markets <==> AnyOffers(events, key)
  {
    if events != [] {
      UsedByMeans(lib, events[1..], key);
      OffersMeans(events[0].1, key);
      AnyTail(lib, events, key);
    }
  }

  lemma {:induction false} OffersMeans(e: Json, kind: string)
    requires MarketKeys(e).Ok?
    ensures kind in MarketKeys(e).value <==> Offers(e, kind)
  {
    var types := Get(e.fields, "markets").value.fields;
    if kind in MarketKeys(e).value {
      var t :| t in types && t.0 == kind;
      var i :| 0 <= i < |types| && types[i] == t;
    }
    if Offers(e, kind) {
      var i :| 0 <= i < |types| && types[i].0 == kind;
      assert types[i] in types;
    }
  }

  lemma {:induction false} UsedByAllMeans(lib: Library, slims: seq<Slim>, key: string)
    requires UsedByAll(lib, slims).Ok?
    ensures key in UsedByAll(lib, slims).value.tournaments <==> exists i :: 0 <= i < |slims| && AnyRefers(lib, slims[i].events, key)
    ensures key in UsedByAll(lib, slims).value.markets <==> exists i :: 0 <= i < |slims| && AnyOffers(slims[i].events, key)
  {
    if slims != [] {
      var n := |slims| - 1;
      UsedByAllMeans(lib, slims[..n], key);
      UsedByMeans(lib, slims[n].events, key);
      assert forall i :: 0 <= i < n ==> slims[..n][i] == slims[i];
    }
  }

  lemma {:induction false} RestrictMeans(fields: Fields, names: set<string>, t: (string, Json))
    ensures t in Restrict(fields, names) <==> t in fields && t.0 in names
  {
    if fields != [] {
      RestrictMeans(fields[1..], names, t);
      assert fields == [fields[0]] + fields[1..];
    }
  }

  lemma {:induction false} DescriptionsKeys(fields: Fields, kind: string)
    requires Descriptions(fields).Ok?
    ensures Has(Descriptions(fields).value, kind) <==> Has(fields, kind)
  {
    if fields != [] {
      DescriptionsKeys(fields[1..], kind);
      HasTail(fields, kind);
      HasTail(Descriptions(fields).value, kind);
      assert Descriptions(fields).value[1..] == Descriptions(fields[1..]).value;
    }
  }

  lemma {:induction false} RestrictHas(fields: Fields, names: set<string>, kind: string)
    ensures Has(Restrict(fields, names), kind) <==> Has(fields, kind) && kind in names
  {
    if fields != [] {
      RestrictHas(fields[1..], names, kind);
      HasTail(fields, kind);
      if fields[0].0 in names {
        HasTail(Restrict(fields, names), kind);
        assert Restrict(fields, names)[1..] == Restrict(fields[1..], names);
      }
    }
  }

  // --- The projection --------------------------------------------------------

  /** Some event kept in some shard refers to the tournament. */
  ghost predicate Referred(lib: Library, shards: seq<Shard>, key: string) {
    exists i :: 0 <= i < |shards| && AnyRefers(lib, EventsIn(shards[i]), key)
  }

  /** Some event kept in some shard has markets of the type. */
  ghost predicate Offered(shards: seq<Shard>, kind: string) {
    exists i :: 0 <= i < |shards| && AnyOffers(EventsIn(shards[i]), kind)
  }

  /** Shard by shard: the events of the sport, and of the tournaments those that some kept
      event refers to. */
  ghost predicate ShardKept(lib: Library, sport: Esport, s: Shard, p: Shard, kept: seq<Shard>) {
    && p.version == s.version
    && (forall a :: a in EventsIn(p) <==> a in EventsIn(s) && OfSport(a.1, sport))
    && forall t :: t in TournamentsIn(p) <==> t in TournamentsIn(s) && Referred(lib, kept, t.0)
  }

  lemma {:induction false} FinishedShard(sport: Esport, s: Shard, used: Used)
    requires SlimShard(sport, s).Ok?
    ensures var p, slim := Finish(SlimShard(sport, s).value, used), SlimShard(sport, s).value;
            && p.version == s.version && EventsIn(p) == slim.events && TournamentsIn(p) == Restrict(slim.tournaments, used.tournaments)
            && slim.tournaments == TournamentsIn(s) && EventsOf(sport, EventsIn(s)) == Ok(slim.events)
  {
    FinishedFields(sport, s, used, "events");
    FinishedFields(sport, s, used, "tournaments");
  }

  lemma {:induction false} KeptEvents(lib: Library, sport: Esport, shards: seq<Shard>, slims: seq<Slim>, used: Used, key: string)
    requires SlimShards(sport, shards) == Ok(slims) && UsedByAll(lib, slims) == Ok(used)
    ensures |FinishAll(slims, used)| == |slims| == |shards|
    ensures key in used.tournaments <==> Referred(lib, FinishAll(slims, used), key)
    ensures key in used.markets <==> Offered(FinishAll(slims, used), key)
  {
    var ps := FinishAll(slims, used);
    UsedByAllMeans(lib, slims, key);
    SlimLength(sport, shards);
    AllFinish(sport, used, shards, slims);
    forall i | 0 <= i < |ps| ensures EventsIn(ps[i]) == slims[i].events {
      SlimElement(sport, shards, i);
      FinishedShard(sport, shards[i], used);
    }
  }

  /** The projection keeps exactly the sport's events, the tournaments they refer to, and
      the descriptions of the market types they have. */
  lemma {:induction false} ProjectionExact(lib: Library, c: Capture, sport: Esport)
    requires Project(lib, c, sport).Ok?
    ensures var p := Project(lib, c, sport).value;
            && p.projection == Some(sport) && p.manifest == c.manifest && p.capturedAt == c.capturedAt && p.provenanceOk == c.provenanceOk
            && |p.shards| == |c.shards|
            && (forall i :: 0 <= i < |c.shards| ==> ShardKept(lib, sport, c.shards[i], p.shards[i], p.shards))
            && p.descriptions.Obj? && c.descriptions.Obj?
            && forall kind :: Has(p.descriptions.fields, kind) <==> Has(c.descriptions.fields, kind) && Offered(p.shards, kind)
  {
    var p := Project(lib, c, sport).value;
    var slims := SlimShards(sport, c.shards).value;
    var used := UsedByAll(lib, slims).value;
    KeptEvents(lib, sport, c.shards, slims, used, "");
    forall i | 0 <= i < |c.shards| ensures ShardKept(lib, sport, c.shards[i], p.shards[i], p.shards) {
      KeptShard(lib, sport, c.shards, slims, used, i);
    }
    forall kind ensures Has(p.descriptions.fields, kind) <==> Has(c.descriptions.fields, kind) && Offered(p.shards, kind) {
      KeptEvents(lib, sport, c.shards, slims, used, kind);
      DescriptionsKeys(Restrict(c.descriptions.fields, used.markets), kind);
      RestrictHas(c.descriptions.fields, used.markets, kind);
    }
  }

  lemma {:induction false} KeptShard(lib: Library, sport: Esport, shards: seq<Shard>, slims: seq<Slim>, used: Used, i: nat)
    requires SlimShards(sport, shards) == Ok(slims) && UsedByAll(lib, slims) == Ok(used) && i < |shards|
    ensures i < |FinishAll(slims, used)| && ShardKept(lib, sport, shards[i], FinishAll(slims, used)[i], FinishAll(slims, used))
  {
    var ps := FinishAll(slims, used);
    SlimElement(sport, shards, i);
    FinishElement(slims, used, i);
    FinishedShard(sport, shards[i], used);
    forall a ensures a in EventsIn(ps[i]) <==> a in EventsIn(shards[i]) && OfSport(a.1, sport) { EventsOfMeans(sport, EventsIn(shards[i]), a); }
    forall t ensures t in TournamentsIn(ps[i]) <==> t in TournamentsIn(shards[i]) && Referred(lib, ps, t.0) {
      RestrictMeans(TournamentsIn(shards[i]), used.tournaments, t);
      KeptEvents(lib, sport, shards, slims, used, t.0);
    }
  }
}
