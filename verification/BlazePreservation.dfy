/** The sport projection preserves the parsed listing. */
module BlazePreservation {
  import opened Domain
  import opened OrderedMaps
  import opened BlazeFeed

  // --- Filtering -------------------------------------------------------------

  predicate IsSport(sport: Esport, value: Fields) {
    AsObject(Get(value, "desc")).Ok? && Get(AsObject(Get(value, "desc")).value, "sport") == Some(Str(Sport(sport)))
  }

  function Filter(sport: Esport, events: seq<(string, Entry)>): seq<(string, Entry)> {
    if events == [] then []
    else if IsSport(sport, events[0].1.value) then [events[0]] + Filter(sport, events[1..])
    else Filter(sport, events[1..])
  }

  lemma {:induction false} FilterGet(sport: Esport, events: seq<(string, Entry)>, k: string)
    requires Get(events, k).Some? ==> IsSport(sport, Get(events, k).value.value)
    ensures Get(Filter(sport, events), k) == Get(events, k)
  {
    if events != [] && events[0].0 != k {
      FilterGet(sport, events[1..], k);
      if IsSport(sport, events[0].1.value) {
        assert Filter(sport, events)[1..] == Filter(sport, events[1..]);
      }
    }
  }

  /** Replacing an entry by one of the same sport, or adding one. */
  lemma {:induction false} FilterPut(sport: Esport, events: seq<(string, Entry)>, k: string, e: Entry)
    requires Get(events, k).Some? ==> IsSport(sport, Get(events, k).value.value) == IsSport(sport, e.value)
    ensures Filter(sport, Put(events, k, e)) == if IsSport(sport, e.value) then Put(Filter(sport, events), k, e) else Filter(sport, events)
  {
    if events == [] {
      assert [(k, e)][1..] == [];
    } else if events[0].0 == k {
      assert ([(k, e)] + events[1..])[1..] == events[1..];
      if IsSport(sport, e.value) { assert Filter(sport, events)[1..] == Filter(sport, events[1..]); }
    } else {
      FilterPut(sport, events[1..], k, e);
      var put := Put(events[1..], k, e);
      assert ([events[0]] + put)[1..] == put;
      if IsSport(sport, events[0].1.value) { assert Filter(sport, events)[1..] == Filter(sport, events[1..]); }
    }
  }

  lemma {:induction false} AddFiltered(sport: Esport, events: seq<(string, Entry)>, added: Fields, at: real)
    requires AddEvents(events, added, at).Ok? && EventsOf(sport, added).Ok?
    ensures AddEvents(Filter(sport, events), EventsOf(sport, added).value, at) == Ok(Filter(sport, AddEvents(events, added, at).value))
    decreases added
  {
    if added != [] {
      var k, value := added[0].0, AsObject(Some(added[0].1)).value;
      var e := Entry(value, at);
      FilterPut(sport, events, k, e);
      AddFiltered(sport, Put(events, k, e), added[1..], at);
      var kept := EventsOf(sport, added[1..]).value;
      if IsSport(sport, value) {
        FilterGet(sport, events, k);
        assert EventsOf(sport, added).value == [added[0]] + kept;
        assert ([added[0]] + kept)[1..] == kept;
      } else {
        assert EventsOf(sport, added).value == kept;
      }
    }
  }

  // --- Fields ----------------------------------------------------------------

  lemma {:induction false} GetConcat(a: Fields, b: Fields, k: string)
    ensures Get(a + b, k) == if Get(a, k).Some? then Get(a, k) else Get(b, k)
  {
    if a == [] {
      assert a + b == b;
    } else {
      assert (a + b)[1..] == a[1..] + b;
      GetConcat(a[1..], b, k);
    }
  }

  lemma {:induction false} GetRestrict(fields: Fields, names: set<string>, k: string)
    requires k in names
    ensures Get(Restrict(fields, names), k) == Get(fields, k)
  {
    if fields != [] && fields[0].0 != k {
      GetRestrict(fields[1..], names, k);
      if fields[0].0 in names { assert Restrict(fields, names)[1..] == Restrict(fields[1..], names); }
    }
  }

  lemma {:induction false} AssignRestrict(t: Fields, u: Fields, source: Fields, names: set<string>, k: string)
    requires k in names && Get(t, k) == Get(u, k)
    ensures Get(Assign(t, source), k) == Get(Assign(u, Restrict(source, names)), k)
    decreases source
  {
    if source != [] {
      var n, v := source[0].0, source[0].1;
      GetPut(t, n, v, k);
      if n in names {
        GetPut(u, n, v, k);
        assert Restrict(source, names)[1..] == Restrict(source[1..], names);
        AssignRestrict(Put(t, n, v), Put(u, n, v), source[1..], names, k);
      } else {
        AssignRestrict(Put(t, n, v), u, source[1..], names, k);
      }
    }
  }

  // --- Shards ----------------------------------------------------------------

  /** A finished shard answers every question the merge asks as the original does. */
  lemma {:induction false} FinishedFields(sport: Esport, s: Shard, used: Used, k: string)
    requires SlimShard(sport, s).Ok?
    ensures var d, f := AsObject(Some(s.data)).value, AsObject(Some(Finish(SlimShard(sport, s).value, used).data)).value;
            && (k in {"epoch", "version", "generated", "snapshot_complete", "fixtures_complete"} ==> Get(f, k) == Get(d, k))
            && (k == "events" ==> Get(f, k) == Some(Obj(SlimShard(sport, s).value.events)))
            && (k == "tournaments" ==> Get(f, k) == Some(Obj(Restrict(SlimShard(sport, s).value.tournaments, used.tournaments))))
  {
    var d, slim := AsObject(Some(s.data)).value, SlimShard(sport, s).value;
    var a, b, c := Present("epoch", Get(d, "epoch")), Present("version", Get(d, "version")), Present("generated", Get(d, "generated"));
    var e, g := Present("snapshot_complete", Get(d, "snapshot_complete")), Present("fixtures_complete", Get(d, "fixtures_complete"));
    var tail := [("events", Obj(slim.events)), ("tournaments", Obj(Restrict(slim.tournaments, used.tournaments)))];
    GetConcat(a, b, k);
    GetConcat(a + b, c, k);
    GetConcat(a + b + c, e, k);
    GetConcat(a + b + c + e, g, k);
    GetConcat(slim.head, tail, k);
    TailFields(slim.events, Restrict(slim.tournaments, used.tournaments), k);
  }

  lemma {:induction false} TailFields(events: Fields, tournaments: Fields, k: string)
    ensures Get([("events", Obj(events)), ("tournaments", Obj(tournaments))], k)
         == if k == "events" then Some(Obj(events)) else if k == "tournaments" then Some(Obj(tournaments)) else None
  {
    var tail := [("events", Obj(events)), ("tournaments", Obj(tournaments))];
    var last := [("tournaments", Obj(tournaments))];
    assert tail[1..] == last && last[1..] == [];
    assert Get(last, k) == if k == "tournaments" then Some(Obj(tournaments)) else None;
  }

  /** The merge of the projected shards has exactly the sport's events, and the
      tournaments those refer to. */
  ghost predicate Mirrors(sport: Esport, names: set<string>, full: Merged, slim: Merged) {
    && slim.events == Filter(sport, full.events)
    && forall k :: k in names ==> Get(slim.tournaments, k) == Get(full.tournaments, k)
  }

  lemma {:induction false} FinishedRead(sport: Esport, used: Used, s: Shard, manifest: Fields, i: nat, versions: seq<Json>, capturedAt: real)
    requires i < |versions| && SlimShard(sport, s).Ok? && ReadShard(s, manifest, i, versions, capturedAt).Ok?
    ensures var r, cut := ReadShard(s, manifest, i, versions, capturedAt).value, SlimShard(sport, s).value;
            && EventsOf(sport, r.events) == Ok(cut.events)
            && ReadShard(Finish(cut, used), manifest, i, versions, capturedAt)
               == Ok(Read(cut.events, r.at, Restrict(r.tournaments, used.tournaments)))
  {
    var cut := SlimShard(sport, s).value;
    var f := Finish(cut, used);
    FinishedFields(sport, s, used, "epoch");
    FinishedFields(sport, s, used, "version");
    FinishedFields(sport, s, used, "generated");
    FinishedFields(sport, s, used, "snapshot_complete");
    FinishedFields(sport, s, used, "fixtures_complete");
    FinishedFields(sport, s, used, "events");
    FinishedFields(sport, s, used, "tournaments");
  }

  lemma {:induction false} MergeMirrors(sport: Esport, used: Used, full: Merged, slim: Merged, s: Shard, manifest: Fields, i: nat, versions: seq<Json>, capturedAt: real)
    requires i < |versions| && SlimShard(sport, s).Ok? && MergeShard(full, s, manifest, i, versions, capturedAt).Ok?
    requires Mirrors(sport, used.tournaments, full, slim)
    ensures var r := MergeShard(slim, Finish(SlimShard(sport, s).value, used), manifest, i, versions, capturedAt);
            r.Ok? && Mirrors(sport, used.tournaments, MergeShard(full, s, manifest, i, versions, capturedAt).value, r.value)
  {
    FinishedRead(sport, used, s, manifest, i, versions, capturedAt);
    var r := ReadShard(s, manifest, i, versions, capturedAt).value;
    AddFiltered(sport, full.events, r.events, r.at);
    forall k | k in used.tournaments
      ensures Get(Assign(full.tournaments, r.tournaments), k) == Get(Assign(slim.tournaments, Restrict(r.tournaments, used.tournaments)), k)
    {
      AssignRestrict(full.tournaments, slim.tournaments, r.tournaments, used.tournaments, k);
    }
  }

  lemma {:induction false} SlimLength(sport: Esport, shards: seq<Shard>)
    requires SlimShards(sport, shards).Ok?
    ensures |SlimShards(sport, shards).value| == |shards|
  {
    if shards != [] { SlimLength(sport, shards[..|shards| - 1]); }
  }

  lemma {:induction false} SlimElement(sport: Esport, shards: seq<Shard>, i: nat)
    requires SlimShards(sport, shards).Ok? && i < |shards|
    ensures |SlimShards(sport, shards).value| == |shards| && SlimShard(sport, shards[i]) == Ok(SlimShards(sport, shards).value[i])
  {
    var n := |shards| - 1;
    SlimLength(sport, shards[..n]);
    if i < n { SlimElement(sport, shards[..n], i); }
  }

  lemma {:induction false} FinishElement(slims: seq<Slim>, used: Used, i: nat)
    requires i < |slims|
    ensures |FinishAll(slims, used)| == |slims| && FinishAll(slims, used)[i] == Finish(slims[i], used)
  {
    var n := |slims| - 1;
    FinishLength(slims[..n], used);
    if i < n { FinishElement(slims[..n], used, i); }
  }

  lemma {:induction false} FinishLength(slims: seq<Slim>, used: Used)
    ensures |FinishAll(slims, used)| == |slims|
  {
    if slims != [] { FinishLength(slims[..|slims| - 1], used); }
  }

  const NONE := Merged([], [], [])

  ghost predicate Finishes(sport: Esport, used: Used, shards: seq<Shard>, finished: seq<Shard>) {
    && |finished| == |shards|
    && forall i :: 0 <= i < |shards| ==> SlimShard(sport, shards[i]).Ok? && finished[i] == Finish(SlimShard(sport, shards[i]).value, used)
  }

  lemma {:induction false} AllFinish(sport: Esport, used: Used, shards: seq<Shard>, slims: seq<Slim>)
    requires SlimShards(sport, shards) == Ok(slims)
    ensures Finishes(sport, used, shards, FinishAll(slims, used))
  {
    SlimLength(sport, shards);
    FinishLength(slims, used);
    forall i | 0 <= i < |shards|
      ensures SlimShard(sport, shards[i]).Ok? && FinishAll(slims, used)[i] == Finish(SlimShard(sport, shards[i]).value, used)
    {
      SlimElement(sport, shards, i);
      FinishElement(slims, used, i);
    }
  }

  lemma {:induction false} ShardsMirror(sport: Esport, used: Used, shards: seq<Shard>, finished: seq<Shard>, manifest: Fields, versions: seq<Json>, capturedAt: real, n: nat)
    requires n <= |shards| == |versions| && Finishes(sport, used, shards, finished)
    requires MergeShards(NONE, shards, manifest, versions, capturedAt, n).Ok?
    ensures var r := MergeShards(NONE, finished, manifest, versions, capturedAt, n);
            r.Ok? && Mirrors(sport, used.tournaments, MergeShards(NONE, shards, manifest, versions, capturedAt, n).value, r.value)
  {
    if n > 0 {
      ShardsMirror(sport, used, shards, finished, manifest, versions, capturedAt, n - 1);
      var full := MergeShards(NONE, shards, manifest, versions, capturedAt, n - 1).value;
      var slim := MergeShards(NONE, finished, manifest, versions, capturedAt, n - 1).value;
      MergeMirrors(sport, used, full, slim, shards[n - 1], manifest, n - 1, versions, capturedAt);
    }
  }

  // --- What the kept events refer to -----------------------------------------

  ghost predicate Covers(lib: Library, used: Used, value: Fields) {
    && TournamentKey(lib, Obj(value)).Ok? && TournamentKey(lib, Obj(value)).value in used.tournaments
    && MarketKeys(Obj(value)).Ok? && MarketKeys(Obj(value)).value <= used.markets
  }

  ghost predicate CoversAll(lib: Library, used: Used, sport: Esport, events: seq<(string, Entry)>) {
    forall i :: 0 <= i < |events| && IsSport(sport, events[i].1.value) ==> Covers(lib, used, events[i].1.value)
  }

  lemma {:induction false} UsedByCovers(lib: Library, events: Fields, i: nat)
    requires UsedBy(lib, events).Ok? && i < |events|
    ensures events[i].1.Obj? && Covers(lib, UsedBy(lib, events).value, events[i].1.fields)
  {
    if i > 0 { UsedByCovers(lib, events[1..], i - 1); }
  }

  lemma {:induction false} EventsOfHas(sport: Esport, events: Fields, i: nat)
    requires EventsOf(sport, events).Ok? && i < |events| && events[i].1.Obj? && IsSport(sport, events[i].1.fields)
    ensures events[i] in EventsOf(sport, events).value
  {
    if i > 0 { EventsOfHas(sport, events[1..], i - 1); }
  }

  lemma {:induction false} PutMembers(events: seq<(string, Entry)>, k: string, e: Entry, i: nat)
    requires i < |Put(events, k, e)|
    ensures Put(events, k, e)[i] == (k, e) || Put(events, k, e)[i] in events
  {
    if events != [] && events[0].0 != k && i > 0 { PutMembers(events[1..], k, e, i - 1); }
  }

  lemma {:induction false} AddCovers(lib: Library, used: Used, sport: Esport, events: seq<(string, Entry)>, added: Fields, at: real)
    requires AddEvents(events, added, at).Ok? && CoversAll(lib, used, sport, events)
    requires forall i :: 0 <= i < |added| && added[i].1.Obj? && IsSport(sport, added[i].1.fields) ==> Covers(lib, used, added[i].1.fields)
    ensures CoversAll(lib, used, sport, AddEvents(events, added, at).value)
    decreases added
  {
    if added != [] {
      var k, e := added[0].0, Entry(AsObject(Some(added[0].1)).value, at);
      var next := Put(events, k, e);
      forall i | 0 <= i < |next| && IsSport(sport, next[i].1.value) ensures Covers(lib, used, next[i].1.value) {
        PutMembers(events, k, e, i);
        if next[i] in events { var j :| 0 <= j < |events| && events[j] == next[i]; }
      }
      AddCovers(lib, used, sport, next, added[1..], at);
    }
  }

  lemma {:induction false} UsedGrows(lib: Library, slims: seq<Slim>, i: nat)
    requires UsedByAll(lib, slims).Ok? && i < |slims|
    ensures var u := UsedBy(lib, slims[i].events);
            u.Ok? && u.value.tournaments <= UsedByAll(lib, slims).value.tournaments && u.value.markets <= UsedByAll(lib, slims).value.markets
  {
    if i < |slims| - 1 { UsedGrows(lib, slims[..|slims| - 1], i); }
  }

  /** Whatever a shard contributes is covered by what all shards use. */
  lemma {:induction false} ReadCovered(lib: Library, sport: Esport, s: Shard, cut: Slim, used: Used, manifest: Fields, i: nat, versions: seq<Json>, capturedAt: real, j: nat)
    requires i < |versions| && SlimShard(sport, s) == Ok(cut) && ReadShard(s, manifest, i, versions, capturedAt).Ok?
    requires UsedBy(lib, cut.events).Ok?
    requires UsedBy(lib, cut.events).value.tournaments <= used.tournaments && UsedBy(lib, cut.events).value.markets <= used.markets
    requires var events := ReadShard(s, manifest, i, versions, capturedAt).value.events;
             j < |events| && events[j].1.Obj? && IsSport(sport, events[j].1.fields)
    ensures Covers(lib, used, ReadShard(s, manifest, i, versions, capturedAt).value.events[j].1.fields)
  {
    FinishedRead(sport, used, s, manifest, i, versions, capturedAt);
    var events := ReadShard(s, manifest, i, versions, capturedAt).value.events;
    EventsOfHas(sport, events, j);
    var m :| 0 <= m < |cut.events| && cut.events[m] == events[j];
    UsedByCovers(lib, cut.events, m);
  }

  /** Every shard's slim form exists and uses no more than `used`. */
  ghost predicate AllUsed(lib: Library, sport: Esport, used: Used, shards: seq<Shard>) {
    forall i :: 0 <= i < |shards| ==>
      && SlimShard(sport, shards[i]).Ok?
      && UsedBy(lib, SlimShard(sport, shards[i]).value.events).Ok?
      && UsedBy(lib, SlimShard(sport, shards[i]).value.events).value.tournaments <= used.tournaments
      && UsedBy(lib, SlimShard(sport, shards[i]).value.events).value.markets <= used.markets
  }

  lemma {:induction false} UsedCoversAll(lib: Library, sport: Esport, shards: seq<Shard>, slims: seq<Slim>, used: Used)
    requires SlimShards(sport, shards) == Ok(slims) && UsedByAll(lib, slims) == Ok(used)
    ensures AllUsed(lib, sport, used, shards)
  {
    SlimLength(sport, shards);
    forall i | 0 <= i < |shards|
      ensures SlimShard(sport, shards[i]).Ok? && UsedBy(lib, SlimShard(sport, shards[i]).value.events).Ok?
              && UsedBy(lib, SlimShard(sport, shards[i]).value.events).value.tournaments <= used.tournaments
              && UsedBy(lib, SlimShard(sport, shards[i]).value.events).value.markets <= used.markets
    {
      SlimElement(sport, shards, i);
      UsedGrows(lib, slims, i);
    }
  }

  lemma {:induction false} MergedCovered(lib: Library, sport: Esport, shards: seq<Shard>, used: Used, manifest: Fields, versions: seq<Json>, capturedAt: real, n: nat)
    requires n <= |shards| == |versions| && AllUsed(lib, sport, used, shards)
    requires MergeShards(NONE, shards, manifest, versions, capturedAt, n).Ok?
    ensures CoversAll(lib, used, sport, MergeShards(NONE, shards, manifest, versions, capturedAt, n).value.events)
  {
    if n > 0 {
      MergedCovered(lib, sport, shards, used, manifest, versions, capturedAt, n - 1);
      var before := MergeShards(NONE, shards, manifest, versions, capturedAt, n - 1).value;
      MergeCovers(lib, sport, before, shards[n - 1], SlimShard(sport, shards[n - 1]).value, used, manifest, n - 1, versions, capturedAt);
    }
  }

  lemma {:induction false} MergeCovers(lib: Library, sport: Esport, m: Merged, s: Shard, cut: Slim, used: Used, manifest: Fields, i: nat, versions: seq<Json>, capturedAt: real)
    requires i < |versions| && SlimShard(sport, s) == Ok(cut) && MergeShard(m, s, manifest, i, versions, capturedAt).Ok?
    requires UsedBy(lib, cut.events).Ok? && CoversAll(lib, used, sport, m.events)
    requires UsedBy(lib, cut.events).value.tournaments <= used.tournaments && UsedBy(lib, cut.events).value.markets <= used.markets
    ensures CoversAll(lib, used, sport, MergeShard(m, s, manifest, i, versions, capturedAt).value.events)
  {
    var r := ReadShard(s, manifest, i, versions, capturedAt).value;
    forall j | 0 <= j < |r.events| && r.events[j].1.Obj? && IsSport(sport, r.events[j].1.fields) ensures Covers(lib, used, r.events[j].1.fields) {
      ReadCovered(lib, sport, s, cut, used, manifest, i, versions, capturedAt, j);
    }
    AddCovers(lib, used, sport, m.events, r.events, r.at);
  }

  // --- Descriptions ----------------------------------------------------------

  lemma {:induction false} DescribedField(d: Fields, k: string)
    requires k == "name" || k == "market_type"
    ensures Get(Described(d).fields, k) == if k == "name" then Get(d, "name") else Some(OrElse(Get(d, "market_type"), Null))
  {
    var a, b, c := Present("id", Get(d, "id")), Present("name", Get(d, "name")), Present("variants", Get(d, "variants"));
    var last := [("market_type", OrElse(Get(d, "market_type"), Null))];
    var tail := [("specifiers", OrElse(Get(d, "specifiers"), Arr([]))), ("market_type", OrElse(Get(d, "market_type"), Null))];
    assert tail[1..] == last && last[1..] == [];
    GetConcat(a, b, k);
    GetConcat(a + b, c, k);
    GetConcat(a + b + c, tail, k);
    assert Get(tail, k) == Get(last, k);
  }

  lemma {:induction false} GetDescriptions(fields: Fields, k: string)
    requires Descriptions(fields).Ok?
    ensures var v := Get(fields, k);
            && (v.None? ==> Get(Descriptions(fields).value, k) == None)
            && (v.Some? ==> v.value.Obj? && Get(Descriptions(fields).value, k) == Some(Described(v.value.fields)))
  {
    if fields != [] && fields[0].0 != k {
      GetDescriptions(fields[1..], k);
      assert Descriptions(fields).value[1..] == Descriptions(fields[1..]).value;
    }
  }

  lemma {:induction false} SameDefinition(all: Fields, names: set<string>, kind: string)
    requires kind in names && Descriptions(Restrict(all, names)).Ok?
    ensures DefinitionOf(Descriptions(Restrict(all, names)).value, kind) == DefinitionOf(all, kind)
  {
    GetRestrict(all, names, kind);
    GetDescriptions(Restrict(all, names), kind);
    var v := Get(all, kind);
    if v.Some? {
      DescribedField(v.value.fields, "name");
      DescribedField(v.value.fields, "market_type");
    }
  }

  // --- Events ----------------------------------------------------------------

  lemma {:induction false} SameMarkets(lib: Library, types: Fields, a: Fields, b: Fields, teamA: string, teamB: string, at: real)
    requires forall t :: t in types ==> DefinitionOf(a, t.0) == DefinitionOf(b, t.0)
    ensures MarketsOf(lib, types, a, teamA, teamB, at) == MarketsOf(lib, types, b, teamA, teamB, at)
  {
    if types != [] {
      assert types[0] in types;
      SameMarkets(lib, types[1..], a, b, teamA, teamB, at);
    }
  }

  /** Two captures and merges that agree on everything one event refers to. */
  ghost predicate Agree(lib: Library, c: Capture, p: Capture, full: Merged, slim: Merged, value: Fields) {
    && p.capturedAt == c.capturedAt && p.manifest == c.manifest
    && (forall k :: TournamentKey(lib, Obj(value)) == Ok(k) ==> Get(slim.tournaments, k) == Get(full.tournaments, k))
    && forall t :: MarketKeys(Obj(value)).Ok? && t in MarketKeys(Obj(value)).value ==> DefinitionOf(slim.descriptions, t) == DefinitionOf(full.descriptions, t)
  }

  lemma {:induction false} SameListed(lib: Library, full: Merged, slim: Merged, c: Capture, p: Capture, id: string, e: Entry, h: Header, at: real)
    requires Agree(lib, c, p, full, slim, e.value) && Get(e.value, "desc") == Some(Obj(h.desc))
    ensures ListedEvent(lib, slim, id, e, h, at) == ListedEvent(lib, full, id, e, h, at)
  {
    var tournamentId := AsText(Get(h.desc, "tournament"));
    if tournamentId.Ok? { assert TournamentKey(lib, Obj(e.value)) == Ok(tournamentId.value); }
    var types := AsObject(Get(e.value, "markets"));
    if Competitors(h.desc).Ok? && types.Ok? {
      assert MarketKeys(Obj(e.value)) == Ok(set t | t in types.value :: t.0);
      var teams := Competitors(h.desc).value;
      SameMarkets(lib, types.value, slim.descriptions, full.descriptions, teams.0, teams.1, e.at);
    }
  }

  lemma {:induction false} SameEvent(lib: Library, c: Capture, p: Capture, sport: Esport, full: Merged, slim: Merged, id: string, e: Entry)
    requires c.capturedAt.Some? && p.capturedAt.Some? && Agree(lib, c, p, full, slim, e.value)
    ensures ParseEvent(lib, p, sport, slim, id, e) == ParseEvent(lib, c, sport, full, id, e)
  {
    var h := Upcoming(lib, sport, e.value, c.capturedAt.value, c.manifest);
    if h.Ok? && h.value.Some? {
      SameListed(lib, full, slim, c, p, id, e, h.value.value, c.capturedAt.value);
    }
  }

  lemma {:induction false} SameEvents(lib: Library, c: Capture, p: Capture, sport: Esport, full: Merged, slim: Merged, events: seq<(string, Entry)>)
    requires c.capturedAt.Some? && p.capturedAt.Some? && ParseEvents(lib, c, sport, full, events).Ok?
    requires forall i :: 0 <= i < |events| && IsSport(sport, events[i].1.value) ==> Agree(lib, c, p, full, slim, events[i].1.value)
    ensures ParseEvents(lib, p, sport, slim, Filter(sport, events)) == ParseEvents(lib, c, sport, full, events)
  {
    if events != [] {
      SameEvents(lib, c, p, sport, full, slim, events[1..]);
      if IsSport(sport, events[0].1.value) {
        SameEvent(lib, c, p, sport, full, slim, events[0].0, events[0].1);
        assert Filter(sport, events)[1..] == Filter(sport, events[1..]);
      }
    }
  }

  // --- The theorem -----------------------------------------------------------

  lemma {:induction false} MergeKeepsDescriptions(m: Merged, shards: seq<Shard>, manifest: Fields, versions: seq<Json>, capturedAt: real, n: nat)
    requires n <= |shards| == |versions| && MergeShards(m, shards, manifest, versions, capturedAt, n).Ok?
    ensures MergeShards(m, shards, manifest, versions, capturedAt, n).value.descriptions == m.descriptions
  {
    if n > 0 { MergeKeepsDescriptions(m, shards, manifest, versions, capturedAt, n - 1); }
  }

  lemma {:induction false} ProjectedMerge(lib: Library, c: Capture, sport: Esport)
    requires Merge(c).Ok? && Project(lib, c, sport).Ok?
    ensures var p := Project(lib, c, sport).value;
            && Merge(p).Ok? && Merge(p).value.events == Filter(sport, Merge(c).value.events)
            && forall i :: 0 <= i < |Merge(c).value.events| && IsSport(sport, Merge(c).value.events[i].1.value) ==>
                 Agree(lib, c, p, Merge(c).value, Merge(p).value, Merge(c).value.events[i].1.value)
  {
    var p := Project(lib, c, sport).value;
    var slims := SlimShards(sport, c.shards).value;
    var used := UsedByAll(lib, slims).value;
    var manifest := AsObject(Some(c.manifest)).value;
    var versions, at := Versions(manifest).value, c.capturedAt.value;
    AllFinish(sport, used, c.shards, slims);
    ShardsMirror(sport, used, c.shards, FinishAll(slims, used), manifest, versions, at, |c.shards|);
    UsedCoversAll(lib, sport, c.shards, slims, used);
    MergedCovered(lib, sport, c.shards, used, manifest, versions, at, |c.shards|);
    var full, slim := Merge(c).value, Merge(p).value;
    var all := AsObject(Some(c.descriptions)).value;
    forall i | 0 <= i < |full.events| && IsSport(sport, full.events[i].1.value)
      ensures Agree(lib, c, p, full, slim, full.events[i].1.value)
    {
      var value := full.events[i].1.value;
      assert Covers(lib, used, value);
      forall t | t in MarketKeys(Obj(value)).value ensures DefinitionOf(slim.descriptions, t) == DefinitionOf(full.descriptions, t) {
        SameDefinition(all, used.markets, t);
      }
    }
  }

  /** Whenever the full snapshot parses and projects, the projection parses to the
      same listing: same events in the same order, same markets, names and odds. */
  lemma {:induction false} ProjectionPreservesListing(lib: Library, c: Capture, sport: Esport)
    requires ParseListing(lib, c, sport).Ok? && Project(lib, c, sport).Ok?
    ensures ParseListing(lib, Project(lib, c, sport).value, sport) == ParseListing(lib, c, sport)
  {
    var p := Project(lib, c, sport).value;
    ProjectedMerge(lib, c, sport);
    SameEvents(lib, c, p, sport, Merge(c).value, Merge(p).value, Merge(c).value.events);
  }

  /** A projection cannot be read as another sport. */
  lemma {:induction false} ProjectionIsOneSport(lib: Library, c: Capture, sport: Esport, other: Esport)
    requires Project(lib, c, sport).Ok? && other != sport
    ensures ParseListing(lib, Project(lib, c, sport).value, other).Err?
  {
  }
}
