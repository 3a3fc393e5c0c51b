/** One event read from a Blaze snapshot, and what projecting the snapshot does to the
    answer (feed.parser.ts `parseDetail`, capture-projection.ts). */
module BlazeDetail {
  import opened Domain
  import opened OrderedMaps
  import opened BlazeFeed
  import opened BlazePreservation

  /** `Failed` stands for every other thrown error. */
  datatype Detail = Found(event: Listed) | EventStarted | Failed

  function FindListed(ls: seq<Listed>, id: string): (l: Option<Listed>)
    ensures l.Some? ==> l.value in ls && l.value.eventId == id
    ensures l.None? ==> forall x :: x in ls ==> x.eventId != id
  {
    if ls == [] then None else if ls[0].eventId == id then Some(ls[0]) else FindListed(ls[1..], id)
  }

  predicate Begun(lib: Library, c: Capture, value: Fields) {
    var desc := AsObject(Get(value, "desc"));
    && desc.Ok? && c.capturedAt.Some?
    && lib.number(Get(desc.value, "scheduled")).Some?
    && lib.number(Get(desc.value, "scheduled")).value * 1000.0 <= c.capturedAt.value
  }

  function ParseDetail(lib: Library, c: Capture, sport: Esport, id: string): Detail {
    var listing := ParseListing(lib, c, sport);
    if listing.Err? then Failed
    else
      var event := FindListed(listing.value, id);
      if event.Some? then Found(event.value)
      else if Merge(c).Err? then Failed
      else
        var entry := Get(Merge(c).value.events, id);
        if entry.Some? && Begun(lib, c, entry.value.value) then EventStarted else Failed
  }

  // --- Identifiers stay distinct ---------------------------------------------

  lemma {:induction false} AddDistinct(events: seq<(string, Entry)>, added: Fields, at: real)
    requires Distinct(events) && AddEvents(events, added, at).Ok?
    ensures Distinct(AddEvents(events, added, at).value)
    decreases added
  {
    if added != [] && added[0].1.Obj? {
      PutDistinct(events, added[0].0, Entry(added[0].1.fields, at));
      AddDistinct(Put(events, added[0].0, Entry(added[0].1.fields, at)), added[1..], at);
    }
  }

  lemma {:induction false} MergedDistinct(m: Merged, shards: seq<Shard>, manifest: Fields, versions: seq<Json>, capturedAt: real, n: nat)
    requires n <= |shards| == |versions| && Distinct(m.events)
    requires MergeShards(m, shards, manifest, versions, capturedAt, n).Ok?
    ensures Distinct(MergeShards(m, shards, manifest, versions, capturedAt, n).value.events)
  {
    if n > 0 {
      MergedDistinct(m, shards, manifest, versions, capturedAt, n - 1);
      var before := MergeShards(m, shards, manifest, versions, capturedAt, n - 1).value;
      var r := ReadShard(shards[n - 1], manifest, n - 1, versions, capturedAt).value;
      AddDistinct(before.events, r.events, r.at);
    }
  }

  lemma {:induction false} ListedOnce(lib: Library, c: Capture, sport: Esport, data: Merged, events: seq<(string, Entry)>, a: Listed, b: Listed)
    requires c.capturedAt.Some? && Distinct(events) && ParseEvents(lib, c, sport, data, events).Ok?
    requires var ls := ParseEvents(lib, c, sport, data, events).value; a in ls && b in ls && a.eventId == b.eventId
    ensures a == b
  {
    var rest := ParseEvents(lib, c, sport, data, events[1..]).value;
    DistinctTail(events);
    forall x | x in rest ensures x.eventId != events[0].0 {
      ListedFrom(lib, c, sport, data, events[1..], x);
      GetHas(events[1..], events[0].0);
    }
    if a in rest && b in rest { ListedOnce(lib, c, sport, data, events[1..], a, b); }
  }

  lemma {:induction false} ListedFrom(lib: Library, c: Capture, sport: Esport, data: Merged, events: seq<(string, Entry)>, x: Listed)
    requires c.capturedAt.Some? && ParseEvents(lib, c, sport, data, events).Ok? && x in ParseEvents(lib, c, sport, data, events).value
    ensures exists i :: 0 <= i < |events| && events[i].0 == x.eventId && IsSport(sport, events[i].1.value)
  {
    var rest := ParseEvents(lib, c, sport, data, events[1..]).value;
    if x in rest {
      ListedFrom(lib, c, sport, data, events[1..], x);
      var i :| 0 <= i < |events[1..]| && events[1..][i].0 == x.eventId && IsSport(sport, events[1..][i].1.value);
      assert events[i + 1].0 == x.eventId;
    } else {
      assert events[0].0 == x.eventId && IsSport(sport, events[0].1.value);
    }
  }

  lemma {:induction false} InsertMembers(lib: Library, l: Listed, ls: seq<Listed>)
    ensures multiset(Insert(lib, l, ls)) == multiset(ls) + multiset{l}
  {
    if ls != [] && lib.precedes(ls[0], l) {
      InsertMembers(lib, l, ls[1..]);
      assert ls == [ls[0]] + ls[1..];
    }
  }

  lemma {:induction false} SortedMembers(lib: Library, ls: seq<Listed>)
    ensures multiset(Sorted(lib, ls)) == multiset(ls)
  {
    if ls != [] {
      SortedMembers(lib, ls[1..]);
      InsertMembers(lib, ls[0], Sorted(lib, ls[1..]));
      assert ls == [ls[0]] + ls[1..];
    }
  }

  /** A snapshot that parses has every identifier once. */
  lemma {:induction false} MergeDistinct(c: Capture)
    requires Merge(c).Ok?
    ensures Distinct(Merge(c).value.events)
  {
    var manifest := AsObject(Some(c.manifest)).value;
    MergedDistinct(Merged([], [], []), c.shards, manifest, Versions(manifest).value, c.capturedAt.value, |c.shards|);
  }

  /** The detail is found iff the listing has an event of that identifier, and then it
      is that event: the listing has no identifier twice. */
  lemma {:induction false} DetailIsListed(lib: Library, c: Capture, sport: Esport, id: string, e: Listed)
    requires ParseListing(lib, c, sport).Ok?
    ensures ParseDetail(lib, c, sport, id) == Found(e) <==> e in ParseListing(lib, c, sport).value && e.eventId == id
  {
    var data := Merge(c).value;
    var ls := ParseEvents(lib, c, sport, data, data.events).value;
    MergeDistinct(c);
    SortedMembers(lib, ls);
    var found := FindListed(Sorted(lib, ls), id);
    if found.Some? && e in Sorted(lib, ls) && e.eventId == id {
      assert found.value in multiset(Sorted(lib, ls)) && e in multiset(Sorted(lib, ls));
      ListedOnce(lib, c, sport, data, data.events, found.value, e);
    }
  }

  // --- Projection ------------------------------------------------------------

  lemma {:induction false} FilterDrops(sport: Esport, events: seq<(string, Entry)>, k: string)
    requires Distinct(events) && Get(events, k).Some? && !IsSport(sport, Get(events, k).value.value)
    ensures Get(Filter(sport, events), k) == None
  {
    DistinctTail(events);
    if events[0].0 == k {
      FilterGet(sport, events[1..], k);
    } else {
      FilterDrops(sport, events[1..], k);
      if IsSport(sport, events[0].1.value) {
        assert Filter(sport, events)[1..] == Filter(sport, events[1..]);
      }
    }
  }

  /** The snapshot has the event, as one of another sport. */
  predicate OtherSport(c: Capture, sport: Esport, id: string) {
    && Merge(c).Ok?
    && Get(Merge(c).value.events, id).Some?
    && !IsSport(sport, Get(Merge(c).value.events, id).value.value)
  }

  /** A listed event's entry is one of the listing's sport. */
  lemma {:induction false} ListedIsSport(lib: Library, c: Capture, sport: Esport, x: Listed)
    requires ParseListing(lib, c, sport).Ok? && x in ParseListing(lib, c, sport).value
    ensures !OtherSport(c, sport, x.eventId)
  {
    var data := Merge(c).value;
    var ls := ParseEvents(lib, c, sport, data, data.events).value;
    SortedMembers(lib, ls);
    assert x in multiset(Sorted(lib, ls));
    ListedFrom(lib, c, sport, data, data.events, x);
    var i :| 0 <= i < |data.events| && data.events[i].0 == x.eventId && IsSport(sport, data.events[i].1.value);
    MergeDistinct(c);
    EntryGet(data.events, x.eventId, data.events[i].1);
  }

  /** The event's start, as announced, has passed. */
  predicate HasBegun(lib: Library, c: Capture, id: string) {
    Merge(c).Ok? && Get(Merge(c).value.events, id).Some? && Begun(lib, c, Get(Merge(c).value.events, id).value.value)
  }

  /** Projecting preserves the detail, with one exception: an event of another sport
      that has begun is reported as started by the full snapshot and as absent by the
      projection. */
  lemma {:induction false} ProjectionPreservesDetail(lib: Library, c: Capture, sport: Esport, id: string)
    requires ParseListing(lib, c, sport).Ok? && Project(lib, c, sport).Ok?
    ensures ParseDetail(lib, Project(lib, c, sport).value, sport, id) == ParseDetail(lib, c, sport, id)
       <==> !(OtherSport(c, sport, id) && HasBegun(lib, c, id))
  {
    var p := Project(lib, c, sport).value;
    ProjectionPreservesListing(lib, c, sport);
    ProjectedMerge(lib, c, sport);
    MergeDistinct(c);
    var events := Merge(c).value.events;
    if OtherSport(c, sport, id) {
      FilterDrops(sport, events, id);
      var found := FindListed(ParseListing(lib, c, sport).value, id);
      if found.Some? { ListedIsSport(lib, c, sport, found.value); }
    } else {
      FilterGet(sport, events, id);
    }
  }

  // --- The exception, on a capture -------------------------------------------

  /** One shard with one event, of the second sport, whose start has passed. */
  function ForeignDesc(): Fields { [("sport", Str("110")), ("scheduled", Num(0.0))] }

  function ForeignValue(): Fields { [("desc", Obj(ForeignDesc()))] }

  function ForeignShard(): Fields {
    [("events", Obj([("e", Obj(ForeignValue()))])), ("fixtures_complete", Bool(true)), ("generated", Num(0.0)), ("snapshot_complete", Bool(true))]
  }

  function ForeignManifest(): Fields { [("top_events_versions", Arr([Num(1.0)])), ("rest_events_versions", Arr([]))] }

  function ForeignCapture(): Capture {
    Capture(true, Some(1.0), None, Obj(ForeignManifest()), [Shard(Num(1.0), Obj(ForeignShard()))], Obj([]))
  }

  function PlainLibrary(): Library {
    Library((v: Option<Json>) => if v.Some? && v.value.Num? then Some(v.value.n) else None, v => "", s => s, (s, n) => s, ps => ps, (a, b) => false)
  }

  lemma {:induction false} ForeignFields()
    ensures var d := ForeignShard();
            && Get(d, "events") == Some(Obj([("e", Obj(ForeignValue()))])) && Get(d, "fixtures_complete") == Some(Bool(true))
            && Get(d, "generated") == Some(Num(0.0)) && Get(d, "snapshot_complete") == Some(Bool(true))
            && Get(d, "epoch") == None && Get(d, "version") == None && Get(d, "tournaments") == None
    ensures Get(ForeignManifest(), "epoch") == None && Versions(ForeignManifest()) == Ok([Num(1.0)])
    ensures Get(ForeignValue(), "desc") == Some(Obj(ForeignDesc()))
    ensures Get(ForeignDesc(), "sport") == Some(Str("110")) && Get(ForeignDesc(), "scheduled") == Some(Num(0.0))
  {
    var d, m := ForeignShard(), ForeignManifest();
    assert d[1..][0] == d[1] && d[1..][1..][0] == d[2] && d[1..][1..][1..][0] == d[3] && d[1..][1..][1..][1..] == [];
    assert m[1..][0] == m[1] && m[1..][1..] == [];
    assert ForeignDesc()[1..] == [("scheduled", Num(0.0))];
    assert [Num(1.0)] + [] == [Num(1.0)];
  }

  lemma {:induction false} ForeignMerge()
    ensures Merge(ForeignCapture()) == Ok(Merged([("e", Entry(ForeignValue(), 0.0))], [], []))
  {
    ForeignFields();
    var c := ForeignCapture();
    var m := Merged([], [], []);
    var added: Fields := [("e", Obj(ForeignValue()))];
    assert added[1..] == [];
    assert AddEvents([], added, 0.0) == Ok([("e", Entry(ForeignValue(), 0.0))]);
    assert MergeShards(m, c.shards, ForeignManifest(), [Num(1.0)], 1.0, 0) == Ok(m);
    assert MergeShards(m, c.shards, ForeignManifest(), [Num(1.0)], 1.0, 1) == Ok(Merged([("e", Entry(ForeignValue(), 0.0))], [], []));
  }

  lemma {:induction false} ForeignListing()
    ensures ParseListing(PlainLibrary(), ForeignCapture(), Cs2) == Ok([])
  {
    ForeignFields();
    ForeignMerge();
    var data := Merge(ForeignCapture()).value;
    assert data.events[1..] == [];
    assert ParseEvents(PlainLibrary(), ForeignCapture(), Cs2, data, data.events) == Ok([]);
  }

  lemma {:induction false} ForeignSlim()
    ensures var s := SlimShard(Cs2, Shard(Num(1.0), Obj(ForeignShard()))); s.Ok? && s.value.events == []
  {
    ForeignFields();
    var events: Fields := [("e", Obj(ForeignValue()))];
    assert events[1..] == [];
    assert EventsOf(Cs2, events) == Ok([]);
  }

  /** A single shard without events of the sport projects to nothing used. */
  lemma {:induction false} EmptyShardProjects(lib: Library, c: Capture, sport: Esport, shard: Shard)
    requires c.shards == [shard] && c.descriptions == Obj([])
    requires SlimShard(sport, shard).Ok? && SlimShard(sport, shard).value.events == []
    ensures Project(lib, c, sport).Ok?
  {
    var slim := SlimShard(sport, shard).value;
    assert c.shards[..0] == [] && SlimShards(sport, []) == Ok([]);
    assert SlimShards(sport, c.shards) == Ok([] + [slim]) && [] + [slim] == [slim];
    assert [slim][..0] == [] && UsedByAll(lib, []) == Ok(Used({}, {})) && UsedBy(lib, slim.events) == Ok(Used({}, {}));
    assert UsedByAll(lib, [slim]).Ok?;
  }

  lemma {:induction false} ForeignProject()
    ensures Project(PlainLibrary(), ForeignCapture(), Cs2).Ok?
  {
    ForeignSlim();
    EmptyShardProjects(PlainLibrary(), ForeignCapture(), Cs2, Shard(Num(1.0), Obj(ForeignShard())));
  }

  /** The full snapshot says the event has started, its projection that there is none. */
  lemma {:induction false} ForeignEventDiffers()
    ensures var lib, c := PlainLibrary(), ForeignCapture();
            && ParseListing(lib, c, Cs2).Ok? && Project(lib, c, Cs2).Ok?
            && ParseDetail(lib, c, Cs2, "e") == EventStarted
            && ParseDetail(lib, Project(lib, c, Cs2).value, Cs2, "e") == Failed
  {
    var lib, c := PlainLibrary(), ForeignCapture();
    ForeignFields();
    ForeignMerge();
    ForeignListing();
    ForeignProject();
    ProjectionPreservesListing(lib, c, Cs2);
    ProjectedMerge(lib, c, Cs2);
    assert !IsSport(Cs2, ForeignValue());
    assert Filter(Cs2, Merge(c).value.events) == [];
  }
}
