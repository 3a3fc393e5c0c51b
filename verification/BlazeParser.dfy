/** The loops of the Blaze parser and projection, proved to compute what BlazeFeed
    describes (feed.parser.ts, capture-projection.ts). */
module BlazeParser {
  import opened Domain
  import opened OrderedMaps
  import opened BlazeFeed

  method AddShardEvents(events: seq<(string, Entry)>, added: Fields, at: real) returns (r: Result<seq<(string, Entry)>>)
    ensures r == AddEvents(events, added, at)
  {
    var all := events;
    assert added[0..] == added;
    for i := 0 to |added|
      invariant AddEvents(all, added[i..], at) == AddEvents(events, added, at)
    {
      assert added[i..][0] == added[i] && added[i..][1..] == added[i + 1..];
      var prior, value := Get(all, added[i].0), AsObject(Some(added[i].1));
      if value.Err? || (prior.Some? && prior.value.value != value.value) { return Err; }
      all := Put(all, added[i].0, Entry(value.value, at));
    }
    assert added[|added|..] == [];
    r := Ok(all);
  }

  method Merge(c: Capture) returns (r: Result<Merged>)
    ensures r == BlazeFeed.Merge(c)
  {
    if !c.provenanceOk || c.capturedAt.None? { return Err; }
    var manifest := AsObject(Some(c.manifest));
    if manifest.Err? { return Err; }
    var versions := Versions(manifest.value);
    if versions.Err? || versions.value == [] || !AllDifferent(versions.value) || |versions.value| != |c.shards| { return Err; }
    var vs, at := versions.value, c.capturedAt.value;
    var m := Merged([], [], []);
    for i := 0 to |vs|
      invariant MergeShards(Merged([], [], []), c.shards, manifest.value, vs, at, i) == Ok(m)
    {
      var read := ReadShard(c.shards[i], manifest.value, i, vs, at);
      if read.Err? {
        MergeFails(c.shards, manifest.value, vs, at, i + 1);
        return Err;
      }
      var events := AddShardEvents(m.events, read.value.events, read.value.at);
      if events.Err? {
        MergeFails(c.shards, manifest.value, vs, at, i + 1);
        return Err;
      }
      m := m.(events := events.value, tournaments := Assign(m.tournaments, read.value.tournaments));
    }
    var descriptions := AsObject(Some(c.descriptions));
    r := if descriptions.Err? then Err else Ok(m.(descriptions := descriptions.value));
  }

  /** A failed shard fails the whole merge. */
  lemma {:induction false} MergeFails(shards: seq<Shard>, manifest: Fields, versions: seq<Json>, at: real, n: nat)
    requires n <= |shards| == |versions| && MergeShards(Merged([], [], []), shards, manifest, versions, at, n).Err?
    ensures MergeShards(Merged([], [], []), shards, manifest, versions, at, |shards|).Err?
    decreases |shards| - n
  {
    if n < |shards| { MergeFails(shards, manifest, versions, at, n + 1); }
  }

  method Listing(lib: Library, c: Capture, sport: Esport) returns (r: Result<seq<Listed>>)
    ensures r == ParseListing(lib, c, sport)
  {
    if c.projection.Some? && c.projection != Some(sport) { return Err; }
    var data := Merge(c);
    if data.Err? || c.capturedAt.None? { return Err; }
    var listed := ListEvents(lib, c, sport, data.value);
    r := if listed.Err? then Err else Ok(Sorted(lib, listed.value));
  }

  /** Earlier results followed by the rest, if that succeeds. */
  function Following(done: seq<Listed>, rest: Result<seq<Listed>>): Result<seq<Listed>> {
    if rest.Ok? then Ok(done + rest.value) else Err
  }

  lemma {:induction false} FollowingStep(lib: Library, c: Capture, sport: Esport, data: Merged, events: seq<(string, Entry)>, i: nat, done: seq<Listed>)
    requires c.capturedAt.Some? && i < |events|
    ensures var l := ParseEvent(lib, c, sport, data, events[i].0, events[i].1);
            Following(done, ParseEvents(lib, c, sport, data, events[i..]))
            == if l.Err? then Err
               else Following(if l.value.Some? then done + [l.value.value] else done, ParseEvents(lib, c, sport, data, events[i + 1..]))
  {
    assert events[i..][0] == events[i] && events[i..][1..] == events[i + 1..];
    var l, rest := ParseEvent(lib, c, sport, data, events[i].0, events[i].1), ParseEvents(lib, c, sport, data, events[i + 1..]);
    if l.Ok? && l.value.Some? && rest.Ok? {
      assert done + ([l.value.value] + rest.value) == (done + [l.value.value]) + rest.value;
    }
  }

  method ListEvents(lib: Library, c: Capture, sport: Esport, data: Merged) returns (r: Result<seq<Listed>>)
    requires c.capturedAt.Some?
    ensures r == ParseEvents(lib, c, sport, data, data.events)
  {
    var events, result := data.events, [];
    ghost var total := ParseEvents(lib, c, sport, data, events);
    assert events[0..] == events;
    assert total.Ok? ==> [] + total.value == total.value;
    for i := 0 to |events|
      invariant total == Following(result, ParseEvents(lib, c, sport, data, events[i..]))
    {
      FollowingStep(lib, c, sport, data, events, i, result);
      var l := ParseEvent(lib, c, sport, data, events[i].0, events[i].1);
      if l.Err? { return Err; }
      if l.value.Some? { result := result + [l.value.value]; }
    }
    assert events[|events|..] == [] && result + [] == result;
    r := Ok(result);
  }

  /** Keeps one sport's events, then the tournaments and descriptions they refer to. */
  method ProjectCapture(lib: Library, c: Capture, sport: Esport) returns (r: Result<Capture>)
    ensures r == Project(lib, c, sport)
  {
    var slims, ok := SlimAll(sport, c.shards);
    if !ok { return Err; }
    var used, counted := CountUses(lib, slims);
    if !counted { return Err; }
    var all := AsObject(Some(c.descriptions));
    if all.Err? { return Err; }
    var descriptions := Descriptions(Restrict(all.value, used.markets));
    if descriptions.Err? { return Err; }
    var shards: seq<Shard> := [];
    for i := 0 to |slims|
      invariant shards == FinishAll(slims[..i], used)
    {
      assert slims[..i + 1][..i] == slims[..i];
      shards := shards + [Finish(slims[i], used)];
    }
    assert slims[..|slims|] == slims;
    r := Ok(c.(projection := Some(sport), shards := shards, descriptions := Obj(descriptions.value)));
  }

  method SlimAll(sport: Esport, shards: seq<Shard>) returns (slims: seq<Slim>, ok: bool)
    ensures ok <==> SlimShards(sport, shards).Ok?
    ensures ok ==> SlimShards(sport, shards) == Ok(slims)
  {
    slims := [];
    for i := 0 to |shards|
      invariant SlimShards(sport, shards[..i]) == Ok(slims)
    {
      assert shards[..i + 1][..i] == shards[..i];
      var s := SlimShard(sport, shards[i]);
      if s.Err? {
        SlimFails(sport, shards, i + 1);
        return slims, false;
      }
      slims := slims + [s.value];
    }
    assert shards[..|shards|] == shards;
    ok := true;
  }

  lemma {:induction false} SlimFails(sport: Esport, shards: seq<Shard>, n: nat)
    requires n <= |shards| && SlimShards(sport, shards[..n]).Err?
    ensures SlimShards(sport, shards).Err?
    decreases |shards| - n
  {
    if n == |shards| {
      assert shards[..n] == shards;
    } else {
      assert shards[..n + 1][..n] == shards[..n];
      SlimFails(sport, shards, n + 1);
    }
  }

  method CountUses(lib: Library, slims: seq<Slim>) returns (used: Used, ok: bool)
    ensures ok <==> UsedByAll(lib, slims).Ok?
    ensures ok ==> UsedByAll(lib, slims) == Ok(used)
  {
    used := Used({}, {});
    for i := 0 to |slims|
      invariant UsedByAll(lib, slims[..i]) == Ok(used)
    {
      assert slims[..i + 1][..i] == slims[..i];
      var u := UsedBy(lib, slims[i].events);
      if u.Err? {
        CountFails(lib, slims, i + 1);
        return used, false;
      }
      used := Used(used.tournaments + u.value.tournaments, used.markets + u.value.markets);
    }
    assert slims[..|slims|] == slims;
    ok := true;
  }

  lemma {:induction false} CountFails(lib: Library, slims: seq<Slim>, n: nat)
    requires n <= |slims| && UsedByAll(lib, slims[..n]).Err?
    ensures UsedByAll(lib, slims).Err?
    decreases |slims| - n
  {
    if n == |slims| {
      assert slims[..n] == slims;
    } else {
      assert slims[..n + 1][..n] == slims[..n];
      CountFails(lib, slims, n + 1);
    }
  }
}
