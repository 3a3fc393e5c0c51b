/** The Blaze feed as parsed JSON, its listing parser and the per-sport projection
    that is archived instead of the full snapshot (feed.parser.ts,
    capture-projection.ts, types/feed.ts). */
module BlazeFeed {
  import opened Domain
  import opened OrderedMaps
  import opened Texts

  /** Objects are lists of fields, each name once, in enumeration order. */
  datatype Json = Null | Bool(b: bool) | Num(n: real) | Str(s: string) | Arr(items: seq<Json>) | Obj(fields: Fields)

  type Fields = seq<(string, Json)>

  /** A thrown error is an `Err`. */
  datatype Result<+T> = Ok(value: T) | Err {
    predicate IsFailure() { Err? }
    function PropagateFailure<U>(): Result<U>
      requires Err?
    {
      Err
    }
    function Extract(): T
      requires Ok?
    {
      value
    }
  }

  /** The library functions the parser calls: reading a number, text forms of values,
      team names, and orders. */
  datatype Library = Library(
    number: Option<Json> -> Option<real>,
    text: Option<Json> -> string,
    teamName: string -> string,
    caption: (string, Option<real>) -> string,
    sortPairs: seq<seq<string>> -> seq<seq<string>>,
    precedes: (Listed, Listed) -> bool)

  datatype Shard = Shard(version: Json, data: Json)

  datatype Capture = Capture(provenanceOk: bool, capturedAt: Option<real>, projection: Option<Esport>,
                             manifest: Json, shards: seq<Shard>, descriptions: Json)

  function Sport(e: Esport): string {
    match e
    case Cs2 => "109"
    case Lol => "110"
    case Valorant => "194"
  }

  /** types/feed.ts `object`: anything but a plain object is an error. */
  function AsObject(v: Option<Json>): Result<Fields> {
    if v.Some? && v.value.Obj? then Ok(v.value.fields) else Err
  }

  predicate Blank(s: string) { forall c :: c in s ==> c in {' ', '\t', '\n', '\r'} }

  /** types/feed.ts `id`: a string that is not blank. */
  function AsText(v: Option<Json>): Result<string> {
    if v.Some? && v.value.Str? && !Blank(v.value.s) then Ok(v.value.s) else Err
  }

  /** `v ?? w` */
  function OrElse(v: Option<Json>, w: Json): Json { if v.Some? && v.value != Null then v.value else w }

  // --- Merging the shards ----------------------------------------------------

  datatype Entry = Entry(value: Fields, at: real)

  datatype Merged = Merged(events: seq<(string, Entry)>, tournaments: Fields, descriptions: Fields)

  function Assign(target: Fields, source: Fields): Fields
    decreases source
  {
    if source == [] then target else Assign(Put(target, source[0].0, source[0].1), source[1..])
  }

  function AddEvents(events: seq<(string, Entry)>, added: Fields, at: real): Result<seq<(string, Entry)>>
    decreases added
  {
    if added == [] then Ok(events)
    else
      var prior := Get(events, added[0].0);
      var value :- AsObject(Some(added[0].1));
      if prior.Some? && prior.value.value != value then Err
      else AddEvents(Put(events, added[0].0, Entry(value, at)), added[1..], at)
  }

  predicate ShardOk(d: Fields, shard: Shard, manifest: Fields, version: Json, capturedAt: real) {
    && shard.version == version
    && Get(d, "epoch") == Get(manifest, "epoch")
    && Get(d, "fixtures_complete") == Some(Bool(true))
    && Get(d, "generated").Some? && Get(d, "generated").value.Num? && Get(d, "generated").value.n <= capturedAt + 60000.0
  }

  /** Each shard names its successor's version; the last says it is complete. */
  predicate ChainOk(d: Fields, i: nat, versions: seq<Json>)
    requires i < |versions|
  {
    if i + 1 < |versions| then Get(d, "version") == Some(versions[i + 1]) else Get(d, "snapshot_complete") == Some(Bool(true))
  }

  function Tournaments(d: Fields): Result<Fields> {
    AsObject(Some(OrElse(Get(d, "tournaments"), Obj([]))))
  }

  /** What one shard contributes: its events, their time, and its tournaments. */
  datatype Read = Read(events: Fields, at: real, tournaments: Fields)

  function ReadShard(shard: Shard, manifest: Fields, i: nat, versions: seq<Json>, capturedAt: real): Result<Read>
    requires i < |versions|
  {
    var d :- AsObject(Some(shard.data));
    if !ShardOk(d, shard, manifest, versions[i], capturedAt) || !ChainOk(d, i, versions) then Err
    else
      var tournaments :- Tournaments(d);
      var events :- AsObject(Get(d, "events"));
      Ok(Read(events, Get(d, "generated").value.n, tournaments))
  }

  function MergeShard(m: Merged, shard: Shard, manifest: Fields, i: nat, versions: seq<Json>, capturedAt: real): Result<Merged>
    requires i < |versions|
  {
    var r :- ReadShard(shard, manifest, i, versions, capturedAt);
    var events :- AddEvents(m.events, r.events, r.at);
    Ok(m.(events := events, tournaments := Assign(m.tournaments, r.tournaments)))
  }

  /** The first n shards merged. */
  function MergeShards(m: Merged, shards: seq<Shard>, manifest: Fields, versions: seq<Json>, capturedAt: real, n: nat): Result<Merged>
    requires n <= |shards| == |versions|
  {
    if n == 0 then Ok(m)
    else
      var before :- MergeShards(m, shards, manifest, versions, capturedAt, n - 1);
      MergeShard(before, shards[n - 1], manifest, n - 1, versions, capturedAt)
  }

  function Versions(manifest: Fields): Result<seq<Json>> {
    var top, rest := Get(manifest, "top_events_versions"), Get(manifest, "rest_events_versions");
    if top.Some? && top.value.Arr? && rest.Some? && rest.value.Arr? then Ok(top.value.items + rest.value.items) else Err
  }

  predicate AllDifferent<T(==)>(s: seq<T>) { forall i, j :: 0 <= i < j < |s| ==> s[i] != s[j] }

  function Merge(c: Capture): Result<Merged> {
    if !c.provenanceOk || c.capturedAt.None? then Err
    else
      var manifest :- AsObject(Some(c.manifest));
      var versions :- Versions(manifest);
      if versions == [] || !AllDifferent(versions) || |versions| != |c.shards| then Err
      else
        var m :- MergeShards(Merged([], [], []), c.shards, manifest, versions, c.capturedAt.value, |c.shards|);
        var descriptions :- AsObject(Some(c.descriptions));
        Ok(m.(descriptions := descriptions))
  }

  // --- Markets ---------------------------------------------------------------

  datatype Selection = Selection(id: string, name: string, odds: Option<real>, suspended: Option<bool>, raw: Fields)

  datatype Definition = Definition(name: Option<Json>, marketType: Json)

  datatype Market = Market(id: string, rawId: string, category: string, name: string, map_: Option<real>,
                           suspended: Option<bool>, selections: seq<Selection>, specifier: string, definition: Definition, at: real)

  function DefinitionOf(descriptions: Fields, kind: string): Result<Definition> {
    var v := Get(descriptions, kind);
    if v.None? || v.value in {Null, Bool(false), Num(0.0), Str("")} then Ok(Definition(None, Null))
    else
      var d :- AsObject(v);
      Ok(Definition(Get(d, "name"), OrElse(Get(d, "market_type"), Null)))
  }

  function SplitAll(ss: seq<string>): seq<seq<string>> {
    if ss == [] then [] else [Split(ss[0], '=')] + SplitAll(ss[1..])
  }

  function JoinAll(pairs: seq<seq<string>>): seq<string> {
    if pairs == [] then [] else [Join(pairs[0], '=')] + JoinAll(pairs[1..])
  }

  predicate PairsOk(pairs: seq<seq<string>>) {
    && (forall p :: p in pairs ==> |p| == 2)
    && forall i, j :: 0 <= i < j < |pairs| ==> pairs[i][0] != pairs[j][0]
  }

  function MapNumber(lib: Library, pairs: seq<seq<string>>): Result<Option<real>>
    requires PairsOk(pairs)
  {
    if pairs == [] then Ok(None)
    else
      assert PairsOk(pairs[1..]);
      if pairs[0][0] == "mapnr" then
        var n := lib.number(Some(Str(pairs[0][1])));
        if n.Some? && n.value >= 1.0 && n.value.Floor as real == n.value then Ok(n) else Err
      else MapNumber(lib, pairs[1..])
  }

  function SelectionOf(lib: Library, id: string, value: Json, teamA: string, teamB: string): Result<Selection> {
    var o :- AsObject(Some(value));
    var k, b := Get(o, "k"), Get(o, "b");
    var numeric := if AsText(k).Ok? then lib.number(k) else None;
    var suspended := if b == Some(Num(1.0)) then Some(true) else if b == Some(Num(0.0)) || b.None? then Some(false) else None;
    Ok(Selection(id, if id == "4" then teamA else if id == "5" then teamB else id,
                 if numeric.Some? && numeric.value > 1.0 then numeric else None, suspended, o))
  }

  function SelectionsOf(lib: Library, outcomes: Fields, teamA: string, teamB: string): Result<seq<Selection>> {
    if outcomes == [] then Ok([])
    else
      var s :- SelectionOf(lib, outcomes[0].0, outcomes[0].1, teamA, teamB);
      var rest :- SelectionsOf(lib, outcomes[1..], teamA, teamB);
      Ok([s] + rest)
  }

  function Category(kind: string, specifier: string, map_: Option<real>): string {
    if kind == "186" && specifier == "" then "match_winner" else if kind == "330" && map_.Some? then "map_winner" else "unknown"
  }

  function MarketSuspension(ss: seq<Selection>): Option<bool> {
    if ss != [] && forall s :: s in ss ==> s.suspended == Some(true) then Some(true)
    else if forall s :: s in ss ==> s.suspended == Some(false) then Some(false) else None
  }

  function MarketOf(lib: Library, kind: string, d: Definition, specifier: string, outcomes: Json, teamA: string, teamB: string, at: real): Result<Market> {
    var pairs := if specifier == "" then [] else SplitAll(Split(specifier, '|'));
    if !PairsOk(pairs) then Err
    else
      var map_ :- MapNumber(lib, pairs);
      var category := Category(kind, specifier, map_);
      var fields :- AsObject(Some(outcomes));
      var selections :- SelectionsOf(lib, fields, teamA, teamB);
      if category != "unknown" && (|selections| != 2 || !(exists s :: s in selections && s.id == "4") || !(exists s :: s in selections && s.id == "5")) then Err
      else
        Ok(Market(if specifier == "" then kind else kind + ":" + Join(JoinAll(lib.sortPairs(pairs)), '|'), kind, category,
                  if d.name.Some? && d.name.value.Str? then lib.caption(d.name.value.s, map_) else kind,
                  map_, MarketSuspension(selections), selections, specifier, d, at))
  }

  function VariantsOf(lib: Library, kind: string, d: Definition, variants: Fields, teamA: string, teamB: string, at: real): Result<seq<Market>> {
    if variants == [] then Ok([])
    else
      var m :- MarketOf(lib, kind, d, variants[0].0, variants[0].1, teamA, teamB, at);
      var rest :- VariantsOf(lib, kind, d, variants[1..], teamA, teamB, at);
      Ok([m] + rest)
  }

  function MarketsOf(lib: Library, types: Fields, descriptions: Fields, teamA: string, teamB: string, at: real): Result<seq<Market>> {
    if types == [] then Ok([])
    else
      var d :- DefinitionOf(descriptions, types[0].0);
      var variants :- AsObject(Some(types[0].1));
      var ms :- VariantsOf(lib, types[0].0, d, variants, teamA, teamB, at);
      var rest :- MarketsOf(lib, types[1..], descriptions, teamA, teamB, at);
      Ok(ms + rest)
  }

  // --- The listing -----------------------------------------------------------

  datatype Listed = Listed(eventId: string, teamA: string, teamB: string, normalizedA: string, normalizedB: string,
                           tournament: string, startsAt: real, fetchedAt: real, markets: seq<Market>, desc: Fields, state: Fields,
                           manifestVersion: Option<Json>)

  function Competitors(desc: Fields): Result<(string, string)> {
    var v := Get(desc, "competitors");
    if v.None? || !v.value.Arr? || |v.value.items| != 2 then Err
    else
      var first :- AsObject(Some(v.value.items[0]));
      var second :- AsObject(Some(v.value.items[1]));
      var a :- AsText(Get(first, "name"));
      var b :- AsText(Get(second, "name"));
      Ok((a, b))
  }

  datatype Header = Header(desc: Fields, state: Fields, starts: real, manifest: Fields)

  function ListedEvent(lib: Library, data: Merged, id: string, e: Entry, h: Header, capturedAt: real): Result<Listed> {
    var teams :- Competitors(h.desc);
    var tournamentId :- AsText(Get(h.desc, "tournament"));
    var named :- AsObject(Get(data.tournaments, tournamentId));
    var tournament :- AsText(Get(named, "name"));
    var types :- AsObject(Get(e.value, "markets"));
    var markets :- MarketsOf(lib, types, data.descriptions, teams.0, teams.1, e.at);
    Ok(Listed(id, teams.0, teams.1, lib.teamName(teams.0), lib.teamName(teams.1), tournament, h.starts, capturedAt, markets, h.desc, h.state,
              Get(h.manifest, "version")))
  }

  /** An upcoming match's header: None for another sport, no match, or not upcoming. */
  function Upcoming(lib: Library, sport: Esport, value: Fields, capturedAt: real, manifest: Json): Result<Option<Header>> {
    var desc :- AsObject(Get(value, "desc"));
    if Get(desc, "sport") != Some(Str(Sport(sport))) || Get(desc, "type") != Some(Str("match")) then Ok(None)
    else
      var state :- AsObject(Get(value, "state"));
      var scheduled := lib.number(Get(desc, "scheduled"));
      if scheduled.None? then Err
      else
        var starts := scheduled.value * 1000.0;
        if starts <= capturedAt || Get(state, "status") != Some(Num(0.0)) || Get(state, "match_status") != Some(Num(0.0)) then Ok(None)
        else
          var fields :- AsObject(Some(manifest));
          Ok(Some(Header(desc, state, starts, fields)))
  }

  function ParseEvent(lib: Library, c: Capture, sport: Esport, data: Merged, id: string, e: Entry): Result<Option<Listed>>
    requires c.capturedAt.Some?
  {
    var h :- Upcoming(lib, sport, e.value, c.capturedAt.value, c.manifest);
    if h.None? then Ok(None)
    else
      var l :- ListedEvent(lib, data, id, e, h.value, c.capturedAt.value);
      Ok(Some(l))
  }

  function ParseEvents(lib: Library, c: Capture, sport: Esport, data: Merged, events: seq<(string, Entry)>): Result<seq<Listed>>
    requires c.capturedAt.Some?
  {
    if events == [] then Ok([])
    else
      var l :- ParseEvent(lib, c, sport, data, events[0].0, events[0].1);
      var rest :- ParseEvents(lib, c, sport, data, events[1..]);
      Ok(if l.Some? then [l.value] + rest else rest)
  }

  /** Stable sort by insertion. */
  function Insert(lib: Library, l: Listed, sorted: seq<Listed>): seq<Listed> {
    if sorted == [] || !lib.precedes(sorted[0], l) then [l] + sorted else [sorted[0]] + Insert(lib, l, sorted[1..])
  }

  function Sorted(lib: Library, ls: seq<Listed>): seq<Listed> {
    if ls == [] then [] else Insert(lib, ls[0], Sorted(lib, ls[1..]))
  }

  function ParseListing(lib: Library, c: Capture, sport: Esport): Result<seq<Listed>> {
    if c.projection.Some? && c.projection != Some(sport) then Err
    else
      var data :- Merge(c);
      if c.capturedAt.None? then Err
      else
        var listed :- ParseEvents(lib, c, sport, data, data.events);
        Ok(Sorted(lib, listed))
  }

  // --- The projection --------------------------------------------------------

  function SportOf(e: Json): Result<Option<Json>> {
    var fields :- AsObject(Some(e));
    var desc :- AsObject(Get(fields, "desc"));
    Ok(Get(desc, "sport"))
  }

  /** The events of one sport; any event without a description is an error. */
  function EventsOf(sport: Esport, events: Fields): Result<Fields> {
    if events == [] then Ok([])
    else
      var s :- SportOf(events[0].1);
      var rest :- EventsOf(sport, events[1..]);
      Ok(if s == Some(Str(Sport(sport))) then [events[0]] + rest else rest)
  }

  function TournamentKey(lib: Library, e: Json): Result<string> {
    var fields :- AsObject(Some(e));
    var desc :- AsObject(Get(fields, "desc"));
    var t := Get(desc, "tournament");
    Ok(if t.Some? && t.value.Str? then t.value.s else lib.text(t))
  }

  function MarketKeys(e: Json): Result<set<string>> {
    var fields :- AsObject(Some(e));
    var types :- AsObject(Get(fields, "markets"));
    Ok(set t | t in types :: t.0)
  }

  /** Tournaments and market types that the events refer to. */
  datatype Used = Used(tournaments: set<string>, markets: set<string>)

  function UsedBy(lib: Library, events: Fields): Result<Used> {
    if events == [] then Ok(Used({}, {}))
    else
      var t :- TournamentKey(lib, events[0].1);
      var ms :- MarketKeys(events[0].1);
      var rest :- UsedBy(lib, events[1..]);
      Ok(Used({t} + rest.tournaments, ms + rest.markets))
  }

  function Present(k: string, v: Option<Json>): Fields { if v.Some? then [(k, v.value)] else [] }

  /** A shard with one sport's events and, for now, all its tournaments. */
  datatype Slim = Slim(version: Json, head: Fields, events: Fields, tournaments: Fields)

  function SlimShard(sport: Esport, s: Shard): Result<Slim> {
    var d :- AsObject(Some(s.data));
    var all :- AsObject(Get(d, "events"));
    var events :- EventsOf(sport, all);
    var tournaments :- Tournaments(d);
    Ok(Slim(s.version,
            Present("epoch", Get(d, "epoch")) + Present("version", Get(d, "version")) + Present("generated", Get(d, "generated"))
            + Present("snapshot_complete", Get(d, "snapshot_complete")) + Present("fixtures_complete", Get(d, "fixtures_complete")),
            events, tournaments))
  }

  function SlimShards(sport: Esport, shards: seq<Shard>): Result<seq<Slim>> {
    if shards == [] then Ok([])
    else
      var rest :- SlimShards(sport, shards[..|shards| - 1]);
      var s :- SlimShard(sport, shards[|shards| - 1]);
      Ok(rest + [s])
  }

  function UsedByAll(lib: Library, slims: seq<Slim>): Result<Used> {
    if slims == [] then Ok(Used({}, {}))
    else
      var rest :- UsedByAll(lib, slims[..|slims| - 1]);
      var u :- UsedBy(lib, slims[|slims| - 1].events);
      Ok(Used(rest.tournaments + u.tournaments, rest.markets + u.markets))
  }

  /** The fields whose names are wanted. */
  function Restrict(fields: Fields, names: set<string>): Fields {
    if fields == [] then []
    else if fields[0].0 in names then [fields[0]] + Restrict(fields[1..], names)
    else Restrict(fields[1..], names)
  }

  function Finish(s: Slim, used: Used): Shard {
    Shard(s.version, Obj(s.head + [("events", Obj(s.events)), ("tournaments", Obj(Restrict(s.tournaments, used.tournaments)))]))
  }

  function FinishAll(slims: seq<Slim>, used: Used): seq<Shard> {
    if slims == [] then [] else FinishAll(slims[..|slims| - 1], used) + [Finish(slims[|slims| - 1], used)]
  }

  function Described(d: Fields): Json {
    Obj(Present("id", Get(d, "id")) + Present("name", Get(d, "name")) + Present("variants", Get(d, "variants"))
        + [("specifiers", OrElse(Get(d, "specifiers"), Arr([]))), ("market_type", OrElse(Get(d, "market_type"), Null))])
  }

  function Descriptions(fields: Fields): Result<Fields> {
    if fields == [] then Ok([])
    else
      var d :- AsObject(Some(fields[0].1));
      var rest :- Descriptions(fields[1..]);
      Ok([(fields[0].0, Described(d))] + rest)
  }

  function Project(lib: Library, c: Capture, sport: Esport): Result<Capture> {
    var slims :- SlimShards(sport, c.shards);
    var used :- UsedByAll(lib, slims);
    var all :- AsObject(Some(c.descriptions));
    var descriptions :- Descriptions(Restrict(all, used.markets));
    Ok(c.(projection := Some(sport), shards := FinishAll(slims, used), descriptions := Obj(descriptions)))
  }
}
