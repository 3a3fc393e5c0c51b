/** What a parsed Blaze listing contains, in terms of the fields of the merged snapshot
    (feed.parser.ts). */
module BlazeListing {
  import opened Domain
  import opened OrderedMaps
  import opened Texts
  import opened BlazeFeed
  import BlazeDetail

  // --- Fields ----------------------------------------------------------------

  /** The field is an object with these fields. */
  predicate IsObject(f: Fields, name: string, sub: Fields) { Get(f, name) == Some(Obj(sub)) }

  /** The field is a text that is not blank. */
  predicate IsText(f: Fields, name: string, s: string) {
    Get(f, name) == Some(Str(s)) && exists i :: 0 <= i < |s| && s[i] != ' ' && s[i] != '\t' && s[i] != '\n' && s[i] != '\r'
  }

  lemma {:induction false} TextMeans(f: Fields, name: string, s: string)
    ensures AsText(Get(f, name)) == Ok(s) <==> IsText(f, name, s)
  {
    if Blank(s) { assert forall i :: 0 <= i < |s| ==> s[i] in s; }
    if !Blank(s) {
      var c :| c in s && c !in {' ', '\t', '\n', '\r'};
      var i :| 0 <= i < |s| && s[i] == c;
    }
  }

  // --- Selections ------------------------------------------------------------

  /** The text k is a number above 1: the odds; else there are none. */
  ghost predicate OddsFrom(lib: Library, odds: Option<real>, outcome: Fields) {
    var k: Option<Json> := Get(outcome, "k");
    odds == match k
            case Some(Str(s)) =>
              (match lib.number(Some(Str(s)))
               case Some(n) => if IsText(outcome, "k", s) && n > 1.0 then Some(n) else None
               case None => None)
            case _ => None
  }

  /** A selection reads one outcome: outcome 4 is the first team, 5 the second. */
  ghost predicate SelectionFrom(lib: Library, s: Selection, id: string, outcome: Json, first: string, second: string) {
    && outcome.Obj? && s.id == id && s.raw == outcome.fields
    && (id == "4" ==> s.name == first) && (id == "5" ==> s.name == second) && (id !in {"4", "5"} ==> s.name == id)
    && OddsFrom(lib, s.odds, outcome.fields)
    && (s.suspended == Some(true) <==> Get(outcome.fields, "b") == Some(Num(1.0)))
    && (s.suspended == Some(false) <==> Get(outcome.fields, "b") == Some(Num(0.0)) || Get(outcome.fields, "b") == None)
  }

  lemma {:induction false} SelectionMeans(lib: Library, id: string, outcome: Json, first: string, second: string)
    ensures var s := SelectionOf(lib, id, outcome, first, second);
            && (s.Ok? <==> outcome.Obj?)
            && (s.Ok? ==> SelectionFrom(lib, s.value, id, outcome, first, second))
  {
    if outcome.Obj? && Get(outcome.fields, "k").Some? && Get(outcome.fields, "k").value.Str? {
      TextMeans(outcome.fields, "k", Get(outcome.fields, "k").value.s);
    }
  }

  /** One selection for each outcome, in order. */
  ghost predicate SelectionsFrom(lib: Library, ss: seq<Selection>, outcomes: Fields, first: string, second: string) {
    && |ss| == |outcomes|
    && forall i :: 0 <= i < |ss| ==> SelectionFrom(lib, ss[i], outcomes[i].0, outcomes[i].1, first, second)
  }

  lemma {:induction false} SelectionsMean(lib: Library, outcomes: Fields, first: string, second: string)
    requires SelectionsOf(lib, outcomes, first, second).Ok?
    ensures SelectionsFrom(lib, SelectionsOf(lib, outcomes, first, second).value, outcomes, first, second)
  {
    if outcomes != [] {
      SelectionMeans(lib, outcomes[0].0, outcomes[0].1, first, second);
      SelectionsMean(lib, outcomes[1..], first, second);
      var rest := SelectionsOf(lib, outcomes[1..], first, second).value;
      forall i | 0 <= i < |outcomes|
        ensures SelectionFrom(lib, SelectionsOf(lib, outcomes, first, second).value[i], outcomes[i].0, outcomes[i].1, first, second)
      {
        if i > 0 { assert outcomes[1..][i - 1] == outcomes[i] && SelectionFrom(lib, rest[i - 1], outcomes[1..][i - 1].0, outcomes[1..][i - 1].1, first, second); }
      }
    }
  }

  // --- Specifiers ------------------------------------------------------------

  /** The items of a specifier, each a name and a value; an empty one has none. */
  ghost predicate PairsFrom(pairs: seq<seq<string>>, specifier: string) {
    && (specifier == "" ==> pairs == [])
    && (specifier != "" ==>
          && |pairs| == |Split(specifier, '|')|
          && forall i :: 0 <= i < |pairs| ==> |pairs[i]| == 2 && pairs[i] == Split(Split(specifier, '|')[i], '='))
    && forall i, j :: 0 <= i < |pairs| && 0 <= j < |pairs| && pairs[i][0] == pairs[j][0] ==> i == j
  }

  /** The map number is the value of the item mapnr, a whole number of at least 1. */
  ghost predicate MapFrom(lib: Library, map_: Option<real>, pairs: seq<seq<string>>)
    requires forall p :: p in pairs ==> |p| == 2
  {
    && (map_.None? <==> forall p :: p in pairs ==> p[0] != "mapnr")
    && (map_.Some? ==> map_.value >= 1.0 && map_.value.Floor as real == map_.value
                       && exists p :: p in pairs && p[0] == "mapnr" && lib.number(Some(Str(p[1]))) == map_)
  }

  lemma {:induction false} SplitAllMeans(ss: seq<string>)
    ensures |SplitAll(ss)| == |ss| && forall i :: 0 <= i < |ss| ==> SplitAll(ss)[i] == Split(ss[i], '=')
  {
    if ss != [] { SplitAllMeans(ss[1..]); }
  }

  lemma {:induction false} MapMeans(lib: Library, pairs: seq<seq<string>>)
    requires PairsOk(pairs) && MapNumber(lib, pairs).Ok?
    ensures MapFrom(lib, MapNumber(lib, pairs).value, pairs)
  {
    if pairs != [] {
      assert pairs == [pairs[0]] + pairs[1..];
      if pairs[0][0] == "mapnr" {
        assert pairs[0] in pairs;
      } else {
        MapMeans(lib, pairs[1..]);
      }
    }
  }

  // --- Markets ---------------------------------------------------------------

  /** The parts of a market's identifier: its items in sorted order, each joined again. */
  ghost predicate IdFrom(lib: Library, id: string, kind: string, specifier: string, pairs: seq<seq<string>>) {
    if specifier == "" then id == kind
    else
      exists texts: seq<string> :: |texts| == |lib.sortPairs(pairs)| && id == kind + ":" + Join(texts, '|')
        && forall i :: 0 <= i < |texts| ==> texts[i] == Join(lib.sortPairs(pairs)[i], '=')
  }

  /** A market is suspended if it has selections and all are, open if all are open, and
      otherwise unknown. */
  ghost predicate SuspensionFrom(suspended: Option<bool>, ss: seq<Selection>) {
    && (suspended == Some(true) <==> ss != [] && forall i :: 0 <= i < |ss| ==> ss[i].suspended == Some(true))
    && (suspended == Some(false) <==> forall i :: 0 <= i < |ss| ==> ss[i].suspended == Some(false))
  }

  /** The name comes from the type's description, or is the type itself. */
  ghost predicate NameFrom(lib: Library, m: Market, kind: string, descriptions: Fields) {
    var described: Option<Json> := Get(descriptions, kind);
    match described
    case Some(Obj(d)) =>
      var name: Option<Json> := Get(d, "name");
      (match name
       case Some(Str(s)) => m.name == lib.caption(s, m.map_)
       case _ => m.name == kind)
    case _ => m.name == kind
  }

  /** A winner market of a match or a map has exactly the two sides. */
  ghost predicate CategoryFrom(m: Market, kind: string, specifier: string) {
    && m.category in {"match_winner", "map_winner", "unknown"}
    && (m.category == "match_winner" <==> kind == "186" && specifier == "")
    && (m.category == "map_winner" <==> kind == "330" && m.map_.Some?)
    && (m.category != "unknown" ==>
          |m.selections| == 2 && (exists i :: 0 <= i < 2 && m.selections[i].id == "4") && exists i :: 0 <= i < 2 && m.selections[i].id == "5")
  }

  /** A market reads one variant of one market type. */
  ghost predicate MarketFrom(lib: Library, m: Market, v: Variant, descriptions: Fields, first: string, second: string, at: real) {
    && m.rawId == v.kind && m.specifier == v.specifier && m.at == at
    && v.outcomes.Obj? && SelectionsFrom(lib, m.selections, v.outcomes.fields, first, second)
    && (exists pairs :: PairsFrom(pairs, v.specifier) && MapFrom(lib, m.map_, pairs) && IdFrom(lib, m.id, v.kind, v.specifier, pairs))
    && CategoryFrom(m, v.kind, v.specifier) && SuspensionFrom(m.suspended, m.selections) && NameFrom(lib, m, v.kind, descriptions)
  }

  datatype Variant = Variant(kind: string, specifier: string, outcomes: Json)

  lemma {:induction false} PairsMean(specifier: string)
    requires PairsOk(if specifier == "" then [] else SplitAll(Split(specifier, '|')))
    ensures PairsFrom(if specifier == "" then [] else SplitAll(Split(specifier, '|')), specifier)
  {
    if specifier != "" {
      SplitAllMeans(Split(specifier, '|'));
      var pairs := SplitAll(Split(specifier, '|'));
      PairsDiffer(pairs);
    }
  }

  lemma {:induction false} PairsDiffer(pairs: seq<seq<string>>)
    requires PairsOk(pairs)
    ensures forall i :: 0 <= i < |pairs| ==> |pairs[i]| == 2
    ensures forall i, j :: 0 <= i < |pairs| && 0 <= j < |pairs| && pairs[i][0] == pairs[j][0] ==> i == j
  {
    forall i | 0 <= i < |pairs| ensures |pairs[i]| == 2 { assert pairs[i] in pairs; }
  }

  lemma {:induction false} JoinAllMeans(pairs: seq<seq<string>>)
    ensures |JoinAll(pairs)| == |pairs| && forall i :: 0 <= i < |pairs| ==> JoinAll(pairs)[i] == Join(pairs[i], '=')
  {
    if pairs != [] { JoinAllMeans(pairs[1..]); }
  }

  lemma {:induction false} CategoryMeans(m: Market, kind: string, specifier: string, ss: seq<Selection>)
    requires m.category == Category(kind, specifier, m.map_) && m.selections == ss
    requires m.category != "unknown" ==> |ss| == 2 && (exists s :: s in ss && s.id == "4") && (exists s :: s in ss && s.id == "5")
    requires specifier == "" ==> m.map_.None?
    ensures CategoryFrom(m, kind, specifier)
  {
    if m.category != "unknown" {
      var a :| a in ss && a.id == "4";
      var b :| b in ss && b.id == "5";
      assert ss == [ss[0], ss[1]];
    }
  }

  lemma {:induction false} SuspensionMeans(ss: seq<Selection>)
    ensures SuspensionFrom(MarketSuspension(ss), ss)
  {
    if ss != [] { assert ss[0] in ss; }
    if forall i :: 0 <= i < |ss| ==> ss[i].suspended == Some(true) { assert forall s :: s in ss ==> s.suspended == Some(true); }
    if forall i :: 0 <= i < |ss| ==> ss[i].suspended == Some(false) { assert forall s :: s in ss ==> s.suspended == Some(false); }
  }

  lemma {:induction false} NameMeans(lib: Library, m: Market, kind: string, descriptions: Fields, d: Definition)
    requires DefinitionOf(descriptions, kind) == Ok(d)
    requires m.name == if d.name.Some? && d.name.value.Str? then lib.caption(d.name.value.s, m.map_) else kind
    ensures NameFrom(lib, m, kind, descriptions)
  {
  }

  lemma {:induction false} MarketMeans(lib: Library, v: Variant, descriptions: Fields, d: Definition, first: string, second: string, at: real)
    requires DefinitionOf(descriptions, v.kind) == Ok(d)
    requires MarketOf(lib, v.kind, d, v.specifier, v.outcomes, first, second, at).Ok?
    ensures MarketFrom(lib, MarketOf(lib, v.kind, d, v.specifier, v.outcomes, first, second, at).value, v, descriptions, first, second, at)
  {
    var m := MarketOf(lib, v.kind, d, v.specifier, v.outcomes, first, second, at).value;
    var pairs := if v.specifier == "" then [] else SplitAll(Split(v.specifier, '|'));
    PairsMean(v.specifier);
    MapMeans(lib, pairs);
    SelectionsMean(lib, v.outcomes.fields, first, second);
    JoinAllMeans(lib.sortPairs(pairs));
    assert IdFrom(lib, m.id, v.kind, v.specifier, pairs) by {
      if v.specifier != "" { assert m.id == v.kind + ":" + Join(JoinAll(lib.sortPairs(pairs)), '|'); }
    }
    CategoryMeans(m, v.kind, v.specifier, m.selections);
    SuspensionMeans(m.selections);
    NameMeans(lib, m, v.kind, descriptions, d);
  }

  // --- All markets of an event -----------------------------------------------

  /** The variants of one market type, in order. */
  function OfType(kind: string, variants: Fields): seq<Variant> {
    if variants == [] then [] else [Variant(kind, variants[0].0, variants[0].1)] + OfType(kind, variants[1..])
  }

  /** The variants of all market types, in order. */
  function AllVariants(types: Fields): seq<Variant> {
    if types == [] then []
    else (if types[0].1.Obj? then OfType(types[0].0, types[0].1.fields) else []) + AllVariants(types[1..])
  }

  lemma {:induction false} OfTypeHas(kind: string, variants: Fields, v: Variant)
    ensures v in OfType(kind, variants) <==> v.kind == kind && (v.specifier, v.outcomes) in variants
  {
    if variants != [] {
      OfTypeHas(kind, variants[1..], v);
      assert variants == [variants[0]] + variants[1..];
    }
  }

  /** Exactly the variants of the types. */
  lemma {:induction false} AllVariantsHave(types: Fields, v: Variant)
    ensures v in AllVariants(types) <==> exists i :: 0 <= i < |types| && types[i].0 == v.kind && types[i].1.Obj? && (v.specifier, v.outcomes) in types[i].1.fields
  {
    if types != [] {
      AllVariantsHave(types[1..], v);
      if types[0].1.Obj? { OfTypeHas(types[0].0, types[0].1.fields, v); }
      if i :| 0 <= i < |types[1..]| && types[1..][i].0 == v.kind && types[1..][i].1.Obj? && (v.specifier, v.outcomes) in types[1..][i].1.fields {
        assert types[i + 1] == types[1..][i];
      }
      if i :| 0 <= i < |types| && types[i].0 == v.kind && types[i].1.Obj? && (v.specifier, v.outcomes) in types[i].1.fields {
        if i > 0 { assert types[1..][i - 1] == types[i]; }
      }
    }
  }

  /** One market for each variant, in order. */
  ghost predicate MarketsFrom(lib: Library, ms: seq<Market>, vs: seq<Variant>, descriptions: Fields, first: string, second: string, at: real) {
    && |ms| == |vs|
    && forall i :: 0 <= i < |ms| ==> MarketFrom(lib, ms[i], vs[i], descriptions, first, second, at)
  }

  lemma {:induction false} MarketsConcat(lib: Library, ms: seq<Market>, ns: seq<Market>, vs: seq<Variant>, ws: seq<Variant>, descriptions: Fields, first: string, second: string, at: real)
    requires MarketsFrom(lib, ms, vs, descriptions, first, second, at) && MarketsFrom(lib, ns, ws, descriptions, first, second, at)
    ensures MarketsFrom(lib, ms + ns, vs + ws, descriptions, first, second, at)
  {
    forall i | 0 <= i < |ms + ns| ensures MarketFrom(lib, (ms + ns)[i], (vs + ws)[i], descriptions, first, second, at) {
      if i < |ms| {
        assert MarketFrom(lib, ms[i], vs[i], descriptions, first, second, at);
      } else {
        assert MarketFrom(lib, ns[i - |ms|], ws[i - |ms|], descriptions, first, second, at);
      }
    }
  }

  lemma {:induction false} VariantsMean(lib: Library, kind: string, d: Definition, variants: Fields, descriptions: Fields, first: string, second: string, at: real)
    requires DefinitionOf(descriptions, kind) == Ok(d) && VariantsOf(lib, kind, d, variants, first, second, at).Ok?
    ensures MarketsFrom(lib, VariantsOf(lib, kind, d, variants, first, second, at).value, OfType(kind, variants), descriptions, first, second, at)
  {
    if variants != [] {
      var v := Variant(kind, variants[0].0, variants[0].1);
      MarketMeans(lib, v, descriptions, d, first, second, at);
      VariantsMean(lib, kind, d, variants[1..], descriptions, first, second, at);
      var m := MarketOf(lib, kind, d, variants[0].0, variants[0].1, first, second, at).value;
      MarketsConcat(lib, [m], VariantsOf(lib, kind, d, variants[1..], first, second, at).value, [v], OfType(kind, variants[1..]), descriptions, first, second, at);
    }
  }

  lemma {:induction false} MarketsMean(lib: Library, types: Fields, descriptions: Fields, first: string, second: string, at: real)
    requires MarketsOf(lib, types, descriptions, first, second, at).Ok?
    ensures MarketsFrom(lib, MarketsOf(lib, types, descriptions, first, second, at).value, AllVariants(types), descriptions, first, second, at)
    ensures forall i :: 0 <= i < |types| ==> types[i].1.Obj?
  {
    if types != [] {
      var d := DefinitionOf(descriptions, types[0].0).value;
      var variants := types[0].1.fields;
      VariantsMean(lib, types[0].0, d, variants, descriptions, first, second, at);
      MarketsMean(lib, types[1..], descriptions, first, second, at);
      MarketsConcat(lib, VariantsOf(lib, types[0].0, d, variants, first, second, at).value, MarketsOf(lib, types[1..], descriptions, first, second, at).value,
        OfType(types[0].0, variants), AllVariants(types[1..]), descriptions, first, second, at);
      forall i | 0 <= i < |types| ensures types[i].1.Obj? {
        if i > 0 { assert types[1..][i - 1] == types[i]; }
      }
    }
  }

  // --- Events ----------------------------------------------------------------

  function SportNumber(e: Esport): string { if e.Cs2? then "109" else if e.Lol? then "110" else "194" }

  /** An entry is a match of the sport, still ahead of the capture, with nothing under way. */
  ghost predicate Pending(lib: Library, sport: Esport, value: Fields, capturedAt: real) {
    exists desc: Fields, state: Fields, scheduled: real ::
      && IsObject(value, "desc", desc) && IsObject(value, "state", state)
      && Get(desc, "sport") == Some(Str(SportNumber(sport))) && Get(desc, "type") == Some(Str("match"))
      && lib.number(Get(desc, "scheduled")) == Some(scheduled) && capturedAt < scheduled * 1000.0
      && Get(state, "status") == Some(Num(0.0)) && Get(state, "match_status") == Some(Num(0.0))
  }

  /** The two competitors' names, in order. */
  ghost predicate TeamsFrom(first: string, second: string, desc: Fields) {
    exists p: Fields, q: Fields ::
      Get(desc, "competitors") == Some(Arr([Obj(p), Obj(q)])) && IsText(p, "name", first) && IsText(q, "name", second)
  }

  /** The name of the tournament that the event refers to. */
  ghost predicate TournamentFrom(name: string, desc: Fields, tournaments: Fields) {
    exists id: string, f: Fields :: IsText(desc, "tournament", id) && IsObject(tournaments, id, f) && IsText(f, "name", name)
  }

  /** A listed event reads one entry of the snapshot. */
  ghost predicate EventFrom(lib: Library, x: Listed, id: string, e: Entry, data: Merged, c: Capture) {
    && x.eventId == id && IsObject(e.value, "desc", x.desc) && IsObject(e.value, "state", x.state)
    && TeamsFrom(x.teamA, x.teamB, x.desc) && x.normalizedA == lib.teamName(x.teamA) && x.normalizedB == lib.teamName(x.teamB)
    && TournamentFrom(x.tournament, x.desc, data.tournaments)
    && (exists n: real :: lib.number(Get(x.desc, "scheduled")) == Some(n) && x.startsAt == n * 1000.0)
    && c.capturedAt == Some(x.fetchedAt) && c.manifest.Obj? && x.manifestVersion == Get(c.manifest.fields, "version")
    && (exists types: Fields :: IsObject(e.value, "markets", types)
          && MarketsFrom(lib, x.markets, AllVariants(types), data.descriptions, x.teamA, x.teamB, e.at))
  }

  lemma {:induction false} TeamsMean(desc: Fields)
    requires Competitors(desc).Ok?
    ensures TeamsFrom(Competitors(desc).value.0, Competitors(desc).value.1, desc)
  {
    var items := Get(desc, "competitors").value.items;
    var p, q := items[0].fields, items[1].fields;
    TextMeans(p, "name", Competitors(desc).value.0);
    TextMeans(q, "name", Competitors(desc).value.1);
    assert items == [Obj(p), Obj(q)];
  }

  lemma {:induction false} UpcomingMeans(lib: Library, sport: Esport, value: Fields, capturedAt: real, manifest: Json)
    requires Upcoming(lib, sport, value, capturedAt, manifest).Ok?
    ensures var h := Upcoming(lib, sport, value, capturedAt, manifest).value;
            && (h.Some? <==> Pending(lib, sport, value, capturedAt))
            && (h.Some? ==> IsObject(value, "desc", h.value.desc) && IsObject(value, "state", h.value.state)
                            && lib.number(Get(h.value.desc, "scheduled")).Some? && h.value.starts == lib.number(Get(h.value.desc, "scheduled")).value * 1000.0
                            && manifest == Obj(h.value.manifest))
  {
    var h := Upcoming(lib, sport, value, capturedAt, manifest).value;
    if h.Some? {
      assert IsObject(value, "desc", h.value.desc) && IsObject(value, "state", h.value.state);
    }
  }

  lemma {:induction false} ListedMeans(lib: Library, data: Merged, id: string, e: Entry, h: Header, c: Capture)
    requires c.capturedAt.Some? && c.manifest == Obj(h.manifest)
    requires IsObject(e.value, "desc", h.desc) && IsObject(e.value, "state", h.state)
    requires lib.number(Get(h.desc, "scheduled")).Some? && h.starts == lib.number(Get(h.desc, "scheduled")).value * 1000.0
    requires ListedEvent(lib, data, id, e, h, c.capturedAt.value).Ok?
    ensures EventFrom(lib, ListedEvent(lib, data, id, e, h, c.capturedAt.value).value, id, e, data, c)
  {
    var x := ListedEvent(lib, data, id, e, h, c.capturedAt.value).value;
    TeamsMean(h.desc);
    var t := AsText(Get(h.desc, "tournament")).value;
    TextMeans(h.desc, "tournament", t);
    var f := Get(data.tournaments, t).value.fields;
    TextMeans(f, "name", x.tournament);
    assert IsText(h.desc, "tournament", t) && IsObject(data.tournaments, t, f);
    var types := Get(e.value, "markets").value.fields;
    MarketsMean(lib, types, data.descriptions, x.teamA, x.teamB, e.at);
    assert IsObject(e.value, "markets", types);
  }

  // --- The listing -----------------------------------------------------------

  /** The entry is pending and x reads it. */
  ghost predicate Reads(lib: Library, c: Capture, sport: Esport, data: Merged, x: Listed, entry: (string, Entry)) {
    c.capturedAt.Some? && EventFrom(lib, x, entry.0, entry.1, data, c) && Pending(lib, sport, entry.1.value, c.capturedAt.value)
  }

  lemma {:induction false} ListedReads(lib: Library, c: Capture, sport: Esport, data: Merged, events: seq<(string, Entry)>, x: Listed) returns (i: nat)
    requires c.capturedAt.Some? && ParseEvents(lib, c, sport, data, events).Ok? && x in ParseEvents(lib, c, sport, data, events).value
    ensures i < |events| && Reads(lib, c, sport, data, x, events[i])
  {
    EventMeans(lib, c, sport, data, events[0].0, events[0].1);
    if x in ParseEvents(lib, c, sport, data, events[1..]).value {
      var k := ListedReads(lib, c, sport, data, events[1..], x);
      i := k + 1;
    } else {
      i := 0;
    }
  }

  lemma {:induction false} PendingListed(lib: Library, c: Capture, sport: Esport, data: Merged, events: seq<(string, Entry)>, i: nat) returns (x: Listed)
    requires c.capturedAt.Some? && ParseEvents(lib, c, sport, data, events).Ok?
    requires i < |events| && Pending(lib, sport, events[i].1.value, c.capturedAt.value)
    ensures x in ParseEvents(lib, c, sport, data, events).value && x.eventId == events[i].0
  {
    if i == 0 {
      EventMeans(lib, c, sport, data, events[0].0, events[0].1);
      x := ParseEvent(lib, c, sport, data, events[0].0, events[0].1).value.value;
    } else {
      x := PendingListed(lib, c, sport, data, events[1..], i - 1);
    }
  }

  lemma {:induction false} EventMeans(lib: Library, c: Capture, sport: Esport, data: Merged, id: string, e: Entry)
    requires c.capturedAt.Some? && ParseEvent(lib, c, sport, data, id, e).Ok?
    ensures var l := ParseEvent(lib, c, sport, data, id, e).value;
            && (l.Some? <==> Pending(lib, sport, e.value, c.capturedAt.value))
            && (l.Some? ==> EventFrom(lib, l.value, id, e, data, c))
  {
    UpcomingMeans(lib, sport, e.value, c.capturedAt.value, c.manifest);
    var h := Upcoming(lib, sport, e.value, c.capturedAt.value, c.manifest).value;
    if h.Some? { ListedMeans(lib, data, id, e, h.value, c); }
  }

  lemma {:induction false} ListingParts(lib: Library, c: Capture, sport: Esport, x: Listed)
    requires ParseListing(lib, c, sport).Ok?
    ensures Merge(c).Ok? && c.capturedAt.Some? && ParseEvents(lib, c, sport, Merge(c).value, Merge(c).value.events).Ok?
    ensures x in ParseListing(lib, c, sport).value <==> x in ParseEvents(lib, c, sport, Merge(c).value, Merge(c).value.events).value
  {
    var listed, ls := ParseEvents(lib, c, sport, Merge(c).value, Merge(c).value.events).value, ParseListing(lib, c, sport).value;
    BlazeDetail.SortedMembers(lib, listed);
    assert x in ls <==> x in multiset(ls);
    assert x in listed <==> x in multiset(listed);
  }

  /** Every listed event says of its entry in the merged snapshot what `EventFrom` lists,
      and that entry is pending. */
  lemma {:induction false} ListedEvents(lib: Library, c: Capture, sport: Esport, x: Listed) returns (e: Entry)
    requires ParseListing(lib, c, sport).Ok? && x in ParseListing(lib, c, sport).value
    ensures Merge(c).Ok? && c.capturedAt.Some? && (x.eventId, e) in Merge(c).value.events
    ensures EventFrom(lib, x, x.eventId, e, Merge(c).value, c) && Pending(lib, sport, e.value, c.capturedAt.value)
  {
    ListingParts(lib, c, sport, x);
    var data := Merge(c).value;
    var i := ListedReads(lib, c, sport, data, data.events, x);
    e := data.events[i].1;
    assert data.events[i] == (x.eventId, e);
  }

  /** An event of the merged snapshot is listed iff it is pending. */
  lemma {:induction false} ListedIff(lib: Library, c: Capture, sport: Esport, id: string, e: Entry)
    requires ParseListing(lib, c, sport).Ok? && (id, e) in Merge(c).value.events
    ensures c.capturedAt.Some?
    ensures (exists x :: x in ParseListing(lib, c, sport).value && x.eventId == id) <==> Pending(lib, sport, e.value, c.capturedAt.value)
  {
    var data := Merge(c).value;
    var i :| 0 <= i < |data.events| && data.events[i] == (id, e);
    if x :| x in ParseListing(lib, c, sport).value && x.eventId == id {
      var f := ListedEvents(lib, c, sport, x);
      BlazeDetail.MergeDistinct(c);
      var j :| 0 <= j < |data.events| && data.events[j] == (id, f);
      assert i == j;
    }
    if Pending(lib, sport, e.value, c.capturedAt.value) {
      var x := PendingListed(lib, c, sport, data, data.events, i);
      ListingParts(lib, c, sport, x);
    }
  }

  // --- Order -----------------------------------------------------------------

  /** A comparison that sorts: irreflexive, and incomparability is transitive. */
  ghost predicate Orders(precedes: (Listed, Listed) -> bool) {
    && (forall a, b :: precedes(a, b) ==> !precedes(b, a))
    && forall a, b, d :: !precedes(a, b) && !precedes(b, d) ==> !precedes(a, d)
  }

  ghost predicate InOrder(precedes: (Listed, Listed) -> bool, ls: seq<Listed>) {
    forall i, j :: 0 <= i < j < |ls| ==> !precedes(ls[j], ls[i])
  }

  lemma {:induction false} InsertInOrder(lib: Library, l: Listed, ls: seq<Listed>)
    requires Orders(lib.precedes) && InOrder(lib.precedes, ls)
    ensures InOrder(lib.precedes, Insert(lib, l, ls))
  {
    if ls == [] {
    } else if !lib.precedes(ls[0], l) {
      forall j | 0 <= j < |ls| ensures !lib.precedes(ls[j], l) { if j > 0 { assert !lib.precedes(ls[j], ls[0]); } }
    } else {
      InsertInOrder(lib, l, ls[1..]);
      BlazeDetail.InsertMembers(lib, l, ls[1..]);
      var r := Insert(lib, l, ls[1..]);
      forall j | 0 <= j < |r| ensures !lib.precedes(r[j], ls[0]) {
        assert r[j] in multiset(r);
        if r[j] != l { var i :| 0 <= i < |ls[1..]| && ls[1..][i] == r[j]; assert ls[i + 1] == r[j]; }
      }
    }
  }

  lemma {:induction false} SortedInOrder(lib: Library, ls: seq<Listed>)
    requires Orders(lib.precedes)
    ensures InOrder(lib.precedes, Sorted(lib, ls))
  {
    if ls != [] {
      SortedInOrder(lib, ls[1..]);
      InsertInOrder(lib, ls[0], Sorted(lib, ls[1..]));
    }
  }

  /** The listing is in the library's order. */
  lemma {:induction false} ListingInOrder(lib: Library, c: Capture, sport: Esport)
    requires ParseListing(lib, c, sport).Ok? && Orders(lib.precedes)
    ensures InOrder(lib.precedes, ParseListing(lib, c, sport).value)
  {
    var data := Merge(c).value;
    SortedInOrder(lib, ParseEvents(lib, c, sport, data, data.events).value);
  }
}
