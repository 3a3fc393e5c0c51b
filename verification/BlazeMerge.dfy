/** Which snapshots merge, and what the merged snapshot holds, in terms of the shards'
    own fields (feed.parser.ts `merged`). */
module BlazeMerge {
  import opened Domain
  import opened OrderedMaps
  import opened BlazeFeed

  // --- One shard -------------------------------------------------------------

  /** A shard's events, an object by identifier. */
  function EventsIn(s: Shard): Fields {
    if s.data.Obj? && Get(s.data.fields, "events").Some? && Get(s.data.fields, "events").value.Obj? then Get(s.data.fields, "events").value.fields
    else []
  }

  /** A shard's tournaments; a shard may have none. */
  function TournamentsIn(s: Shard): Fields {
    if s.data.Obj? && Get(s.data.fields, "tournaments").Some? && Get(s.data.fields, "tournaments").value.Obj? then Get(s.data.fields, "tournaments").value.fields
    else []
  }

  /** The shard was generated at `at`. */
  predicate GeneratedAt(s: Shard, at: real) { s.data.Obj? && Get(s.data.fields, "generated") == Some(Num(at)) }

  /** The i-th shard is the announced one, of the manifest's epoch, complete, not from the
      future, and names its successor; the last says that the snapshot is complete. */
  ghost predicate Fits(s: Shard, manifest: Fields, i: nat, versions: seq<Json>, capturedAt: real)
    requires i < |versions|
  {
    && s.data.Obj? && s.version == versions[i]
    && Get(s.data.fields, "epoch") == Get(manifest, "epoch")
    && Get(s.data.fields, "fixtures_complete") == Some(Bool(true))
    && (exists at: real :: GeneratedAt(s, at) && at <= capturedAt + 60000.0)
    && (i + 1 < |versions| ==> Get(s.data.fields, "version") == Some(versions[i + 1]))
    && (i + 1 == |versions| ==> Get(s.data.fields, "snapshot_complete") == Some(Bool(true)))
    && Get(s.data.fields, "events") == Some(Obj(EventsIn(s)))
    && var ts := Get(s.data.fields, "tournaments"); ts == None || ts == Some(Null) || ts.value.Obj?
  }

  lemma {:induction false} FitsIff(s: Shard, manifest: Fields, i: nat, versions: seq<Json>, capturedAt: real)
    requires i < |versions|
    ensures var r := ReadShard(s, manifest, i, versions, capturedAt);
            && (r.Ok? <==> Fits(s, manifest, i, versions, capturedAt))
            && (r.Ok? ==> r.value.events == EventsIn(s) && r.value.tournaments == TournamentsIn(s) && GeneratedAt(s, r.value.at))
  {
    var r := ReadShard(s, manifest, i, versions, capturedAt);
    if r.Ok? { assert GeneratedAt(s, r.value.at); }
  }

  // --- Adding events and tournaments -----------------------------------------

  /** All that is said of one identifier agrees, and is an object. */
  ghost predicate OneValue(added: Fields, id: string, value: Fields) {
    forall i :: 0 <= i < |added| && added[i].0 == id ==> added[i].1 == Obj(value)
  }

  lemma {:induction false} AddMeans(events: seq<(string, Entry)>, added: Fields, at: real, id: string)
    requires AddEvents(events, added, at).Ok?
    ensures var e := Get(AddEvents(events, added, at).value, id);
            && (!Has(added, id) ==> e == Get(events, id))
            && (Has(added, id) ==>
                  && e.Some? && e.value.at == at && OneValue(added, id, e.value.value)
                  && (Get(events, id).Some? ==> Get(events, id).value.value == e.value.value))
    decreases added
  {
    if added != [] {
      var k, value := added[0].0, added[0].1.fields;
      var next := Put(events, k, Entry(value, at));
      AddMeans(next, added[1..], at, id);
      GetPut(events, k, Entry(value, at), id);
      HasTail(added, id);
      var e := Get(AddEvents(events, added, at).value, id);
      if Has(added, id) {
        forall i | 0 <= i < |added| && added[i].0 == id ensures added[i].1 == Obj(e.value.value) {
          if i > 0 { assert added[1..][i - 1] == added[i]; }
        }
      }
    }
  }

  lemma {:induction false} HasTail<K, V>(m: seq<(K, V)>, k: K)
    requires m != []
    ensures Has(m, k) <==> m[0].0 == k || Has(m[1..], k)
  {
    if Has(m, k) && m[0].0 != k {
      var i :| 0 <= i < |m| && m[i].0 == k;
      assert m[1..][i - 1].0 == k;
    }
    if Has(m[1..], k) {
      var i :| 0 <= i < |m[1..]| && m[1..][i].0 == k;
      assert m[i + 1].0 == k;
    }
  }

  /** No addition contradicts another or what is there. */
  ghost predicate Addable(events: seq<(string, Entry)>, added: Fields) {
    && (forall i :: 0 <= i < |added| ==> added[i].1.Obj?)
    && (forall i, j :: 0 <= i < |added| && 0 <= j < |added| && added[i].0 == added[j].0 ==> added[i].1 == added[j].1)
    && forall i :: 0 <= i < |added| && Get(events, added[i].0).Some? ==> added[i].1 == Obj(Get(events, added[i].0).value.value)
  }

  lemma {:induction false} AddIff(events: seq<(string, Entry)>, added: Fields, at: real)
    ensures AddEvents(events, added, at).Ok? <==> Addable(events, added)
    decreases added
  {
    if added != [] && added[0].1.Obj? {
      var k, value := added[0].0, added[0].1.fields;
      var next := Put(events, k, Entry(value, at));
      forall j { GetPut(events, k, Entry(value, at), j); }
      AddIff(next, added[1..], at);
      if Addable(events, added) {
        assert Addable(next, added[1..]) by {
          forall i | 0 <= i < |added[1..]| ensures added[1..][i] == added[i + 1] {}
        }
      }
      if AddEvents(events, added, at).Ok? {
        forall i, j | 0 <= i < |added| && 0 <= j < |added| && added[i].0 == added[j].0 ensures added[i].1 == added[j].1 && added[i].1.Obj? {
          if i > 0 { assert added[1..][i - 1] == added[i]; }
          if j > 0 { assert added[1..][j - 1] == added[j]; }
        }
        forall i | 0 <= i < |added| && Get(events, added[i].0).Some? ensures added[i].1 == Obj(Get(events, added[i].0).value.value) {
          if i > 0 { assert added[1..][i - 1] == added[i]; }
        }
      }
    }
  }

  lemma {:induction false} AssignMeans(target: Fields, source: Fields, k: string)
    ensures !Has(source, k) ==> Get(Assign(target, source), k) == Get(target, k)
    ensures Has(source, k) ==> exists i :: 0 <= i < |source| && source[i].0 == k && Get(Assign(target, source), k) == Some(source[i].1)
    decreases source
  {
    if source != [] {
      var next := Put(target, source[0].0, source[0].1);
      AssignMeans(next, source[1..], k);
      GetPut(target, source[0].0, source[0].1, k);
      HasTail(source, k);
      if Has(source[1..], k) {
        var i :| 0 <= i < |source[1..]| && source[1..][i].0 == k && Get(Assign(next, source[1..]), k) == Some(source[1..][i].1);
        assert source[i + 1] == source[1..][i];
      }
    }
  }

  // --- The merged snapshot ---------------------------------------------------

  /** The last of the first n shards that has the event. */
  ghost predicate LastWith(shards: seq<Shard>, n: nat, id: string, i: int) {
    && 0 <= i < n <= |shards| && Has(EventsIn(shards[i]), id)
    && forall j :: i < j < n ==> !Has(EventsIn(shards[j]), id)
  }

  /** The merged entry of an identifier: what every shard that has it says, at the time of
      the last of them; none if no shard has it. */
  ghost predicate EntryFrom(shards: seq<Shard>, n: nat, id: string, e: Option<Entry>)
    requires n <= |shards|
  {
    match e
    case None => forall i :: 0 <= i < n ==> !Has(EventsIn(shards[i]), id)
    case Some(entry) =>
      && (exists i :: LastWith(shards, n, id, i) && GeneratedAt(shards[i], entry.at))
      && forall i :: 0 <= i < n ==> OneValue(EventsIn(shards[i]), id, entry.value)
  }

  lemma {:induction false} EntryStep(shards: seq<Shard>, n: nat, id: string, before: Option<Entry>, after: Option<Entry>, at: real)
    requires n < |shards| && EntryFrom(shards, n, id, before) && GeneratedAt(shards[n], at)
    requires !Has(EventsIn(shards[n]), id) ==> after == before
    requires Has(EventsIn(shards[n]), id) ==>
               && after.Some? && after.value.at == at && OneValue(EventsIn(shards[n]), id, after.value.value)
               && (before.Some? ==> before.value.value == after.value.value)
    ensures EntryFrom(shards, n + 1, id, after)
  {
    if Has(EventsIn(shards[n]), id) {
      assert LastWith(shards, n + 1, id, n);
    } else if before.Some? {
      var i :| LastWith(shards, n, id, i) && GeneratedAt(shards[i], before.value.at);
      assert LastWith(shards, n + 1, id, i);
    }
  }

  lemma {:induction false} EntriesMean(m: Merged, shards: seq<Shard>, manifest: Fields, versions: seq<Json>, capturedAt: real, n: nat, id: string)
    requires n <= |shards| == |versions| && m.events == []
    requires MergeShards(m, shards, manifest, versions, capturedAt, n).Ok?
    ensures EntryFrom(shards, n, id, Get(MergeShards(m, shards, manifest, versions, capturedAt, n).value.events, id))
  {
    if n > 0 {
      EntriesMean(m, shards, manifest, versions, capturedAt, n - 1, id);
      var before := MergeShards(m, shards, manifest, versions, capturedAt, n - 1).value;
      FitsIff(shards[n - 1], manifest, n - 1, versions, capturedAt);
      var r := ReadShard(shards[n - 1], manifest, n - 1, versions, capturedAt).value;
      AddMeans(before.events, r.events, r.at, id);
      EntryStep(shards, n - 1, id, Get(before.events, id), Get(AddEvents(before.events, r.events, r.at).value, id), r.at);
    }
  }

  lemma {:induction false} ShardsFit(m: Merged, shards: seq<Shard>, manifest: Fields, versions: seq<Json>, capturedAt: real, n: nat)
    requires n <= |shards| == |versions| && MergeShards(m, shards, manifest, versions, capturedAt, n).Ok?
    ensures forall i :: 0 <= i < n ==> Fits(shards[i], manifest, i, versions, capturedAt)
  {
    if n > 0 {
      ShardsFit(m, shards, manifest, versions, capturedAt, n - 1);
      FitsIff(shards[n - 1], manifest, n - 1, versions, capturedAt);
    }
  }

  /** The tournament's fields come from the last shard that has it. */
  ghost predicate TournamentFrom(shards: seq<Shard>, n: nat, id: string, t: Option<Json>)
    requires n <= |shards|
  {
    match t
    case None => forall i :: 0 <= i < n ==> !Has(TournamentsIn(shards[i]), id)
    case Some(v) =>
      exists i :: 0 <= i < n && (id, v) in TournamentsIn(shards[i]) && forall j :: i < j < n ==> !Has(TournamentsIn(shards[j]), id)
  }

  lemma {:induction false} TournamentStep(shards: seq<Shard>, n: nat, id: string, before: Fields)
    requires n < |shards| && TournamentFrom(shards, n, id, Get(before, id))
    ensures TournamentFrom(shards, n + 1, id, Get(Assign(before, TournamentsIn(shards[n])), id))
  {
    var s := TournamentsIn(shards[n]);
    AssignMeans(before, s, id);
    if Has(s, id) {
      var i :| 0 <= i < |s| && s[i].0 == id && Get(Assign(before, s), id) == Some(s[i].1);
      assert s[i] in s && s[i] == (id, s[i].1);
    } else if Get(before, id).Some? {
      var v := Get(before, id).value;
      var i :| 0 <= i < n && (id, v) in TournamentsIn(shards[i]) && forall j :: i < j < n ==> !Has(TournamentsIn(shards[j]), id);
      assert forall j :: i < j < n + 1 ==> !Has(TournamentsIn(shards[j]), id);
    }
  }

  lemma {:induction false} TournamentsMean(m: Merged, shards: seq<Shard>, manifest: Fields, versions: seq<Json>, capturedAt: real, n: nat, id: string)
    requires n <= |shards| == |versions| && m.tournaments == []
    requires MergeShards(m, shards, manifest, versions, capturedAt, n).Ok?
    ensures TournamentFrom(shards, n, id, Get(MergeShards(m, shards, manifest, versions, capturedAt, n).value.tournaments, id))
  {
    if n > 0 {
      TournamentsMean(m, shards, manifest, versions, capturedAt, n - 1, id);
      var before := MergeShards(m, shards, manifest, versions, capturedAt, n - 1).value;
      FitsIff(shards[n - 1], manifest, n - 1, versions, capturedAt);
      TournamentStep(shards, n - 1, id, before.tournaments);
    }
  }

  // --- Which snapshots merge -------------------------------------------------

  /** The manifest announces these versions, each once. */
  ghost predicate Announces(manifest: Fields, versions: seq<Json>) {
    && (exists top: seq<Json>, rest: seq<Json> ::
          && Get(manifest, "top_events_versions") == Some(Arr(top)) && Get(manifest, "rest_events_versions") == Some(Arr(rest))
          && versions == top + rest)
    && versions != [] && forall i, j :: 0 <= i < |versions| && 0 <= j < |versions| && versions[i] == versions[j] ==> i == j
  }

  /** No two shards, nor one shard twice, say different things of an event. */
  ghost predicate Agree(shards: seq<Shard>) {
    forall i, j, a, b :: 0 <= i < |shards| && 0 <= j < |shards| && a in EventsIn(shards[i]) && b in EventsIn(shards[j]) && a.0 == b.0 ==>
      a.1 == b.1 && a.1.Obj?
  }

  lemma {:induction false} AgreeWithin(shards: seq<Shard>, n: nat, i: nat, j: nat)
    requires n < |shards| && Agree(shards) && i < |EventsIn(shards[n])| && j < |EventsIn(shards[n])| && EventsIn(shards[n])[i].0 == EventsIn(shards[n])[j].0
    ensures EventsIn(shards[n])[i].1 == EventsIn(shards[n])[j].1 && EventsIn(shards[n])[i].1.Obj?
  {
    assert EventsIn(shards[n])[i] in EventsIn(shards[n]) && EventsIn(shards[n])[j] in EventsIn(shards[n]);
  }

  lemma {:induction false} AgreeBefore(shards: seq<Shard>, n: nat, i: nat, e: Entry)
    requires n < |shards| && Agree(shards) && i < |EventsIn(shards[n])| && EntryFrom(shards, n, EventsIn(shards[n])[i].0, Some(e))
    ensures EventsIn(shards[n])[i].1 == Obj(e.value)
  {
    var id := EventsIn(shards[n])[i].0;
    var k :| LastWith(shards, n, id, k) && GeneratedAt(shards[k], e.at);
    var l :| 0 <= l < |EventsIn(shards[k])| && EventsIn(shards[k])[l].0 == id;
    assert OneValue(EventsIn(shards[k]), id, e.value);
    assert EventsIn(shards[n])[i] in EventsIn(shards[n]) && EventsIn(shards[k])[l] in EventsIn(shards[k]);
  }

  lemma {:induction false} AgreeAdds(shards: seq<Shard>, n: nat, events: seq<(string, Entry)>)
    requires n < |shards| && Agree(shards)
    requires forall id {:trigger EntryFrom(shards, n, id, Get(events, id))} :: EntryFrom(shards, n, id, Get(events, id))
    ensures Addable(events, EventsIn(shards[n]))
  {
    var added := EventsIn(shards[n]);
    forall i | 0 <= i < |added| ensures added[i].1.Obj? { AgreeWithin(shards, n, i, i); }
    forall i, j | 0 <= i < |added| && 0 <= j < |added| && added[i].0 == added[j].0 ensures added[i].1 == added[j].1 {
      AgreeWithin(shards, n, i, j);
    }
    forall i | 0 <= i < |added| && Get(events, added[i].0).Some? ensures added[i].1 == Obj(Get(events, added[i].0).value.value) {
      assert EntryFrom(shards, n, added[i].0, Get(events, added[i].0));
      AgreeBefore(shards, n, i, Get(events, added[i].0).value);
    }
  }

  lemma {:induction false} ShardMerges(before: Merged, s: Shard, manifest: Fields, i: nat, versions: seq<Json>, capturedAt: real)
    requires i < |versions| && Fits(s, manifest, i, versions, capturedAt) && Addable(before.events, EventsIn(s))
    ensures MergeShard(before, s, manifest, i, versions, capturedAt).Ok?
  {
    FitsIff(s, manifest, i, versions, capturedAt);
    var r := ReadShard(s, manifest, i, versions, capturedAt).value;
    AddIff(before.events, r.events, r.at);
  }

  lemma {:induction false} MergedAdds(m: Merged, shards: seq<Shard>, manifest: Fields, versions: seq<Json>, capturedAt: real, n: nat)
    requires n < |shards| == |versions| && m.events == [] && Agree(shards)
    requires MergeShards(m, shards, manifest, versions, capturedAt, n).Ok?
    ensures Addable(MergeShards(m, shards, manifest, versions, capturedAt, n).value.events, EventsIn(shards[n]))
  {
    var events := MergeShards(m, shards, manifest, versions, capturedAt, n).value.events;
    forall id ensures EntryFrom(shards, n, id, Get(events, id)) { EntriesMean(m, shards, manifest, versions, capturedAt, n, id); }
    AgreeAdds(shards, n, events);
  }

  lemma {:induction false} ShardsMerge(m: Merged, shards: seq<Shard>, manifest: Fields, versions: seq<Json>, capturedAt: real, n: nat)
    requires n <= |shards| == |versions| && m.events == [] && Agree(shards)
    requires forall i :: 0 <= i < n ==> Fits(shards[i], manifest, i, versions, capturedAt)
    ensures MergeShards(m, shards, manifest, versions, capturedAt, n).Ok?
  {
    if n > 0 {
      ShardsMerge(m, shards, manifest, versions, capturedAt, n - 1);
      MergedAdds(m, shards, manifest, versions, capturedAt, n - 1);
      ShardMerges(MergeShards(m, shards, manifest, versions, capturedAt, n - 1).value, shards[n - 1], manifest, n - 1, versions, capturedAt);
    }
  }

  /** Whether a snapshot merges: its provenance holds, its manifest announces its shards,
      each shard fits, no two say different things of an event, and it has descriptions. */
  ghost predicate Mergeable(c: Capture) {
    && c.provenanceOk && c.capturedAt.Some? && c.manifest.Obj? && c.descriptions.Obj? && Agree(c.shards)
    && exists versions: seq<Json> ::
         && Announces(c.manifest.fields, versions) && |versions| == |c.shards|
         && forall i :: 0 <= i < |versions| ==> Fits(c.shards[i], c.manifest.fields, i, versions, c.capturedAt.value)
  }

  lemma {:induction false} AnnouncesIff(manifest: Fields, versions: seq<Json>)
    ensures Announces(manifest, versions) <==> Versions(manifest) == Ok(versions) && versions != [] && AllDifferent(versions)
  {
  }

  lemma {:induction false} EventsAgree(shards: seq<Shard>, events: seq<(string, Entry)>)
    requires forall id :: EntryFrom(shards, |shards|, id, Get(events, id))
    ensures Agree(shards)
  {
    forall i, j, a, b | 0 <= i < |shards| && 0 <= j < |shards| && a in EventsIn(shards[i]) && b in EventsIn(shards[j]) && a.0 == b.0
      ensures a.1 == b.1 && a.1.Obj?
    {
      var k :| 0 <= k < |EventsIn(shards[i])| && EventsIn(shards[i])[k] == a;
      var l :| 0 <= l < |EventsIn(shards[j])| && EventsIn(shards[j])[l] == b;
      assert Has(EventsIn(shards[i]), a.0);
      assert EntryFrom(shards, |shards|, a.0, Get(events, a.0));
    }
  }

  /** A snapshot merges iff it is mergeable; then the merged entry of every event and every
      tournament comes from the shards as stated. */
  lemma {:induction false} MergeMeans(c: Capture)
    ensures Merge(c).Ok? <==> Mergeable(c)
    ensures Merge(c).Ok? ==>
              && c.descriptions == Obj(Merge(c).value.descriptions)
              && (forall id :: EntryFrom(c.shards, |c.shards|, id, Get(Merge(c).value.events, id)))
              && forall id :: TournamentFrom(c.shards, |c.shards|, id, Get(Merge(c).value.tournaments, id))
  {
    if Merge(c).Ok? {
      MergedMeans(c);
    } else if Mergeable(c) {
      var versions: seq<Json> :| Announces(c.manifest.fields, versions) && |versions| == |c.shards|
        && forall i :: 0 <= i < |versions| ==> Fits(c.shards[i], c.manifest.fields, i, versions, c.capturedAt.value);
      AnnouncesIff(c.manifest.fields, versions);
      ShardsMerge(Merged([], [], []), c.shards, c.manifest.fields, versions, c.capturedAt.value, |c.shards|);
    }
  }

  lemma {:induction false} MergedMeans(c: Capture)
    requires Merge(c).Ok?
    ensures Mergeable(c) && c.descriptions == Obj(Merge(c).value.descriptions)
    ensures forall id :: EntryFrom(c.shards, |c.shards|, id, Get(Merge(c).value.events, id))
    ensures forall id :: TournamentFrom(c.shards, |c.shards|, id, Get(Merge(c).value.tournaments, id))
  {
    var manifest, at := c.manifest.fields, c.capturedAt.value;
    var versions := Versions(manifest).value;
    var m := MergeShards(Merged([], [], []), c.shards, manifest, versions, at, |c.shards|).value;
    AnnouncesIff(manifest, versions);
    forall id ensures EntryFrom(c.shards, |c.shards|, id, Get(m.events, id)) {
      EntriesMean(Merged([], [], []), c.shards, manifest, versions, at, |c.shards|, id);
    }
    forall id ensures TournamentFrom(c.shards, |c.shards|, id, Get(m.tournaments, id)) {
      TournamentsMean(Merged([], [], []), c.shards, manifest, versions, at, |c.shards|, id);
    }
    ShardsFit(Merged([], [], []), c.shards, manifest, versions, at, |c.shards|);
    EventsAgree(c.shards, m.events);
  }
}
