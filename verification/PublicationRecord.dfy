/** What a publication leaves in the store: the recorded changes, read off the rows the
    transaction found, and the checkpoint, over whole histories. */
module PublicationRecord {
  import opened Domain
  import opened OrderedMaps
  import opened MarketChanges
  import opened MarketJournal
  import opened PublicationCommit

  // --- The observation a new one is compared with ------------------------------

  function OfScope(bs: seq<Batch>, scope: string): seq<Batch> {
    if bs == [] then []
    else OfScope(bs[..|bs| - 1], scope) + if bs[|bs| - 1].scope == scope then [bs[|bs| - 1]] else []
  }

  /** What the provider's rows hold of a journal scope, in row order. */
  function StoredOf(rows: seq<(string, Scope)>, provider: string, scope: string): seq<Batch> {
    if rows == [] then []
    else (if rows[0].1.provider == provider then OfScope(rows[0].1.observations, scope) else []) + StoredOf(rows[1..], provider, scope)
  }

  /** l is a newest of the list, and the first of equally new ones. */
  ghost predicate FirstNewest(bs: seq<Batch>, l: Batch) {
    exists i :: 0 <= i < |bs| && bs[i] == l && NewestAt(bs, i)
  }

  ghost predicate NewestAt(bs: seq<Batch>, i: int) {
    && 0 <= i < |bs| && bs[i].at.Some?
    && (forall j :: 0 <= j < |bs| ==> bs[j].at.Some? && bs[j].at.value <= bs[i].at.value)
    && forall j :: 0 <= j < i ==> bs[j].at.Some? && bs[j].at.value < bs[i].at.value
  }

  lemma {:induction false} OnlyNewest(bs: seq<Batch>, l: Batch, m: Batch)
    requires FirstNewest(bs, l) && FirstNewest(bs, m)
    ensures l == m
  {
    var i :| 0 <= i < |bs| && bs[i] == l && NewestAt(bs, i);
    var j :| 0 <= j < |bs| && bs[j] == m && NewestAt(bs, j);
    assert i == j;
  }

  lemma {:induction false} NewestSnoc(bs: seq<Batch>, l: Batch, b: Batch)
    requires FirstNewest(bs, l) && b.at.Some?
    ensures l.at.Some? && FirstNewest(bs + [b], if l.at.value < b.at.value then b else l)
  {
    var i :| 0 <= i < |bs| && bs[i] == l && NewestAt(bs, i);
    var longer := bs + [b];
    if l.at.value < b.at.value {
      assert longer[|bs|] == b && NewestAt(longer, |bs|);
    } else {
      assert longer[i] == l && NewestAt(longer, i);
    }
  }

  lemma {:induction false} LatestIsFirst(bs: seq<Batch>, scope: string)
    requires forall b :: b in bs ==> b.at.Some?
    ensures var l := Get(LatestBatches(bs), scope);
            (l.None? ==> OfScope(bs, scope) == []) && (l.Some? ==> FirstNewest(OfScope(bs, scope), l.value))
  {
    if bs != [] {
      var n := |bs| - 1;
      var rest, b := bs[..n], bs[n];
      LatestIsFirst(rest, scope);
      GetPut(LatestBatches(rest), b.scope, b, scope);
      if b.scope == scope {
        var l := Get(LatestBatches(rest), scope);
        if l.Some? {
          NewestSnoc(OfScope(rest, scope), l.value, b);
        } else {
          assert OfScope(bs, scope) == [b] && NewestAt([b], 0) && [b][0] == b;
        }
      } else {
        assert OfScope(bs, scope) == OfScope(rest, scope);
      }
    }
  }

  lemma {:induction false} OfScopeConcat(a: seq<Batch>, b: seq<Batch>, scope: string)
    ensures OfScope(a + b, scope) == OfScope(a, scope) + OfScope(b, scope)
  {
    if b == [] {
      assert a + b == a;
    } else {
      var n := |b| - 1;
      OfScopeConcat(a, b[..n], scope);
      assert (a + b)[..|a| + n] == a + b[..n];
    }
  }

  lemma {:induction false} OfScopeNone(bs: seq<Batch>, scope: string)
    requires forall b :: b in bs ==> b.scope != scope
    ensures OfScope(bs, scope) == []
  {
    if bs != [] { OfScopeNone(bs[..|bs| - 1], scope); }
  }

  /** Searching only the rows that share a journal scope with the publication misses
      nothing. */
  lemma {:induction false} RelatedIsStored(rows: seq<(string, Scope)>, p: Publication, b: Batch)
    requires b in p.observations
    ensures OfScope(Related(rows, p), b.scope) == StoredOf(rows, p.provider, b.scope)
  {
    if rows != [] {
      var row := rows[0].1;
      RelatedIsStored(rows[1..], p, b);
      OfScopeConcat(if Covers(row, p) then row.observations else [], Related(rows[1..], p), b.scope);
      if !Covers(row, p) && row.provider == p.provider { OfScopeNone(row.observations, b.scope); }
    }
  }

  lemma {:induction false} BlankRowAddsNothing(rows: seq<(string, Scope)>, n: string, blank: Scope, provider: string, scope: string)
    requires Get(rows, n).None? && blank.observations == []
    ensures StoredOf(Put(rows, n, blank), provider, scope) == StoredOf(rows, provider, scope)
  {
    if rows == [] {
      assert Put(rows, n, blank)[1..] == [];
    } else {
      BlankRowAddsNothing(rows[1..], n, blank, provider, scope);
      assert Put(rows, n, blank)[1..] == Put(rows[1..], n, blank);
    }
  }

  lemma {:induction false} PreparedHolds(s: Store, p: Publication, scope: string)
    ensures StoredOf(Prepared(s, p).scopes, p.provider, scope) == StoredOf(s.scopes, p.provider, scope)
  {
    if Get(s.scopes, p.scope).None? {
      BlankRowAddsNothing(s.scopes, p.scope, Scope(p.provider, p.kind, p.esport, [], [], None), p.provider, scope);
    }
  }

  /** The baseline of a journal scope: the first newest observation of it in the
      provider's rows. */
  ghost predicate IsBaseline(s: Store, provider: string, scope: string, l: Option<Batch>) {
    && (l.None? ==> StoredOf(s.scopes, provider, scope) == [])
    && (l.Some? ==> FirstNewest(StoredOf(s.scopes, provider, scope), l.value))
  }

  lemma {:induction false} BaselineIs(s: Store, p: Publication, b: Batch)
    requires StoreOk(s) && b in p.observations
    ensures IsBaseline(s, p.provider, b.scope, Get(LatestBatches(Related(Prepared(s, p).scopes, p)), b.scope))
  {
    var t := Prepared(s, p);
    ReceiptedOk(s, p);
    EnsuredOk(Receipted(s, p), p);
    RelatedTimes(t, p);
    LatestIsFirst(Related(t.scopes, p), b.scope);
    RelatedIsStored(t.scopes, p, b);
    PreparedHolds(s, p, b.scope);
  }

  lemma {:induction false} OnlyBaseline(s: Store, provider: string, scope: string, l: Option<Batch>, m: Option<Batch>)
    requires IsBaseline(s, provider, scope, l) && IsBaseline(s, provider, scope, m)
    ensures l == m
  {
    if l.Some? && m.Some? { OnlyNewest(StoredOf(s.scopes, provider, scope), l.value, m.value); }
  }

  /** The clash that refuses a publication: one of its observations has the time of its
      baseline and other content. */
  lemma {:induction false} ContradictedIff(s: Store, p: Publication)
    requires StoreOk(s)
    ensures Contradicted(s, p)
       <==> exists b, l :: b in p.observations && IsBaseline(s, p.provider, b.scope, Some(l)) && l.at == b.at && l != b
  {
    var latest := LatestBatches(Related(Prepared(s, p).scopes, p));
    if Contradicted(s, p) {
      var b :| b in p.observations && Contradicts(Get(latest, b.scope), b);
      BaselineIs(s, p, b);
      assert IsBaseline(s, p.provider, b.scope, Some(Get(latest, b.scope).value));
    }
    if b, l :| b in p.observations && IsBaseline(s, p.provider, b.scope, Some(l)) && l.at == b.at && l != b {
      BaselineIs(s, p, b);
      OnlyBaseline(s, p.provider, b.scope, Some(l), Get(latest, b.scope));
      assert Contradicts(Get(latest, b.scope), b);
    }
  }

  // --- The recorded changes ----------------------------------------------------

  /** The change leads from the observation's baseline to the observation. */
  ghost predicate FromBaseline(s: Store, provider: string, b: Batch, c: Change) {
    exists l: Option<Batch> :: IsBaseline(s, provider, b.scope, l) && b.at.Some?
                               && Warranted(c, if l.Some? then l.value.matches else [], b.matches, b.at.value)
  }

  lemma {:induction false} OneFromBaseline(s: Store, provider: string, b: Batch, l: Option<Batch>, c: Change)
    requires b.at.Some? && IsBaseline(s, provider, b.scope, l)
    ensures c in Changes(if l.Some? then l.value.matches else [], b.matches, b.at.value, true) <==> FromBaseline(s, provider, b, c)
  {
    ChangesExact(c, if l.Some? then l.value.matches else [], b.matches, b.at.value);
    forall m: Option<Batch> | IsBaseline(s, provider, b.scope, m) ensures m == l {
      OnlyBaseline(s, provider, b.scope, l, m);
    }
  }

  lemma {:induction false} ChangesFrom(s: Store, p: Publication, latest: seq<(string, Batch)>, accepted: seq<Batch>, c: Change)
    requires forall b :: b in accepted ==> b.at.Some? && IsBaseline(s, p.provider, b.scope, Get(latest, b.scope))
    ensures c in ChangesOf(latest, accepted) <==> exists b :: b in accepted && FromBaseline(s, p.provider, b, c)
  {
    if accepted != [] {
      ChangesFrom(s, p, latest, accepted[1..], c);
      OneFromBaseline(s, p.provider, accepted[0], Get(latest, accepted[0].scope), c);
      forall b ensures b in accepted <==> b == accepted[0] || b in accepted[1..] { assert accepted == [accepted[0]] + accepted[1..]; }
    }
  }

  /** What a published publication records: itself, under its scope and time, with the
      exact changes from each accepted observation's baseline. Nothing else recorded
      changes, and nothing is recorded otherwise. */
  lemma {:induction false} RecordMeans(s: Store, p: Publication, c: Change)
    requires StoreOk(s) && ReplyTo(s, p).Published?
    ensures (p.scope, p.at.value) in Commit(s, p).0.published
    ensures var r := Commit(s, p).0.published[(p.scope, p.at.value)];
            && r.events == p.events && r.observations == p.observations
            && (c in r.changes <==> exists b :: b in r.accepted && FromBaseline(s, p.provider, b, c))
  {
    var latest := LatestBatches(Related(Prepared(s, p).scopes, p));
    AcceptedAreObserved(latest, p.observations);
    forall b | b in AcceptedOf(latest, p.observations)
      ensures b.at.Some? && IsBaseline(s, p.provider, b.scope, Get(latest, b.scope))
    {
      assert ObservationOk(p, b);
      BaselineIs(s, p, b);
    }
    ChangesFrom(s, p, latest, AcceptedOf(latest, p.observations), c);
  }

  /** Records and checkpoints: only a published publication writes any, and then only its
      own. */
  lemma {:induction false} OthersKept(s: Store, p: Publication, at: (string, int), key: string)
    ensures var (t, reply) := Commit(s, p);
            && (!reply.Published? ==> t.published == s.published && t.checkpoints == s.checkpoints)
            && (reply.Published? && p.at.Some? && at != (p.scope, p.at.value) ==>
                  (at in t.published <==> at in s.published) && (at in s.published ==> t.published[at] == s.published[at]))
            && (reply.Published? && key != p.checkpointKey ==>
                  (key in t.checkpoints <==> key in s.checkpoints) && (key in s.checkpoints ==> t.checkpoints[key] == s.checkpoints[key]))
  {
  }

  // --- The checkpoint ----------------------------------------------------------

  /** No two scopes share a checkpoint, as in the envelopes a server builds. */
  ghost predicate OwnCheckpoints(ps: seq<Publication>) {
    forall p, q :: p in ps && q in ps && p.checkpointKey == q.checkpointKey ==> p.scope == q.scope
  }

  /** The scope's row and its checkpoint are those of one publication. */
  ghost predicate Restores(s: Store, q: Publication) {
    && Get(s.scopes, q.scope).Some? && Holds(Get(s.scopes, q.scope).value, q)
    && q.checkpointKey in s.checkpoints && s.checkpoints[q.checkpointKey] == q.checkpoint
  }

  ghost predicate Restorable(s: Store, ps: seq<Publication>, n: string) {
    exists q :: q in ps && q.scope == n && Restores(s, q)
  }

  lemma {:induction false} RestoresNext(s: Store, ps: seq<Publication>, p: Publication, n: string)
    requires StoreOk(s) && OwnCheckpoints(ps + [p])
    requires Get(s.scopes, n).Some? && Get(s.scopes, n).value.at.Some? ==> Restorable(s, ps, n)
    requires Get(Commit(s, p).0.scopes, n).Some? && Get(Commit(s, p).0.scopes, n).value.at.Some?
    ensures Restorable(Commit(s, p).0, ps + [p], n)
  {
    var t := Commit(s, p).0;
    CommitRows(s, p, n);
    if ReplyTo(s, p).Published? && n == p.scope {
      assert p in ps + [p] && Restores(t, p);
    } else {
      var q :| q in ps && q.scope == n && Restores(s, q);
      OthersKept(s, p, ("", 0), q.checkpointKey);
      assert q in ps + [p] && p in ps + [p];
      assert Restores(t, q);
    }
  }

  /** A commit fills in no row but the published publication's. */
  lemma {:induction false} CommitRows(s: Store, p: Publication, n: string)
    requires StoreOk(s)
    ensures var (t, reply) := Commit(s, p);
            && (reply.Published? && n == p.scope ==> Get(t.scopes, n).Some? && Holds(Get(t.scopes, n).value, p))
            && (!(reply.Published? && n == p.scope) && Get(t.scopes, n).Some? && Get(t.scopes, n).value.at.Some? ==>
                  Get(t.scopes, n) == Get(s.scopes, n))
  {
    EnsuredRows(s, p, n);
    if ReplyTo(s, p).Published? {
      var t := Prepared(s, p);
      WrittenRows(t, p, LatestBatches(Related(t.scopes, p)), n);
    }
  }

  lemma {:induction false} AnyHistoryOk(ps: seq<Publication>)
    ensures StoreOk(CommitAll(ps))
  {
    if ps != [] {
      AnyHistoryOk(ps[..|ps| - 1]);
      CommitOk(CommitAll(ps[..|ps| - 1]), ps[|ps| - 1]);
    }
  }

  /** After any history, refused and outdated publications included, the checkpoint of a
      scope is the one that came with the publication the scope holds: what is restored
      is never ahead of what is stored and never behind it. */
  lemma {:induction false} CheckpointFollowsScope(ps: seq<Publication>, n: string)
    requires OwnCheckpoints(ps)
    requires Get(CommitAll(ps).scopes, n).Some? && Get(CommitAll(ps).scopes, n).value.at.Some?
    ensures Restorable(CommitAll(ps), ps, n)
  {
    if ps != [] {
      var before, p := ps[..|ps| - 1], ps[|ps| - 1];
      assert ps == before + [p];
      assert OwnCheckpoints(before) by { assert forall q :: q in before ==> q in ps; }
      AnyHistoryOk(before);
      var s := CommitAll(before);
      if Get(s.scopes, n).Some? && Get(s.scopes, n).value.at.Some? { CheckpointFollowsScope(before, n); }
      RestoresNext(s, before, p, n);
    }
  }

  /** The replies to a history, publication by publication. */
  function Replies(ps: seq<Publication>): (rs: seq<Reply>)
    ensures |rs| == |ps|
  {
    if ps == [] then []
    else
      var before := ps[..|ps| - 1];
      Replies(before) + [ReplyTo(CommitAll(before), ps[|ps| - 1])]
  }

  /** Step i published something with the checkpoint. */
  ghost predicate PublishedAt(ps: seq<Publication>, i: int, key: string) {
    0 <= i < |ps| && Replies(ps)[i].Published? && ps[i].checkpointKey == key
  }

  ghost predicate LastPublishedAt(ps: seq<Publication>, i: int, key: string) {
    PublishedAt(ps, i, key) && forall j :: i < j < |ps| ==> !PublishedAt(ps, j, key)
  }

  ghost predicate CheckpointIs(ps: seq<Publication>, key: string, v: string) {
    exists i :: LastPublishedAt(ps, i, key) && ps[i].checkpoint == v
  }

  lemma {:induction false} PublishedBefore(ps: seq<Publication>, i: int, key: string)
    requires 0 <= i < |ps| - 1
    ensures PublishedAt(ps[..|ps| - 1], i, key) <==> PublishedAt(ps, i, key)
  {
  }

  lemma {:induction false} CheckpointStays(ps: seq<Publication>, key: string, v: string)
    requires ps != [] && !PublishedAt(ps, |ps| - 1, key) && CheckpointIs(ps[..|ps| - 1], key, v)
    ensures CheckpointIs(ps, key, v)
  {
    var n := |ps| - 1;
    var i :| LastPublishedAt(ps[..n], i, key) && ps[..n][i].checkpoint == v;
    PublishedBefore(ps, i, key);
    forall j | i < j < |ps| ensures !PublishedAt(ps, j, key) {
      if j < n { PublishedBefore(ps, j, key); }
    }
    assert LastPublishedAt(ps, i, key);
  }

  /** The checkpoints hold for the key what the history published last with it. */
  ghost predicate Tracks(ps: seq<Publication>, key: string, checkpoints: map<string, string>) {
    && (key in checkpoints ==> CheckpointIs(ps, key, checkpoints[key]))
    && (key !in checkpoints ==> forall i :: 0 <= i < |ps| ==> !PublishedAt(ps, i, key))
  }

  lemma {:induction false} TracksPublished(ps: seq<Publication>, key: string, after: map<string, string>)
    requires ps != [] && PublishedAt(ps, |ps| - 1, key) && key in after && after[key] == ps[|ps| - 1].checkpoint
    ensures Tracks(ps, key, after)
  {
    assert LastPublishedAt(ps, |ps| - 1, key);
  }

  lemma {:induction false} TracksKept(ps: seq<Publication>, key: string, before: map<string, string>, after: map<string, string>)
    requires ps != [] && !PublishedAt(ps, |ps| - 1, key) && Tracks(ps[..|ps| - 1], key, before)
    requires (key in after <==> key in before) && (key in after ==> after[key] == before[key])
    ensures Tracks(ps, key, after)
  {
    if key in after {
      CheckpointStays(ps, key, after[key]);
    } else {
      forall i | 0 <= i < |ps| ensures !PublishedAt(ps, i, key) {
        if i < |ps| - 1 { PublishedBefore(ps, i, key); }
      }
    }
  }

  lemma {:induction false} CheckpointStep(s: Store, p: Publication, key: string)
    ensures var (t, reply) := Commit(s, p);
            && (reply.Published? && p.checkpointKey == key ==> key in t.checkpoints && t.checkpoints[key] == p.checkpoint)
            && (!(reply.Published? && p.checkpointKey == key) ==>
                  (key in t.checkpoints <==> key in s.checkpoints) && (key in t.checkpoints ==> t.checkpoints[key] == s.checkpoints[key]))
  {
    OthersKept(s, p, ("", 0), key);
  }

  /** A checkpoint is stored iff something with it was ever published, and it is that of
      the last such publication, whatever was refused, repeated or outdated since. */
  lemma {:induction false} CheckpointIsLastPublished(ps: seq<Publication>, key: string)
    ensures Tracks(ps, key, CommitAll(ps).checkpoints)
  {
    if ps != [] {
      var before, p := CommitAll(ps[..|ps| - 1]), ps[|ps| - 1];
      CheckpointIsLastPublished(ps[..|ps| - 1], key);
      CheckpointStep(before, p, key);
      assert Replies(ps)[|ps| - 1] == ReplyTo(before, p);
      if PublishedAt(ps, |ps| - 1, key) {
        TracksPublished(ps, key, Commit(before, p).0.checkpoints);
      } else {
        TracksKept(ps, key, before.checkpoints, Commit(before, p).0.checkpoints);
      }
    }
  }
}
