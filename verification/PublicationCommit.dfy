/** The publication transaction (persistence.service.ts `commit`): receipts, scope
    ownership, newest observation per scope. A thrown error rolls everything back. */
module PublicationCommit {
  import opened Domain
  import opened OrderedMaps
  import opened MarketChanges
  import opened MarketJournal

  datatype Kind = ListFeed | DetailFeed

  /** `at` is None when the stated time does not parse; `runId` None when absent. */
  datatype Publication = Publication(
    provider: string, runId: Option<string>, scope: string, kind: Kind, esport: Esport, at: Option<int>,
    events: seq<Event>, observations: seq<Batch>, checkpointKey: string, checkpoint: string)

  datatype Scope = Scope(provider: string, kind: Kind, esport: Esport, events: seq<Event>, observations: seq<Batch>, at: Option<int>)

  /** A stored publication. Its content hash is the content itself. */
  datatype Recorded = Recorded(events: seq<Event>, observations: seq<Batch>, accepted: seq<Batch>, changes: seq<Change>)

  /** Scope rows are kept in order of creation. */
  datatype Store = Store(
    receipts: map<(string, string), Publication>,
    scopes: seq<(string, Scope)>,
    published: map<(string, int), Recorded>,
    checkpoints: map<string, string>)

  const EMPTY := Store(map[], [], map[], map[])

  datatype Reply = Published | AlreadyReceived | SameObservation | Outdated | Refused

  // --- Validation ------------------------------------------------------------

  predicate EventOk(p: Publication, e: Event) {
    e.provider == p.provider && e.esport == p.esport && e.eventId != "" && e.startsAt.Some?
  }

  predicate SnapshotOk(p: Publication, e: Match) {
    && e.provider == p.provider && (exists x :: x in p.events && x.eventId == e.eventId)
    && UniqueMarkets(e.markets)
    && forall m :: m in e.markets ==> m.id != "" && SelectionsOk(m.selections) && forall s :: s in m.selections ==> s.id != ""
  }

  predicate ObservationOk(p: Publication, b: Batch) {
    b.complete && b.scope != "" && b.at.Some? && forall e :: e in b.matches ==> SnapshotOk(p, e)
  }

  predicate ValidPublication(p: Publication) {
    && p.provider != "" && p.scope != "" && p.observations != [] && p.at.Some?
    && (forall e :: e in p.events ==> EventOk(p, e))
    && (forall i, j :: 0 <= i < j < |p.events| ==> p.events[i].eventId != p.events[j].eventId)
    && forall b :: b in p.observations ==> ObservationOk(p, b)
  }

  // --- Earlier observations of the same journal scopes -----------------------

  predicate Covers(row: Scope, p: Publication) {
    row.provider == p.provider && exists b, x :: b in p.observations && x in row.observations && x.scope == b.scope
  }

  function Related(rows: seq<(string, Scope)>, p: Publication): seq<Batch> {
    if rows == [] then []
    else (if Covers(rows[0].1, p) then rows[0].1.observations else []) + Related(rows[1..], p)
  }

  predicate Supersedes(prior: Option<Batch>, b: Batch) {
    prior.None? || (prior.value.at.Some? && b.at.Some? && prior.value.at.value < b.at.value)
  }

  /** persistence.service.ts `latestBatches`: per journal scope the newest, the first
      of equally new ones. */
  function LatestBatches(bs: seq<Batch>): seq<(string, Batch)> {
    if bs == [] then []
    else
      var n := |bs| - 1;
      var latest := LatestBatches(bs[..n]);
      if Supersedes(Get(latest, bs[n].scope), bs[n]) then Put(latest, bs[n].scope, bs[n]) else latest
  }

  /** Same journal scope, same time, other content. */
  predicate Contradicts(prior: Option<Batch>, b: Batch) {
    prior.Some? && prior.value.at == b.at && prior.value != b
  }

  function AcceptedOf(latest: seq<(string, Batch)>, bs: seq<Batch>): seq<Batch> {
    if bs == [] then []
    else (if Supersedes(Get(latest, bs[0].scope), bs[0]) then [bs[0]] else []) + AcceptedOf(latest, bs[1..])
  }

  function ChangesOf(latest: seq<(string, Batch)>, accepted: seq<Batch>): seq<Change>
    requires forall b :: b in accepted ==> b.at.Some?
  {
    if accepted == [] then []
    else
      var b, prior := accepted[0], Get(latest, accepted[0].scope);
      Changes(if prior.Some? then prior.value.matches else [], b.matches, b.at.value, true) + ChangesOf(latest, accepted[1..])
  }

  lemma {:induction false} AcceptedAreObserved(latest: seq<(string, Batch)>, bs: seq<Batch>)
    ensures forall b :: b in AcceptedOf(latest, bs) ==> b in bs
  {
    if bs != [] { AcceptedAreObserved(latest, bs[1..]); }
  }

  // --- The transaction -------------------------------------------------------

  function Receipted(s: Store, p: Publication): Store {
    if p.runId.Some? then s.(receipts := s.receipts[(p.provider, p.runId.value) := p]) else s
  }

  function Ensured(s: Store, p: Publication): Store {
    if Get(s.scopes, p.scope).Some? then s
    else s.(scopes := Put(s.scopes, p.scope, Scope(p.provider, p.kind, p.esport, [], [], None)))
  }

  /** The scope's row, as found or newly created. */
  function RowOf(s: Store, p: Publication): Scope {
    var row := Get(s.scopes, p.scope);
    if row.Some? then row.value else Scope(p.provider, p.kind, p.esport, [], [], None)
  }

  predicate Owned(row: Scope, p: Publication) {
    row.provider == p.provider && row.kind == p.kind && row.esport == p.esport
  }

  function Write(s: Store, p: Publication, latest: seq<(string, Batch)>): Store
    requires ValidPublication(p)
  {
    AcceptedAreObserved(latest, p.observations);
    var accepted := AcceptedOf(latest, p.observations);
    s.(published := s.published[(p.scope, p.at.value) := Recorded(p.events, p.observations, accepted, ChangesOf(latest, accepted))],
       scopes := Put(s.scopes, p.scope, Scope(p.provider, p.kind, p.esport, p.events, p.observations, p.at)),
       checkpoints := s.checkpoints[p.checkpointKey := p.checkpoint])
  }

  function ReplyTo(s: Store, p: Publication): Reply {
    if !ValidPublication(p) then Refused
    else if p.runId.Some? && (p.provider, p.runId.value) in s.receipts then
      if s.receipts[(p.provider, p.runId.value)] == p then AlreadyReceived else Refused
    else if !Owned(RowOf(s, p), p) then Refused
    else if (p.scope, p.at.value) in s.published then
      var prior := s.published[(p.scope, p.at.value)];
      if prior.events == p.events && prior.observations == p.observations then SameObservation else Refused
    else if RowOf(s, p).at.Some? && RowOf(s, p).at.value > p.at.value then Outdated
    else if Contradicted(s, p) then Refused
    else Published
  }

  predicate Contradicted(s: Store, p: Publication) {
    var latest := LatestBatches(Related(Prepared(s, p).scopes, p));
    exists b :: b in p.observations && Contradicts(Get(latest, b.scope), b)
  }

  /** The receipt and the scope's row are written before anything is compared. */
  function Prepared(s: Store, p: Publication): Store { Ensured(Receipted(s, p), p) }

  function Commit(s: Store, p: Publication): (Store, Reply) {
    var reply := ReplyTo(s, p);
    match reply
    case Published => (Write(Prepared(s, p), p, LatestBatches(Related(Prepared(s, p).scopes, p))), reply)
    case SameObservation => (Prepared(s, p), reply)
    case Outdated => (Prepared(s, p), reply)
    case _ => (s, reply)
  }

  // --- Invariant -------------------------------------------------------------

  ghost predicate RowOk(published: map<(string, int), Recorded>, n: string, row: Scope) {
    && (row.at.Some? ==> (n, row.at.value) in published
                         && published[(n, row.at.value)].events == row.events
                         && published[(n, row.at.value)].observations == row.observations)
    && (row.at.None? ==> row.events == [] && row.observations == [])
    && forall b :: b in row.observations ==> b.at.Some?
  }

  ghost predicate StoreOk(s: Store) {
    && Distinct(s.scopes)
    && (forall n :: Get(s.scopes, n).Some? ==> RowOk(s.published, n, Get(s.scopes, n).value))
    && (forall k :: k in s.published ==>
          var row := Get(s.scopes, k.0);
          row.Some? && row.value.at.Some? && k.1 <= row.value.at.value)
    && forall k :: k in s.receipts ==> s.receipts[k].provider == k.0 && s.receipts[k].runId == Some(k.1)
  }

  lemma {:induction false} EnsuredRows(s: Store, p: Publication, n: string)
    ensures Get(Prepared(s, p).scopes, n) == if n == p.scope then Some(RowOf(s, p)) else Get(s.scopes, n)
  {
    GetPut(s.scopes, p.scope, Scope(p.provider, p.kind, p.esport, [], [], None), n);
  }

  lemma {:induction false} WrittenRows(s: Store, p: Publication, latest: seq<(string, Batch)>, n: string)
    requires ValidPublication(p)
    ensures Get(Write(s, p, latest).scopes, n)
         == if n == p.scope then Some(Scope(p.provider, p.kind, p.esport, p.events, p.observations, p.at)) else Get(s.scopes, n)
  {
    GetPut(s.scopes, p.scope, Scope(p.provider, p.kind, p.esport, p.events, p.observations, p.at), n);
  }

  /** The publication is newer than anything its scope has seen. */
  ghost predicate Newer(s: Store, p: Publication) {
    p.at.Some? && (Get(s.scopes, p.scope).Some? && Get(s.scopes, p.scope).value.at.Some? ==>
                     Get(s.scopes, p.scope).value.at.value < p.at.value)
  }

  ghost predicate Fresh(s: Store, p: Publication) {
    p.runId.Some? ==> (p.provider, p.runId.value) !in s.receipts
  }

  /** A scope takes over a publication iff it is well formed, not yet received, owned
      by the right feed, strictly newer, and contradicts no stored observation. */
  lemma {:induction false} PublishedIff(s: Store, p: Publication)
    requires StoreOk(s)
    ensures ReplyTo(s, p).Published?
       <==> ValidPublication(p) && Fresh(s, p) && Owned(RowOf(s, p), p) && Newer(s, p) && !Contradicted(s, p)
  {
    var row := Get(s.scopes, p.scope);
    if p.at.Some? && (p.scope, p.at.value) in s.published {
      assert !Newer(s, p);
    }
    if p.at.Some? && row.Some? && row.value.at == p.at {
      assert RowOk(s.published, p.scope, row.value);
    }
  }

  /** Every other scope is untouched; this one becomes the publication if it is
      published and stays as it was otherwise. */
  lemma {:induction false} ScopeAfterCommit(s: Store, p: Publication, n: string)
    requires StoreOk(s)
    ensures var (t, reply) := Commit(s, p);
            Get(t.scopes, n) == if reply.Published? && n == p.scope
                                then Some(Scope(p.provider, p.kind, p.esport, p.events, p.observations, p.at))
                                else Get(s.scopes, n)
    ensures Commit(s, p).1.Published? ==> Newer(s, p)
    ensures Commit(s, p).1.Refused? ==> Commit(s, p).0 == s
  {
    PublishedIff(s, p);
    EnsuredRows(s, p, n);
    if Commit(s, p).1.Published? {
      var t := Prepared(s, p);
      WrittenRows(t, p, LatestBatches(Related(t.scopes, p)), n);
    }
  }

  lemma {:induction false} ReceiptedOk(s: Store, p: Publication)
    requires StoreOk(s)
    ensures StoreOk(Receipted(s, p))
  {
  }

  lemma {:induction false} EnsuredOk(s: Store, p: Publication)
    requires StoreOk(s)
    ensures StoreOk(Ensured(s, p))
  {
    var t, blank := Ensured(s, p), Scope(p.provider, p.kind, p.esport, [], [], None);
    if Get(s.scopes, p.scope).None? {
      PutDistinct(s.scopes, p.scope, blank);
      forall n | Get(t.scopes, n).Some? ensures RowOk(t.published, n, Get(t.scopes, n).value) {
        GetPut(s.scopes, p.scope, blank, n);
      }
      forall k | k in t.published
        ensures Get(t.scopes, k.0).Some? && Get(t.scopes, k.0).value.at.Some? && k.1 <= Get(t.scopes, k.0).value.at.value
      {
        GetPut(s.scopes, p.scope, blank, k.0);
      }
    }
  }

  lemma {:induction false} WriteOk(s: Store, p: Publication, latest: seq<(string, Batch)>)
    requires StoreOk(s) && ValidPublication(p) && Newer(s, p)
    ensures StoreOk(Write(s, p, latest))
  {
    var t := Write(s, p, latest);
    PutDistinct(s.scopes, p.scope, Scope(p.provider, p.kind, p.esport, p.events, p.observations, p.at));
    forall n | Get(t.scopes, n).Some? ensures RowOk(t.published, n, Get(t.scopes, n).value) {
      WrittenRows(s, p, latest, n);
      if n == p.scope {
        assert forall b :: b in p.observations ==> ObservationOk(p, b);
      } else {
        assert RowOk(s.published, n, Get(s.scopes, n).value);
      }
    }
    forall k | k in t.published
      ensures Get(t.scopes, k.0).Some? && Get(t.scopes, k.0).value.at.Some? && k.1 <= Get(t.scopes, k.0).value.at.value
    {
      WrittenRows(s, p, latest, k.0);
    }
  }

  lemma {:induction false} CommitOk(s: Store, p: Publication)
    requires StoreOk(s)
    ensures StoreOk(Commit(s, p).0)
  {
    ReceiptedOk(s, p);
    EnsuredOk(Receipted(s, p), p);
    if ReplyTo(s, p).Published? {
      PublishedIff(s, p);
      EnsuredRows(s, p, p.scope);
      WriteOk(Prepared(s, p), p, LatestBatches(Related(Prepared(s, p).scopes, p)));
    }
  }

  // --- Which observations are accepted ---------------------------------------

  lemma {:induction false} LatestMeans(bs: seq<Batch>, scope: string)
    requires forall b :: b in bs ==> b.at.Some?
    ensures var l := Get(LatestBatches(bs), scope);
            && (l.Some? ==> l.value in bs && l.value.scope == scope && forall b :: b in bs && b.scope == scope ==> b.at.value <= l.value.at.value)
            && (l.None? ==> forall b :: b in bs ==> b.scope != scope)
  {
    if bs != [] {
      var n := |bs| - 1;
      assert bs == bs[..n] + [bs[n]];
      assert bs[n] in bs;
      LatestMeans(bs[..n], scope);
      LatestMeans(bs[..n], bs[n].scope);
      GetPut(LatestBatches(bs[..n]), bs[n].scope, bs[n], scope);
    }
  }

  /** Some scope of the provider currently holds the observation. */
  ghost predicate StoredFor(s: Store, provider: string, x: Batch) {
    exists n :: Get(s.scopes, n).Some? && Get(s.scopes, n).value.provider == provider && x in Get(s.scopes, n).value.observations
  }

  lemma {:induction false} RelatedMeans(rows: seq<(string, Scope)>, p: Publication, x: Batch)
    ensures x in Related(rows, p) <==> exists i :: 0 <= i < |rows| && Covers(rows[i].1, p) && x in rows[i].1.observations
  {
    if rows != [] {
      RelatedMeans(rows[1..], p, x);
      if i :| 0 <= i < |rows| && Covers(rows[i].1, p) && x in rows[i].1.observations {
        if i > 0 { assert rows[1..][i - 1] == rows[i]; }
      }
      if i :| 0 <= i < |rows[1..]| && Covers(rows[1..][i].1, p) && x in rows[1..][i].1.observations {
        assert rows[i + 1] == rows[1..][i];
      }
    }
  }

  lemma {:induction false} AcceptedMeans(latest: seq<(string, Batch)>, bs: seq<Batch>, b: Batch)
    ensures b in AcceptedOf(latest, bs) <==> b in bs && Supersedes(Get(latest, b.scope), b)
  {
    if bs != [] {
      AcceptedMeans(latest, bs[1..], b);
      assert bs == [bs[0]] + bs[1..];
    }
  }

  lemma {:induction false} RelatedStored(s: Store, p: Publication, b: Batch, x: Batch)
    requires Distinct(s.scopes) && b in p.observations && x.scope == b.scope
    ensures x in Related(s.scopes, p) <==> StoredFor(s, p.provider, x)
  {
    RelatedMeans(s.scopes, p, x);
    if i :| 0 <= i < |s.scopes| && Covers(s.scopes[i].1, p) && x in s.scopes[i].1.observations {
      assert s.scopes[i] in s.scopes;
      EntryGet(s.scopes, s.scopes[i].0, s.scopes[i].1);
    }
    if n :| Get(s.scopes, n).Some? && Get(s.scopes, n).value.provider == p.provider && x in Get(s.scopes, n).value.observations {
      EntryGet(s.scopes, n, Get(s.scopes, n).value);
      var i :| 0 <= i < |s.scopes| && s.scopes[i] == (n, Get(s.scopes, n).value);
      assert Covers(s.scopes[i].1, p);
    }
  }

  lemma {:induction false} RelatedTimes(s: Store, p: Publication)
    requires StoreOk(s)
    ensures forall x :: x in Related(s.scopes, p) ==> x.at.Some?
  {
    forall x | x in Related(s.scopes, p) ensures x.at.Some? {
      RelatedMeans(s.scopes, p, x);
      var i :| 0 <= i < |s.scopes| && Covers(s.scopes[i].1, p) && x in s.scopes[i].1.observations;
      assert s.scopes[i] in s.scopes;
      EntryGet(s.scopes, s.scopes[i].0, s.scopes[i].1);
      assert RowOk(s.published, s.scopes[i].0, s.scopes[i].1);
    }
  }

  lemma {:induction false} PreparedStored(s: Store, p: Publication, x: Batch)
    ensures StoredFor(Prepared(s, p), p.provider, x) <==> StoredFor(s, p.provider, x)
  {
    forall n ensures Get(Prepared(s, p).scopes, n) == if n == p.scope then Some(RowOf(s, p)) else Get(s.scopes, n) {
      EnsuredRows(s, p, n);
    }
  }

  /** A journal observation is accepted iff it is strictly newer than every stored
      observation of its journal scope, in whichever envelope that is stored. */
  lemma {:induction false} AcceptedIff(s: Store, p: Publication, b: Batch)
    requires StoreOk(s) && ReplyTo(s, p).Published? && b in p.observations
    ensures (p.scope, p.at.value) in Commit(s, p).0.published
    ensures b in Commit(s, p).0.published[(p.scope, p.at.value)].accepted
       <==> forall x :: StoredFor(s, p.provider, x) && x.scope == b.scope ==> x.at.Some? && x.at.value < b.at.value
  {
    var t := Prepared(s, p);
    ReceiptedOk(s, p);
    EnsuredOk(Receipted(s, p), p);
    RelatedTimes(t, p);
    LatestMeans(Related(t.scopes, p), b.scope);
    AcceptedMeans(LatestBatches(Related(t.scopes, p)), p.observations, b);
    assert ObservationOk(p, b);
    forall x: Batch | x.scope == b.scope ensures x in Related(t.scopes, p) <==> StoredFor(s, p.provider, x) {
      RelatedStored(t, p, b, x);
      PreparedStored(s, p, x);
    }
  }

  // --- Repeats ---------------------------------------------------------------

  lemma {:induction false} PreparedSettles(s: Store, p: Publication)
    requires p.runId.None? && Get(s.scopes, p.scope).Some?
    ensures Prepared(s, p) == s
  {
  }

  lemma {:induction false} ReplayPublished(s: Store, p: Publication)
    requires p.runId.None? && ReplyTo(s, p).Published?
    ensures var t := Commit(s, p).0; Commit(t, p).0 == t && ReplyTo(t, p).SameObservation?
  {
    var t := Commit(s, p).0;
    WrittenRows(Prepared(s, p), p, LatestBatches(Related(Prepared(s, p).scopes, p)), p.scope);
    PreparedSettles(t, p);
  }

  lemma {:induction false} ReplayUnpublished(s: Store, p: Publication)
    requires StoreOk(s) && p.runId.None? && (ReplyTo(s, p).SameObservation? || ReplyTo(s, p).Outdated?)
    ensures Commit(s, p).0 == s
  {
    if ReplyTo(s, p).Outdated? { assert Get(s.scopes, p.scope).Some?; }
    PreparedSettles(s, p);
  }

  /** Delivering a publication again changes nothing and is not an error. */
  lemma {:induction false} ReplayIsHarmless(s: Store, p: Publication)
    requires StoreOk(s) && !ReplyTo(s, p).Refused?
    ensures var t := Commit(s, p).0;
            Commit(t, p).0 == t && !ReplyTo(t, p).Refused? && !ReplyTo(t, p).Published?
  {
    if p.runId.Some? {
      assert ValidPublication(p);
    } else if ReplyTo(s, p).Published? {
      ReplayPublished(s, p);
    } else {
      ReplayUnpublished(s, p);
    }
  }

  // --- Convergence -----------------------------------------------------------

  function CommitAll(ps: seq<Publication>): Store {
    if ps == [] then EMPTY else Commit(CommitAll(ps[..|ps| - 1]), ps[|ps| - 1]).0
  }

  /** Two publications that can stand side by side. */
  ghost predicate Compatible(p: Publication, q: Publication) {
    && (p.scope == q.scope ==> p.provider == q.provider && p.kind == q.kind && p.esport == q.esport)
    && (p.scope == q.scope && p.at == q.at ==> p.events == q.events && p.observations == q.observations)
    && (p.provider == q.provider && p.runId.Some? && p.runId == q.runId ==> p == q)
    && (p.provider == q.provider ==>
          forall b, c :: b in p.observations && c in q.observations && b.scope == c.scope && b.at == c.at ==> b == c)
  }

  ghost predicate ConflictFree(ps: seq<Publication>) {
    && (forall p :: p in ps ==> ValidPublication(p))
    && forall p, q :: p in ps && q in ps ==> Compatible(p, q)
  }

  ghost predicate Holds(row: Scope, p: Publication) {
    row == Scope(p.provider, p.kind, p.esport, p.events, p.observations, p.at)
  }

  /** Each row is one of the publications, no older than any other of its scope. */
  ghost predicate RowsTrack(s: Store, ps: seq<Publication>) {
    && (forall n :: Get(s.scopes, n).Some? ==> exists q :: q in ps && q.scope == n && Holds(Get(s.scopes, n).value, q))
    && (forall p :: p in ps ==> Get(s.scopes, p.scope).Some? && Get(s.scopes, p.scope).value.at.Some? && p.at.Some?
                                && p.at.value <= Get(s.scopes, p.scope).value.at.value)
  }

  /** Some publication of the history is what the record says. */
  ghost predicate Sent(ps: seq<Publication>, k: (string, int), r: Recorded) {
    exists q :: q in ps && q.scope == k.0 && q.at == Some(k.1) && r.events == q.events && r.observations == q.observations
  }

  ghost predicate HistoryTracks(s: Store, ps: seq<Publication>) {
    && (forall k :: k in s.published ==> Sent(ps, k, s.published[k]))
    && (forall k :: k in s.receipts ==> s.receipts[k] in ps)
  }

  /** Nothing a compatible history stored contradicts the next publication. */
  lemma {:induction false} NeverContradicted(s: Store, ps: seq<Publication>, p: Publication)
    requires StoreOk(s) && RowsTrack(s, ps) && ConflictFree(ps + [p])
    ensures !Contradicted(s, p)
  {
    var t := Prepared(s, p);
    ReceiptedOk(s, p);
    EnsuredOk(Receipted(s, p), p);
    RelatedTimes(t, p);
    forall b | b in p.observations ensures !Contradicts(Get(LatestBatches(Related(t.scopes, p)), b.scope), b) {
      LatestMeans(Related(t.scopes, p), b.scope);
      var l := Get(LatestBatches(Related(t.scopes, p)), b.scope);
      if l.Some? {
        RelatedStored(t, p, b, l.value);
        PreparedStored(s, p, l.value);
        var n :| Get(s.scopes, n).Some? && Get(s.scopes, n).value.provider == p.provider && l.value in Get(s.scopes, n).value.observations;
        var q :| q in ps && q.scope == n && Holds(Get(s.scopes, n).value, q);
        assert q in ps + [p] && p in ps + [p];
        assert Compatible(q, p);
      }
    }
  }

  lemma {:induction false} RowOwned(s: Store, ps: seq<Publication>, p: Publication)
    requires RowsTrack(s, ps) && ConflictFree(ps + [p])
    ensures Owned(RowOf(s, p), p)
  {
    if Get(s.scopes, p.scope).Some? {
      var q :| q in ps && q.scope == p.scope && Holds(Get(s.scopes, p.scope).value, q);
      assert q in ps + [p] && p in ps + [p] && Compatible(p, q);
    }
  }

  lemma {:induction false} PriorAgrees(s: Store, ps: seq<Publication>, p: Publication)
    requires HistoryTracks(s, ps) && ConflictFree(ps + [p])
    ensures p.at.Some? && (p.scope, p.at.value) in s.published ==>
              var prior := s.published[(p.scope, p.at.value)]; prior.events == p.events && prior.observations == p.observations
    ensures p.runId.Some? && (p.provider, p.runId.value) in s.receipts && StoreOk(s) ==> s.receipts[(p.provider, p.runId.value)] == p
  {
    assert p in ps + [p];
    if p.at.Some? && (p.scope, p.at.value) in s.published {
      var q :| q in ps && q.scope == p.scope && q.at == p.at
               && s.published[(p.scope, p.at.value)].events == q.events && s.published[(p.scope, p.at.value)].observations == q.observations;
      assert q in ps + [p] && Compatible(p, q);
    }
    if p.runId.Some? && (p.provider, p.runId.value) in s.receipts {
      var q := s.receipts[(p.provider, p.runId.value)];
      assert q in ps + [p] && Compatible(p, q);
    }
  }

  lemma {:induction false} NeverRefused(s: Store, ps: seq<Publication>, p: Publication)
    requires StoreOk(s) && RowsTrack(s, ps) && HistoryTracks(s, ps) && ConflictFree(ps + [p])
    ensures !ReplyTo(s, p).Refused?
  {
    assert p in ps + [p];
    NeverContradicted(s, ps, p);
    RowOwned(s, ps, p);
    PriorAgrees(s, ps, p);
  }

  lemma {:induction false} RowsCome(s: Store, ps: seq<Publication>, p: Publication, n: string)
    requires StoreOk(s) && RowsTrack(s, ps) && Get(Commit(s, p).0.scopes, n).Some?
    ensures exists q :: q in ps + [p] && q.scope == n && Holds(Get(Commit(s, p).0.scopes, n).value, q)
  {
    ScopeAfterCommit(s, p, n);
    if ReplyTo(s, p).Published? && n == p.scope {
      assert p in ps + [p] && Holds(Get(Commit(s, p).0.scopes, n).value, p);
    } else {
      var q :| q in ps && q.scope == n && Holds(Get(s.scopes, n).value, q);
      assert q in ps + [p];
    }
  }

  lemma {:induction false} RowsAdvance(s: Store, ps: seq<Publication>, p: Publication, q: Publication)
    requires StoreOk(s) && RowsTrack(s, ps) && HistoryTracks(s, ps) && !ReplyTo(s, p).Refused? && q in ps + [p]
    ensures var row := Get(Commit(s, p).0.scopes, q.scope);
            row.Some? && row.value.at.Some? && q.at.Some? && q.at.value <= row.value.at.value
  {
    ScopeAfterCommit(s, p, q.scope);
    if q in ps {
      assert Get(s.scopes, q.scope).value.at.Some? && q.at.value <= Get(s.scopes, q.scope).value.at.value;
    } else if !ReplyTo(s, p).Published? {
      UnpublishedIsOld(s, ps, p);
    }
  }

  lemma {:induction false} RowsTrackNext(s: Store, ps: seq<Publication>, p: Publication)
    requires StoreOk(s) && RowsTrack(s, ps) && HistoryTracks(s, ps) && ConflictFree(ps + [p])
    ensures RowsTrack(Commit(s, p).0, ps + [p])
  {
    var t := Commit(s, p).0;
    NeverRefused(s, ps, p);
    forall n | Get(t.scopes, n).Some? ensures exists q :: q in ps + [p] && q.scope == n && Holds(Get(t.scopes, n).value, q) {
      RowsCome(s, ps, p, n);
    }
    forall q | q in ps + [p]
      ensures Get(t.scopes, q.scope).Some? && Get(t.scopes, q.scope).value.at.Some? && q.at.Some?
              && q.at.value <= Get(t.scopes, q.scope).value.at.value
    {
      RowsAdvance(s, ps, p, q);
    }
  }

  /** A publication that was not refused but not published either is not newer than
      its scope. */
  lemma {:induction false} UnpublishedIsOld(s: Store, ps: seq<Publication>, p: Publication)
    requires StoreOk(s) && RowsTrack(s, ps) && HistoryTracks(s, ps) && !ReplyTo(s, p).Refused?
    ensures !ReplyTo(s, p).Published? ==>
              var row := Get(s.scopes, p.scope); row.Some? && row.value.at.Some? && p.at.Some? && p.at.value <= row.value.at.value
  {
    if ReplyTo(s, p).AlreadyReceived? {
      assert p in ps;
    }
  }

  lemma {:induction false} RecordsCome(s: Store, ps: seq<Publication>, p: Publication, k: (string, int))
    requires ValidPublication(p) && k in Commit(s, p).0.published && (k in s.published ==> Sent(ps, k, s.published[k]))
    ensures Sent(ps + [p], k, Commit(s, p).0.published[k])
  {
    assert p in ps + [p];
    if k in s.published && Commit(s, p).0.published[k] == s.published[k] {
      var q :| q in ps && q.scope == k.0 && q.at == Some(k.1) && s.published[k].events == q.events && s.published[k].observations == q.observations;
      assert q in ps + [p];
    } else {
      assert p.scope == k.0 && p.at == Some(k.1);
    }
  }

  lemma {:induction false} HistoryTracksNext(s: Store, ps: seq<Publication>, p: Publication)
    requires HistoryTracks(s, ps) && ValidPublication(p)
    ensures HistoryTracks(Commit(s, p).0, ps + [p])
  {
    var t := Commit(s, p).0;
    forall k | k in t.published ensures Sent(ps + [p], k, t.published[k]) {
      RecordsCome(s, ps, p, k);
    }
    forall k | k in t.receipts ensures t.receipts[k] in ps + [p] {
      assert t.receipts[k] == p || (k in s.receipts && t.receipts[k] == s.receipts[k]);
    }
  }

  lemma {:induction false} HistoryHolds(ps: seq<Publication>)
    requires ConflictFree(ps)
    ensures StoreOk(CommitAll(ps)) && RowsTrack(CommitAll(ps), ps) && HistoryTracks(CommitAll(ps), ps)
  {
    if ps != [] {
      var n := |ps| - 1;
      assert ps == ps[..n] + [ps[n]];
      assert ps[n] in ps;
      HistoryHolds(ps[..n]);
      CommitOk(CommitAll(ps[..n]), ps[n]);
      RowsTrackNext(CommitAll(ps[..n]), ps[..n], ps[n]);
      HistoryTracksNext(CommitAll(ps[..n]), ps[..n], ps[n]);
    }
  }

  /** After any conflict-free history a scope holds its newest publication. */
  lemma {:induction false} ScopeIsNewest(ps: seq<Publication>, p: Publication)
    requires ConflictFree(ps) && p in ps
    ensures var row := Get(CommitAll(ps).scopes, p.scope);
            row.Some? && exists q :: q in ps && q.scope == p.scope && Holds(row.value, q)
                                     && forall r :: r in ps && r.scope == p.scope ==> r.at.value <= q.at.value
  {
    HistoryHolds(ps);
    var row := Get(CommitAll(ps).scopes, p.scope);
    var q :| q in ps && q.scope == p.scope && Holds(row.value, q);
    forall r | r in ps && r.scope == p.scope ensures r.at.Some? && r.at.value <= q.at.value {
      assert Get(CommitAll(ps).scopes, r.scope) == row;
    }
  }

  ghost predicate NewestOf(q: Publication, ps: seq<Publication>, n: string) {
    q in ps && q.scope == n && q.at.Some? && forall r :: r in ps && r.scope == n ==> r.at.Some? && r.at.value <= q.at.value
  }

  lemma {:induction false} HoldsNewest(ps: seq<Publication>, n: string) returns (q: Publication)
    requires ConflictFree(ps) && exists p :: p in ps && p.scope == n
    ensures NewestOf(q, ps, n) && Get(CommitAll(ps).scopes, n).Some? && Holds(Get(CommitAll(ps).scopes, n).value, q)
  {
    var p :| p in ps && p.scope == n;
    ScopeIsNewest(ps, p);
    var row := Get(CommitAll(ps).scopes, n);
    q :| q in ps && q.scope == n && Holds(row.value, q) && forall r :: r in ps && r.scope == n ==> r.at.value <= q.at.value;
  }

  lemma {:induction false} NoRow(ps: seq<Publication>, n: string)
    requires ConflictFree(ps) && Get(CommitAll(ps).scopes, n).Some?
    ensures exists p :: p in ps && p.scope == n
  {
    HistoryHolds(ps);
  }

  /** Any two deliveries of the same publications, in any order and with any repeats,
      leave every scope the same. */
  lemma {:induction false} DeliveriesConverge(ps: seq<Publication>, qs: seq<Publication>, n: string)
    requires ConflictFree(ps) && forall p :: p in ps <==> p in qs
    ensures Get(CommitAll(ps).scopes, n) == Get(CommitAll(qs).scopes, n)
  {
    if exists p :: p in ps && p.scope == n {
      var p := HoldsNewest(ps, n);
      var q := HoldsNewest(qs, n);
      assert Compatible(p, q);
    } else {
      if Get(CommitAll(ps).scopes, n).Some? { NoRow(ps, n); }
      if Get(CommitAll(qs).scopes, n).Some? { NoRow(qs, n); }
    }
  }

  // --- What is not monotone --------------------------------------------------

  lemma {:induction false} PrefixFree(ps: seq<Publication>, n: nat)
    requires ConflictFree(ps) && n <= |ps|
    ensures ConflictFree(ps[..n])
  {
  }

  /** Published: newer than everything of its scope in a conflict-free history. */
  lemma {:induction false} NewerIsPublished(ps: seq<Publication>, p: Publication)
    requires ConflictFree(ps + [p]) && p.runId.None? && p.at.Some?
    requires forall q :: q in ps && q.scope == p.scope ==> q.at.Some? && q.at.value < p.at.value
    ensures StoreOk(CommitAll(ps)) && ReplyTo(CommitAll(ps), p).Published?
    ensures CommitAll(ps + [p]) == Commit(CommitAll(ps), p).0
  {
    assert (ps + [p])[..|ps|] == ps;
    PrefixFree(ps + [p], |ps|);
    HistoryHolds(ps);
    assert p in ps + [p];
    NeverContradicted(CommitAll(ps), ps, p);
    RowOwned(CommitAll(ps), ps, p);
    PublishedIff(CommitAll(ps), p);
  }

  /** An observation is accepted however old it is, once its envelope has moved on
      to observations of other journal scopes. */
  lemma {:induction false} ForgottenIsAccepted(s: Store, r: Publication, c: Batch)
    requires StoreOk(s) && ReplyTo(s, r).Published? && c in r.observations
    requires forall n :: Get(s.scopes, n).Some? ==> forall x :: x in Get(s.scopes, n).value.observations ==> x.scope != c.scope
    ensures (r.scope, r.at.value) in Commit(s, r).0.published
    ensures c in Commit(s, r).0.published[(r.scope, r.at.value)].accepted
  {
    AcceptedIff(s, r, c);
  }

  /** Three publications of one envelope, in time order, the first and the last about
      one journal scope and the middle one about another; the last is stale. */
  ghost predicate Forgetful(p: Publication, q: Publication, r: Publication, a: Batch, b: Batch, c: Batch) {
    && ConflictFree([p, q, r]) && p.scope == q.scope == r.scope
    && p.runId.None? && q.runId.None? && r.runId.None?
    && p.at.Some? && q.at.Some? && r.at.Some? && p.at.value < q.at.value < r.at.value
    && p.observations == [a] && q.observations == [b] && r.observations == [c]
    && a.scope == c.scope != b.scope && a.at.Some? && c.at.Some? && c.at.value < a.at.value
  }

  /** Envelope observations are replaced as a whole, so a journal baseline can
      disappear: the stale observation is accepted after the newer one was. */
  lemma {:induction false} BaselineDisappears(p: Publication, q: Publication, r: Publication, a: Batch, b: Batch, c: Batch)
    requires Forgetful(p, q, r, a, b, c)
    ensures var s, t := CommitAll([p]), Commit(CommitAll([p, q]), r).0;
            && (p.scope, p.at.value) in s.published && a in s.published[(p.scope, p.at.value)].accepted
            && (r.scope, r.at.value) in t.published && c in t.published[(r.scope, r.at.value)].accepted
  {
    assert [p] == [] + [p] && [p, q] == [p] + [q] && [p, q, r] == [p, q] + [r];
    assert [p, q, r][..2] == [p, q] && [p, q, r][..1] == [p];
    PrefixFree([p, q, r], 2);
    PrefixFree([p, q, r], 1);
    NewerIsPublished([], p);
    NewerIsPublished([p], q);
    NewerIsPublished([p, q], r);
    ForgottenIsAccepted(CommitAll([]), p, a);
    forall n ensures Get(CommitAll([p, q]).scopes, n).Some? ==> Get(CommitAll([p, q]).scopes, n).value.observations == [b] {
      ScopeAfterCommit(CommitAll([]), p, n);
      ScopeAfterCommit(CommitAll([p]), q, n);
    }
    ForgottenIsAccepted(CommitAll([p, q]), r, c);
  }

  lemma {:induction false} SinglesCompatible(p: Publication, q: Publication, x: Batch, y: Batch)
    requires p.observations == [x] && q.observations == [y] && p.provider == q.provider && p.scope == q.scope
    requires p.kind == q.kind && p.esport == q.esport && p.runId.None? && q.runId.None? && (p.at == q.at ==> p == q)
    requires x.scope == y.scope && x.at == y.at ==> x == y
    ensures Compatible(p, q)
  {
  }

  lemma {:induction false} SingleValid(p: Publication, x: Batch)
    requires p.provider != "" && p.scope != "" && p.at.Some? && p.events == [] && p.observations == [x]
    requires x.complete && x.scope != "" && x.at.Some? && x.matches == []
    ensures ValidPublication(p)
  {
  }

  /** Such publications exist. */
  lemma {:induction false} ForgetfulExists() returns (p: Publication, q: Publication, r: Publication, a: Batch, b: Batch, c: Batch)
    ensures Forgetful(p, q, r, a, b, c)
  {
    a, b, c := Batch("tab:a", true, Some(10), [], ""), Batch("tab:b", true, Some(20), [], ""), Batch("tab:a", true, Some(5), [], "");
    p := Publication("bet365", None, "detail", DetailFeed, Cs2, Some(10), [], [a], "k", "");
    q := Publication("bet365", None, "detail", DetailFeed, Cs2, Some(20), [], [b], "k", "");
    r := Publication("bet365", None, "detail", DetailFeed, Cs2, Some(30), [], [c], "k", "");
    SingleValid(p, a);
    SingleValid(q, b);
    SingleValid(r, c);
    forall x, y | x in [p, q, r] && y in [p, q, r] ensures Compatible(x, y) {
      SinglesCompatible(x, y, x.observations[0], y.observations[0]);
    }
  }

  // --- The service -----------------------------------------------------------

  class PersistenceService {
    var receipts: map<(string, string), Publication>
    var scopes: seq<(string, Scope)>
    var published: map<(string, int), Recorded>
    var checkpoints: map<string, string>

    ghost function Abs(): Store
      reads this
    {
      Store(receipts, scopes, published, checkpoints)
    }

    constructor ()
      ensures Abs() == EMPTY && StoreOk(Abs())
    {
      receipts, scopes, published, checkpoints := map[], [], map[], map[];
    }

    /** One transaction under the publication lock. */
    method CommitPublication(p: Publication) returns (reply: Reply)
      requires StoreOk(Abs())
      modifies this
      ensures reply == ReplyTo(old(Abs()), p)
      ensures Abs() == Commit(old(Abs()), p).0 && StoreOk(Abs())
    {
      CommitOk(Abs(), p);
      reply := Transact(p);
    }

    method Transact(p: Publication) returns (reply: Reply)
      modifies this
      ensures reply == ReplyTo(old(Abs()), p)
      ensures Abs() == Commit(old(Abs()), p).0
    {
      var early := Screen(p);
      if early == Some(Refused) || early == Some(AlreadyReceived) { return early.value; }
      var noted, rows := Prepare(p);
      if early.Some? {
        receipts, scopes := noted, rows;
        return early.value;
      }
      reply := PublishNew(p, noted, rows);
    }

    /** Receipt, ownership and time: whatever ends the transaction before the
        observations are compared. */
    method Screen(p: Publication) returns (early: Option<Reply>)
      ensures early.Some? ==> early.value == ReplyTo(Abs(), p) && !early.value.Published?
      ensures early.None? ==> ValidPublication(p) && ReplyTo(Abs(), p) == if Contradicted(Abs(), p) then Refused else Published
    {
      var valid := Validate(p);
      if !valid { return Some(Refused); }
      if p.runId.Some? && (p.provider, p.runId.value) in receipts {
        return Some(if receipts[(p.provider, p.runId.value)] == p then AlreadyReceived else Refused);
      }
      var found := Get(scopes, p.scope);
      var row := if found.Some? then found.value else Scope(p.provider, p.kind, p.esport, [], [], None);
      if row.provider != p.provider || row.kind != p.kind || row.esport != p.esport { return Some(Refused); }
      if (p.scope, p.at.value) in published {
        var prior := published[(p.scope, p.at.value)];
        return Some(if prior.events == p.events && prior.observations == p.observations then SameObservation else Refused);
      }
      early := if row.at.Some? && row.at.value > p.at.value then Some(Outdated) else None;
    }

    /** The receipt to be written and the scope rows with this one ensured. */
    method Prepare(p: Publication) returns (noted: map<(string, string), Publication>, rows: seq<(string, Scope)>)
      ensures Prepared(Abs(), p) == Store(noted, rows, published, checkpoints)
    {
      noted := if p.runId.Some? then receipts[(p.provider, p.runId.value) := p] else receipts;
      var found := Get(scopes, p.scope);
      rows := if found.Some? then scopes else Put(scopes, p.scope, Scope(p.provider, p.kind, p.esport, [], [], None));
    }

    /** The part of the transaction that compares and writes the observations. */
    method PublishNew(p: Publication, noted: map<(string, string), Publication>, rows: seq<(string, Scope)>) returns (reply: Reply)
      requires ValidPublication(p) && Prepared(Abs(), p) == Store(noted, rows, published, checkpoints)
      modifies this
      ensures reply == if Contradicted(old(Abs()), p) then Refused else Published
      ensures Abs() == if reply.Refused? then old(Abs()) else Write(Prepared(old(Abs()), p), p, LatestBatches(Related(rows, p)))
    {
      var related := FindRelated(rows, p);
      var latest := Newest(related);
      var accepted, clash := Sift(latest, p.observations);
      if clash { return Refused; }
      AcceptedAreObserved(latest, p.observations);
      var changes := DiffAll(latest, accepted);
      receipts := noted;
      published := published[(p.scope, p.at.value) := Recorded(p.events, p.observations, accepted, changes)];
      scopes := Put(rows, p.scope, Scope(p.provider, p.kind, p.esport, p.events, p.observations, p.at));
      checkpoints := checkpoints[p.checkpointKey := p.checkpoint];
      reply := Published;
    }
  }

  method Validate(p: Publication) returns (ok: bool)
    ensures ok <==> ValidPublication(p)
  {
    if p.provider == "" || p.scope == "" || p.observations == [] || p.at.None? { return false; }
    var ids: set<string> := {};
    for i := 0 to |p.events|
      invariant forall e :: e in p.events[..i] ==> EventOk(p, e)
      invariant forall j, k :: 0 <= j < k < i ==> p.events[j].eventId != p.events[k].eventId
      invariant ids == set j | 0 <= j < i :: p.events[j].eventId
    {
      var e := p.events[i];
      assert e in p.events;
      if e.provider != p.provider || e.esport != p.esport || e.eventId == "" || e.eventId in ids || e.startsAt.None? { return false; }
      ids := ids + {e.eventId};
    }
    assert p.events[..|p.events|] == p.events;
    for i := 0 to |p.observations|
      invariant forall b :: b in p.observations[..i] ==> ObservationOk(p, b)
    {
      assert p.observations[i] in p.observations;
      var good := ValidateObservation(p, p.observations[i]);
      if !good { return false; }
    }
    assert p.observations[..|p.observations|] == p.observations;
    ok := true;
  }

  method ValidateObservation(p: Publication, b: Batch) returns (ok: bool)
    ensures ok <==> ObservationOk(p, b)
  {
    if !b.complete || b.scope == "" || b.at.None? { return false; }
    for i := 0 to |b.matches|
      invariant forall e :: e in b.matches[..i] ==> SnapshotOk(p, e)
    {
      assert b.matches[i] in b.matches;
      var good := ValidateSnapshot(p, b.matches[i]);
      if !good { return false; }
    }
    assert b.matches[..|b.matches|] == b.matches;
    ok := true;
  }

  method ValidateSnapshot(p: Publication, e: Match) returns (ok: bool)
    ensures ok <==> SnapshotOk(p, e)
  {
    if e.provider != p.provider || !exists x :: x in p.events && x.eventId == e.eventId { return false; }
    var unique := CheckMarkets(e.markets);
    ok := unique && forall m :: m in e.markets ==> m.id != "" && forall s :: s in m.selections ==> s.id != "";
  }

  method FindRelated(rows: seq<(string, Scope)>, p: Publication) returns (related: seq<Batch>)
    ensures related == Related(rows, p)
  {
    related := [];
    ghost var total := Related(rows, p);
    assert rows[0..] == rows;
    for i := 0 to |rows|
      invariant related + Related(rows[i..], p) == total
    {
      assert rows[i..][0] == rows[i] && rows[i..][1..] == rows[i + 1..];
      ghost var rest := Related(rows[i + 1..], p);
      var more := if Covers(rows[i].1, p) then rows[i].1.observations else [];
      assert related + (more + rest) == (related + more) + rest;
      related := related + more;
    }
    assert rows[|rows|..] == [];
  }

  method Newest(bs: seq<Batch>) returns (latest: seq<(string, Batch)>)
    ensures latest == LatestBatches(bs)
  {
    latest := [];
    for i := 0 to |bs|
      invariant latest == LatestBatches(bs[..i])
    {
      assert bs[..i + 1][..i] == bs[..i];
      if Supersedes(Get(latest, bs[i].scope), bs[i]) { latest := Put(latest, bs[i].scope, bs[i]); }
    }
    assert bs[..|bs|] == bs;
  }

  method Sift(latest: seq<(string, Batch)>, bs: seq<Batch>) returns (accepted: seq<Batch>, clash: bool)
    ensures clash <==> exists b :: b in bs && Contradicts(Get(latest, b.scope), b)
    ensures !clash ==> accepted == AcceptedOf(latest, bs)
  {
    accepted, clash := [], false;
    ghost var total := AcceptedOf(latest, bs);
    assert bs[0..] == bs;
    for i := 0 to |bs|
      invariant accepted + AcceptedOf(latest, bs[i..]) == total
      invariant forall b :: b in bs[..i] ==> !Contradicts(Get(latest, b.scope), b)
    {
      var b, prior := bs[i], Get(latest, bs[i].scope);
      assert bs[i..][0] == b && bs[i..][1..] == bs[i + 1..];
      ghost var rest := AcceptedOf(latest, bs[i + 1..]);
      if !Supersedes(prior, b) && Contradicts(prior, b) { return accepted, true; }
      var more := if Supersedes(prior, b) then [b] else [];
      assert accepted + (more + rest) == (accepted + more) + rest;
      accepted := accepted + more;
    }
    assert bs[|bs|..] == [] && bs[..|bs|] == bs;
  }

  method DiffAll(latest: seq<(string, Batch)>, accepted: seq<Batch>) returns (changes: seq<Change>)
    requires forall b :: b in accepted ==> b.at.Some?
    ensures changes == ChangesOf(latest, accepted)
  {
    changes := [];
    ghost var total := ChangesOf(latest, accepted);
    assert accepted[0..] == accepted;
    for i := 0 to |accepted|
      invariant changes + ChangesOf(latest, accepted[i..]) == total
    {
      var b, prior := accepted[i], Get(latest, accepted[i].scope);
      var more := MarketChangesOf(if prior.Some? then prior.value.matches else [], b.matches, b.at.value, true);
      ChangesUnfold(latest, accepted, i);
      Regroup(changes, more, ChangesOf(latest, accepted[i + 1..]));
      changes := changes + more;
    }
    assert accepted[|accepted|..] == [];
  }

  lemma {:induction false} ChangesUnfold(latest: seq<(string, Batch)>, accepted: seq<Batch>, i: nat)
    requires i < |accepted| && forall b :: b in accepted ==> b.at.Some?
    ensures var b, prior := accepted[i], Get(latest, accepted[i].scope);
            ChangesOf(latest, accepted[i..])
            == Changes(if prior.Some? then prior.value.matches else [], b.matches, b.at.value, true) + ChangesOf(latest, accepted[i + 1..])
  {
    assert accepted[i..][1..] == accepted[i + 1..];
  }

  lemma {:induction false} Regroup<T>(a: seq<T>, b: seq<T>, c: seq<T>)
    ensures a + (b + c) == (a + b) + c
  {
  }
}
