/** When the server accepts an observation of a journal scope, over whole histories: the
    baselines it compares with are those of the newest publication of each envelope. */
module JournalBaselines {
  import opened Domain
  import opened OrderedMaps
  import opened MarketJournal
  import opened PublicationCommit

  /** The observation is accepted when the publication is committed after the history. */
  ghost predicate Accepts(ps: seq<Publication>, p: Publication, b: Batch) {
    && ReplyTo(CommitAll(ps), p).Published? && p.at.Some? && b in p.observations
    && (p.scope, p.at.value) in Commit(CommitAll(ps), p).0.published
    && b in Commit(CommitAll(ps), p).0.published[(p.scope, p.at.value)].accepted
  }

  /** The newest publication of some envelope of the provider holds the observation. */
  ghost predicate Baseline(ps: seq<Publication>, provider: string, x: Batch) {
    exists q: Publication :: NewestOf(q, ps, q.scope) && q.provider == provider && x in q.observations
  }

  lemma {:induction false} NewestAgree(ps: seq<Publication>, q: Publication, r: Publication)
    requires ConflictFree(ps) && NewestOf(q, ps, q.scope) && NewestOf(r, ps, q.scope)
    ensures q.observations == r.observations && q.provider == r.provider
  {
    assert Compatible(q, r);
  }

  lemma {:induction false} StoredIsBaseline(ps: seq<Publication>, provider: string, x: Batch)
    requires ConflictFree(ps) && StoredFor(CommitAll(ps), provider, x)
    ensures Baseline(ps, provider, x)
  {
    var n :| Get(CommitAll(ps).scopes, n).Some? && Get(CommitAll(ps).scopes, n).value.provider == provider
             && x in Get(CommitAll(ps).scopes, n).value.observations;
    NoRow(ps, n);
    var q := HoldsNewest(ps, n);
    assert NewestOf(q, ps, q.scope);
  }

  lemma {:induction false} BaselineIsStored(ps: seq<Publication>, provider: string, x: Batch)
    requires ConflictFree(ps)
    ensures StoredFor(CommitAll(ps), provider, x) <==> Baseline(ps, provider, x)
  {
    if StoredFor(CommitAll(ps), provider, x) { StoredIsBaseline(ps, provider, x); }
    if Baseline(ps, provider, x) {
      var q: Publication :| NewestOf(q, ps, q.scope) && q.provider == provider && x in q.observations;
      var r := HoldsNewest(ps, q.scope);
      NewestAgree(ps, q, r);
    }
  }

  /** A baseline of the journal scope that is at least as new. */
  ghost predicate Covering(ps: seq<Publication>, provider: string, b: Batch, x: Batch) {
    Baseline(ps, provider, x) && x.scope == b.scope && x.at.Some? && b.at.Some? && b.at.value <= x.at.value
  }

  lemma {:induction false} BaselineTimed(ps: seq<Publication>, provider: string, x: Batch)
    requires ConflictFree(ps) && Baseline(ps, provider, x)
    ensures x.at.Some?
  {
    var q: Publication :| NewestOf(q, ps, q.scope) && q.provider == provider && x in q.observations;
    assert ValidPublication(q) && ObservationOk(q, x);
  }

  /** After any conflict-free history an observation that comes with a new publication,
      however old it is itself, is accepted iff no envelope of the provider still has a
      baseline of its journal scope at least as new. */
  lemma {:induction false} AcceptedIffUncovered(ps: seq<Publication>, p: Publication, b: Batch)
    requires ConflictFree(ps) && ReplyTo(CommitAll(ps), p).Published? && b in p.observations
    ensures Accepts(ps, p, b) <==> !exists x :: Covering(ps, p.provider, b, x)
  {
    var s := CommitAll(ps);
    HistoryHolds(ps);
    PublishedIff(s, p);
    assert ObservationOk(p, b);
    AcceptedIff(s, p, b);
    if Accepts(ps, p, b) {
      forall x ensures !Covering(ps, p.provider, b, x) { BaselineIsStored(ps, p.provider, x); }
    } else {
      var x :| StoredFor(s, p.provider, x) && x.scope == b.scope && !(x.at.Some? && x.at.value < b.at.value);
      BaselineIsStored(ps, p.provider, x);
      BaselineTimed(ps, p.provider, x);
      assert Covering(ps, p.provider, b, x);
    }
  }

  /** Something at least as new of the same provider and journal scope was accepted at
      step i of the history. */
  ghost predicate Stale(ps: seq<Publication>, i: nat, a: Batch, p: Publication, b: Batch)
    requires i < |ps|
  {
    && Accepts(ps[..i], ps[i], a) && ps[i].provider == p.provider && a.scope == b.scope
    && a.at.Some? && b.at.Some? && b.at.value <= a.at.value
  }

  /** Exactly when acceptance goes back in time: a stale observation is accepted iff its
      journal scope has been dropped, or set back, by every envelope that held it. */
  lemma {:induction false} StaleAcceptedIff(ps: seq<Publication>, i: nat, a: Batch, p: Publication, b: Batch)
    requires ConflictFree(ps) && i < |ps| && Stale(ps, i, a, p, b)
    requires ReplyTo(CommitAll(ps), p).Published? && b in p.observations
    ensures Accepts(ps, p, b)
       <==> forall q: Publication :: NewestOf(q, ps, q.scope) && q.provider == p.provider ==>
              forall x :: x in q.observations && x.scope == b.scope ==> x.at.Some? && x.at.value < b.at.value
  {
    AcceptedIffUncovered(ps, p, b);
    if Accepts(ps, p, b) {
      forall q: Publication, x | NewestOf(q, ps, q.scope) && q.provider == p.provider && x in q.observations && x.scope == b.scope
        ensures x.at.Some? && x.at.value < b.at.value
      {
        assert Baseline(ps, p.provider, x) && !Covering(ps, p.provider, b, x);
        BaselineTimed(ps, p.provider, x);
      }
    } else {
      var x :| Covering(ps, p.provider, b, x);
      var q: Publication :| NewestOf(q, ps, q.scope) && q.provider == p.provider && x in q.observations;
    }
  }

  /** Envelopes keep their journal scopes: a later publication of an envelope has, for
      each observation of an earlier one, an observation at least as new. */
  ghost predicate KeepsBaselines(ps: seq<Publication>) {
    forall p, q :: p in ps && q in ps && p.scope == q.scope && p.at.Some? && q.at.Some? && p.at.value < q.at.value ==>
      forall x :: x in p.observations ==> HasAtLeast(q, x)
  }

  ghost predicate HasAtLeast(q: Publication, x: Batch) {
    exists y :: y in q.observations && y.scope == x.scope && x.at.Some? && y.at.Some? && x.at.value <= y.at.value
  }

  lemma {:induction false} BaselineKept(ps: seq<Publication>, p: Publication, a: Batch) returns (x: Batch)
    requires ConflictFree(ps) && KeepsBaselines(ps) && p in ps && a in p.observations
    ensures Covering(ps, p.provider, a, x)
  {
    assert ValidPublication(p) && ObservationOk(p, a);
    var q := HoldsNewest(ps, p.scope);
    assert NewestOf(q, ps, q.scope) && Compatible(p, q);
    if q.at == p.at {
      x := a;
    } else {
      assert HasAtLeast(q, a);
      x :| x in q.observations && x.scope == a.scope && x.at.Some? && a.at.value <= x.at.value;
    }
    assert Baseline(ps, p.provider, x);
  }

  /** In every history whose envelopes keep their journal scopes the times accepted for a
      journal scope of a provider strictly increase from publication to publication. */
  lemma {:induction false} AcceptedTimesIncrease(ps: seq<Publication>, i: nat, j: nat, a: Batch, b: Batch)
    requires ConflictFree(ps) && KeepsBaselines(ps) && i < j < |ps|
    requires Accepts(ps[..i], ps[i], a) && Accepts(ps[..j], ps[j], b)
    requires ps[i].provider == ps[j].provider && a.scope == b.scope
    ensures a.at.Some? && b.at.Some? && a.at.value < b.at.value
  {
    var before := ps[..j];
    PrefixFree(ps, j);
    assert before[i] == ps[i] && ps[i] in before && ps[j] in ps;
    assert KeepsBaselines(before) by {
      assert forall p :: p in before ==> p in ps;
    }
    var x := BaselineKept(before, ps[i], a);
    AcceptedIffUncovered(before, ps[j], b);
    assert ValidPublication(ps[j]) && ObservationOk(ps[j], b);
    assert !Covering(before, ps[j].provider, b, x);
  }
}
