/** The repository whose tables a reconciliation updates row by row
    (matching.repository.ts). */
module MatchingRepository {
  import opened Domain
  import opened DataIssues
  import opened Reconciliation
  import ReconciliationLaws
  import opened MatchingReconciliation
  import Matching

  class Repository {
    const issues: IssuesRepository
    var rows: set<RowId>
    var matches: map<RowId, MatchRow>
    var decisions: seq<Decision>
    var canonicals: map<CanonId, Canonical>
    var nextCanonical: CanonId
    var aliases: Aliases
    var tournaments: Aliases

    /** Everything as one value, as the queries at the start of a transaction read it. */
    function Snapshot(): Db
      reads this, issues
    {
      Db(rows, matches, decisions, canonicals, nextCanonical, issues.issues, aliases, tournaments)
    }

    constructor (db: Db)
      ensures Snapshot() == db && fresh(issues)
    {
      issues := new IssuesRepository(db.issues);
      rows, matches, decisions, canonicals := db.rows, db.matches, db.decisions, db.canonicals;
      nextCanonical, aliases, tournaments := db.nextCanonical, db.aliases, db.tournaments;
    }

    /** The transaction: matches the listed events and folds the answer in. It throws,
        and is rolled back, when a matched event has no row. */
    method Reconcile(byKey: RowsByKey, i: Input, at: int) returns (ok: bool)
      requires ReconciliationLaws.Inv(Snapshot()) && RowsStored(Snapshot(), byKey) && Enumerates(i.describe)
      modifies this, issues
      ensures ok <==> ReconcileListing(old(Snapshot()), byKey, i, at).Some?
      ensures ok ==> Snapshot() == ReconcileListing(old(Snapshot()), byKey, i, at).value
      ensures !ok ==> Snapshot() == old(Snapshot())
      ensures ReconciliationLaws.Inv(Snapshot())
    {
      ReconcileListingInv(Snapshot(), byKey, i, at);
      var o := Matching.CompareAllProviders(i.events, i.coverage, i.canon);
      ok := MembersStored(o, byKey);
      if ok { Fold(i.name, Translate(o, i.describe, byKey), at); }
    }

    method Fold(name: Naming, r: Outcome, at: int)
      modifies this, issues
      ensures Snapshot() == Reconciliation.Reconcile(old(Snapshot()), name, r, at)
    {
      var before := Snapshot();
      for i := 0 to |r.notApplicable|
        invariant Snapshot() == DismissAll(before, before, r.notApplicable[..i], at)
      {
        assert r.notApplicable[..i + 1][..i] == r.notApplicable[..i];
        DismissEvent(before, r.notApplicable[i], at);
      }
      assert r.notApplicable[..|r.notApplicable|] == r.notApplicable;
      var known, knownTournaments := aliases, tournaments;
      LearnsNothing(before, r, at);
      for i := 0 to |r.matched|
        invariant Progress(Snapshot(), known, knownTournaments) == SettleAll(Dismissed(before, r, at), before, name, r.matched[..i], at)
      {
        assert r.matched[..i + 1][..i] == r.matched[..i];
        known, knownTournaments := SettleGroup(before, name, known, knownTournaments, r.matched[i], at);
      }
      assert r.matched[..|r.matched|] == r.matched;
      ghost var y := Snapshot();
      for i := 0 to |r.unmatched|
        invariant Snapshot() == PartAll(y, before, r.unmatched[..i], at)
      {
        assert r.unmatched[..i + 1][..i] == r.unmatched[..i];
        PartEvent(before, r.unmatched[i].0, r.unmatched[i].1, at);
      }
      assert r.unmatched[..|r.unmatched|] == r.unmatched;
    }

    method DismissEvent(before: Db, id: RowId, at: int)
      modifies this`matches, issues
      ensures Snapshot() == Dismiss(old(Snapshot()), before, id, at)
    {
      if id !in before.rows || (id in before.matches && before.matches[id].status.Manual?) { return; }
      issues.Move(UnmatchedKey(id), Resolved, at);
      if id in before.matches && before.matches[id].status.Unmatched? { matches := matches - {id}; }
    }

    /** Adds what the group taught without overwriting; returns the names now known. */
    static method LearnNames(stored: Aliases, known: Aliases, e: Esport, ls: seq<Learned>) returns (s: Aliases, k: Aliases)
      ensures (s, k) == Learn(stored, known, e, ls)
    {
      s, k := stored, known;
      for i := 0 to |ls|
        invariant (s, k) == Learn(stored, known, e, ls[..i])
      {
        assert ls[..i + 1][..i] == ls[..i];
        var key, canonical := (e, ls[i].alias), ls[i].canonical;
        if !(key in k && k[key] != "" && k[key] != canonical) {
          if key !in s { s := s[key := canonical]; }
          k := k[key := canonical];
        }
      }
      assert ls[..|ls|] == ls;
    }

    method SettleGroup(before: Db, name: Naming, known: Aliases, knownTournaments: Aliases, g: Group, at: int)
      returns (k: Aliases, kt: Aliases)
      modifies this, issues
      ensures Progress(Snapshot(), k, kt) == Settle(Progress(old(Snapshot()), known, knownTournaments), before, name, g, at)
    {
      ghost var x := Progress(Snapshot(), known, knownTournaments);
      var ids := PriorIds(before, name, known, g.canonical, g.members);
      if |ids| > 1 {
        Withhold(g.members, at);
        return known, knownTournaments;
      }
      var c;
      c, k, kt := Adopt(known, knownTournaments, g, ids);
      JoinMembers(before, g.members, c, g.reason, at);
    }

    method Adopt(known: Aliases, knownTournaments: Aliases, g: Group, ids: seq<CanonId>) returns (c: CanonId, k: Aliases, kt: Aliases)
      modifies this`aliases, this`tournaments, this`canonicals, this`nextCanonical
      ensures c == Identity(Progress(old(Snapshot()), known, knownTournaments), ids)
      ensures Snapshot() == Adopted(Progress(old(Snapshot()), known, knownTournaments), g, ids)
      ensures k == Learn(old(aliases), known, g.canonical.esport, g.aliases).1
      ensures kt == Learn(old(tournaments), knownTournaments, g.canonical.esport, g.tournaments).1
    {
      c := if ids == [] then nextCanonical else ids[0];
      aliases, k := LearnNames(aliases, known, g.canonical.esport, g.aliases);
      tournaments, kt := LearnNames(tournaments, knownTournaments, g.canonical.esport, g.tournaments);
      canonicals := canonicals[c := g.canonical.(esport := if c in canonicals then canonicals[c].esport else g.canonical.esport)];
      if ids == [] { nextCanonical := c + 1; }
    }

    method Withhold(members: seq<RowId>, at: int)
      modifies issues
      ensures Snapshot() == Conflict(old(Snapshot()), members, at)
    {
      for i := 0 to |members|
        invariant Snapshot() == Conflict(old(Snapshot()), members[..i], at)
      {
        assert members[..i + 1][..i] == members[..i];
        issues.OpenIssue(ConflictKey(members[i]), "event", at);
      }
      assert members[..|members|] == members;
    }

    method JoinMembers(before: Db, members: seq<RowId>, c: CanonId, reason: string, at: int)
      modifies this`matches, this`decisions, issues
      ensures Snapshot() == JoinAll(old(Snapshot()), before, members, c, reason, at)
    {
      for i := 0 to |members|
        invariant Snapshot() == JoinAll(old(Snapshot()), before, members[..i], c, reason, at)
      {
        assert members[..i + 1][..i] == members[..i];
        JoinMember(before, members[i], c, reason, at);
      }
      assert members[..|members|] == members;
    }

    method JoinMember(before: Db, id: RowId, c: CanonId, reason: string, at: int)
      modifies this`matches, this`decisions, issues
      ensures Snapshot() == Join(old(Snapshot()), before, id, c, reason, at)
    {
      if id in before.matches && before.matches[id].status.Manual? { return; }
      if id !in before.matches || before.matches[id].canonical != Some(c) || before.matches[id].status != Matched {
        decisions := decisions + [Decision(id, Some(c), Matched, reason, at)];
      }
      matches := matches[id := MatchRow(Some(c), Matched, reason)];
      issues.Move(UnmatchedKey(id), Resolved, at);
    }

    method PartEvent(before: Db, id: RowId, reason: string, at: int)
      modifies this`matches, this`decisions, issues
      ensures Snapshot() == Part(old(Snapshot()), before, id, reason, at)
    {
      if id !in before.rows || (id in before.matches && before.matches[id].status.Manual?) { return; }
      if id !in before.matches || before.matches[id].status != Unmatched || before.matches[id].reason != reason {
        decisions := decisions + [Decision(id, None, Unmatched, reason, at)];
      }
      matches := matches[id := MatchRow(None, Unmatched, reason)];
      issues.OpenIssue(UnmatchedKey(id), reason, at);
    }
  }

  lemma {:induction false} DismissLearnsNothing(db: Db, before: Db, ids: seq<RowId>, at: int)
    ensures var t := DismissAll(db, before, ids, at); t.aliases == db.aliases && t.tournaments == db.tournaments
  {
    if ids != [] { DismissLearnsNothing(db, before, ids[..|ids| - 1], at); }
  }

  lemma {:induction false} LearnsNothing(before: Db, r: Outcome, at: int)
    ensures var x := Dismissed(before, r, at); x.db.aliases == x.known && x.db.tournaments == x.knownTournaments
  {
    DismissLearnsNothing(before, before, r.notApplicable, at);
  }
}
