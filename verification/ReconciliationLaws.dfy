/** What every reconciliation keeps, and what it stores. */
module ReconciliationLaws {
  import opened Domain
  import opened DataIssues
  import opened Reconciliation

  // --- Invariant -------------------------------------------------------------

  function LastDecision(ds: seq<Decision>, id: RowId): Option<Decision> {
    if ds == [] then None
    else if ds[|ds| - 1].row == id then Some(ds[|ds| - 1])
    else LastDecision(ds[..|ds| - 1], id)
  }

  ghost predicate IsOpen(db: Db, key: string) { key in db.issues && db.issues[key].status.Open? }

  /** An open unmatched-issue means the row is unmatched. */
  ghost predicate IssueOk(db: Db, id: RowId) {
    IsOpen(db, UnmatchedKey(id)) ==> id in db.matches && db.matches[id].status.Unmatched?
  }

  /** An unmatched row has its issue, open or ignored; the last decision recorded for a
      non-manual row agrees with it; canonical references are to stored events. */
  ghost predicate MatchOk(db: Db, id: RowId)
    requires id in db.matches
  {
    var row, d := db.matches[id], LastDecision(db.decisions, id);
    && id in db.rows
    && (row.status.Unmatched? ==> row.canonical.None? && UnmatchedKey(id) in db.issues && !db.issues[UnmatchedKey(id)].status.Resolved?)
    && (!row.status.Manual? ==> d.Some? && d.value.status == row.status && d.value.canonical == row.canonical)
    && (row.canonical.Some? ==> row.canonical.value in db.canonicals)
  }

  ghost predicate RowOk(db: Db, id: RowId) {
    IssueOk(db, id) && (id in db.matches ==> MatchOk(db, id))
  }

  ghost predicate TablesOk(db: Db) {
    && (forall c :: c in db.canonicals ==> c < db.nextCanonical)
    && (forall k :: k in db.issues ==> Coherent(db.issues[k]))
    && forall d :: d in db.decisions && d.canonical.Some? ==> d.canonical.value in db.canonicals
  }

  ghost predicate Inv(db: Db) {
    TablesOk(db) && forall id :: RowOk(db, id)
  }

  // --- Keys ------------------------------------------------------------------

  lemma {:induction false} KeysDiffer(a: RowId, b: RowId)
    ensures UnmatchedKey(a) == UnmatchedKey(b) ==> a == b
    ensures UnmatchedKey(a) != ConflictKey(b)
  {
    if UnmatchedKey(a) == UnmatchedKey(b) {
      assert UnmatchedKey(a)[10..] == a && UnmatchedKey(b)[10..] == b;
    }
    assert UnmatchedKey(a)[0] == 'u' && ConflictKey(b)[0] == 'c';
  }

  // --- One row at a time -----------------------------------------------------

  /** t differs from s only in what it holds about the one row. */
  ghost predicate OnlyTouches(s: Db, t: Db, id: RowId) {
    && t.rows == s.rows && t.nextCanonical == s.nextCanonical && t.canonicals == s.canonicals
    && t.aliases == s.aliases && t.tournaments == s.tournaments
    && forall j :: j != id ==>
         && Lookup(t.matches, j) == Lookup(s.matches, j)
         && Lookup(t.issues, UnmatchedKey(j)) == Lookup(s.issues, UnmatchedKey(j))
         && LastDecision(t.decisions, j) == LastDecision(s.decisions, j)
  }

  lemma {:induction false} OthersOk(s: Db, t: Db, id: RowId, j: RowId)
    requires OnlyTouches(s, t, id) && j != id && RowOk(s, j)
    ensures RowOk(t, j)
  {
    assert Lookup(t.matches, j) == Lookup(s.matches, j);
    assert Lookup(t.issues, UnmatchedKey(j)) == Lookup(s.issues, UnmatchedKey(j));
  }

  lemma {:induction false} TouchInv(s: Db, t: Db, id: RowId)
    requires Inv(s) && OnlyTouches(s, t, id) && TablesOk(t) && RowOk(t, id)
    ensures Inv(t)
  {
    forall j ensures RowOk(t, j) {
      if j != id { OthersOk(s, t, id, j); }
    }
  }

  lemma {:induction false} DecisionPushed(ds: seq<Decision>, d: Decision, id: RowId)
    ensures LastDecision(ds + [d], id) == if d.row == id then Some(d) else LastDecision(ds, id)
  {
    assert (ds + [d])[..|ds|] == ds;
  }

  /** Writing a row, perhaps a decision about it, and its unmatched-issue. */
  function Written(db: Db, id: RowId, row: MatchRow, log: bool, at: int): Db {
    db.(decisions := if log then db.decisions + [Decision(id, row.canonical, row.status, row.reason, at)] else db.decisions,
        matches := db.matches[id := row])
  }

  lemma {:induction false} WrittenTouches(db: Db, id: RowId, row: MatchRow, log: bool, at: int)
    ensures OnlyTouches(db, Written(db, id, row, log, at), id)
  {
    forall j | j != id ensures LastDecision(Written(db, id, row, log, at).decisions, j) == LastDecision(db.decisions, j) {
      DecisionPushed(db.decisions, Decision(id, row.canonical, row.status, row.reason, at), j);
    }
  }

  lemma {:induction false} IssueTouches(db: Db, id: RowId, i: Issue)
    ensures OnlyTouches(db, db.(issues := db.issues[UnmatchedKey(id) := i]), id)
  {
    forall j | j != id ensures UnmatchedKey(j) != UnmatchedKey(id) { KeysDiffer(j, id); }
  }

  lemma {:induction false} TouchesTwice(s: Db, t: Db, u: Db, id: RowId)
    requires OnlyTouches(s, t, id) && OnlyTouches(t, u, id)
    ensures OnlyTouches(s, u, id)
  {
  }

  lemma {:induction false} DecisionsOk(ds: seq<Decision>, d: Decision, canonicals: map<CanonId, Canonical>)
    requires forall x :: x in ds && x.canonical.Some? ==> x.canonical.value in canonicals
    requires d.canonical.Some? ==> d.canonical.value in canonicals
    ensures forall x :: x in ds + [d] && x.canonical.Some? ==> x.canonical.value in canonicals
  {
  }

  ghost predicate Untouched(db: Db, before: Db, id: RowId) {
    Lookup(db.matches, id) == Lookup(before.matches, id) && db.rows == before.rows
  }

  lemma {:induction false} MovedInv(db: Db, id: RowId, at: int)
    requires TablesOk(db)
    ensures var t := WithIssueMoved(db, UnmatchedKey(id), Resolved, at);
            TablesOk(t) && OnlyTouches(db, t, id) && !IsOpen(t, UnmatchedKey(id))
  {
    var key := UnmatchedKey(id);
    MovedCoherent(Lookup(db.issues, key), Resolved, at);
    if key in db.issues { IssueTouches(db, id, Moved(Lookup(db.issues, key), Resolved, at).value); }
  }

  lemma {:induction false} OpenInv(db: Db, id: RowId, details: string, at: int)
    requires TablesOk(db)
    ensures var t := WithIssueOpen(db, UnmatchedKey(id), details, at);
            TablesOk(t) && OnlyTouches(db, t, id) && UnmatchedKey(id) in t.issues && !t.issues[UnmatchedKey(id)].status.Resolved?
  {
    OpenedCoherent(Lookup(db.issues, UnmatchedKey(id)), details, at);
    IssueTouches(db, id, Opened(Lookup(db.issues, UnmatchedKey(id)), details, at));
  }

  lemma {:induction false} DropTouches(db: Db, id: RowId)
    ensures OnlyTouches(db, db.(matches := db.matches - {id}), id)
  {
  }

  lemma {:induction false} DismissTouches(db: Db, before: Db, id: RowId, at: int)
    requires TablesOk(db)
    ensures var t := Dismiss(db, before, id, at);
            && TablesOk(t) && OnlyTouches(db, t, id)
            && (IsManual(before, id) || id !in before.rows ==> t == db)
            && (!IsManual(before, id) && id in before.rows ==> !IsOpen(t, UnmatchedKey(id)))
  {
    if id in before.rows && !IsManual(before, id) {
      MovedInv(db, id, at);
      var t := WithIssueMoved(db, UnmatchedKey(id), Resolved, at);
      DropTouches(t, id);
      TouchesTwice(db, t, t.(matches := t.matches - {id}), id);
    }
  }

  lemma {:induction false} DismissRow(db: Db, before: Db, id: RowId, at: int)
    requires RowOk(db, id) && Untouched(db, before, id) && TablesOk(db) && id in before.rows && !IsManual(before, id)
    ensures RowOk(Dismiss(db, before, id, at), id)
  {
    DismissTouches(db, before, id, at);
    var t := Dismiss(db, before, id, at);
    assert t.decisions == db.decisions && t.canonicals == db.canonicals;
  }

  lemma {:induction false} DismissInv(db: Db, before: Db, id: RowId, at: int)
    requires Inv(db) && Untouched(db, before, id)
    ensures Inv(Dismiss(db, before, id, at)) && OnlyTouches(db, Dismiss(db, before, id, at), id)
    ensures IsManual(before, id) ==> Dismiss(db, before, id, at) == db
  {
    DismissTouches(db, before, id, at);
    if id in before.rows && !IsManual(before, id) {
      DismissRow(db, before, id, at);
      TouchInv(db, Dismiss(db, before, id, at), id);
    }
  }

  lemma {:induction false} JoinInv(db: Db, before: Db, id: RowId, c: CanonId, reason: string, at: int)
    requires Inv(db) && Untouched(db, before, id) && c in db.canonicals && id in db.rows
    ensures Inv(Join(db, before, id, c, reason, at)) && OnlyTouches(db, Join(db, before, id, c, reason, at), id)
    ensures Lookup(Join(db, before, id, c, reason, at).matches, id)
         == if IsManual(before, id) then Lookup(db.matches, id) else Some(MatchRow(Some(c), Matched, reason))
  {
    if !IsManual(before, id) {
      var row := MatchRow(Some(c), Matched, reason);
      var prior := Lookup(before.matches, id);
      var log := prior.None? || prior.value.canonical != Some(c) || !prior.value.status.Matched?;
      var t := Written(db, id, row, log, at);
      var d := Decision(id, Some(c), Matched, reason, at);
      DecisionsOk(db.decisions, d, db.canonicals);
      DecisionPushed(db.decisions, d, id);
      WrittenTouches(db, id, row, log, at);
      MovedInv(t, id, at);
      var u := WithIssueMoved(t, UnmatchedKey(id), Resolved, at);
      assert u == Join(db, before, id, c, reason, at);
      TouchesTwice(db, t, u, id);
      assert RowOk(db, id);
      TouchInv(db, u, id);
    }
  }

  lemma {:induction false} PartInv(db: Db, before: Db, id: RowId, reason: string, at: int)
    requires Inv(db) && Untouched(db, before, id)
    ensures Inv(Part(db, before, id, reason, at)) && OnlyTouches(db, Part(db, before, id, reason, at), id)
    ensures Lookup(Part(db, before, id, reason, at).matches, id)
         == if id !in before.rows || IsManual(before, id) then Lookup(db.matches, id) else Some(MatchRow(None, Unmatched, reason))
  {
    if id in before.rows && !IsManual(before, id) {
      var row := MatchRow(None, Unmatched, reason);
      var prior := Lookup(before.matches, id);
      var log := prior.None? || !prior.value.status.Unmatched? || prior.value.reason != reason;
      var t := Written(db, id, row, log, at);
      var d := Decision(id, None, Unmatched, reason, at);
      DecisionsOk(db.decisions, d, db.canonicals);
      DecisionPushed(db.decisions, d, id);
      WrittenTouches(db, id, row, log, at);
      OpenInv(t, id, reason, at);
      var u := WithIssueOpen(t, UnmatchedKey(id), reason, at);
      assert u == Part(db, before, id, reason, at);
      TouchesTwice(db, t, u, id);
      assert RowOk(db, id);
      TouchInv(db, u, id);
    }
  }

  // --- Whole lists -----------------------------------------------------------

  predicate Distinct(ids: seq<RowId>) {
    forall i, j :: 0 <= i < j < |ids| ==> ids[i] != ids[j]
  }

  function Members(gs: seq<Group>): seq<RowId> {
    if gs == [] then [] else Members(gs[..|gs| - 1]) + gs[|gs| - 1].members
  }

  function Rows(us: seq<(RowId, string)>): seq<RowId> {
    if us == [] then [] else Rows(us[..|us| - 1]) + [us[|us| - 1].0]
  }

  /** Every event appears once in a matching result. */
  predicate Once(r: Outcome) { Distinct(r.notApplicable + Members(r.matched) + Rows(r.unmatched)) }

  /** The rows of matched members exist. */
  predicate MembersKnown(db: Db, r: Outcome) { forall id :: id in Members(r.matched) ==> id in db.rows }

  /** t comes from s by work on the listed rows only: manual rows, stored aliases and
      canonical identities are never lost or changed. */
  ghost predicate Reworks(s: Db, t: Db, ids: seq<RowId>) {
    && t.rows == s.rows
    && (forall j :: j !in ids || IsManual(s, j) ==> Lookup(t.matches, j) == Lookup(s.matches, j))
    && (forall k :: k in s.aliases ==> k in t.aliases && t.aliases[k] == s.aliases[k])
    && (forall k :: k in s.tournaments ==> k in t.tournaments && t.tournaments[k] == s.tournaments[k])
    && (forall c :: c in s.canonicals ==> c in t.canonicals)
    && s.nextCanonical <= t.nextCanonical
  }

  lemma {:induction false} ReworksThen(s: Db, t: Db, u: Db, a: seq<RowId>, b: seq<RowId>)
    requires Reworks(s, t, a) && Reworks(t, u, b)
    ensures Reworks(s, u, a + b)
  {
    forall j | j !in a + b || IsManual(s, j) ensures Lookup(u.matches, j) == Lookup(s.matches, j) {
      assert Lookup(t.matches, j) == Lookup(s.matches, j) by { assert j in a ==> j in a + b; }
      assert j in b ==> j in a + b;
    }
  }

  lemma {:induction false} TouchReworks(s: Db, t: Db, id: RowId)
    requires OnlyTouches(s, t, id) && (IsManual(s, id) ==> Lookup(t.matches, id) == Lookup(s.matches, id))
    ensures Reworks(s, t, [id])
  {
  }

  lemma {:induction false} FrontDistinct(ids: seq<RowId>)
    requires Distinct(ids) && ids != []
    ensures Distinct(ids[..|ids| - 1]) && ids[|ids| - 1] !in ids[..|ids| - 1]
  {
  }

  /** Up to now `before` and db agree on rows that are not listed. */
  lemma {:induction false} StillUntouched(before: Db, s: Db, t: Db, ids: seq<RowId>, id: RowId)
    requires Untouched(s, before, id) && Reworks(s, t, ids) && id !in ids
    ensures Untouched(t, before, id)
  {
  }

  lemma {:induction false} DismissAllInv(before: Db, ids: seq<RowId>, at: int)
    requires Inv(before) && Distinct(ids)
    ensures Inv(DismissAll(before, before, ids, at)) && Reworks(before, DismissAll(before, before, ids, at), ids)
  {
    if ids != [] {
      var n := |ids| - 1;
      FrontDistinct(ids);
      DismissAllInv(before, ids[..n], at);
      var t := DismissAll(before, before, ids[..n], at);
      StillUntouched(before, before, t, ids[..n], ids[n]);
      DismissInv(t, before, ids[n], at);
      TouchReworks(t, Dismiss(t, before, ids[n], at), ids[n]);
      ReworksThen(before, t, Dismiss(t, before, ids[n], at), ids[..n], [ids[n]]);
      assert ids[..n] + [ids[n]] == ids;
    }
  }

  lemma {:induction false} PartAllInv(s: Db, before: Db, us: seq<(RowId, string)>, at: int)
    requires Inv(s) && Distinct(Rows(us)) && forall id :: id in Rows(us) ==> Untouched(s, before, id)
    ensures Inv(PartAll(s, before, us, at)) && Reworks(s, PartAll(s, before, us, at), Rows(us))
    ensures forall u :: u in us ==>
              Lookup(PartAll(s, before, us, at).matches, u.0)
              == (if u.0 !in before.rows || IsManual(before, u.0) then Lookup(before.matches, u.0) else Some(MatchRow(None, Unmatched, u.1)))
  {
    if us != [] {
      var n := |us| - 1;
      var front, id := Rows(us[..n]), us[n].0;
      assert Rows(us) == front + [id];
      assert Rows(us)[..|front|] == front;
      assert us == us[..n] + [us[n]];
      FrontDistinct(Rows(us));
      PartAllInv(s, before, us[..n], at);
      var t := PartAll(s, before, us[..n], at);
      StillUntouched(before, s, t, front, id);
      PartInv(t, before, id, us[n].1, at);
      var u := Part(t, before, id, us[n].1, at);
      TouchReworks(t, u, id);
      ReworksThen(s, t, u, front, [id]);
      forall x | x in us[..n] ensures x.0 in front { RowsHas(us[..n], x); }
    }
  }

  lemma {:induction false} RowsHas(us: seq<(RowId, string)>, u: (RowId, string))
    requires u in us
    ensures u.0 in Rows(us)
  {
    var n := |us| - 1;
    assert us == us[..n] + [us[n]];
    if u in us[..n] { RowsHas(us[..n], u); }
  }

  lemma {:induction false} JoinAllInv(s: Db, before: Db, members: seq<RowId>, c: CanonId, reason: string, at: int)
    requires Inv(s) && Distinct(members) && c in s.canonicals
    requires forall id :: id in members ==> Untouched(s, before, id) && id in s.rows
    ensures var t := JoinAll(s, before, members, c, reason, at);
            && Inv(t) && Reworks(s, t, members) && t.aliases == s.aliases && t.tournaments == s.tournaments
            && forall id :: id in members ==>
                 Lookup(t.matches, id) == if IsManual(before, id) then Lookup(before.matches, id) else Some(MatchRow(Some(c), Matched, reason))
  {
    if members != [] {
      var n := |members| - 1;
      var front, id := members[..n], members[n];
      assert members == front + [id];
      FrontDistinct(members);
      JoinAllInv(s, before, front, c, reason, at);
      var t := JoinAll(s, before, front, c, reason, at);
      StillUntouched(before, s, t, front, id);
      JoinInv(t, before, id, c, reason, at);
      var u := Join(t, before, id, c, reason, at);
      TouchReworks(t, u, id);
      ReworksThen(s, t, u, front, [id]);
    }
  }

  lemma {:induction false} ConflictInv(db: Db, members: seq<RowId>, at: int)
    requires Inv(db)
    ensures var t := Conflict(db, members, at);
            && Inv(t) && Reworks(db, t, []) && t.matches == db.matches && t.aliases == db.aliases && t.tournaments == db.tournaments
            && forall id :: id in members ==> ConflictKey(id) in t.issues && !t.issues[ConflictKey(id)].status.Resolved?
  {
    if members != [] {
      var n := |members| - 1;
      ConflictInv(db, members[..n], at);
      var t, id := Conflict(db, members[..n], at), members[n];
      assert members == members[..n] + [id];
      OpenedCoherent(Lookup(t.issues, ConflictKey(id)), "event", at);
      var u := WithIssueOpen(t, ConflictKey(id), "event", at);
      forall j ensures RowOk(u, j) {
        KeysDiffer(j, id);
        assert RowOk(t, j);
      }
    }
  }

  lemma {:induction false} LearnKeeps(stored: Aliases, known: Aliases, e: Esport, ls: seq<Learned>)
    ensures forall k :: k in stored ==> k in Learn(stored, known, e, ls).0 && Learn(stored, known, e, ls).0[k] == stored[k]
  {
    if ls != [] { LearnKeeps(stored, known, e, ls[..|ls| - 1]); }
  }

  /** Updating canonical data and aliases disturbs no row. */
  lemma {:induction false} CanonicalInv(db: Db, aliases: Aliases, tournaments: Aliases, c: CanonId, data: Canonical, next: CanonId)
    requires Inv(db) && c < next && db.nextCanonical <= next
    ensures Inv(db.(aliases := aliases, tournaments := tournaments, canonicals := db.canonicals[c := data], nextCanonical := next))
  {
    var t := db.(aliases := aliases, tournaments := tournaments, canonicals := db.canonicals[c := data], nextCanonical := next);
    forall id ensures RowOk(t, id) { assert RowOk(db, id); }
  }

  // --- Earlier identities ----------------------------------------------------

  /** The i-th decision is the row's latest that names a canonical event; of equally late
      ones it is the one recorded last. */
  ghost predicate LastNaming(ds: seq<Decision>, id: RowId, i: int) {
    && 0 <= i < |ds| && ds[i].row == id && ds[i].canonical.Some?
    && forall j :: 0 <= j < |ds| && ds[j].row == id && ds[j].canonical.Some? ==> ds[j].at < ds[i].at || (ds[j].at == ds[i].at && j <= i)
  }

  /** Two canonical events are of one fixture: one esport, the same two teams under the
      names known, starts at most five minutes apart. */
  predicate SameFixture(name: Naming, known: Aliases, a: Canonical, b: Canonical) {
    && a.esport == b.esport && -300_000 <= a.startsAt - b.startsAt <= 300_000
    && multiset{name(known, b.esport, a.teamA), name(known, b.esport, a.teamB)}
       == multiset{name(known, b.esport, b.teamA), name(known, b.esport, b.teamB)}
  }

  /** The row had the identity c before: its match says so, or, where its match names none,
      its latest naming decision does and c is still of the same fixture. */
  ghost predicate Had(before: Db, name: Naming, known: Aliases, data: Canonical, id: RowId, c: CanonId) {
    var row := if id in before.matches then before.matches[id].canonical else None;
    || row == Some(c)
    || (row.None? && c in before.canonicals && SameFixture(name, known, before.canonicals[c], data)
        && exists i :: LastNaming(before.decisions, id, i) && before.decisions[i].canonical == Some(c))
  }

  lemma {:induction false} HistoricMeans(ds: seq<Decision>, id: RowId, i: nat)
    requires i < |ds|
    ensures LastNaming(ds, id, i) ==> Historic(ds, id) == Some(ds[i])
  {
    if LastNaming(ds, id, i) {
      var n := |ds| - 1;
      if i < n {
        assert LastNaming(ds[..n], id, i);
        HistoricMeans(ds[..n], id, i);
      } else {
        HistoricAmong(ds[..n], id);
      }
    }
  }

  /** Some decision is the row's latest naming one, unless there is none at all. */
  lemma {:induction false} HistoricAmong(ds: seq<Decision>, id: RowId)
    ensures Historic(ds, id).None? ==> forall j :: 0 <= j < |ds| ==> ds[j].row != id || ds[j].canonical.None?
    ensures Historic(ds, id).Some? ==> exists i :: LastNaming(ds, id, i) && Historic(ds, id) == Some(ds[i])
  {
    if ds != [] {
      var n := |ds| - 1;
      HistoricAmong(ds[..n], id);
      if Historic(ds[..n], id).Some? {
        var i :| LastNaming(ds[..n], id, i) && Historic(ds[..n], id) == Some(ds[..n][i]);
        if Historic(ds, id) == Historic(ds[..n], id) && !(ds[n].row == id && ds[n].canonical.Some? && ds[i].at <= ds[n].at) {
          assert LastNaming(ds, id, i);
        } else {
          assert LastNaming(ds, id, n);
        }
      } else if Historic(ds, id).Some? {
        assert LastNaming(ds, id, n);
      }
    }
  }

  lemma {:induction false} HadIff(before: Db, name: Naming, known: Aliases, data: Canonical, id: RowId, c: CanonId)
    ensures PriorId(before, name, known, data, id) == Some(c) <==> Had(before, name, known, data, id, c)
  {
    HistoricAmong(before.decisions, id);
    forall i | LastNaming(before.decisions, id, i) ensures Historic(before.decisions, id) == Some(before.decisions[i]) {
      HistoricMeans(before.decisions, id, i);
    }
  }

  /** Two members had different identities. */
  ghost predicate Divided(x: Progress, before: Db, name: Naming, g: Group) {
    exists i, j, a, b :: i in g.members && j in g.members && a != b
      && Had(before, name, x.known, g.canonical, i, a) && Had(before, name, x.known, g.canonical, j, b)
  }

  /** The identity of a group that is not divided: the one some member had, or, where none
      had any, the next new one. */
  ghost predicate Chosen(x: Progress, before: Db, name: Naming, g: Group, c: CanonId) {
    || (exists id :: id in g.members && Had(before, name, x.known, g.canonical, id, c))
    || (c == x.db.nextCanonical && forall id, d :: id in g.members ==> !Had(before, name, x.known, g.canonical, id, d))
  }

  lemma {:induction false} PriorIdIs(before: Db, name: Naming, known: Aliases, g: Group, id: RowId, c: CanonId)
    requires id in g.members && Had(before, name, known, g.canonical, id, c)
    ensures c in PriorIds(before, name, known, g.canonical, g.members)
  {
    HadIff(before, name, known, g.canonical, id, c);
  }

  lemma {:induction false} PriorIdHad(before: Db, name: Naming, known: Aliases, g: Group, c: CanonId) returns (id: RowId)
    requires c in PriorIds(before, name, known, g.canonical, g.members)
    ensures id in g.members && Had(before, name, known, g.canonical, id, c)
  {
    id :| id in g.members && PriorId(before, name, known, g.canonical, id) == Some(c);
    HadIff(before, name, known, g.canonical, id, c);
  }

  lemma {:induction false} DividedHas(x: Progress, before: Db, name: Naming, g: Group, i: RowId, a: CanonId, j: RowId, b: CanonId)
    requires i in g.members && j in g.members && a != b
    requires Had(before, name, x.known, g.canonical, i, a) && Had(before, name, x.known, g.canonical, j, b)
    ensures |PriorIds(before, name, x.known, g.canonical, g.members)| > 1
  {
    PriorIdIs(before, name, x.known, g, i, a);
    PriorIdIs(before, name, x.known, g, j, b);
  }

  lemma {:induction false} DividedIff(x: Progress, before: Db, name: Naming, g: Group)
    ensures |PriorIds(before, name, x.known, g.canonical, g.members)| > 1 <==> Divided(x, before, name, g)
  {
    var ids := PriorIds(before, name, x.known, g.canonical, g.members);
    if |ids| > 1 {
      var i := PriorIdHad(before, name, x.known, g, ids[0]);
      var j := PriorIdHad(before, name, x.known, g, ids[1]);
    } else {
      forall i, j, a, b | i in g.members && j in g.members && a != b && Had(before, name, x.known, g.canonical, i, a)
        ensures !Had(before, name, x.known, g.canonical, j, b)
      {
        if Had(before, name, x.known, g.canonical, j, b) { DividedHas(x, before, name, g, i, a, j, b); }
      }
    }
  }

  lemma {:induction false} IdentityChosen(x: Progress, before: Db, name: Naming, g: Group, ids: seq<CanonId>)
    requires ids == PriorIds(before, name, x.known, g.canonical, g.members) && |ids| <= 1
    ensures Chosen(x, before, name, g, Identity(x, ids))
  {
    if ids == [] {
      forall id, d | id in g.members ensures !Had(before, name, x.known, g.canonical, id, d) {
        if Had(before, name, x.known, g.canonical, id, d) { PriorIdIs(before, name, x.known, g, id, d); }
      }
    } else {
      var id := PriorIdHad(before, name, x.known, g, ids[0]);
    }
  }

  /** The group's rows are matched under c; rows set by hand stay as they were. */
  ghost predicate JoinedAt(t: Db, before: Db, g: Group, c: CanonId) {
    c in t.canonicals && forall id :: id in g.members ==>
      Lookup(t.matches, id) == if IsManual(before, id) then Lookup(before.matches, id) else Some(MatchRow(Some(c), Matched, g.reason))
  }

  ghost predicate Withheld(t: Db, before: Db, g: Group) {
    forall id :: id in g.members ==>
      Lookup(t.matches, id) == Lookup(before.matches, id) && ConflictKey(id) in t.issues && !t.issues[ConflictKey(id)].status.Resolved?
  }

  lemma {:induction false} PriorStored(before: Db, name: Naming, known: Aliases, g: Group, c: CanonId)
    requires Inv(before) && c in PriorIds(before, name, known, g.canonical, g.members)
    ensures c in before.canonicals
  {
    var m :| m in g.members && PriorId(before, name, known, g.canonical, m) == Some(c);
    assert RowOk(before, m);
  }

  lemma {:induction false} AdoptedInv(x: Progress, before: Db, g: Group, ids: seq<CanonId>)
    requires Inv(x.db) && forall c :: c in ids ==> c in x.db.canonicals
    ensures var t := Adopted(x, g, ids);
            && Inv(t) && Reworks(x.db, t, []) && t.matches == x.db.matches && t.rows == x.db.rows && Identity(x, ids) in t.canonicals
  {
    var c, e := Identity(x, ids), g.canonical.esport;
    LearnKeeps(x.db.aliases, x.known, e, g.aliases);
    LearnKeeps(x.db.tournaments, x.knownTournaments, e, g.tournaments);
    var t := Adopted(x, g, ids);
    CanonicalInv(x.db, t.aliases, t.tournaments, c, t.canonicals[c], t.nextCanonical);
  }

  /** Decided when the group's turn comes: if its members had different identities the
      merge is withheld, and otherwise they share the one they had, or a new one. */
  ghost predicate Settled(x: Progress, t: Db, before: Db, name: Naming, g: Group) {
    if Divided(x, before, name, g) then Withheld(t, before, g)
    else exists c :: Chosen(x, before, name, g, c) && JoinedAt(t, before, g, c)
  }

  lemma {:induction false} SettleInv(x: Progress, before: Db, name: Naming, g: Group, at: int)
    requires Inv(before) && Inv(x.db) && Distinct(g.members)
    requires forall c :: c in before.canonicals ==> c in x.db.canonicals
    requires forall id :: id in g.members ==> Untouched(x.db, before, id) && id in x.db.rows
    ensures var t := Settle(x, before, name, g, at).db;
            Inv(t) && Reworks(x.db, t, g.members) && Settled(x, t, before, name, g)
  {
    var ids := PriorIds(before, name, x.known, g.canonical, g.members);
    DividedIff(x, before, name, g);
    if |ids| > 1 {
      ConflictInv(x.db, g.members, at);
      ReworksMore(x.db, Conflict(x.db, g.members, at), g.members);
    } else {
      forall c | c in ids ensures c in x.db.canonicals { PriorStored(before, name, x.known, g, c); }
      AdoptedInv(x, before, g, ids);
      var db := Adopted(x, g, ids);
      JoinAllInv(db, before, g.members, Identity(x, ids), g.reason, at);
      var t := JoinAll(db, before, g.members, Identity(x, ids), g.reason, at);
      ReworksThen(x.db, db, t, [], g.members);
      assert [] + g.members == g.members;
      IdentityChosen(x, before, name, g, ids);
      assert JoinedAt(t, before, g, Identity(x, ids));
    }
  }

  lemma {:induction false} ReworksMore(s: Db, t: Db, ids: seq<RowId>)
    requires Reworks(s, t, [])
    ensures Reworks(s, t, ids)
  {
  }

  lemma {:induction false} MembersSplit(gs: seq<Group>)
    requires gs != [] && Distinct(Members(gs))
    ensures var n := |gs| - 1;
            && Distinct(Members(gs[..n])) && Distinct(gs[n].members)
            && forall id :: id in gs[n].members ==> id !in Members(gs[..n])
  {
    var front, last := Members(gs[..|gs| - 1]), gs[|gs| - 1].members;
    assert Members(gs) == front + last;
    assert forall i :: 0 <= i < |front| ==> Members(gs)[i] == front[i];
    assert forall i :: 0 <= i < |last| ==> Members(gs)[|front| + i] == last[i];
  }

  lemma {:induction false} SettleAllInv(x: Progress, before: Db, name: Naming, gs: seq<Group>, at: int)
    requires Inv(before) && Inv(x.db) && Distinct(Members(gs))
    requires forall c :: c in before.canonicals ==> c in x.db.canonicals
    requires forall id :: id in Members(gs) ==> Untouched(x.db, before, id) && id in x.db.rows
    ensures var t := SettleAll(x, before, name, gs, at).db; Inv(t) && Reworks(x.db, t, Members(gs))
  {
    if gs != [] {
      var n := |gs| - 1;
      MembersSplit(gs);
      assert Members(gs) == Members(gs[..n]) + gs[n].members;
      SettleAllInv(x, before, name, gs[..n], at);
      var y := SettleAll(x, before, name, gs[..n], at);
      forall id | id in gs[n].members ensures Untouched(y.db, before, id) && id in y.db.rows {
        StillUntouched(before, x.db, y.db, Members(gs[..n]), id);
      }
      SettleInv(y, before, name, gs[n], at);
      ReworksThen(x.db, y.db, Settle(y, before, name, gs[n], at).db, Members(gs[..n]), gs[n].members);
    }
  }

  lemma {:induction false} OnceParts(r: Outcome)
    requires Once(r)
    ensures Distinct(r.notApplicable) && Distinct(Members(r.matched)) && Distinct(Rows(r.unmatched))
    ensures forall id :: id in Members(r.matched) ==> id !in r.notApplicable
    ensures forall id :: id in Rows(r.unmatched) ==> id !in r.notApplicable && id !in Members(r.matched)
  {
    var a, b, c := r.notApplicable, Members(r.matched), Rows(r.unmatched);
    var all := a + b + c;
    assert forall i :: 0 <= i < |a| ==> all[i] == a[i];
    assert forall i :: 0 <= i < |b| ==> all[|a| + i] == b[i];
    assert forall i :: 0 <= i < |c| ==> all[|a| + |b| + i] == c[i];
  }

  function Touched(r: Outcome): seq<RowId> { r.notApplicable + Members(r.matched) + Rows(r.unmatched) }

  /** The stages before the unmatched events are stored. */
  lemma {:induction false} StagesInv(before: Db, name: Naming, r: Outcome, at: int)
    requires Inv(before) && Once(r) && MembersKnown(before, r)
    ensures var x, y := Dismissed(before, r, at), SettleAll(Dismissed(before, r, at), before, name, r.matched, at);
            && Inv(x.db) && Inv(y.db) && Reworks(before, x.db, r.notApplicable) && Reworks(before, y.db, r.notApplicable + Members(r.matched))
            && (forall id :: id in Members(r.matched) ==> Untouched(x.db, before, id) && id in x.db.rows)
            && (forall id :: id in Rows(r.unmatched) ==> Untouched(y.db, before, id))
  {
    OnceParts(r);
    DismissAllInv(before, r.notApplicable, at);
    var x := Dismissed(before, r, at);
    forall id | id in Members(r.matched) ensures Untouched(x.db, before, id) && id in x.db.rows {
      StillUntouched(before, before, x.db, r.notApplicable, id);
    }
    SettleAllInv(x, before, name, r.matched, at);
    var y := SettleAll(x, before, name, r.matched, at);
    ReworksThen(before, x.db, y.db, r.notApplicable, Members(r.matched));
    forall id | id in Rows(r.unmatched) ensures Untouched(y.db, before, id) {
      StillUntouched(before, before, y.db, r.notApplicable + Members(r.matched), id);
    }
  }

  /** Every reconciliation keeps the invariant: open unmatched-issues belong to
      unmatched rows, unmatched rows have an open or ignored issue, and the last
      decision recorded for a row agrees with it. Manual rows, rows that are not
      mentioned and stored aliases do not change. */
  lemma {:induction false} ReconcileInv(before: Db, name: Naming, r: Outcome, at: int)
    requires Inv(before) && Once(r) && MembersKnown(before, r)
    ensures Inv(Reconcile(before, name, r, at)) && Reworks(before, Reconcile(before, name, r, at), Touched(r))
  {
    OnceParts(r);
    StagesInv(before, name, r, at);
    var y := SettleAll(Dismissed(before, r, at), before, name, r.matched, at);
    PartAllInv(y.db, before, r.unmatched, at);
    ReworksThen(before, y.db, Reconcile(before, name, r, at), r.notApplicable + Members(r.matched), Rows(r.unmatched));
  }

  lemma {:induction false} UnmatchedStored(before: Db, name: Naming, r: Outcome, at: int)
    requires Inv(before) && Once(r) && MembersKnown(before, r)
    ensures forall u :: u in r.unmatched && u.0 in before.rows && !IsManual(before, u.0) ==>
              Lookup(Reconcile(before, name, r, at).matches, u.0) == Some(MatchRow(None, Unmatched, u.1))
  {
    OnceParts(r);
    StagesInv(before, name, r, at);
    PartAllInv(SettleAll(Dismissed(before, r, at), before, name, r.matched, at).db, before, r.unmatched, at);
  }

  /** Where matching does not apply, an unmatched row goes and any other stays. */
  lemma {:induction false} DismissAllStores(before: Db, ids: seq<RowId>, at: int, id: RowId)
    requires Inv(before) && Distinct(ids) && id in ids && id in before.rows && !IsManual(before, id)
    ensures Lookup(DismissAll(before, before, ids, at).matches, id) == WithoutUnmatched(Lookup(before.matches, id))
  {
    var n := |ids| - 1;
    FrontDistinct(ids);
    DismissAllInv(before, ids[..n], at);
    var t := DismissAll(before, before, ids[..n], at);
    if ids[n] == id {
      assert Untouched(t, before, id) by { StillUntouched(before, before, t, ids[..n], id); }
    } else {
      DismissAllStores(before, ids[..n], at, id);
      StillUntouched(before, before, t, ids[..n], ids[n]);
      DismissInv(t, before, ids[n], at);
    }
  }

  function WithoutUnmatched(row: Option<MatchRow>): Option<MatchRow> {
    if row.Some? && row.value.status.Unmatched? then None else row
  }

  lemma {:induction false} DismissedStored(before: Db, name: Naming, r: Outcome, at: int, id: RowId)
    requires Inv(before) && Once(r) && MembersKnown(before, r)
    requires id in r.notApplicable && id in before.rows && !IsManual(before, id)
    ensures Lookup(Reconcile(before, name, r, at).matches, id) == WithoutUnmatched(Lookup(before.matches, id))
  {
    OnceParts(r);
    StagesInv(before, name, r, at);
    DismissAllStores(before, r.notApplicable, at, id);
    var x := Dismissed(before, r, at);
    SettleAllInv(x, before, name, r.matched, at);
    var y := SettleAll(x, before, name, r.matched, at);
    PartAllInv(y.db, before, r.unmatched, at);
  }

  /** What a reconciliation stores: unmatched events are unmatched with their reason;
      each matched group shares one stored identity, or, where its members had
      different identities before, keeps its rows and gets conflict issues. */
  lemma {:induction false} ReconcileStores(before: Db, name: Naming, r: Outcome, at: int, i: nat)
    requires Inv(before) && Once(r) && MembersKnown(before, r) && i < |r.matched|
    ensures var t := Reconcile(before, name, r, at);
            && (forall u :: u in r.unmatched && u.0 in before.rows && !IsManual(before, u.0) ==>
                  Lookup(t.matches, u.0) == Some(MatchRow(None, Unmatched, u.1)))
            && Settled(SettleAll(Dismissed(before, r, at), before, name, r.matched[..i], at), t, before, name, r.matched[i])
  {
    OnceParts(r);
    StagesInv(before, name, r, at);
    var x := Dismissed(before, r, at);
    var y := SettleAll(x, before, name, r.matched, at);
    PartAllInv(y.db, before, r.unmatched, at);
    SettledStays(x, before, name, r.matched, at, i);
    forall id | id in r.matched[i].members ensures id !in Rows(r.unmatched) { MembersHas(r.matched, i, id); }
    PartConflicts(y.db, before, r.unmatched, at);
    SettledKept(SettleAll(x, before, name, r.matched[..i], at), y.db, Reconcile(before, name, r, at), before, name, r.matched[i], Rows(r.unmatched));
  }

  lemma {:induction false} MembersHas(gs: seq<Group>, i: nat, id: RowId)
    requires i < |gs| && id in gs[i].members
    ensures id in Members(gs)
  {
    if i < |gs| - 1 { MembersHas(gs[..|gs| - 1], i, id); }
  }

  /** Conflict issues, once open or ignored, are not resolved by a reconciliation. */
  ghost predicate KeepsConflicts(s: Db, t: Db) {
    forall id :: ConflictKey(id) in s.issues && !s.issues[ConflictKey(id)].status.Resolved? ==>
      ConflictKey(id) in t.issues && !t.issues[ConflictKey(id)].status.Resolved?
  }

  lemma {:induction false} PartConflicts(s: Db, before: Db, us: seq<(RowId, string)>, at: int)
    ensures KeepsConflicts(s, PartAll(s, before, us, at))
  {
    if us != [] {
      var n := |us| - 1;
      PartConflicts(s, before, us[..n], at);
      forall id { KeysDiffer(us[n].0, id); }
    }
  }

  lemma {:induction false} JoinConflicts(s: Db, before: Db, members: seq<RowId>, c: CanonId, reason: string, at: int)
    ensures KeepsConflicts(s, JoinAll(s, before, members, c, reason, at))
  {
    if members != [] {
      var n := |members| - 1;
      JoinConflicts(s, before, members[..n], c, reason, at);
      forall id { KeysDiffer(members[n], id); }
    }
  }

  lemma {:induction false} OpenConflicts(s: Db, members: seq<RowId>, at: int)
    ensures KeepsConflicts(s, Conflict(s, members, at))
  {
    if members != [] { OpenConflicts(s, members[..|members| - 1], at); }
  }

  lemma {:induction false} SettleConflicts(x: Progress, before: Db, name: Naming, g: Group, at: int)
    ensures KeepsConflicts(x.db, Settle(x, before, name, g, at).db)
  {
    var ids := PriorIds(before, name, x.known, g.canonical, g.members);
    OpenConflicts(x.db, g.members, at);
    JoinConflicts(Adopted(x, g, ids), before, g.members, Identity(x, ids), g.reason, at);
  }

  /** Work on other rows leaves a settled group settled. */
  lemma {:induction false} SettledKept(x: Progress, s: Db, t: Db, before: Db, name: Naming, g: Group, ids: seq<RowId>)
    requires Settled(x, s, before, name, g) && Reworks(s, t, ids) && KeepsConflicts(s, t)
    requires forall id :: id in g.members ==> id !in ids
    ensures Settled(x, t, before, name, g)
  {
    if !Divided(x, before, name, g) {
      var c :| Chosen(x, before, name, g, c) && JoinedAt(s, before, g, c);
      assert JoinedAt(t, before, g, c);
    }
  }

  lemma {:induction false} StillUntouchedAll(before: Db, s: Db, t: Db, ids: seq<RowId>, later: seq<RowId>)
    requires Reworks(s, t, ids)
    requires forall id :: id in later ==> id !in ids && Untouched(s, before, id) && id in s.rows
    ensures forall id :: id in later ==> Untouched(t, before, id) && id in t.rows
  {
    forall id | id in later ensures Untouched(t, before, id) && id in t.rows {
      StillUntouched(before, s, t, ids, id);
    }
  }

  /** The last group settles on top of the earlier ones. */
  lemma {:induction false} SettleLast(x: Progress, before: Db, name: Naming, gs: seq<Group>, at: int)
    requires Inv(before) && Inv(x.db) && Distinct(Members(gs)) && gs != []
    requires forall c :: c in before.canonicals ==> c in x.db.canonicals
    requires forall id :: id in Members(gs) ==> Untouched(x.db, before, id) && id in x.db.rows
    ensures var n := |gs| - 1;
            var y := SettleAll(x, before, name, gs[..n], at);
            && Reworks(y.db, SettleAll(x, before, name, gs, at).db, gs[n].members)
            && Settled(y, SettleAll(x, before, name, gs, at).db, before, name, gs[n])
  {
    var n := |gs| - 1;
    MembersSplit(gs);
    assert Members(gs) == Members(gs[..n]) + gs[n].members;
    SettleAllInv(x, before, name, gs[..n], at);
    var y := SettleAll(x, before, name, gs[..n], at);
    StillUntouchedAll(before, x.db, y.db, Members(gs[..n]), gs[n].members);
    SettleInv(y, before, name, gs[n], at);
  }

  lemma {:induction false} LastConflicts(x: Progress, before: Db, name: Naming, gs: seq<Group>, at: int)
    requires gs != []
    ensures KeepsConflicts(SettleAll(x, before, name, gs[..|gs| - 1], at).db, SettleAll(x, before, name, gs, at).db)
  {
    SettleConflicts(SettleAll(x, before, name, gs[..|gs| - 1], at), before, name, gs[|gs| - 1], at);
  }

  lemma {:induction false} EarlierApart(gs: seq<Group>, i: nat)
    requires i < |gs| - 1 && Distinct(Members(gs))
    ensures forall id :: id in gs[i].members ==> id !in gs[|gs| - 1].members
  {
    var n := |gs| - 1;
    MembersSplit(gs);
    forall id | id in gs[i].members ensures id !in gs[n].members { MembersHas(gs[..n], i, id); }
  }

  /** Settling one more group leaves an earlier one settled. */
  lemma {:induction false} SettledPush(w: Progress, y: Db, z: Db, before: Db, name: Naming, gs: seq<Group>, i: nat)
    requires i < |gs| - 1 && Distinct(Members(gs)) && KeepsConflicts(y, z)
    requires Reworks(y, z, gs[|gs| - 1].members) && Settled(w, y, before, name, gs[i])
    ensures Settled(w, z, before, name, gs[i])
  {
    EarlierApart(gs, i);
    SettledKept(w, y, z, before, name, gs[i], gs[|gs| - 1].members);
  }

  lemma {:induction false} SettledStays(x: Progress, before: Db, name: Naming, gs: seq<Group>, at: int, i: nat)
    requires Inv(before) && Inv(x.db) && Distinct(Members(gs)) && i < |gs|
    requires forall c :: c in before.canonicals ==> c in x.db.canonicals
    requires forall id :: id in Members(gs) ==> Untouched(x.db, before, id) && id in x.db.rows
    ensures Settled(SettleAll(x, before, name, gs[..i], at), SettleAll(x, before, name, gs, at).db, before, name, gs[i])
  {
    var front := gs[..|gs| - 1];
    SettleLast(x, before, name, gs, at);
    if i < |gs| - 1 {
      MembersSplit(gs);
      SettledStays(x, before, name, front, at, i);
      LastConflicts(x, before, name, gs, at);
      assert front[..i] == gs[..i] && front[i] == gs[i];
      SettledPush(SettleAll(x, before, name, gs[..i], at), SettleAll(x, before, name, front, at).db,
        SettleAll(x, before, name, gs, at).db, before, name, gs, i);
    }
  }
}
