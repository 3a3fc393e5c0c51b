/** Which identity a matched group ends with, in terms of the rows and decisions stored
    before (matching.repository.ts). */
module ReconciliationIdentity {
  import opened Domain
  import opened Reconciliation
  import opened ReconciliationLaws

  // --- What the parts of a transaction do to canonical events ----------------

  predicate SameCanonicals(s: Db, t: Db) { t.canonicals == s.canonicals && t.nextCanonical == s.nextCanonical }

  lemma {:induction false} JoinAllCanonicals(db: Db, before: Db, members: seq<RowId>, c: CanonId, reason: string, at: int)
    ensures SameCanonicals(db, JoinAll(db, before, members, c, reason, at))
  {
    if members != [] { JoinAllCanonicals(db, before, members[..|members| - 1], c, reason, at); }
  }

  lemma {:induction false} ConflictCanonicals(db: Db, members: seq<RowId>, at: int)
    ensures SameCanonicals(db, Conflict(db, members, at))
  {
    if members != [] { ConflictCanonicals(db, members[..|members| - 1], at); }
  }

  lemma {:induction false} DismissAllCanonicals(db: Db, before: Db, ids: seq<RowId>, at: int)
    ensures SameCanonicals(db, DismissAll(db, before, ids, at))
  {
    if ids != [] { DismissAllCanonicals(db, before, ids[..|ids| - 1], at); }
  }

  lemma {:induction false} PartAllCanonicals(db: Db, before: Db, us: seq<(RowId, string)>, at: int)
    ensures SameCanonicals(db, PartAll(db, before, us, at))
  {
    if us != [] { PartAllCanonicals(db, before, us[..|us| - 1], at); }
  }

  /** One group's turn: divided it changes no canonical event; otherwise the identity it
      settles on gets its data and keeps its esport. */
  lemma {:induction false} SettleCanonicals(x: Progress, before: Db, name: Naming, g: Group, at: int) returns (c: CanonId)
    ensures var t := Settle(x, before, name, g, at).db;
            && (Divided(x, before, name, g) ==> SameCanonicals(x.db, t))
            && (!Divided(x, before, name, g) ==>
                  && Chosen(x, before, name, g, c)
                  && t.canonicals == x.db.canonicals[c := g.canonical.(esport := if c in x.db.canonicals then x.db.canonicals[c].esport else g.canonical.esport)]
                  && t.nextCanonical >= x.db.nextCanonical)
  {
    var ids := PriorIds(before, name, x.known, g.canonical, g.members);
    DividedIff(x, before, name, g);
    c := Identity(x, ids);
    if |ids| > 1 {
      ConflictCanonicals(x.db, g.members, at);
    } else {
      IdentityChosen(x, before, name, g, ids);
      JoinAllCanonicals(Adopted(x, g, ids), before, g.members, c, g.reason, at);
    }
  }

  // --- Data that later groups leave alone ------------------------------------

  /** Nothing stored about the row names c. */
  ghost predicate Unmentioned(before: Db, id: RowId, c: CanonId) {
    && (id in before.matches ==> before.matches[id].canonical != Some(c))
    && forall d :: d in before.decisions && d.row == id ==> d.canonical != Some(c)
  }

  ghost predicate GroupUnmentioned(before: Db, g: Group, c: CanonId) {
    forall id :: id in g.members ==> Unmentioned(before, id, c)
  }

  lemma {:induction false} NeverHad(before: Db, name: Naming, known: Aliases, data: Canonical, id: RowId, c: CanonId)
    requires Unmentioned(before, id, c)
    ensures !Had(before, name, known, data, id, c)
  {
    forall i | 0 <= i < |before.decisions| && before.decisions[i].row == id ensures before.decisions[i].canonical != Some(c) {
      assert before.decisions[i] in before.decisions;
    }
  }

  /** A group whose members are not known under c does not touch it. */
  lemma {:induction false} SettleSpares(x: Progress, before: Db, name: Naming, g: Group, at: int, c: CanonId)
    requires c in x.db.canonicals && c < x.db.nextCanonical && GroupUnmentioned(before, g, c)
    ensures var t := Settle(x, before, name, g, at).db; c in t.canonicals && t.canonicals[c] == x.db.canonicals[c] && c < t.nextCanonical
  {
    var d := SettleCanonicals(x, before, name, g, at);
    if !Divided(x, before, name, g) && d == c {
      var id :| id in g.members && Had(before, name, x.known, g.canonical, id, c);
      NeverHad(before, name, x.known, g.canonical, id, c);
    }
  }

  /** From the turn of group i on, later groups not known under c leave it alone. */
  lemma {:induction false} DataStays(x: Progress, before: Db, name: Naming, gs: seq<Group>, at: int, i: nat, c: CanonId)
    requires i < |gs|
    requires var y := SettleAll(x, before, name, gs[..i + 1], at).db; c in y.canonicals && c < y.nextCanonical
    requires forall j :: i < j < |gs| ==> GroupUnmentioned(before, gs[j], c)
    ensures var y, t := SettleAll(x, before, name, gs[..i + 1], at).db, SettleAll(x, before, name, gs, at).db;
            c in t.canonicals && t.canonicals[c] == y.canonicals[c] && c < t.nextCanonical
  {
    var n := |gs| - 1;
    if i == n {
      assert gs[..i + 1] == gs;
    } else {
      assert gs[..n][..i + 1] == gs[..i + 1];
      DataStays(x, before, name, gs[..n], at, i, c);
      SettleSpares(SettleAll(x, before, name, gs[..n], at), before, name, gs[n], at, c);
    }
  }

  /** An identity keeps its esport. */
  lemma {:induction false} EsportStays(x: Progress, before: Db, name: Naming, gs: seq<Group>, at: int, c: CanonId)
    requires c in x.db.canonicals
    ensures var t := SettleAll(x, before, name, gs, at).db; c in t.canonicals && t.canonicals[c].esport == x.db.canonicals[c].esport
  {
    if gs != [] {
      var n := |gs| - 1;
      EsportStays(x, before, name, gs[..n], at, c);
      var d := SettleCanonicals(SettleAll(x, before, name, gs[..n], at), before, name, gs[n], at);
    }
  }

  // --- The turn of a group within a transaction ------------------------------

  ghost function TurnOf(before: Db, name: Naming, r: Outcome, at: int, i: nat): Progress
    requires i <= |r.matched|
  {
    SettleAll(Dismissed(before, r, at), before, name, r.matched[..i], at)
  }

  lemma {:induction false} BeforeTurn(before: Db, name: Naming, r: Outcome, at: int, i: nat)
    requires Inv(before) && Once(r) && MembersKnown(before, r) && i <= |r.matched|
    ensures Inv(TurnOf(before, name, r, at, i).db)
    ensures before.nextCanonical <= TurnOf(before, name, r, at, i).db.nextCanonical
    ensures forall c :: c in before.canonicals ==>
              c in TurnOf(before, name, r, at, i).db.canonicals
              && TurnOf(before, name, r, at, i).db.canonicals[c].esport == before.canonicals[c].esport
  {
    StagesInv(before, name, r, at);
    var x := Dismissed(before, r, at);
    OnceParts(r);
    DismissAllCanonicals(before, before, r.notApplicable, at);
    MembersPrefix(r.matched, i);
    SettleAllInv(x, before, name, r.matched[..i], at);
    forall c | c in before.canonicals
      ensures c in TurnOf(before, name, r, at, i).db.canonicals
      ensures TurnOf(before, name, r, at, i).db.canonicals[c].esport == before.canonicals[c].esport
    {
      EsportStays(x, before, name, r.matched[..i], at, c);
    }
  }

  lemma {:induction false} MembersPrefix(gs: seq<Group>, i: nat)
    requires Distinct(Members(gs)) && i <= |gs|
    ensures Distinct(Members(gs[..i])) && forall id :: id in Members(gs[..i]) ==> id in Members(gs)
    decreases |gs|
  {
    if i == |gs| {
      assert gs[..i] == gs;
    } else {
      var n := |gs| - 1;
      MembersSplit(gs);
      MembersPrefix(gs[..n], i);
      assert gs[..n][..i] == gs[..i] && Members(gs) == Members(gs[..n]) + gs[n].members;
    }
  }

  /** The data that group i writes under c at its turn is there at the end, if no later
      group is known under c. */
  lemma {:induction false} TurnData(before: Db, name: Naming, r: Outcome, at: int, i: nat, c: CanonId)
    requires Inv(before) && Once(r) && MembersKnown(before, r) && i < |r.matched|
    requires !Divided(TurnOf(before, name, r, at, i), before, name, r.matched[i])
    requires forall d :: Chosen(TurnOf(before, name, r, at, i), before, name, r.matched[i], d) ==> d == c
    requires forall j :: i < j < |r.matched| ==> GroupUnmentioned(before, r.matched[j], c)
    ensures var y, t, g := TurnOf(before, name, r, at, i).db, Reconcile(before, name, r, at), r.matched[i];
            c in t.canonicals && t.canonicals[c] == g.canonical.(esport := if c in y.canonicals then y.canonicals[c].esport else g.canonical.esport)
  {
    var x, y, gs := Dismissed(before, r, at), TurnOf(before, name, r, at, i), r.matched;
    TurnStep(before, name, r, at, i);
    var d := SettleCanonicals(y, before, name, gs[i], at);
    BeforeTurn(before, name, r, at, i + 1);
    DataStays(x, before, name, gs, at, i, c);
    PartAllCanonicals(SettleAll(x, before, name, gs, at).db, before, r.unmatched, at);
  }

  lemma {:induction false} TurnStep(before: Db, name: Naming, r: Outcome, at: int, i: nat)
    requires i < |r.matched|
    ensures TurnOf(before, name, r, at, i + 1) == Settle(TurnOf(before, name, r, at, i), before, name, r.matched[i], at)
  {
    assert r.matched[..i + 1][..i] == r.matched[..i];
  }

  // --- Results ---------------------------------------------------------------

  /** Every member's row is matched under c. */
  ghost predicate AllAt(before: Db, g: Group, c: CanonId) {
    g.members != [] && forall id :: id in g.members ==> id in before.matches && before.matches[id].canonical == Some(c)
  }

  lemma {:induction false} AllAtChosen(x: Progress, before: Db, name: Naming, g: Group, c: CanonId)
    requires AllAt(before, g, c)
    ensures !Divided(x, before, name, g) && forall d :: Chosen(x, before, name, g, d) ==> d == c
  {
    forall id, d | id in g.members ensures Had(before, name, x.known, g.canonical, id, d) <==> d == c {}
    assert g.members[0] in g.members && Had(before, name, x.known, g.canonical, g.members[0], c);
  }

  /** A group whose rows are all matched under one identity keeps it, however far its
      start has moved: the rows stay under it, and it gets the group's data with its own
      esport, unless a later group is known under it too. */
  lemma {:induction false} IdentityKept(before: Db, name: Naming, r: Outcome, at: int, i: nat, c: CanonId)
    requires Inv(before) && Once(r) && MembersKnown(before, r) && i < |r.matched| && AllAt(before, r.matched[i], c)
    ensures JoinedAt(Reconcile(before, name, r, at), before, r.matched[i], c) && c in before.canonicals
    ensures (forall j :: i < j < |r.matched| ==> GroupUnmentioned(before, r.matched[j], c)) ==>
              Reconcile(before, name, r, at).canonicals[c] == r.matched[i].canonical.(esport := before.canonicals[c].esport)
  {
    var g, x := r.matched[i], TurnOf(before, name, r, at, i);
    AllAtChosen(x, before, name, g, c);
    ReconcileStores(before, name, r, at, i);
    assert g.members[0] in g.members && RowOk(before, g.members[0]);
    if forall j :: i < j < |r.matched| ==> GroupUnmentioned(before, r.matched[j], c) {
      BeforeTurn(before, name, r, at, i);
      TurnData(before, name, r, at, i, c);
    }
  }

  /** Where two members' rows are matched under different identities the merge is withheld:
      no row of the group changes and each gets a conflict issue. */
  lemma {:induction false} DivisionWithheld(before: Db, name: Naming, r: Outcome, at: int, i: nat, a: RowId, b: RowId)
    requires Inv(before) && Once(r) && MembersKnown(before, r) && i < |r.matched|
    requires a in r.matched[i].members && b in r.matched[i].members && a in before.matches && b in before.matches
    requires before.matches[a].canonical.Some? && before.matches[b].canonical.Some?
    requires before.matches[a].canonical != before.matches[b].canonical
    ensures Withheld(Reconcile(before, name, r, at), before, r.matched[i])
  {
    var g, x := r.matched[i], TurnOf(before, name, r, at, i);
    assert Had(before, name, x.known, g.canonical, a, before.matches[a].canonical.value);
    assert Had(before, name, x.known, g.canonical, b, before.matches[b].canonical.value);
    ReconcileStores(before, name, r, at, i);
  }

  /** Nothing stored names an identity for any member. */
  ghost predicate NeverIdentified(before: Db, g: Group) {
    forall id :: id in g.members ==>
      && (id in before.matches ==> before.matches[id].canonical == None)
      && forall d :: d in before.decisions && d.row == id ==> d.canonical == None
  }

  lemma {:induction false} NewChosen(x: Progress, before: Db, name: Naming, g: Group)
    requires NeverIdentified(before, g)
    ensures !Divided(x, before, name, g) && forall d :: Chosen(x, before, name, g, d) ==> d == x.db.nextCanonical
  {
    forall id, d | id in g.members ensures !Had(before, name, x.known, g.canonical, id, d) {
      NeverHad(before, name, x.known, g.canonical, id, d);
    }
  }

  /** A group none of whose rows and decisions names an identity gets a new one, with its
      data. */
  lemma {:induction false} IdentityNew(before: Db, name: Naming, r: Outcome, at: int, i: nat) returns (c: CanonId)
    requires Inv(before) && Once(r) && MembersKnown(before, r) && i < |r.matched| && NeverIdentified(before, r.matched[i])
    ensures c >= before.nextCanonical && c !in before.canonicals
    ensures JoinedAt(Reconcile(before, name, r, at), before, r.matched[i], c)
    ensures Reconcile(before, name, r, at).canonicals[c] == r.matched[i].canonical
  {
    var g, x := r.matched[i], TurnOf(before, name, r, at, i);
    c := x.db.nextCanonical;
    NewChosen(x, before, name, g);
    ReconcileStores(before, name, r, at, i);
    BeforeTurn(before, name, r, at, i);
    assert c !in x.db.canonicals;
    forall j | i < j < |r.matched| ensures GroupUnmentioned(before, r.matched[j], c) {
      forall id | id in r.matched[j].members ensures Unmentioned(before, id, c) { assert RowOk(before, id); }
    }
    TurnData(before, name, r, at, i, c);
  }
}
