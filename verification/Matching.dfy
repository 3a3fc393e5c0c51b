/** Cross-provider matching (matching.ts): a worklist closure over an eligibility
    relation, followed by a clique check. */
module Matching {
  import opened Domain
  import opened TeamNames

  /** Name canonicalisation under the persisted aliases, as two functions. */
  datatype Canon = Canon(
    team: (string, Esport) -> Name,
    tournament: (string, Esport) -> string)

  /** The providers whose listing is valid for each esport. */
  type Coverage = Esport -> set<string>

  function Keys(s: seq<Event>): set<Key> { set e | e in s :: KeyOf(e) }

  predicate DistinctKeys(s: seq<Event>) {
    forall i, j :: 0 <= i < j < |s| ==> KeyOf(s[i]) != KeyOf(s[j])
  }

  // --- Eligibility of a pair -------------------------------------------------

  const FIVE_MINUTES_MS: int := 300_000

  function TeamA(e: Event, c: Canon): Name { c.team(e.teamA, e.esport) }

  function TeamB(e: Event, c: Canon): Name { c.team(e.teamB, e.esport) }

  predicate SamePair(e: Event, f: Event, c: Canon) {
    || (TeamA(e, c) == TeamA(f, c) && TeamB(e, c) == TeamB(f, c))
    || (TeamA(e, c) == TeamB(f, c) && TeamB(e, c) == TeamA(f, c))
  }

  predicate SameTournament(e: Event, f: Event, c: Canon) {
    c.tournament(e.tournament, e.esport) == c.tournament(f.tournament, f.esport)
  }

  function Delta(e: Event, f: Event): Option<nat> {
    if e.startsAt.None? || f.startsAt.None? then None
    else Some(Abs(e.startsAt.value - f.startsAt.value))
  }

  predicate Near(e: Event, f: Event) {
    Delta(e, f).Some? && Delta(e, f).value <= FIVE_MINUTES_MS
  }

  predicate Prematch(e: Event) {
    || e.status.Scheduled?
    || (&& e.status.Suspended? && e.inPlay != Some(true)
        && e.startsAt.Some? && e.fetchedAt.Some? && e.startsAt.value > e.fetchedAt.value)
  }

  /** One side equal, the opposite sides merely similar; sides of `f` tried in
      both orders. All names are canonicalised under e's esport. */
  ghost predicate AliasCandidate(e: Event, f: Event, c: Canon) {
    && SameTournament(e, f, c)
    && var a, b := c.team(e.teamA, e.esport), c.team(e.teamB, e.esport);
       var p, q := c.team(f.teamA, e.esport), c.team(f.teamB, e.esport);
       || (a == p && Similar(b, q))
       || (a == q && Similar(b, p))
  }

  ghost predicate Eligible(e: Event, f: Event, c: Canon) {
    && e.provider != f.provider
    && e.esport == f.esport
    && Prematch(e) && Prematch(f)
    && if SamePair(e, f, c)
       then Delta(e, f) == Some(0) || (Near(e, f) && SameTournament(e, f, c))
       else Near(e, f) && AliasCandidate(e, f, c)
  }

  method IsEligible(e: Event, f: Event, c: Canon) returns (r: bool)
    ensures r <==> Eligible(e, f, c)
  {
    if e.provider == f.provider || e.esport != f.esport || !Prematch(e) || !Prematch(f) {
      return false;
    }
    if SamePair(e, f, c) {
      return Delta(e, f) == Some(0) || (Near(e, f) && SameTournament(e, f, c));
    }
    if !Near(e, f) || !SameTournament(e, f, c) {
      return false;
    }
    r := false;
    if TeamA(e, c) == TeamA(f, c) {
      r := SimilarNames(TeamB(e, c), TeamB(f, c));
    }
    if !r && TeamA(e, c) == TeamB(f, c) {
      r := SimilarNames(TeamB(e, c), TeamA(f, c));
    }
  }

  /** Everything `Eligible` asks of a pair whose names differ, except the names. */
  ghost predicate AliasContext(e: Event, f: Event, c: Canon) {
    && e.provider != f.provider && e.esport == f.esport
    && Prematch(e) && Prematch(f)
    && !SamePair(e, f, c) && Near(e, f) && SameTournament(e, f, c)
  }

  /** The equal team stands on opposite sides of the two listings, and no
      same-side reading of the pair is available. */
  ghost predicate CrossedAlias(e: Event, f: Event, c: Canon) {
    && AliasContext(e, f, c)
    && (TeamA(e, c) == TeamB(f, c) || TeamB(e, c) == TeamA(f, c))
    && (if TeamA(e, c) == TeamB(f, c) then Similar(TeamB(e, c), TeamA(f, c))
        else Similar(TeamA(e, c), TeamB(f, c)))
    && !(TeamA(e, c) == TeamA(f, c) && Similar(TeamB(e, c), TeamB(f, c)))
  }

  /** Eligibility is symmetric exactly for the pairs that are not crossed. */
  lemma {:induction false} SymmetryCondition(e: Event, f: Event, c: Canon)
    ensures (Eligible(e, f, c) <==> Eligible(f, e, c)) <==> !CrossedAlias(e, f, c)
  {
    var a, b, p, q := TeamA(e, c), TeamB(e, c), TeamA(f, c), TeamB(f, c);
    SimilarSymmetric(b, q);
    SimilarSymmetric(b, p);
    SimilarSymmetric(a, q);
  }

  // --- Deduplication ---------------------------------------------------------

  datatype Collected = Collected(unique: seq<Event>, conflicts: set<Key>)

  /** First position holding the key, or the length. */
  function Position(u: seq<Event>, k: Key): (p: nat)
    ensures p <= |u|
    ensures p < |u| ==> KeyOf(u[p]) == k
    ensures forall i :: 0 <= i < p ==> KeyOf(u[i]) != k
  {
    if u == [] then 0
    else if KeyOf(u[0]) == k then 0
    else 1 + Position(u[1..], k)
  }

  /** A Map.set: replace in place, or append. */
  function Upsert(u: seq<Event>, e: Event): seq<Event> {
    var p := Position(u, KeyOf(e));
    if p < |u| then u[p := e] else u + [e]
  }

  predicate Covered(e: Event, cov: Coverage) { e.provider in cov(e.esport) }

  function Collect(events: seq<Event>, cov: Coverage): Collected {
    if events == [] then Collected([], {})
    else
      var n := |events| - 1;
      var before, e := Collect(events[..n], cov), events[n];
      if !Covered(e, cov) then before
      else
        var p := Position(before.unique, KeyOf(e));
        var clash := p < |before.unique| && before.unique[p] != e;
        Collected(Upsert(before.unique, e), before.conflicts + if clash then {KeyOf(e)} else {})
  }

  method CollectEvents(events: seq<Event>, cov: Coverage) returns (r: Collected)
    ensures r == Collect(events, cov)
  {
    var unique, conflicts := [], {};
    for i := 0 to |events|
      invariant Collected(unique, conflicts) == Collect(events[..i], cov)
    {
      assert events[..i + 1][..i] == events[..i];
      var e := events[i];
      if Covered(e, cov) {
        var p := Position(unique, KeyOf(e));
        if p < |unique| && unique[p] != e {
          conflicts := conflicts + {KeyOf(e)};
        }
        unique := Upsert(unique, e);
      }
    }
    assert events[..|events|] == events;
    return Collected(unique, conflicts);
  }

  /** The last covered observation of a key. */
  ghost predicate LastOf(events: seq<Event>, cov: Coverage, p: int) {
    && 0 <= p < |events| && Covered(events[p], cov)
    && forall q :: p < q < |events| && Covered(events[q], cov) ==> KeyOf(events[q]) != KeyOf(events[p])
  }

  /** Two covered observations of one key that disagree. */
  ghost predicate Disagree(events: seq<Event>, cov: Coverage, e: Event, f: Event) {
    e in events && f in events && Covered(e, cov) && Covered(f, cov) && KeyOf(e) == KeyOf(f) && e != f
  }

  lemma {:induction false} CollectSound(events: seq<Event>, cov: Coverage)
    ensures DistinctKeys(Collect(events, cov).unique)
    ensures forall x :: x in Collect(events, cov).unique ==> x in events && Covered(x, cov)
  {
    if events != [] {
      var n := |events| - 1;
      CollectSound(events[..n], cov);
      UpsertMeans(Collect(events[..n], cov).unique, events[n]);
    }
  }

  /** The last covered observation of every key is the one kept. */
  lemma {:induction false} CollectKeepsLast(events: seq<Event>, cov: Coverage, p: nat)
    requires LastOf(events, cov, p)
    ensures events[p] in Collect(events, cov).unique
  {
    var n := |events| - 1;
    CollectSound(events[..n], cov);
    UpsertMeans(Collect(events[..n], cov).unique, events[n]);
    if p < n {
      assert forall q :: 0 <= q < n ==> events[..n][q] == events[q];
      CollectKeepsLast(events[..n], cov, p);
    }
  }

  lemma {:induction false} UpsertMeans(u: seq<Event>, e: Event)
    requires DistinctKeys(u)
    ensures DistinctKeys(Upsert(u, e))
    ensures forall x :: x in Upsert(u, e) <==> x == e || (x in u && KeyOf(x) != KeyOf(e))
  {
    var p, v := Position(u, KeyOf(e)), Upsert(u, e);
    assert v[p] == e;
    forall x | x in u && KeyOf(x) != KeyOf(e) ensures x in v {
      var i :| 0 <= i < |u| && u[i] == x;
      assert v[i] == x;
    }
  }

  /** A key is flagged exactly when two of its covered observations disagree. */
  lemma {:induction false} CollectConflicts(events: seq<Event>, cov: Coverage)
    ensures forall k :: k in Collect(events, cov).conflicts
                        ==> exists e, f :: Disagree(events, cov, e, f) && KeyOf(e) == k
    ensures forall e, f :: Disagree(events, cov, e, f) ==> KeyOf(e) in Collect(events, cov).conflicts
    ensures forall e :: e in events && Covered(e, cov) && KeyOf(e) !in Collect(events, cov).conflicts
                        ==> e in Collect(events, cov).unique
  {
    if events != [] {
      var n := |events| - 1;
      CollectConflicts(events[..n], cov);
      assert events == events[..n] + [events[n]];
      CollectConflictsStep(events[..n], events[n], cov);
    }
  }

  lemma {:induction false} CollectConflictsStep(rest: seq<Event>, e: Event, cov: Coverage)
    requires forall k :: k in Collect(rest, cov).conflicts
                         ==> exists x, y :: Disagree(rest, cov, x, y) && KeyOf(x) == k
    requires forall x, y :: Disagree(rest, cov, x, y) ==> KeyOf(x) in Collect(rest, cov).conflicts
    requires forall x :: x in rest && Covered(x, cov) && KeyOf(x) !in Collect(rest, cov).conflicts
                         ==> x in Collect(rest, cov).unique
    ensures var after := Collect(rest + [e], cov);
            && (forall k :: k in after.conflicts ==> exists x, y :: Disagree(rest + [e], cov, x, y) && KeyOf(x) == k)
            && (forall x, y :: Disagree(rest + [e], cov, x, y) ==> KeyOf(x) in after.conflicts)
            && (forall x :: x in rest + [e] && Covered(x, cov) && KeyOf(x) !in after.conflicts ==> x in after.unique)
  {
    var events := rest + [e];
    assert events[..|rest|] == rest;
    var before, after := Collect(rest, cov), Collect(events, cov);
    CollectSound(rest, cov);
    UpsertMeans(before.unique, e);
    forall k | k in after.conflicts
      ensures exists x, y :: Disagree(events, cov, x, y) && KeyOf(x) == k
    {
      if k in before.conflicts {
        var x, y :| Disagree(rest, cov, x, y) && KeyOf(x) == k;
        assert Disagree(events, cov, x, y);
      } else {
        assert Disagree(events, cov, before.unique[Position(before.unique, KeyOf(e))], e);
      }
    }
    forall x, y | Disagree(events, cov, x, y)
      ensures KeyOf(x) in after.conflicts
    {
      if x in rest && y in rest {
        assert Disagree(rest, cov, x, y);
      } else {
        var prior := if x == e then y else x;
        if KeyOf(prior) !in before.conflicts {
          SamePosition(before.unique, prior);
        }
      }
    }
    forall x | x in events && Covered(x, cov) && KeyOf(x) !in after.conflicts
      ensures x in after.unique
    {
      assert x != e && Covered(e, cov) && KeyOf(x) == KeyOf(e) ==> Disagree(events, cov, x, e);
    }
  }

  lemma {:induction false} SamePosition(u: seq<Event>, e: Event)
    requires DistinctKeys(u) && e in u
    ensures Position(u, KeyOf(e)) < |u| && u[Position(u, KeyOf(e))] == e
  {
    var i :| 0 <= i < |u| && u[i] == e;
    var p := Position(u, KeyOf(e));
    assert p <= i;
  }

  // --- Groups ----------------------------------------------------------------

  /** The unseen events eligible with `x`, in listing order. */
  ghost function Found(x: Event, all: seq<Event>, seen: set<Key>, c: Canon): seq<Event> {
    if all == [] then []
    else
      var before, f := Found(x, all[..|all| - 1], seen, c), all[|all| - 1];
      if KeyOf(f) !in seen && Eligible(x, f, c) then before + [f] else before
  }

  lemma {:induction false} FoundMeans(x: Event, all: seq<Event>, seen: set<Key>, c: Canon)
    requires DistinctKeys(all)
    ensures forall f :: f in Found(x, all, seen, c) <==> f in all && KeyOf(f) !in seen && Eligible(x, f, c)
    ensures DistinctKeys(Found(x, all, seen, c))
  {
    if all != [] {
      var n := |all| - 1;
      FoundMeans(x, all[..n], seen, c);
      assert all == all[..n] + [all[n]];
    }
  }

  lemma {:induction false} DistinctKeysCount(s: seq<Event>)
    requires DistinctKeys(s)
    ensures |Keys(s)| == |s|
  {
    if s != [] {
      var n := |s| - 1;
      DistinctKeysCount(s[..n]);
      assert Keys(s) == Keys(s[..n]) + {KeyOf(s[n])};
    }
  }

  ghost function UnseenCount(all: seq<Event>, seen: set<Key>): nat { |Keys(all) - seen| }

  /** Seeing the found events lowers the number of unseen ones by exactly as many. */
  lemma {:induction false} FoundCount(x: Event, all: seq<Event>, seen: set<Key>, c: Canon)
    requires DistinctKeys(all)
    ensures UnseenCount(all, seen) == UnseenCount(all, seen + Keys(Found(x, all, seen, c))) + |Found(x, all, seen, c)|
  {
    var found := Found(x, all, seen, c);
    FoundMeans(x, all, seen, c);
    DistinctKeysCount(found);
    assert Keys(all) - seen == (Keys(all) - (seen + Keys(found))) + Keys(found);
  }

  /** The growing worklist: members before `i` have been expanded. */
  ghost function Expand(group: seq<Event>, i: nat, all: seq<Event>, seen: set<Key>, c: Canon): seq<Event>
    requires i <= |group| && DistinctKeys(all)
    decreases UnseenCount(all, seen) + |group| - i
  {
    if i == |group| then group
    else
      var found := Found(group[i], all, seen, c);
      FoundCount(group[i], all, seen, c);
      Expand(group + found, i + 1, all, seen + Keys(found), c)
  }

  ghost function Group(e: Event, all: seq<Event>, seen: set<Key>, c: Canon): seq<Event>
    requires DistinctKeys(all)
  {
    Expand([e], 0, all, seen + {KeyOf(e)}, c)
  }

  /** Groups found by scanning `all` from position `p`. */
  ghost function GroupsFrom(all: seq<Event>, p: nat, seen: set<Key>, c: Canon): seq<seq<Event>>
    requires p <= |all| && DistinctKeys(all)
    decreases |all| - p
  {
    if p == |all| then []
    else if KeyOf(all[p]) in seen then GroupsFrom(all, p + 1, seen, c)
    else
      var g := Group(all[p], all, seen, c);
      [g] + GroupsFrom(all, p + 1, seen + Keys(g), c)
  }

  ghost function Groups(all: seq<Event>, c: Canon): seq<seq<Event>>
    requires DistinctKeys(all)
  {
    GroupsFrom(all, 0, {}, c)
  }

  /** The inner loop: one worklist member against the whole listing. */
  method ScanListing(x: Event, all: seq<Event>, group: seq<Event>, seen: set<Key>, c: Canon)
    returns (grown: seq<Event>, after: set<Key>)
    requires DistinctKeys(all)
    ensures grown == group + Found(x, all, seen, c)
    ensures after == seen + Keys(Found(x, all, seen, c))
  {
    grown, after := group, seen;
    for j := 0 to |all|
      invariant grown == group + Found(x, all[..j], seen, c)
      invariant after == seen + Keys(Found(x, all[..j], seen, c))
    {
      assert all[..j + 1][..j] == all[..j];
      FoundMeans(x, all[..j], seen, c);
      var f := all[j];
      var eligible := IsEligible(x, f, c);
      if KeyOf(f) !in after && eligible {
        after := after + {KeyOf(f)};
        grown := grown + [f];
      }
    }
    assert all[..|all|] == all;
  }

  method GrowGroup(e: Event, all: seq<Event>, seen: set<Key>, c: Canon)
    returns (group: seq<Event>, after: set<Key>)
    requires DistinctKeys(all)
    ensures group == Group(e, all, seen, c)
    ensures after == seen + Keys(group)
  {
    group, after := [e], seen + {KeyOf(e)};
    var i := 0;
    while i < |group|
      invariant i <= |group|
      invariant after == seen + Keys(group)
      invariant Expand(group, i, all, after, c) == Group(e, all, seen, c)
      decreases UnseenCount(all, after) + |group| - i
    {
      FoundCount(group[i], all, after, c);
      group, after := ScanListing(group[i], all, group, after, c);
      i := i + 1;
    }
  }

  // --- Verdicts --------------------------------------------------------------

  function ProviderSet(group: seq<Event>): set<string> {
    set x | x in group :: x.provider
  }

  predicate DistinctProviders(group: seq<Event>) {
    |ProviderSet(group)| == |group|
  }

  /** Every member against every later one, in discovery order. */
  ghost predicate Clique(group: seq<Event>, c: Canon) {
    forall i, j :: 0 <= i < j < |group| ==> Eligible(group[i], group[j], c)
  }

  ghost predicate Valid(group: seq<Event>, conflicts: set<Key>, c: Canon) {
    && |group| > 1
    && DistinctProviders(group)
    && (forall x :: x in group ==> KeyOf(x) !in conflicts)
    && Clique(group, c)
  }

  method IsValid(group: seq<Event>, conflicts: set<Key>, c: Canon) returns (r: bool)
    ensures r <==> Valid(group, conflicts, c)
  {
    if |group| <= 1 || !DistinctProviders(group) || exists x :: x in group && KeyOf(x) in conflicts {
      return false;
    }
    for i := 0 to |group|
      invariant forall k, l :: 0 <= k < i && k < l < |group| ==> Eligible(group[k], group[l], c)
    {
      var all := EligibleWithAll(group[i], group[i + 1..], c);
      if !all { return false; }
      assert forall l :: i < l < |group| ==> group[l] == group[i + 1..][l - i - 1];
    }
    return true;
  }

  method EligibleWithAll(x: Event, others: seq<Event>, c: Canon) returns (r: bool)
    ensures r <==> forall y :: y in others ==> Eligible(x, y, c)
  {
    for j := 0 to |others|
      invariant forall l :: 0 <= l < j ==> Eligible(x, others[l], c)
    {
      var eligible := IsEligible(x, others[j], c);
      if !eligible { return false; }
    }
    return true;
  }

  /** A member's place in a comparison. `reversed` says that its teamA is not the
      canonical teamA. */
  datatype Member = Member(eventId: string, startsAt: Option<int>, reversed: bool)

  datatype Comparison = Comparison(
    esport: Esport,
    tournament: string,
    startsAt: Option<int>,
    sameCompetition: bool,
    confidence: real,
    spanMs: nat,
    providers: map<string, Member>)

  predicate Timed(group: seq<Event>) {
    forall x :: x in group ==> x.startsAt.Some?
  }

  function Latest(group: seq<Event>): int
    requires group != [] && Timed(group)
  {
    var n := |group| - 1;
    var t := group[n].startsAt.value;
    if n == 0 then t else if Latest(group[..n]) >= t then Latest(group[..n]) else t
  }

  function Earliest(group: seq<Event>): int
    requires group != [] && Timed(group)
  {
    var n := |group| - 1;
    var t := group[n].startsAt.value;
    if n == 0 then t else if Earliest(group[..n]) <= t then Earliest(group[..n]) else t
  }

  lemma {:induction false} SpanMeans(group: seq<Event>)
    requires group != [] && Timed(group)
    ensures forall x :: x in group ==> Earliest(group) <= x.startsAt.value <= Latest(group)
    ensures exists x :: x in group && x.startsAt.value == Latest(group)
    ensures exists x :: x in group && x.startsAt.value == Earliest(group)
  {
    var n := |group| - 1;
    assert group == group[..n] + [group[n]];
    if n > 0 {
      SpanMeans(group[..n]);
    }
  }

  /** Object.fromEntries: a repeated provider would keep only its last member. */
  function Providers(e: Event, group: seq<Event>, c: Canon): map<string, Member> {
    if group == [] then map[]
    else
      var n := |group| - 1;
      var x := group[n];
      Providers(e, group[..n], c)[x.provider := Member(x.eventId, x.startsAt, TeamA(e, c) != TeamA(x, c))]
  }

  function TournamentNames(group: seq<Event>, c: Canon): set<string> {
    set x | x in group :: c.tournament(x.tournament, x.esport)
  }

  function Compared(group: seq<Event>, c: Canon): Comparison
    requires group != [] && Timed(group)
  {
    var e := group[0];
    var same := |TournamentNames(group, c)| == 1;
    SpanMeans(group);
    Comparison(e.esport, c.tournament(e.tournament, e.esport), e.startsAt, same,
               if same then 1.0 else 0.9, Latest(group) - Earliest(group), Providers(e, group, c))
  }

  datatype Reason = Ambiguous | TimeOrStatusMismatch | NoTeamPair

  datatype Unmatched = Unmatched(key: Key, reason: Reason)

  predicate HasNamesake(x: Event, all: seq<Event>, c: Canon) {
    exists f :: f in all && f.provider != x.provider && f.esport == x.esport && SamePair(f, x, c)
  }

  function ReasonFor(x: Event, size: nat, all: seq<Event>, conflicts: set<Key>, c: Canon): Reason {
    if size > 1 || KeyOf(x) in conflicts then Ambiguous
    else if HasNamesake(x, all, c) then TimeOrStatusMismatch
    else NoTeamPair
  }

  function Rejected(group: seq<Event>, size: nat, all: seq<Event>, conflicts: set<Key>, c: Canon): seq<Unmatched> {
    if group == [] then []
    else
      var n := |group| - 1;
      Rejected(group[..n], size, all, conflicts, c)
      + [Unmatched(KeyOf(group[n]), ReasonFor(group[n], size, all, conflicts, c))]
  }

  lemma {:induction false} ValidTimed(group: seq<Event>, conflicts: set<Key>, c: Canon)
    requires Valid(group, conflicts, c)
    ensures Timed(group)
  {
    forall x | x in group ensures x.startsAt.Some? {
      var i :| 0 <= i < |group| && group[i] == x;
      assert if i == 0 then Eligible(x, group[1], c) else Eligible(group[0], x, c);
    }
  }

  ghost function Matches(groups: seq<seq<Event>>, conflicts: set<Key>, c: Canon): seq<Comparison> {
    if groups == [] then []
    else
      var before, g := Matches(groups[..|groups| - 1], conflicts, c), groups[|groups| - 1];
      if Valid(g, conflicts, c) then ValidTimed(g, conflicts, c); before + [Compared(g, c)] else before
  }

  ghost function Rejections(groups: seq<seq<Event>>, all: seq<Event>, conflicts: set<Key>, c: Canon): seq<Unmatched> {
    if groups == [] then []
    else
      var before, g := Rejections(groups[..|groups| - 1], all, conflicts, c), groups[|groups| - 1];
      if Valid(g, conflicts, c) then before else before + Rejected(g, |g|, all, conflicts, c)
  }

  datatype Outcome = Outcome(matched: seq<Comparison>, unmatched: seq<Unmatched>, notApplicable: seq<Key>)

  /** Events of an esport that at least two providers list. */
  function Contested(unique: seq<Event>, cov: Coverage): seq<Event> {
    if unique == [] then []
    else
      var before, x := Contested(unique[..|unique| - 1], cov), unique[|unique| - 1];
      if |cov(x.esport)| >= 2 then before + [x] else before
  }

  function Uncontested(unique: seq<Event>, cov: Coverage): seq<Key> {
    if unique == [] then []
    else
      var before, x := Uncontested(unique[..|unique| - 1], cov), unique[|unique| - 1];
      if |cov(x.esport)| < 2 then before + [KeyOf(x)] else before
  }

  lemma {:induction false} ContestedMeans(unique: seq<Event>, cov: Coverage)
    requires DistinctKeys(unique)
    ensures forall x :: x in Contested(unique, cov) <==> x in unique && |cov(x.esport)| >= 2
    ensures DistinctKeys(Contested(unique, cov))
  {
    if unique != [] {
      var n := |unique| - 1;
      assert unique == unique[..n] + [unique[n]];
      ContestedMeans(unique[..n], cov);
    }
  }

  /** The result of `compareAllProviders`, as a function of its input. */
  ghost function Compare(events: seq<Event>, cov: Coverage, c: Canon): Outcome {
    var got := Collect(events, cov);
    var all := Contested(got.unique, cov);
    CollectSound(events, cov);
    ContestedMeans(got.unique, cov);
    var groups := Groups(all, c);
    Outcome(Matches(groups, got.conflicts, c), Rejections(groups, all, got.conflicts, c), Uncontested(got.unique, cov))
  }

  /** matching.ts, `compareAllProviders`. */
  method CompareAllProviders(events: seq<Event>, cov: Coverage, c: Canon) returns (r: Outcome)
    ensures r == Compare(events, cov, c)
  {
    var got := CollectEvents(events, cov);
    CollectSound(events, cov);
    ContestedMeans(got.unique, cov);
    var matched, unmatched := MatchListing(Contested(got.unique, cov), got.conflicts, c);
    r := Outcome(matched, unmatched, Uncontested(got.unique, cov));
  }

  /** Its main loop, over the deduplicated listing. */
  method MatchListing(all: seq<Event>, conflicts: set<Key>, c: Canon)
    returns (matched: seq<Comparison>, unmatched: seq<Unmatched>)
    requires DistinctKeys(all)
    ensures matched == Matches(Groups(all, c), conflicts, c)
    ensures unmatched == Rejections(Groups(all, c), all, conflicts, c)
  {
    matched, unmatched := [], [];
    var seen: set<Key> := {};
    ghost var groups: seq<seq<Event>> := [];
    for p := 0 to |all|
      invariant groups + GroupsFrom(all, p, seen, c) == Groups(all, c)
      invariant matched == Matches(groups, conflicts, c)
      invariant unmatched == Rejections(groups, all, conflicts, c)
    {
      if KeyOf(all[p]) !in seen {
        var group, after := GrowGroup(all[p], all, seen, c);
        matched, unmatched := JudgeGroup(group, all, conflicts, c, matched, unmatched, groups);
        groups, seen := groups + [group], after;
      }
    }
    GroupsFromEnd(groups, all, seen, c);
  }

  lemma {:induction false} GroupsFromEnd(groups: seq<seq<Event>>, all: seq<Event>, seen: set<Key>, c: Canon)
    requires DistinctKeys(all)
    ensures groups + GroupsFrom(all, |all|, seen, c) == groups
  {
  }

  /** One finished group is either compared or its members are all rejected. */
  method JudgeGroup(group: seq<Event>, all: seq<Event>, conflicts: set<Key>, c: Canon,
                    matched: seq<Comparison>, unmatched: seq<Unmatched>, ghost groups: seq<seq<Event>>)
    returns (m: seq<Comparison>, u: seq<Unmatched>)
    requires matched == Matches(groups, conflicts, c)
    requires unmatched == Rejections(groups, all, conflicts, c)
    ensures m == Matches(groups + [group], conflicts, c)
    ensures u == Rejections(groups + [group], all, conflicts, c)
  {
    m, u := matched, unmatched;
    assert (groups + [group])[..|groups|] == groups;
    var valid := IsValid(group, conflicts, c);
    if valid {
      ValidTimed(group, conflicts, c);
      m := m + [Compared(group, c)];
    } else {
      var rejected := RejectGroup(group, all, conflicts, c);
      u := u + rejected;
    }
  }

  method RejectGroup(group: seq<Event>, all: seq<Event>, conflicts: set<Key>, c: Canon)
    returns (r: seq<Unmatched>)
    ensures r == Rejected(group, |group|, all, conflicts, c)
  {
    r := [];
    for i := 0 to |group|
      invariant r == Rejected(group[..i], |group|, all, conflicts, c)
    {
      assert group[..i + 1][..i] == group[..i];
      r := r + [Unmatched(KeyOf(group[i]), ReasonFor(group[i], |group|, all, conflicts, c))];
    }
    assert group[..|group|] == group;
  }
}
