/** What the matcher's answer means in terms of the listed events (matching.ts). */
module MatchingMeaning {
  import opened Domain
  import opened TeamNames
  import opened Matching
  import opened MatchingLaws

  // --- Pairs -----------------------------------------------------------------

  /** Not yet under way by the event's own account. */
  predicate Upcoming(e: Event) {
    match e.status
    case Scheduled => true
    case Suspended => e.inPlay != Some(true) && e.startsAt.Some? && e.fetchedAt.Some? && e.fetchedAt.value < e.startsAt.value
    case _ => false
  }

  /** Both starts are known and at most so many milliseconds apart. */
  predicate Within(e: Event, f: Event, ms: int) {
    e.startsAt.Some? && f.startsAt.Some? && -ms <= e.startsAt.value - f.startsAt.value <= ms
  }

  ghost predicate SameCompetition(e: Event, f: Event, c: Canon) {
    c.tournament(e.tournament, e.esport) == c.tournament(f.tournament, f.esport)
  }

  /** Two listings are of one fixture when different providers list it for one esport,
      both before it begins, and either the teams are the same two and the starts are equal
      or, in one competition, within five minutes; or, in one competition and within five
      minutes, one side is equal and the other is spelled similarly. */
  lemma {:induction false} EligibleMeans(e: Event, f: Event, c: Canon)
    ensures Eligible(e, f, c) <==>
              && e.provider != f.provider && e.esport == f.esport && Upcoming(e) && Upcoming(f)
              && var a, b, p, q := c.team(e.teamA, e.esport), c.team(e.teamB, e.esport), c.team(f.teamA, e.esport), c.team(f.teamB, e.esport);
                 || (multiset{a, b} == multiset{p, q} && Within(e, f, 0))
                 || (multiset{a, b} == multiset{p, q} && Within(e, f, 300_000) && SameCompetition(e, f, c))
                 || (multiset{a, b} != multiset{p, q} && Within(e, f, 300_000) && SameCompetition(e, f, c)
                     && ((a == p && Similar(b, q)) || (a == q && Similar(b, p))))
  {
    PairsAreBags(c.team(e.teamA, e.esport), c.team(e.teamB, e.esport), c.team(f.teamA, f.esport), c.team(f.teamB, f.esport));
  }

  lemma {:induction false} PairsAreBags<T>(a: T, b: T, p: T, q: T)
    ensures multiset{a, b} == multiset{p, q} <==> (a == p && b == q) || (a == q && b == p)
  {
    if multiset{a, b} == multiset{p, q} {
      assert a in multiset{p, q} && b in multiset{p, q} && p in multiset{a, b} && q in multiset{a, b};
      assert multiset{a, b}[a] == multiset{p, q}[a];
    }
  }

  // --- Matched events --------------------------------------------------------

  /** The events are one per provider, and each is of one fixture with every later one. */
  ghost predicate Agreeing(g: seq<Event>, c: Canon) {
    forall i, j :: 0 <= i < j < |g| ==> g[i].provider != g[j].provider && Eligible(g[i], g[j], c)
  }

  /** The event is listed by a covered provider, never with other content. */
  ghost predicate Undisputed(events: seq<Event>, cov: Coverage, x: Event) {
    x in events && Covered(x, cov) && forall y :: y in events && Covered(y, cov) && KeyOf(y) == KeyOf(x) ==> y == x
  }

  lemma {:induction false} ValidMeans(g: seq<Event>, events: seq<Event>, cov: Coverage, c: Canon)
    requires Valid(g, Collect(events, cov).conflicts, c) && forall x :: x in g ==> x in events && Covered(x, cov)
    ensures Agreeing(g, c) && forall x :: x in g ==> Undisputed(events, cov, x)
  {
    ProviderCount(g);
    CollectConflicts(events, cov);
    forall x, y | x in g && y in events && Covered(y, cov) && KeyOf(y) == KeyOf(x) ensures y == x {
      assert !Disagree(events, cov, x, y);
    }
  }

  /** Every reported match compares a group of undisputed events, one per provider and any
      two of one fixture as above, and says of it what `WellFormed` lists. */
  lemma {:induction false} MatchMeans(events: seq<Event>, cov: Coverage, c: Canon, m: Comparison)
    returns (g: seq<Event>)
    requires m in Compare(events, cov, c).matched
    ensures WellFormed(m, g, c) && Agreeing(g, c) && forall x :: x in g ==> Undisputed(events, cov, x)
  {
    g := MatchedGroups(events, cov, c, m);
    ValidMeans(g, events, cov, c);
  }

  // --- Unmatched events ------------------------------------------------------

  /** The key was observed twice with different content. */
  ghost predicate Disputed(events: seq<Event>, cov: Coverage, k: Key) {
    exists e, f :: e in events && f in events && Covered(e, cov) && Covered(f, cov) && KeyOf(e) == k && KeyOf(f) == k && e != f
  }

  /** The events to compare: of every covered key the last observation, where at least two
      providers cover its esport. */
  ghost predicate Compares(events: seq<Event>, cov: Coverage, x: Event) {
    x in Collect(events, cov).unique && |cov(x.esport)| >= 2
  }

  /** Another provider lists the same two teams for the same esport. */
  ghost predicate Named(events: seq<Event>, cov: Coverage, c: Canon, x: Event) {
    exists f :: Compares(events, cov, f) && f.provider != x.provider && f.esport == x.esport
                && multiset{c.team(f.teamA, f.esport), c.team(f.teamB, f.esport)} == multiset{c.team(x.teamA, x.esport), c.team(x.teamB, x.esport)}
  }

  /** An event of a rejected group and the reason it is given. */
  ghost predicate RejectedFor(events: seq<Event>, cov: Coverage, c: Canon, g: seq<Event>, x: Event, reason: Reason) {
    && x in g && (forall y :: y in g ==> Compares(events, cov, y))
    && (reason == Ambiguous <==> |g| > 1 || Disputed(events, cov, KeyOf(x)))
    && (reason == TimeOrStatusMismatch <==> |g| == 1 && !Disputed(events, cov, KeyOf(x)) && Named(events, cov, c, x))
    && (reason == NoTeamPair <==> |g| == 1 && !Disputed(events, cov, KeyOf(x)) && !Named(events, cov, c, x))
  }

  lemma {:induction false} DisputedIff(events: seq<Event>, cov: Coverage, k: Key)
    ensures k in Collect(events, cov).conflicts <==> Disputed(events, cov, k)
  {
    CollectConflicts(events, cov);
    if k in Collect(events, cov).conflicts {
      var e, f :| Disagree(events, cov, e, f) && KeyOf(e) == k;
      assert KeyOf(f) == k;
    }
    if Disputed(events, cov, k) {
      var e, f :| e in events && f in events && Covered(e, cov) && Covered(f, cov) && KeyOf(e) == k && KeyOf(f) == k && e != f;
      assert Disagree(events, cov, e, f);
    }
  }

  lemma {:induction false} NamedIff(events: seq<Event>, cov: Coverage, c: Canon, x: Event)
    ensures HasNamesake(x, Contested(Collect(events, cov).unique, cov), c) <==> Named(events, cov, c, x)
  {
    var got := Collect(events, cov);
    CollectSound(events, cov);
    ContestedMeans(got.unique, cov);
    forall f ensures SamePair(f, x, c) <==>
      multiset{c.team(f.teamA, f.esport), c.team(f.teamB, f.esport)} == multiset{c.team(x.teamA, x.esport), c.team(x.teamB, x.esport)}
    {
      PairsAreBags(c.team(f.teamA, f.esport), c.team(f.teamB, f.esport), c.team(x.teamA, x.esport), c.team(x.teamB, x.esport));
    }
  }

  lemma {:induction false} RejectedOf(group: seq<Event>, size: nat, all: seq<Event>, conflicts: set<Key>, c: Canon, u: Unmatched)
    requires u in Rejected(group, size, all, conflicts, c)
    ensures exists x :: x in group && u.key == KeyOf(x) && u.reason == ReasonFor(x, size, all, conflicts, c)
  {
    var n := |group| - 1;
    assert group == group[..n] + [group[n]];
    if u in Rejected(group[..n], size, all, conflicts, c) { RejectedOf(group[..n], size, all, conflicts, c, u); }
  }

  lemma {:induction false} RejectionOf(groups: seq<seq<Event>>, all: seq<Event>, conflicts: set<Key>, c: Canon, u: Unmatched)
    returns (g: seq<Event>, x: Event)
    requires u in Rejections(groups, all, conflicts, c)
    ensures g in groups && x in g && u.key == KeyOf(x) && u.reason == ReasonFor(x, |g|, all, conflicts, c)
  {
    var n := |groups| - 1;
    assert groups == groups[..n] + [groups[n]];
    if u in Rejections(groups[..n], all, conflicts, c) {
      g, x := RejectionOf(groups[..n], all, conflicts, c, u);
    } else {
      g := groups[n];
      RejectedOf(g, |g|, all, conflicts, c, u);
      x :| x in g && u.key == KeyOf(x) && u.reason == ReasonFor(x, |g|, all, conflicts, c);
    }
  }

  /** Every unmatched event carries its reason: ambiguous iff its group has others or its
      key is disputed; a time or status mismatch iff it is alone and undisputed and another
      provider lists the same two teams; no team pair iff none does. */
  lemma {:induction false} UnmatchedReasons(events: seq<Event>, cov: Coverage, c: Canon, u: Unmatched)
    requires u in Compare(events, cov, c).unmatched
    ensures exists g: seq<Event>, x: Event :: KeyOf(x) == u.key && RejectedFor(events, cov, c, g, x, u.reason)
  {
    var got := Collect(events, cov);
    var all := Contested(got.unique, cov);
    CollectSound(events, cov);
    ContestedMeans(got.unique, cov);
    var groups := Groups(all, c);
    GroupsPartition(all, 0, {}, c);
    var g, x := RejectionOf(groups, all, got.conflicts, c, u);
    forall y | y in g ensures Compares(events, cov, y) { FlatMember(groups, y); }
    DisputedIff(events, cov, KeyOf(x));
    NamedIff(events, cov, c, x);
    assert |g| >= 1;
    assert RejectedFor(events, cov, c, g, x, u.reason);
  }

  // --- Events that are not compared ------------------------------------------

  lemma {:induction false} UncontestedMeans(unique: seq<Event>, cov: Coverage, k: Key)
    ensures k in Uncontested(unique, cov) <==> exists x :: x in unique && KeyOf(x) == k && |cov(x.esport)| < 2
  {
    if unique != [] {
      var n := |unique| - 1;
      assert unique == unique[..n] + [unique[n]];
      UncontestedMeans(unique[..n], cov, k);
    }
  }

  /** Matching does not apply to a key iff its last covered observation is of an esport
      that fewer than two providers cover. */
  lemma {:induction false} NotApplicableMeans(events: seq<Event>, cov: Coverage, c: Canon, k: Key)
    ensures k in Compare(events, cov, c).notApplicable <==>
              exists p :: LastOf(events, cov, p) && KeyOf(events[p]) == k && |cov(events[p].esport)| < 2
  {
    var unique := Collect(events, cov).unique;
    UncontestedMeans(unique, cov, k);
    if x :| x in unique && KeyOf(x) == k && |cov(x.esport)| < 2 { var p := KeptIsLast(events, cov, x); }
    if p :| LastOf(events, cov, p) && KeyOf(events[p]) == k && |cov(events[p].esport)| < 2 { CollectKeepsLast(events, cov, p); }
  }

  lemma {:induction false} KeptIsLast(events: seq<Event>, cov: Coverage, x: Event) returns (p: nat)
    requires x in Collect(events, cov).unique
    ensures LastOf(events, cov, p) && events[p] == x
  {
    CollectSound(events, cov);
    var i :| 0 <= i < |events| && events[i] == x;
    p := LastPosition(events, cov, i);
    CollectKeepsLast(events, cov, p);
    SameKeySameEvent(Collect(events, cov).unique, x, events[p]);
  }
}
