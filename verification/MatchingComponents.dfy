/** Under symmetric eligibility the worklist groups are the connected components
    of the eligibility graph, so the answer does not depend on the input order.
    One pair of listings with a team on opposite sides breaks both. */
module MatchingComponents {
  import opened Domain
  import opened TeamNames
  import opened Matching
  import opened MatchingLaws

  function Elements(s: seq<Event>): set<Event> { set x | x in s }

  // --- Connected components --------------------------------------------------

  ghost predicate Linked(p: seq<Event>, S: set<Event>, c: Canon) {
    && (forall x :: x in p ==> x in S)
    && (forall k :: 0 <= k < |p| - 1 ==> Eligible(p[k], p[k + 1], c))
  }

  ghost predicate PathBetween(p: seq<Event>, S: set<Event>, e: Event, f: Event, c: Canon) {
    p != [] && Linked(p, S, c) && p[0] == e && p[|p| - 1] == f
  }

  ghost predicate Connected(S: set<Event>, e: Event, f: Event, c: Canon) {
    exists p :: PathBetween(p, S, e, f, c)
  }

  ghost function Component(S: set<Event>, e: Event, c: Canon): set<Event> {
    set f | f in S && Connected(S, e, f, c)
  }

  ghost predicate Symmetric(S: set<Event>, c: Canon) {
    forall e, f :: e in S && f in S ==> (Eligible(e, f, c) <==> Eligible(f, e, c))
  }

  lemma {:induction false} ConnectedStep(S: set<Event>, e: Event, f: Event, g: Event, c: Canon)
    requires Connected(S, e, f, c) && g in S && Eligible(f, g, c)
    ensures Connected(S, e, g, c)
  {
    var p :| PathBetween(p, S, e, f, c);
    assert PathBetween(p + [g], S, e, g, c);
  }

  lemma {:induction false} ConnectedSelf(S: set<Event>, e: Event, c: Canon)
    requires e in S
    ensures Connected(S, e, e, c)
  {
    assert PathBetween([e], S, e, e, c);
  }

  /** A set no edge leaves holds everything connected to its members. */
  lemma {:induction false} ClosedHoldsPath(T: set<Event>, S: set<Event>, p: seq<Event>, c: Canon)
    requires p != [] && Linked(p, S, c) && p[0] in T
    requires forall x, y :: x in T && y in S && Eligible(x, y, c) ==> y in T
    ensures p[|p| - 1] in T
  {
    if |p| > 1 {
      var n := |p| - 1;
      assert Linked(p[..n], S, c);
      ClosedHoldsPath(T, S, p[..n], c);
      assert Eligible(p[n - 1], p[n], c);
    }
  }

  lemma {:induction false} PathReverses(S: set<Event>, p: seq<Event>, c: Canon)
    requires Symmetric(S, c) && p != [] && Linked(p, S, c)
    ensures Connected(S, p[|p| - 1], p[0], c)
  {
    if |p| == 1 {
      ConnectedSelf(S, p[0], c);
    } else {
      var q := p[1..];
      assert Linked(q, S, c) by {
        forall k | 0 <= k < |q| - 1 ensures Eligible(q[k], q[k + 1], c) { assert Eligible(p[k + 1], p[k + 2], c); }
      }
      PathReverses(S, q, c);
      assert Eligible(p[0], p[1], c);
      ConnectedStep(S, p[|p| - 1], p[1], p[0], c);
    }
  }

  lemma {:induction false} ConnectedTransitive(S: set<Event>, e: Event, f: Event, g: Event, c: Canon)
    requires Connected(S, e, f, c) && Connected(S, f, g, c)
    ensures Connected(S, e, g, c)
  {
    var p :| PathBetween(p, S, e, f, c);
    var q :| PathBetween(q, S, f, g, c);
    var r := p + q[1..];
    forall k | 0 <= k < |r| - 1 ensures Eligible(r[k], r[k + 1], c) {
      if k < |p| - 1 {
        assert r[k] == p[k] && r[k + 1] == p[k + 1];
      } else {
        assert r[k] == q[k - |p| + 1] && r[k + 1] == q[k - |p| + 2];
      }
    }
    assert PathBetween(r, S, e, g, c);
  }

  /** Members of one component have the same component. */
  lemma {:induction false} ComponentOfMember(S: set<Event>, e: Event, f: Event, c: Canon)
    requires Symmetric(S, c) && e in S && f in Component(S, e, c)
    ensures Component(S, f, c) == Component(S, e, c)
  {
    var p :| PathBetween(p, S, e, f, c);
    PathReverses(S, p, c);
    forall g | g in S
      ensures Connected(S, e, g, c) <==> Connected(S, f, g, c)
    {
      if Connected(S, e, g, c) { ConnectedTransitive(S, f, e, g, c); }
      if Connected(S, f, g, c) { ConnectedTransitive(S, e, f, g, c); }
    }
  }

  // --- Groups are components -------------------------------------------------

  lemma {:induction false} MemberReachable(e: Event, all: seq<Event>, seen: set<Key>, c: Canon, k: nat)
    requires DistinctKeys(all) && e in all && KeyOf(e) !in seen && k < |Group(e, all, seen, c)|
    ensures Connected(Elements(all), e, Group(e, all, seen, c)[k], c)
    decreases k
  {
    var g := Group(e, all, seen, c);
    GroupLaws(e, all, seen, c);
    if k == 0 {
      ConnectedSelf(Elements(all), e, c);
    } else {
      assert FoundEarlier(g, 0, k, c);
      var j :| 0 <= j < k && Eligible(g[j], g[k], c);
      MemberReachable(e, all, seen, c, j);
      assert g[k] in Elements(all);
      ConnectedStep(Elements(all), e, g[j], g[k], c);
    }
  }

  /** Nothing seen is eligible with anything unseen. */
  ghost predicate SeenClosed(all: seq<Event>, seen: set<Key>, c: Canon) {
    forall x, y :: x in all && y in all && KeyOf(x) in seen && Eligible(x, y, c) ==> KeyOf(y) in seen
  }

  lemma {:induction false} SeenStaysClosed(e: Event, all: seq<Event>, seen: set<Key>, c: Canon)
    requires DistinctKeys(all) && e in all && KeyOf(e) !in seen && SeenClosed(all, seen, c)
    ensures SeenClosed(all, seen + Keys(Group(e, all, seen, c)), c)
  {
    var g := Group(e, all, seen, c);
    GroupLaws(e, all, seen, c);
    forall x, y | x in all && y in all && KeyOf(x) in seen + Keys(g) && Eligible(x, y, c)
      ensures KeyOf(y) in seen + Keys(g)
    {
      if KeyOf(x) !in seen {
        var z :| z in g && KeyOf(z) == KeyOf(x);
        SameKeySameEvent(all, x, z);
      }
    }
  }

  lemma {:induction false} GroupIsComponent(e: Event, all: seq<Event>, seen: set<Key>, c: Canon)
    requires DistinctKeys(all) && e in all && KeyOf(e) !in seen && SeenClosed(all, seen, c)
    requires Symmetric(Elements(all), c)
    ensures Elements(Group(e, all, seen, c)) == Component(Elements(all), e, c)
  {
    var g, S := Group(e, all, seen, c), Elements(all);
    GroupLaws(e, all, seen, c);
    forall f | f in g ensures f in Component(S, e, c) {
      var k :| 0 <= k < |g| && g[k] == f;
      MemberReachable(e, all, seen, c, k);
    }
    GroupClosed(e, all, seen, c);
    forall f | f in Component(S, e, c) ensures f in g {
      var p :| PathBetween(p, S, e, f, c);
      assert g[0] in Elements(g);
      ClosedHoldsPath(Elements(g), S, p, c);
    }
  }

  lemma {:induction false} GroupClosed(e: Event, all: seq<Event>, seen: set<Key>, c: Canon)
    requires DistinctKeys(all) && e in all && KeyOf(e) !in seen && SeenClosed(all, seen, c)
    requires Symmetric(Elements(all), c)
    ensures forall x, y :: x in Elements(Group(e, all, seen, c)) && y in Elements(all) && Eligible(x, y, c)
                           ==> y in Elements(Group(e, all, seen, c))
  {
    var g := Group(e, all, seen, c);
    GroupLaws(e, all, seen, c);
    forall x, y | x in Elements(g) && y in Elements(all) && Eligible(x, y, c)
      ensures y in g
    {
      assert x in Elements(all);
      assert Eligible(y, x, c);
    }
  }

  lemma {:induction false} GroupsAreComponents(all: seq<Event>, p: nat, seen: set<Key>, c: Canon, g: seq<Event>)
    requires DistinctKeys(all) && p <= |all| && SeenClosed(all, seen, c)
    requires Symmetric(Elements(all), c) && g in GroupsFrom(all, p, seen, c)
    ensures g != [] && DistinctKeys(g) && g[0] in all && Elements(g) == Component(Elements(all), g[0], c)
    decreases |all| - p
  {
    if KeyOf(all[p]) in seen {
      GroupsAreComponents(all, p + 1, seen, c, g);
    } else {
      var first := Group(all[p], all, seen, c);
      if g == first {
        GroupLaws(all[p], all, seen, c);
        GroupIsComponent(all[p], all, seen, c);
      } else {
        SeenStaysClosed(all[p], all, seen, c);
        GroupsAreComponents(all, p + 1, seen + Keys(first), c, g);
      }
    }
  }

  ghost function Components(S: set<Event>, c: Canon): set<set<Event>> {
    set e | e in S :: Component(S, e, c)
  }

  /** The groups, as sets, are exactly the connected components. */
  lemma {:induction false} GroupSetsAreComponents(all: seq<Event>, c: Canon)
    requires DistinctKeys(all) && Symmetric(Elements(all), c)
    ensures (set g | g in Groups(all, c) :: Elements(g)) == Components(Elements(all), c)
  {
    var S, groups := Elements(all), Groups(all, c);
    forall g | g in groups ensures Elements(g) in Components(S, c) {
      GroupsAreComponents(all, 0, {}, c, g);
    }
    forall e | e in S ensures exists g :: g in groups && Elements(g) == Component(S, e, c) {
      var g := GroupOf(all, c, e);
    }
  }

  lemma {:induction false} GroupOf(all: seq<Event>, c: Canon, e: Event) returns (g: seq<Event>)
    requires DistinctKeys(all) && Symmetric(Elements(all), c) && e in all
    ensures g in Groups(all, c) && e in g && DistinctKeys(g)
    ensures Elements(g) == Component(Elements(all), e, c)
  {
    GroupsPartition(all, 0, {}, c);
    FlatMember(Groups(all, c), e);
    g :| g in Groups(all, c) && e in g;
    GroupsAreComponents(all, 0, {}, c, g);
    ComponentOfMember(Elements(all), g[0], e, c);
  }

  // --- Verdicts depend on the component only ---------------------------------

  ghost predicate ValidSet(T: set<Event>, conflicts: set<Key>, c: Canon) {
    && |T| > 1
    && (forall x :: x in T ==> KeyOf(x) !in conflicts)
    && (forall x, y :: x in T && y in T && x != y ==> Eligible(x, y, c))
  }

  lemma {:induction false} ElementsCount(s: seq<Event>)
    requires DistinctKeys(s)
    ensures |Elements(s)| == |s|
  {
    if s != [] {
      var n := |s| - 1;
      ElementsCount(s[..n]);
      assert s == s[..n] + [s[n]];
      assert Elements(s) == Elements(s[..n]) + {s[n]};
      assert s[n] !in s[..n];
    }
  }

  /** A component is matched iff it is a clique of at least two events without
      conflicting observations; eligibility makes the providers distinct. */
  lemma {:induction false} ValidIsSetProperty(g: seq<Event>, conflicts: set<Key>, c: Canon)
    requires DistinctKeys(g) && Symmetric(Elements(g), c)
    ensures Valid(g, conflicts, c) <==> ValidSet(Elements(g), conflicts, c)
  {
    ElementsCount(g);
    ProviderCount(g);
    if Valid(g, conflicts, c) {
      forall x, y | x in g && y in g && x != y ensures Eligible(x, y, c) {
        var i :| 0 <= i < |g| && g[i] == x;
        var j :| 0 <= j < |g| && g[j] == y;
        if i < j { assert Eligible(g[i], g[j], c); } else { assert Eligible(g[j], g[i], c); }
        assert x in Elements(g) && y in Elements(g);
      }
    }
    if ValidSet(Elements(g), conflicts, c) {
      forall i, j | 0 <= i < j < |g| ensures Eligible(g[i], g[j], c) {
        assert g[i] in Elements(g) && g[j] in Elements(g);
      }
      assert PairwiseProviders(g) by {
        forall i, j | 0 <= i < j < |g| ensures g[i].provider != g[j].provider {
          assert Eligible(g[i], g[j], c);
        }
      }
    }
  }

  ghost function KeySet(T: set<Event>): set<Key> { set x | x in T :: KeyOf(x) }

  /** The matched groups, each as the set of provider events it joins. */
  function MatchedSets(o: Outcome): set<set<Key>> { set m | m in o.matched :: MemberKeys(m) }

  function UnmatchedSet(us: seq<Unmatched>): set<Unmatched> { set u | u in us }

  ghost function MatchedFrom(S: set<Event>, conflicts: set<Key>, c: Canon): set<set<Key>> {
    set T | T in Components(S, c) && ValidSet(T, conflicts, c) :: KeySet(T)
  }

  ghost predicate Namesake(x: Event, S: set<Event>, c: Canon) {
    exists f :: f in S && f.provider != x.provider && f.esport == x.esport && SamePair(f, x, c)
  }

  ghost function ReasonIn(x: Event, S: set<Event>, conflicts: set<Key>, c: Canon): Reason {
    if |Component(S, x, c)| > 1 || KeyOf(x) in conflicts then Ambiguous
    else if Namesake(x, S, c) then TimeOrStatusMismatch
    else NoTeamPair
  }

  ghost function UnmatchedFrom(S: set<Event>, conflicts: set<Key>, c: Canon): set<Unmatched> {
    set x | x in S && !ValidSet(Component(S, x, c), conflicts, c) :: Unmatched(KeyOf(x), ReasonIn(x, S, conflicts, c))
  }

  lemma {:induction false} MatchedByComponents(all: seq<Event>, conflicts: set<Key>, c: Canon)
    requires DistinctKeys(all) && Symmetric(Elements(all), c)
    ensures (set m | m in Matches(Groups(all, c), conflicts, c) :: MemberKeys(m)) == MatchedFrom(Elements(all), conflicts, c)
  {
    var S, groups := Elements(all), Groups(all, c);
    var ms := Matches(groups, conflicts, c);
    GroupSetsAreComponents(all, c);
    forall m | m in ms ensures MemberKeys(m) in MatchedFrom(S, conflicts, c) {
      MatchesComeFromGroups(groups, conflicts, c, m);
      var g :| g in groups && ComparesGroup(m, g, conflicts, c);
      MatchedGroupKeys(all, conflicts, c, g);
      assert Elements(g) in Components(S, c);
    }
    forall T | T in Components(S, c) && ValidSet(T, conflicts, c)
      ensures exists m :: m in ms && MemberKeys(m) == KeySet(T)
    {
      var g :| g in groups && Elements(g) == T;
      MatchedGroupKeys(all, conflicts, c, g);
      MatchesComeFromGroups(groups, conflicts, c, Compared(g, c));
      assert ComparesGroup(Compared(g, c), g, conflicts, c);
    }
  }

  lemma {:induction false} MatchedGroupKeys(all: seq<Event>, conflicts: set<Key>, c: Canon, g: seq<Event>)
    requires DistinctKeys(all) && Symmetric(Elements(all), c) && g in Groups(all, c)
    ensures Valid(g, conflicts, c) <==> ValidSet(Elements(g), conflicts, c)
    ensures Valid(g, conflicts, c) ==> g != [] && Timed(g) && MemberKeys(Compared(g, c)) == KeySet(Elements(g))
  {
    GroupsAreComponents(all, 0, {}, c, g);
    assert Elements(g) <= Elements(all);
    ValidIsSetProperty(g, conflicts, c);
    if Valid(g, conflicts, c) {
      ValidTimed(g, conflicts, c);
      ComparedKeys(g, c);
      assert Keys(g) == KeySet(Elements(g));
    }
  }

  lemma {:induction false} RejectedMember(group: seq<Event>, size: nat, all: seq<Event>, conflicts: set<Key>, c: Canon, u: Unmatched)
    ensures u in Rejected(group, size, all, conflicts, c)
            <==> exists x :: x in group && u == Unmatched(KeyOf(x), ReasonFor(x, size, all, conflicts, c))
  {
    if group != [] {
      var n := |group| - 1;
      assert group == group[..n] + [group[n]];
      RejectedMember(group[..n], size, all, conflicts, c, u);
    }
  }

  lemma {:induction false} RejectionsMember(groups: seq<seq<Event>>, all: seq<Event>, conflicts: set<Key>, c: Canon, u: Unmatched)
    ensures u in Rejections(groups, all, conflicts, c)
            <==> exists g, x :: g in groups && x in g && !Valid(g, conflicts, c)
                                && u == Unmatched(KeyOf(x), ReasonFor(x, |g|, all, conflicts, c))
  {
    if groups != [] {
      var n := |groups| - 1;
      assert groups == groups[..n] + [groups[n]];
      RejectionsMember(groups[..n], all, conflicts, c, u);
      RejectedMember(groups[n], |groups[n]|, all, conflicts, c, u);
    }
  }

  lemma {:induction false} UnmatchedByComponents(all: seq<Event>, conflicts: set<Key>, c: Canon)
    requires DistinctKeys(all) && Symmetric(Elements(all), c)
    ensures UnmatchedSet(Rejections(Groups(all, c), all, conflicts, c)) == UnmatchedFrom(Elements(all), conflicts, c)
  {
    var S, groups := Elements(all), Groups(all, c);
    var us := Rejections(groups, all, conflicts, c);
    forall u | u in us ensures u in UnmatchedFrom(S, conflicts, c) {
      RejectionsMember(groups, all, conflicts, c, u);
      var g, x :| g in groups && x in g && !Valid(g, conflicts, c)
                  && u == Unmatched(KeyOf(x), ReasonFor(x, |g|, all, conflicts, c));
      GroupsPartition(all, 0, {}, c);
      FlatMember(groups, x);
      RejectedReason(all, conflicts, c, g, x);
    }
    forall x | x in S && !ValidSet(Component(S, x, c), conflicts, c)
      ensures Unmatched(KeyOf(x), ReasonIn(x, S, conflicts, c)) in us
    {
      var g := GroupOf(all, c, x);
      RejectedReason(all, conflicts, c, g, x);
      RejectionsMember(groups, all, conflicts, c, Unmatched(KeyOf(x), ReasonIn(x, S, conflicts, c)));
    }
  }

  lemma {:induction false} RejectedReason(all: seq<Event>, conflicts: set<Key>, c: Canon, g: seq<Event>, x: Event)
    requires DistinctKeys(all) && Symmetric(Elements(all), c) && g in Groups(all, c) && x in g && x in all
    ensures Elements(g) == Component(Elements(all), x, c)
    ensures Valid(g, conflicts, c) <==> ValidSet(Component(Elements(all), x, c), conflicts, c)
    ensures ReasonFor(x, |g|, all, conflicts, c) == ReasonIn(x, Elements(all), conflicts, c)
  {
    var S := Elements(all);
    GroupsAreComponents(all, 0, {}, c, g);
    ComponentOfMember(S, g[0], x, c);
    MatchedGroupKeys(all, conflicts, c, g);
    ElementsCount(g);
    if HasNamesake(x, all, c) {
      var f :| f in all && f.provider != x.provider && f.esport == x.esport && SamePair(f, x, c);
      assert f in S;
    }
    if Namesake(x, S, c) {
      var f :| f in S && f.provider != x.provider && f.esport == x.esport && SamePair(f, x, c);
      assert f in all;
    }
  }

  // --- Order independence ----------------------------------------------------

  /** The contested events of an input without conflicting observations. */
  ghost function Subjects(events: seq<Event>, cov: Coverage): set<Event> {
    set e | e in events && Covered(e, cov) && |cov(e.esport)| >= 2
  }

  ghost predicate Consistent(events: seq<Event>, cov: Coverage) {
    forall e, f :: !Disagree(events, cov, e, f)
  }

  /** A caller's check: no two of the events to be compared have their equal team on
      opposite sides. */
  ghost predicate NoCrossedAlias(events: seq<Event>, cov: Coverage, c: Canon) {
    forall e, f :: e in Subjects(events, cov) && f in Subjects(events, cov) ==> !CrossedAlias(e, f, c)
  }

  /** The answer, as sets, is a function of the set of contested events alone. */
  lemma {:induction false} CompareByComponents(events: seq<Event>, cov: Coverage, c: Canon)
    requires Consistent(events, cov) && NoCrossedAlias(events, cov, c)
    ensures MatchedSets(Compare(events, cov, c)) == MatchedFrom(Subjects(events, cov), {}, c)
    ensures UnmatchedSet(Compare(events, cov, c).unmatched) == UnmatchedFrom(Subjects(events, cov), {}, c)
  {
    var got := Collect(events, cov);
    var all := Contested(got.unique, cov);
    CollectSound(events, cov);
    CollectConflicts(events, cov);
    ContestedMeans(got.unique, cov);
    assert got.conflicts == {};
    assert Elements(all) == Subjects(events, cov);
    forall e, f | e in Elements(all) && f in Elements(all)
      ensures Eligible(e, f, c) <==> Eligible(f, e, c)
    {
      SymmetryCondition(e, f, c);
    }
    MatchedByComponents(all, {}, c);
    UnmatchedByComponents(all, {}, c);
  }

  lemma {:induction false} UncontestedMember(unique: seq<Event>, cov: Coverage, k: Key)
    ensures k in Uncontested(unique, cov) <==> exists x :: x in unique && |cov(x.esport)| < 2 && KeyOf(x) == k
  {
    if unique != [] {
      var n := |unique| - 1;
      assert unique == unique[..n] + [unique[n]];
      UncontestedMember(unique[..n], cov, k);
    }
  }

  /** Any reordering or repetition of the same observations gives the same matched
      groups, the same unmatched events with the same reasons, and the same events
      to which matching does not apply. */
  lemma {:induction false} OrderIndependence(events: seq<Event>, other: seq<Event>, cov: Coverage, c: Canon)
    requires forall e :: e in events <==> e in other
    requires Consistent(events, cov) && NoCrossedAlias(events, cov, c)
    ensures var o, q := Compare(events, cov, c), Compare(other, cov, c);
            && MatchedSets(o) == MatchedSets(q)
            && (forall u :: u in o.unmatched <==> u in q.unmatched)
            && (forall k :: k in o.notApplicable <==> k in q.notApplicable)
  {
    ConsistentReordered(events, other, cov);
    assert Subjects(events, cov) == Subjects(other, cov);
    CompareByComponents(events, cov, c);
    CompareByComponents(other, cov, c);
    var o, q := Compare(events, cov, c), Compare(other, cov, c);
    assert forall u :: u in o.unmatched <==> u in UnmatchedSet(o.unmatched);
    assert forall u :: u in q.unmatched <==> u in UnmatchedSet(q.unmatched);
    forall k ensures k in o.notApplicable <==> k in q.notApplicable {
      SameUncontested(events, other, cov, k);
    }
  }

  lemma {:induction false} ConsistentReordered(events: seq<Event>, other: seq<Event>, cov: Coverage)
    requires forall e :: e in events <==> e in other
    requires Consistent(events, cov)
    ensures Consistent(other, cov)
  {
    forall e, f ensures !Disagree(other, cov, e, f) {
      assert !Disagree(events, cov, e, f);
    }
  }

  lemma {:induction false} SameUncontested(events: seq<Event>, other: seq<Event>, cov: Coverage, k: Key)
    requires forall e :: e in events <==> e in other
    requires Consistent(events, cov) && Consistent(other, cov)
    ensures k in Uncontested(Collect(events, cov).unique, cov) <==> k in Uncontested(Collect(other, cov).unique, cov)
  {
    SameUnique(events, other, cov);
    UncontestedMember(Collect(events, cov).unique, cov, k);
    UncontestedMember(Collect(other, cov).unique, cov, k);
  }

  lemma {:induction false} SameUnique(events: seq<Event>, other: seq<Event>, cov: Coverage)
    requires forall e :: e in events <==> e in other
    requires Consistent(events, cov) && Consistent(other, cov)
    ensures forall x :: x in Collect(events, cov).unique <==> x in Collect(other, cov).unique
  {
    CollectSound(events, cov);
    CollectSound(other, cov);
    CollectConflicts(events, cov);
    CollectConflicts(other, cov);
  }

  // --- Exactly when two listings are order-sensitive -------------------------

  /** Two contested events with different identities. */
  ghost predicate ContestedPair(e: Event, f: Event, cov: Coverage) {
    && KeyOf(e) != KeyOf(f)
    && Covered(e, cov) && Covered(f, cov)
    && |cov(e.esport)| >= 2 && |cov(f.esport)| >= 2
  }

  lemma {:induction false} PairListing(e: Event, f: Event, cov: Coverage)
    requires ContestedPair(e, f, cov)
    ensures Collect([e, f], cov) == Collected([e, f], {})
    ensures Contested([e, f], cov) == [e, f]
  {
    assert [e, f][..1] == [e] && [e][..0] == [];
    assert Collect([e], cov) == Collected([e], {});
    assert [e][1..] == [];
    assert Contested([e], cov) == [e];
  }

  lemma {:induction false} PairFound(e: Event, f: Event, c: Canon)
    requires KeyOf(e) != KeyOf(f)
    ensures Found(e, [e, f], {KeyOf(e)}, c) == if Eligible(e, f, c) then [f] else []
    ensures Found(f, [e, f], {KeyOf(e), KeyOf(f)}, c) == []
  {
    assert [e, f][..1] == [e] && [e][..0] == [];
    assert Found(e, [e], {KeyOf(e)}, c) == [];
    assert Found(f, [e], {KeyOf(e), KeyOf(f)}, c) == [];
  }

  lemma {:induction false} ExpandStep(group: seq<Event>, i: nat, all: seq<Event>, seen: set<Key>, c: Canon)
    requires DistinctKeys(all) && i < |group|
    ensures var found := Found(group[i], all, seen, c);
            Expand(group, i, all, seen, c) == Expand(group + found, i + 1, all, seen + Keys(found), c)
  {
    FoundCount(group[i], all, seen, c);
  }

  lemma {:induction false} PairGrown(e: Event, f: Event, c: Canon)
    requires KeyOf(e) != KeyOf(f) && Eligible(e, f, c)
    ensures DistinctKeys([e, f])
    ensures Group(e, [e, f], {}, c) == [e, f]
  {
    var all, s, t := [e, f], {KeyOf(e)}, {KeyOf(e), KeyOf(f)};
    PairFound(e, f, c);
    assert {} + {KeyOf(e)} == s;
    assert [e] + [f] == [e, f] && s + Keys([f]) == t;
    ExpandStep([e], 0, all, s, c);
    ExpandStep([e, f], 1, all, t, c);
    assert [e, f] + [] == [e, f];
    assert Expand([e, f], 2, all, t + Keys([]), c) == [e, f];
  }

  lemma {:induction false} LoneGroup(x: Event, all: seq<Event>, seen: set<Key>, c: Canon)
    requires DistinctKeys(all) && Found(x, all, seen + {KeyOf(x)}, c) == []
    ensures Group(x, all, seen, c) == [x]
  {
    var s := seen + {KeyOf(x)};
    ExpandStep([x], 0, all, s, c);
    assert [x] + [] == [x];
    assert Expand([x], 1, all, s + Keys([]), c) == [x];
  }

  lemma {:induction false} PairGroups(e: Event, f: Event, c: Canon)
    requires KeyOf(e) != KeyOf(f)
    ensures DistinctKeys([e, f])
    ensures Groups([e, f], c) == if Eligible(e, f, c) then [[e, f]] else [[e], [f]]
  {
    var all := [e, f];
    PairFound(e, f, c);
    if Eligible(e, f, c) {
      PairGrown(e, f, c);
      var seen := {} + Keys([e, f]);
      assert KeyOf(f) in seen;
      assert GroupsFrom(all, 1, seen, c) == [];
    } else {
      assert {} + {KeyOf(e)} == {KeyOf(e)};
      LoneGroup(e, all, {}, c);
      var seen := {} + Keys([e]);
      assert seen == {KeyOf(e)} && seen + {KeyOf(f)} == {KeyOf(e), KeyOf(f)};
      LoneGroup(f, all, seen, c);
      assert GroupsFrom(all, 2, seen + Keys([f]), c) == [];
      assert GroupsFrom(all, 1, seen, c) == [[f]];
    }
  }

  lemma {:induction false} EligiblePairMatches(e: Event, f: Event, c: Canon)
    requires KeyOf(e) != KeyOf(f) && Eligible(e, f, c)
    ensures Timed([e, f]) && Matches([[e, f]], {}, c) == [Compared([e, f], c)]
    ensures MemberKeys(Compared([e, f], c)) == {KeyOf(e), KeyOf(f)}
  {
    var g := [e, f];
    ProviderCount(g);
    assert Clique(g, c);
    assert Valid(g, {}, c);
    ValidTimed(g, {}, c);
    ComparedKeys(g, c);
    assert Keys(g) == {KeyOf(e), KeyOf(f)};
    assert [g][..0] == [];
  }

  lemma {:induction false} LonePairUnmatched(e: Event, f: Event, c: Canon)
    ensures Matches([[e], [f]], {}, c) == []
  {
    assert [[e], [f]][..1] == [[e]] && [[e]][..0] == [];
    assert Matches([[e]], {}, c) == [];
  }

  lemma {:induction false} PairOutcome(e: Event, f: Event, cov: Coverage, c: Canon)
    requires ContestedPair(e, f, cov)
    ensures MatchedSets(Compare([e, f], cov, c)) == if Eligible(e, f, c) then {{KeyOf(e), KeyOf(f)}} else {}
  {
    PairListing(e, f, cov);
    PairGroups(e, f, c);
    if Eligible(e, f, c) {
      EligiblePairMatches(e, f, c);
    } else {
      LonePairUnmatched(e, f, c);
    }
  }

  /** Reversing two listings changes the matches exactly when they are crossed. */
  lemma {:induction false} PairOrderSensitive(e: Event, f: Event, cov: Coverage, c: Canon)
    requires ContestedPair(e, f, cov)
    ensures MatchedSets(Compare([e, f], cov, c)) == MatchedSets(Compare([f, e], cov, c)) <==> !CrossedAlias(e, f, c)
  {
    PairOutcome(e, f, cov, c);
    PairOutcome(f, e, cov, c);
    SymmetryCondition(e, f, c);
    assert {KeyOf(e), KeyOf(f)} == {KeyOf(f), KeyOf(e)};
  }

  /** Two bookmakers list one match with its teams on opposite sides, one of them
      spelling the second team with a letter less. */
  function ReversedListing(provider: string, a: string, b: string): Event {
    Event(provider, "1", Cs2, a, b, "league", Some(0), Some(0), Scheduled, Some(false), "")
  }

  function PlainCanon(): Canon {
    Canon((s, g) => if s == "navi" then ["natus", "vincere"] else if s == "johny" then ["johny", "speeds"] else ["johnny", "speeds"],
          (s, g) => s)
  }

  lemma {:induction false} OneLetterMissing()
    ensures Similar(["johny", "speeds"], ["johnny", "speeds"])
  {
    var short, long := ["johny", "speeds"], ["johnny", "speeds"];
    assert short[0] == "johny" && long[0] == "johnny" && short[1] == long[1];
    assert |short[0]| == 5 && |long[0]| == 6;
    assert OnlyDifference(short, long, 0);
    assert "johnny"[..3] + "johnny"[4..] == "johny";
    assert DropsLetter("johnny", "johny", 3);
    LevOneLetter("johnny", "johny");
    LevSymmetric("johnny", "johny");
    assert OneEdit(short, long);
  }

  function BothProviders(): Coverage { g => {"betano", "blaze"} }

  lemma {:induction false} ReversedListingsCrossed()
    ensures var e, f := ReversedListing("betano", "navi", "johny"), ReversedListing("blaze", "johnny", "navi");
            Eligible(e, f, PlainCanon()) && CrossedAlias(e, f, PlainCanon())
  {
    var c := PlainCanon();
    var e, f := ReversedListing("betano", "navi", "johny"), ReversedListing("blaze", "johnny", "navi");
    OneLetterMissing();
    assert "johnny" != "navi" && "johny" != "navi" && "johnny" != "johny" by { assert |"johnny"| == 6; assert |"navi"| == 4; assert |"johny"| == 5; }
    assert TeamA(e, c) == TeamB(f, c) == ["natus", "vincere"];
    assert TeamB(e, c) == ["johny", "speeds"] && TeamA(f, c) == ["johnny", "speeds"];
    assert ["natus", "vincere"][1] == "vincere" && ["johny", "speeds"][1] == "speeds" && ["johnny", "speeds"][1] == "speeds";
    assert |"vincere"| == 7 && |"speeds"| == 6;
  }

  /** The concrete input on which the order of the listing decides the match. */
  lemma {:induction false} ReversedSidesDependOnOrder()
    ensures var e, f := ReversedListing("betano", "navi", "johny"), ReversedListing("blaze", "johnny", "navi");
            && MatchedSets(Compare([e, f], BothProviders(), PlainCanon())) == {{("betano", "1"), ("blaze", "1")}}
            && MatchedSets(Compare([f, e], BothProviders(), PlainCanon())) == {}
  {
    var e, f := ReversedListing("betano", "navi", "johny"), ReversedListing("blaze", "johnny", "navi");
    ReversedListingsCrossed();
    assert "betano" != "blaze" by { assert |"betano"| == 6; assert |"blaze"| == 5; }
    assert |{"betano", "blaze"}| == 2;
    assert ContestedPair(e, f, BothProviders()) && ContestedPair(f, e, BothProviders());
    SymmetryCondition(e, f, PlainCanon());
    PairOutcome(e, f, BothProviders(), PlainCanon());
    PairOutcome(f, e, BothProviders(), PlainCanon());
  }
}
