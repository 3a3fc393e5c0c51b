/** What the matching result means: conservation, shape of matched groups,
    connected components and independence of the input order. */
module MatchingLaws {
  import opened Domain
  import opened TeamNames
  import opened Matching

  // --- The worklist ----------------------------------------------------------

  /** A worklist state whose members are all recorded as seen. */
  ghost predicate Worklist(group: seq<Event>, all: seq<Event>, seen: set<Key>) {
    && DistinctKeys(all) && DistinctKeys(group)
    && Keys(group) <= seen
    && (forall x :: x in group ==> x in all)
  }

  lemma {:induction false} WorklistStep(group: seq<Event>, i: nat, all: seq<Event>, seen: set<Key>, c: Canon)
    requires Worklist(group, all, seen) && i < |group|
    ensures var found := Found(group[i], all, seen, c);
            Worklist(group + found, all, seen + Keys(found))
  {
    FoundMeans(group[i], all, seen, c);
    var found := Found(group[i], all, seen, c);
    assert forall x :: x in group ==> KeyOf(x) in seen;
    var grown := group + found;
    forall k, l | 0 <= k < l < |grown|
      ensures KeyOf(grown[k]) != KeyOf(grown[l])
    {
      if k < |group| <= l {
        assert grown[l] in found && grown[k] in group;
      }
    }
  }

  lemma {:induction false} ExpandExtends(group: seq<Event>, i: nat, all: seq<Event>, seen: set<Key>, c: Canon)
    requires Worklist(group, all, seen) && i <= |group|
    ensures var g := Expand(group, i, all, seen, c);
            && group <= g && DistinctKeys(g)
            && (forall x :: x in g ==> x in all)
            && (forall k :: |group| <= k < |g| ==> KeyOf(g[k]) !in seen)
    decreases UnseenCount(all, seen) + |group| - i
  {
    if i < |group| {
      var found := Found(group[i], all, seen, c);
      FoundCount(group[i], all, seen, c);
      FoundMeans(group[i], all, seen, c);
      WorklistStep(group, i, all, seen, c);
      ExpandExtends(group + found, i + 1, all, seen + Keys(found), c);
      var g := Expand(group, i, all, seen, c);
      forall k | |group| <= k < |g| ensures KeyOf(g[k]) !in seen {
        if k < |group + found| { assert g[k] == (group + found)[k] && g[k] in found; }
      }
    }
  }

  /** Some earlier member, at or after position i, found member k. */
  ghost predicate FoundEarlier(g: seq<Event>, i: nat, k: nat, c: Canon)
    requires k < |g|
  {
    exists j :: i <= j < k && Eligible(g[j], g[k], c)
  }

  lemma {:induction false} ExpandRooted(group: seq<Event>, i: nat, all: seq<Event>, seen: set<Key>, c: Canon, k: nat)
    requires Worklist(group, all, seen) && i <= |group|
    requires |group| <= k < |Expand(group, i, all, seen, c)|
    ensures FoundEarlier(Expand(group, i, all, seen, c), i, k, c)
    decreases UnseenCount(all, seen) + |group| - i
  {
    var found := Found(group[i], all, seen, c);
    var grown := group + found;
    FoundCount(group[i], all, seen, c);
    FoundMeans(group[i], all, seen, c);
    WorklistStep(group, i, all, seen, c);
    ExpandExtends(grown, i + 1, all, seen + Keys(found), c);
    var g := Expand(group, i, all, seen, c);
    assert g[i] == grown[i];
    if k < |grown| {
      assert g[k] == grown[k] && g[k] in found;
    } else {
      ExpandRooted(grown, i + 1, all, seen + Keys(found), c, k);
    }
  }

  lemma {:induction false} ExpandUnfold(group: seq<Event>, i: nat, all: seq<Event>, seen: set<Key>, c: Canon)
    requires Worklist(group, all, seen) && i < |group|
    ensures group + Found(group[i], all, seen, c) <= Expand(group, i, all, seen, c)
  {
    var found := Found(group[i], all, seen, c);
    FoundCount(group[i], all, seen, c);
    WorklistStep(group, i, all, seen, c);
    ExpandExtends(group + found, i + 1, all, seen + Keys(found), c);
  }

  /** One expansion step settles everything eligible with the expanded member. */
  lemma {:induction false} ExpandHead(group: seq<Event>, i: nat, all: seq<Event>, seen: set<Key>, c: Canon, f: Event)
    requires Worklist(group, all, seen) && i < |group|
    requires f in all && Eligible(group[i], f, c)
    ensures KeyOf(f) in seen || f in Expand(group, i, all, seen, c)
  {
    if KeyOf(f) !in seen {
      FoundMeans(group[i], all, seen, c);
      ExpandUnfold(group, i, all, seen, c);
      var found, g := Found(group[i], all, seen, c), Expand(group, i, all, seen, c);
      var k :| 0 <= k < |found| && found[k] == f;
      assert g[|group| + k] == (group + found)[|group| + k];
    }
  }

  lemma {:induction false} ExpandClosed(group: seq<Event>, i: nat, all: seq<Event>, seen: set<Key>, c: Canon, j: nat, f: Event)
    requires Worklist(group, all, seen) && i <= |group|
    requires i <= j < |Expand(group, i, all, seen, c)|
    requires f in all && Eligible(Expand(group, i, all, seen, c)[j], f, c)
    ensures KeyOf(f) in seen || f in Expand(group, i, all, seen, c)
    decreases UnseenCount(all, seen) + |group| - i
  {
    var found := Found(group[i], all, seen, c);
    var grown := group + found;
    FoundCount(group[i], all, seen, c);
    WorklistStep(group, i, all, seen, c);
    ExpandExtends(group, i, all, seen, c);
    if j == i {
      ExpandHead(group, i, all, seen, c, f);
    } else {
      ExpandClosed(grown, i + 1, all, seen + Keys(found), c, j, f);
      ExpandExtends(grown, i + 1, all, seen + Keys(found), c);
      if KeyOf(f) in Keys(found) {
        FoundMeans(group[i], all, seen, c);
        var x :| x in found && KeyOf(x) == KeyOf(f);
        SameKeySameEvent(all, x, f);
        assert x in grown;
      }
    }
  }

  lemma {:induction false} SameKeySameEvent(s: seq<Event>, x: Event, y: Event)
    requires DistinctKeys(s) && x in s && y in s && KeyOf(x) == KeyOf(y)
    ensures x == y
  {
  }

  /** A whole group: starts at e, takes only unseen events, each found by an
      earlier member, and leaves no unseen event eligible with a member. */
  lemma {:induction false} GroupLaws(e: Event, all: seq<Event>, seen: set<Key>, c: Canon)
    requires DistinctKeys(all) && e in all && KeyOf(e) !in seen
    ensures var g := Group(e, all, seen, c);
            && |g| > 0 && g[0] == e && DistinctKeys(g)
            && (forall x :: x in g ==> x in all && KeyOf(x) !in seen)
            && (forall k :: 0 < k < |g| ==> FoundEarlier(g, 0, k, c))
            && (forall x, f :: x in g && f in all && Eligible(x, f, c) ==> KeyOf(f) in seen || f in g)
  {
    var seen' := seen + {KeyOf(e)};
    var g := Group(e, all, seen, c);
    assert Worklist([e], all, seen');
    ExpandExtends([e], 0, all, seen', c);
    assert [e] <= g && g[0] == e;
    forall k | 0 < k < |g| ensures FoundEarlier(g, 0, k, c) {
      ExpandRooted([e], 0, all, seen', c, k);
    }
    forall x, f | x in g && f in all && Eligible(x, f, c)
      ensures KeyOf(f) in seen || f in g
    {
      var j :| 0 <= j < |g| && g[j] == x;
      ExpandClosed([e], 0, all, seen', c, j, f);
      if KeyOf(f) == KeyOf(e) { SameKeySameEvent(all, e, f); }
    }
    forall x | x in g ensures KeyOf(x) !in seen {
      var k :| 0 <= k < |g| && g[k] == x;
    }
  }

  // --- The groups partition the listing --------------------------------------

  function Flat(groups: seq<seq<Event>>): seq<Event> {
    if groups == [] then [] else Flat(groups[..|groups| - 1]) + groups[|groups| - 1]
  }

  lemma {:induction false} FlatCons(g: seq<Event>, rest: seq<seq<Event>>)
    ensures Flat([g] + rest) == g + Flat(rest)
  {
    if rest == [] {
      assert ([g] + rest)[..0] == [];
    } else {
      var n := |rest| - 1;
      FlatCons(g, rest[..n]);
      assert ([g] + rest)[..n + 1] == [g] + rest[..n];
    }
  }

  lemma {:induction false} FlatMember(groups: seq<seq<Event>>, x: Event)
    ensures x in Flat(groups) <==> exists g :: g in groups && x in g
  {
    if groups != [] {
      var n := |groups| - 1;
      FlatMember(groups[..n], x);
      assert groups == groups[..n] + [groups[n]];
    }
  }

  lemma {:induction false} GroupsPartition(all: seq<Event>, p: nat, seen: set<Key>, c: Canon)
    requires DistinctKeys(all) && p <= |all|
    requires forall q :: 0 <= q < p ==> KeyOf(all[q]) in seen
    ensures DistinctKeys(Flat(GroupsFrom(all, p, seen, c)))
    ensures forall x :: x in Flat(GroupsFrom(all, p, seen, c)) <==> x in all && KeyOf(x) !in seen
    decreases |all| - p
  {
    if p < |all| {
      if KeyOf(all[p]) in seen {
        GroupsPartition(all, p + 1, seen, c);
      } else {
        var g := Group(all[p], all, seen, c);
        GroupLaws(all[p], all, seen, c);
        assert KeyOf(all[p]) in Keys(g) by { assert g[0] in g; }
        GroupsPartition(all, p + 1, seen + Keys(g), c);
        var rest := GroupsFrom(all, p + 1, seen + Keys(g), c);
        FlatCons(g, rest);
        forall x | x in all && KeyOf(x) !in seen ensures x in g + Flat(rest) {
          if KeyOf(x) in Keys(g) {
            var y :| y in g && KeyOf(y) == KeyOf(x);
            SameKeySameEvent(all, x, y);
          }
        }
        assert DistinctKeys(g + Flat(rest)) by {
          assert forall x :: x in g ==> KeyOf(x) in Keys(g);
          DistinctConcat(g, Flat(rest));
        }
      }
    }
  }

  lemma {:induction false} DistinctConcat(s: seq<Event>, t: seq<Event>)
    requires DistinctKeys(s) && DistinctKeys(t)
    requires forall x, y :: x in s && y in t ==> KeyOf(x) != KeyOf(y)
    ensures DistinctKeys(s + t)
  {
    forall i, j | 0 <= i < j < |s + t| ensures KeyOf((s + t)[i]) != KeyOf((s + t)[j]) {
      if i < |s| <= j { assert s[i] in s && t[j - |s|] in t; }
    }
  }

  // --- Conservation ----------------------------------------------------------

  function KeySeq(s: seq<Event>): seq<Key> {
    if s == [] then [] else KeySeq(s[..|s| - 1]) + [KeyOf(s[|s| - 1])]
  }

  lemma {:induction false} KeySeqPush(s: seq<Event>, x: Event)
    ensures KeySeq(s + [x]) == KeySeq(s) + [KeyOf(x)]
  {
    assert (s + [x])[..|s|] == s;
  }

  lemma {:induction false} KeySeqConcat(s: seq<Event>, t: seq<Event>)
    ensures KeySeq(s + t) == KeySeq(s) + KeySeq(t)
  {
    if t == [] {
      assert s + t == s;
    } else {
      var n := |t| - 1;
      KeySeqConcat(s, t[..n]);
      assert (s + t)[..|s + t| - 1] == s + t[..n];
    }
  }

  lemma {:induction false} KeySeqMeans(s: seq<Event>)
    ensures |KeySeq(s)| == |s|
    ensures forall i :: 0 <= i < |s| ==> KeySeq(s)[i] == KeyOf(s[i])
  {
    if s != [] {
      KeySeqMeans(s[..|s| - 1]);
    }
  }

  lemma {:induction false} NoRepeatsBag<T>(s: seq<T>)
    requires forall i, j :: 0 <= i < j < |s| ==> s[i] != s[j]
    ensures multiset(s) == multiset(set x | x in s)
  {
    if s != [] {
      var n := |s| - 1;
      var rest := s[..n];
      NoRepeatsBag(rest);
      assert s == rest + [s[n]];
      assert s[n] !in rest;
      assert (set x | x in s) == (set x | x in rest) + {s[n]};
    }
  }

  lemma {:induction false} KeySeqDistinct(s: seq<Event>)
    requires DistinctKeys(s)
    ensures multiset(KeySeq(s)) == multiset(Keys(s))
  {
    KeySeqMeans(s);
    NoRepeatsBag(KeySeq(s));
    forall k | k in Keys(s) ensures k in KeySeq(s) {
      var i :| 0 <= i < |s| && KeyOf(s[i]) == k;
      assert KeySeq(s)[i] == k;
    }
    assert (set k | k in KeySeq(s)) == Keys(s);
  }

  /** The provider events a comparison speaks of. */
  function MemberKeys(m: Comparison): set<Key> {
    set p | p in m.providers :: (p, m.providers[p].eventId)
  }

  function MatchedBag(ms: seq<Comparison>): multiset<Key> {
    if ms == [] then multiset{} else MatchedBag(ms[..|ms| - 1]) + multiset(MemberKeys(ms[|ms| - 1]))
  }

  function UnmatchedKeys(us: seq<Unmatched>): seq<Key> {
    if us == [] then [] else UnmatchedKeys(us[..|us| - 1]) + [us[|us| - 1].key]
  }

  lemma {:induction false} UnmatchedKeysConcat(s: seq<Unmatched>, t: seq<Unmatched>)
    ensures UnmatchedKeys(s + t) == UnmatchedKeys(s) + UnmatchedKeys(t)
  {
    if t == [] {
      assert s + t == s;
    } else {
      var n := |t| - 1;
      UnmatchedKeysConcat(s, t[..n]);
      assert (s + t)[..|s + t| - 1] == s + t[..n];
    }
  }

  ghost function CoveredKeys(events: seq<Event>, cov: Coverage): set<Key> {
    set e | e in events && Covered(e, cov) :: KeyOf(e)
  }

  /** Every covered identity appears exactly once across the three answers, and
      nothing else appears. */
  lemma {:induction false} Conservation(events: seq<Event>, cov: Coverage, c: Canon)
    ensures var o := Compare(events, cov, c);
            MatchedBag(o.matched) + multiset(UnmatchedKeys(o.unmatched)) + multiset(o.notApplicable)
            == multiset(CoveredKeys(events, cov))
  {
    var got := Collect(events, cov);
    var all := Contested(got.unique, cov);
    CollectSound(events, cov);
    ContestedMeans(got.unique, cov);
    var groups := Groups(all, c);
    GroupsPartition(all, 0, {}, c);
    GroupsPlaced(groups, all, got.conflicts, c);
    KeySeqDistinct(Flat(groups));
    KeySeqDistinct(all);
    assert Keys(Flat(groups)) == Keys(all);
    SplitPlaced(got.unique, cov);
    KeySeqDistinct(got.unique);
    CollectCoversKeys(events, cov);
  }

  lemma {:induction false} CollectCoversKeys(events: seq<Event>, cov: Coverage)
    ensures Keys(Collect(events, cov).unique) == CoveredKeys(events, cov)
  {
    CollectSound(events, cov);
    forall k | k in CoveredKeys(events, cov) ensures k in Keys(Collect(events, cov).unique) {
      var e :| e in events && Covered(e, cov) && KeyOf(e) == k;
      var p :| 0 <= p < |events| && events[p] == e;
      var q := LastPosition(events, cov, p);
      CollectKeepsLast(events, cov, q);
    }
  }

  lemma {:induction false} LastPosition(events: seq<Event>, cov: Coverage, p: nat) returns (q: nat)
    requires p < |events| && Covered(events[p], cov)
    ensures LastOf(events, cov, q) && KeyOf(events[q]) == KeyOf(events[p])
    decreases |events| - p
  {
    if LastOf(events, cov, p) {
      q := p;
    } else {
      var r :| p < r < |events| && Covered(events[r], cov) && KeyOf(events[r]) == KeyOf(events[p]);
      q := LastPosition(events, cov, r);
    }
  }

  lemma {:induction false} SplitPlaced(unique: seq<Event>, cov: Coverage)
    ensures multiset(KeySeq(Contested(unique, cov))) + multiset(Uncontested(unique, cov)) == multiset(KeySeq(unique))
  {
    if unique != [] {
      var n := |unique| - 1;
      SplitPlaced(unique[..n], cov);
      KeySeqPush(Contested(unique[..n], cov), unique[n]);
    }
  }

  lemma {:induction false} GroupsPlaced(groups: seq<seq<Event>>, all: seq<Event>, conflicts: set<Key>, c: Canon)
    ensures MatchedBag(Matches(groups, conflicts, c)) + multiset(UnmatchedKeys(Rejections(groups, all, conflicts, c)))
            == multiset(KeySeq(Flat(groups)))
  {
    if groups != [] {
      var n := |groups| - 1;
      GroupsPlaced(groups[..n], all, conflicts, c);
      KeySeqConcat(Flat(groups[..n]), groups[n]);
      if Valid(groups[n], conflicts, c) {
        MatchedPlaced(groups, conflicts, c);
      } else {
        RejectedKeys(groups[n], |groups[n]|, all, conflicts, c);
        UnmatchedKeysConcat(Rejections(groups[..n], all, conflicts, c),
                            Rejected(groups[n], |groups[n]|, all, conflicts, c));
      }
    }
  }

  lemma {:induction false} MatchedPlaced(groups: seq<seq<Event>>, conflicts: set<Key>, c: Canon)
    requires groups != [] && Valid(groups[|groups| - 1], conflicts, c)
    ensures MatchedBag(Matches(groups, conflicts, c))
            == MatchedBag(Matches(groups[..|groups| - 1], conflicts, c)) + multiset(KeySeq(groups[|groups| - 1]))
  {
    var g := groups[|groups| - 1];
    var ms := Matches(groups[..|groups| - 1], conflicts, c);
    ValidTimed(g, conflicts, c);
    ComparedKeys(g, c);
    assert (ms + [Compared(g, c)])[..|ms|] == ms;
  }

  lemma {:induction false} RejectedKeys(group: seq<Event>, size: nat, all: seq<Event>, conflicts: set<Key>, c: Canon)
    ensures UnmatchedKeys(Rejected(group, size, all, conflicts, c)) == KeySeq(group)
  {
    if group != [] {
      var n := |group| - 1;
      RejectedKeys(group[..n], size, all, conflicts, c);
      var r := Rejected(group[..n], size, all, conflicts, c);
      var u := Unmatched(KeyOf(group[n]), ReasonFor(group[n], size, all, conflicts, c));
      assert (r + [u])[..|r|] == r;
    }
  }

  // --- The shape of a matched group ------------------------------------------

  ghost predicate PairwiseProviders(group: seq<Event>) {
    forall i, j :: 0 <= i < j < |group| ==> group[i].provider != group[j].provider
  }

  lemma {:induction false} ProviderSetPush(rest: seq<Event>, last: Event)
    ensures ProviderSet(rest + [last]) == ProviderSet(rest) + {last.provider}
    ensures PairwiseProviders(rest + [last]) <==> PairwiseProviders(rest) && last.provider !in ProviderSet(rest)
  {
    var group := rest + [last];
    if PairwiseProviders(group) {
      assert forall i, j :: 0 <= i < j < |rest| ==> rest[i] == group[i] && rest[j] == group[j];
      forall x | x in rest ensures x.provider != last.provider {
        var i :| 0 <= i < |rest| && rest[i] == x;
        assert group[i].provider != group[|rest|].provider;
      }
    }
  }

  lemma {:induction false} ProviderCount(group: seq<Event>)
    ensures |ProviderSet(group)| <= |group|
    ensures |ProviderSet(group)| == |group| <==> PairwiseProviders(group)
  {
    if group != [] {
      var n := |group| - 1;
      assert group == group[..n] + [group[n]];
      ProviderCount(group[..n]);
      ProviderSetPush(group[..n], group[n]);
    }
  }

  lemma {:induction false} ProvidersMean(e: Event, group: seq<Event>, c: Canon)
    requires PairwiseProviders(group)
    ensures Providers(e, group, c).Keys == ProviderSet(group)
    ensures forall x :: x in group ==>
              Providers(e, group, c)[x.provider] == Member(x.eventId, x.startsAt, TeamA(e, c) != TeamA(x, c))
  {
    if group != [] {
      var n := |group| - 1;
      var rest, last := group[..n], group[n];
      assert group == rest + [last];
      ProviderSetPush(rest, last);
      ProvidersMean(e, rest, c);
      forall x | x in group
        ensures Providers(e, group, c)[x.provider] == Member(x.eventId, x.startsAt, TeamA(e, c) != TeamA(x, c))
      {
        if x in rest { assert x.provider in ProviderSet(rest); }
      }
    }
  }

  /** No member is lost by keying the comparison on the provider. */
  lemma {:induction false} ComparedKeys(group: seq<Event>, c: Canon)
    requires group != [] && Timed(group) && DistinctProviders(group)
    ensures MemberKeys(Compared(group, c)) == Keys(group)
    ensures multiset(MemberKeys(Compared(group, c))) == multiset(KeySeq(group))
  {
    ProviderCount(group);
    ProvidersMean(group[0], group, c);
    var m := Compared(group, c);
    forall k | k in Keys(group) ensures k in MemberKeys(m) {
      var x :| x in group && KeyOf(x) == k;
      assert x.provider in m.providers;
    }
    forall k | k in MemberKeys(m) ensures k in Keys(group) {
      var p :| p in m.providers && (p, m.providers[p].eventId) == k;
      var x :| x in group && x.provider == p;
    }
    KeySeqDistinct(group);
  }

  /** A comparison built from a group the rules accept. */
  ghost predicate ComparesGroup(m: Comparison, group: seq<Event>, conflicts: set<Key>, c: Canon) {
    group != [] && Timed(group) && m == Compared(group, c) && Valid(group, conflicts, c)
  }

  lemma {:induction false} MatchesComeFromGroups(groups: seq<seq<Event>>, conflicts: set<Key>, c: Canon, m: Comparison)
    ensures m in Matches(groups, conflicts, c) <==> exists g :: g in groups && ComparesGroup(m, g, conflicts, c)
  {
    if groups != [] {
      var n := |groups| - 1;
      assert groups == groups[..n] + [groups[n]];
      MatchesComeFromGroups(groups[..n], conflicts, c, m);
      if Valid(groups[n], conflicts, c) {
        ValidTimed(groups[n], conflicts, c);
        assert ComparesGroup(m, groups[n], conflicts, c) <==> m == Compared(groups[n], c);
      }
    }
  }

  /** What a comparison says of its group, field by field: it takes esport, tournament
      and start from the group's first event; `spanMs` is the largest difference of two
      starts, and at most five minutes; there is one entry per provider, with that
      event's identifier and start and a flag that tells whether its first side is not
      the first event's; and the score is 1 for one common tournament, 0.9 otherwise,
      and starts differ only within one tournament. */
  ghost predicate WellFormed(m: Comparison, group: seq<Event>, c: Canon) {
    && |group| >= 2 && Timed(group)
    && m.esport == group[0].esport && (forall x :: x in group ==> x.esport == group[0].esport)
    && m.tournament == c.tournament(group[0].tournament, group[0].esport)
    && m.startsAt == Some(group[0].startsAt.value)
    && SpanIs(m.spanMs, group) && m.spanMs <= 300_000
    && |m.providers| == |group| && m.providers.Keys == (set x | x in group :: x.provider)
    && (forall x :: x in group ==>
          var entry := m.providers[x.provider];
          && entry.eventId == x.eventId && entry.startsAt == Some(x.startsAt.value)
          && (entry.reversed <==> c.team(x.teamA, x.esport) != c.team(group[0].teamA, group[0].esport))
          && c.team(group[0].teamA, group[0].esport) == c.team(if entry.reversed then x.teamB else x.teamA, x.esport))
    && (m.sameCompetition <==> forall x :: x in group ==> c.tournament(x.tournament, x.esport) == m.tournament)
    && (m.spanMs > 0 ==> m.sameCompetition)
    && m.confidence == (if m.sameCompetition then 1.0 else 0.9)
  }

  /** The largest difference between two starts. */
  ghost predicate SpanIs(span: int, group: seq<Event>)
    requires Timed(group)
  {
    && (forall x, y :: x in group && y in group ==> x.startsAt.value - y.startsAt.value <= span)
    && exists x, y :: x in group && y in group && x.startsAt.value - y.startsAt.value == span
  }

  lemma {:induction false} SpanOf(group: seq<Event>)
    requires group != [] && Timed(group)
    ensures SpanIs(Latest(group) - Earliest(group), group)
  {
    SpanMeans(group);
    var x, y :| x in group && y in group && x.startsAt.value == Latest(group) && y.startsAt.value == Earliest(group);
    assert x.startsAt.value - y.startsAt.value == Latest(group) - Earliest(group);
  }

  lemma {:induction false} SameTournamentIff(group: seq<Event>, c: Canon)
    requires group != []
    ensures |TournamentNames(group, c)| == 1 <==>
              forall x :: x in group ==> c.tournament(x.tournament, x.esport) == c.tournament(group[0].tournament, group[0].esport)
  {
    var name := c.tournament(group[0].tournament, group[0].esport);
    assert name in TournamentNames(group, c);
    if forall x :: x in group ==> c.tournament(x.tournament, x.esport) == name {
      assert TournamentNames(group, c) == {name};
    }
    if |TournamentNames(group, c)| == 1 {
      forall x | x in group ensures c.tournament(x.tournament, x.esport) == name {
        OnlyElement(TournamentNames(group, c), name, c.tournament(x.tournament, x.esport));
      }
    }
  }

  lemma {:induction false} OnlyElement<T>(s: set<T>, a: T, b: T)
    requires |s| == 1 && a in s && b in s
    ensures a == b
  {
    assert |s - {a}| == 0;
  }

  lemma {:induction false} MatchedWellFormed(group: seq<Event>, conflicts: set<Key>, c: Canon)
    requires Valid(group, conflicts, c)
    ensures group != [] && Timed(group) && WellFormed(Compared(group, c), group, c)
  {
    ValidTimed(group, conflicts, c);
    ProviderCount(group);
    ProvidersMean(group[0], group, c);
    SpanBound(group, c);
    SpanOf(group);
    SameTournamentIff(group, c);
    forall x | x in group
      ensures x.esport == group[0].esport && SidesAgree(group[0], x, c)
    {
      HeadEligible(group, x, c);
    }
  }

  /** Read with the `reversed` flag, x's first side is e's first side. */
  predicate SidesAgree(e: Event, x: Event, c: Canon) {
    TeamA(e, c) == if TeamA(e, c) != TeamA(x, c) then TeamB(x, c) else TeamA(x, c)
  }

  lemma {:induction false} HeadEligible(group: seq<Event>, x: Event, c: Canon)
    requires group != [] && Clique(group, c) && x in group
    ensures x.esport == group[0].esport && SidesAgree(group[0], x, c)
  {
    var i :| 0 <= i < |group| && group[i] == x;
    if i > 0 { assert Eligible(group[0], group[i], c); }
  }

  lemma {:induction false} SpanBound(group: seq<Event>, c: Canon)
    requires group != [] && Timed(group) && Clique(group, c)
    ensures 0 <= Latest(group) - Earliest(group) <= FIVE_MINUTES_MS
    ensures Latest(group) > Earliest(group) ==> |TournamentNames(group, c)| == 1
  {
    SpanMeans(group);
    var late :| late in group && late.startsAt.value == Latest(group);
    var early :| early in group && early.startsAt.value == Earliest(group);
    if late.startsAt.value > early.startsAt.value {
      CliquePair(group, late, early, c);
      var name := c.tournament(late.tournament, late.esport);
      forall x | x in group ensures c.tournament(x.tournament, x.esport) == name {
        CliquePair(group, x, if x.startsAt.value != late.startsAt.value then late else early, c);
      }
      assert name in TournamentNames(group, c);
      assert TournamentNames(group, c) == {name};
    }
  }

  /** Clique members whose starts differ are near and share a tournament. */
  lemma {:induction false} CliquePair(group: seq<Event>, x: Event, y: Event, c: Canon)
    requires Clique(group, c) && x in group && y in group && x.startsAt != y.startsAt
    ensures Near(x, y) && SameTournament(x, y, c)
  {
    var i :| 0 <= i < |group| && group[i] == x;
    var j :| 0 <= j < |group| && group[j] == y;
    if i < j { assert Eligible(group[i], group[j], c); } else { assert Eligible(group[j], group[i], c); }
  }

  /** Every comparison returned compares one valid group of contested events. */
  lemma {:induction false} MatchedGroups(events: seq<Event>, cov: Coverage, c: Canon, m: Comparison)
    returns (g: seq<Event>)
    requires m in Compare(events, cov, c).matched
    ensures Valid(g, Collect(events, cov).conflicts, c) && WellFormed(m, g, c)
    ensures forall x :: x in g ==> x in events && Covered(x, cov)
  {
    var got := Collect(events, cov);
    var all := Contested(got.unique, cov);
    CollectSound(events, cov);
    ContestedMeans(got.unique, cov);
    var groups := Groups(all, c);
    GroupsPartition(all, 0, {}, c);
    MatchesComeFromGroups(groups, got.conflicts, c, m);
    g :| g in groups && ComparesGroup(m, g, got.conflicts, c);
    MatchedWellFormed(g, got.conflicts, c);
    forall x | x in g ensures x in events && Covered(x, cov) { FlatMember(groups, x); }
  }
}
