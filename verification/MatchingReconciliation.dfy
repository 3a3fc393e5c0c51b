/** From a matching result to what is stored. matching.repository.ts runs the matcher on
    the listed events and folds its answer into the tables, so what a reconciliation
    needs of that answer is proved here, not assumed. */
module MatchingReconciliation {
  import opened Domain
  import M = Matching
  import ML = MatchingLaws
  import MM = MatchingMeaning
  import R = Reconciliation
  import RL = ReconciliationLaws

  /** Stored rows by provider and provider event identifier. */
  type RowsByKey = map<Key, R.RowId>

  /** A row stores one event. */
  ghost predicate OneEventPerRow(byKey: RowsByKey) {
    forall k, l :: k in byKey && l in byKey && byKey[k] == byKey[l] ==> k == l
  }

  /** What a comparison adds to its modelled fields: the order in which its providers
      are enumerated, its labels and the names it teaches. */
  datatype Details = Details(order: seq<string>, teamA: string, teamB: string,
                             aliases: seq<R.Learned>, tournaments: seq<R.Learned>)

  type Describing = M.Comparison -> Details

  predicate NoRepeats<T(==)>(s: seq<T>) {
    forall i, j :: 0 <= i < j < |s| ==> s[i] != s[j]
  }

  /** Every provider of a comparison is enumerated once. */
  ghost predicate Enumerates(describe: Describing) {
    forall m: M.Comparison :: NoRepeats(describe(m).order) && (set p | p in describe(m).order) == m.providers.Keys
  }

  // --- The translation -------------------------------------------------------

  /** The rows found for the keys; a key without a row is passed over. */
  function Found(keys: seq<Key>, byKey: RowsByKey): seq<R.RowId> {
    if keys == [] then []
    else
      var rest, k := Found(keys[..|keys| - 1], byKey), keys[|keys| - 1];
      if k in byKey then rest + [byKey[k]] else rest
  }

  function MemberList(m: M.Comparison, order: seq<string>): seq<Key> {
    if order == [] then []
    else
      var rest, p := MemberList(m, order[..|order| - 1]), order[|order| - 1];
      if p in m.providers then rest + [(p, m.providers[p].eventId)] else rest
  }

  function MatchReason(m: M.Comparison): string {
    if m.spanMs > 0 then "normalized_team_alias_near_time_same_competition"
    else if m.sameCompetition then "exact_normalized_teams_time_same_competition"
    else "exact_normalized_teams_time_competition_differs"
  }

  function ReasonText(r: M.Reason): string {
    match r
    case Ambiguous => "ambiguous"
    case TimeOrStatusMismatch => "time_or_status_mismatch"
    case NoTeamPair => "no_team_pair"
  }

  /** A comparison always has a start (`MatchingLaws.WellFormed`). */
  function GroupOf(m: M.Comparison, describe: Describing, byKey: RowsByKey): R.Group {
    var d := describe(m);
    var start := if m.startsAt.Some? then m.startsAt.value else 0;
    R.Group(Found(MemberList(m, d.order), byKey), R.Canonical(m.esport, m.tournament, d.teamA, d.teamB, start),
            MatchReason(m), d.aliases, d.tournaments)
  }

  function GroupsOf(ms: seq<M.Comparison>, describe: Describing, byKey: RowsByKey): seq<R.Group> {
    if ms == [] then [] else GroupsOf(ms[..|ms| - 1], describe, byKey) + [GroupOf(ms[|ms| - 1], describe, byKey)]
  }

  function UnmatchedRows(us: seq<M.Unmatched>, byKey: RowsByKey): seq<(R.RowId, string)> {
    if us == [] then []
    else
      var rest, u := UnmatchedRows(us[..|us| - 1], byKey), us[|us| - 1];
      if u.key in byKey then rest + [(byKey[u.key], ReasonText(u.reason))] else rest
  }

  function Translate(o: M.Outcome, describe: Describing, byKey: RowsByKey): R.Outcome {
    R.Outcome(Found(o.notApplicable, byKey), GroupsOf(o.matched, describe, byKey), UnmatchedRows(o.unmatched, byKey))
  }

  /** Every matched event has a row; without one the source's transaction throws. */
  predicate MembersStored(o: M.Outcome, byKey: RowsByKey) {
    forall m :: m in o.matched ==> ML.MemberKeys(m) <= byKey.Keys
  }

  /** What one reconciliation reads besides the tables: the fresh listings, the providers
      they cover, and the naming. */
  datatype Input = Input(events: seq<Event>, coverage: M.Coverage, canon: M.Canon, describe: Describing, name: R.Naming)

  ghost function Answer(i: Input): M.Outcome { M.Compare(i.events, i.coverage, i.canon) }

  ghost function Result(i: Input, byKey: RowsByKey): R.Outcome { Translate(Answer(i), i.describe, byKey) }

  /** The whole transaction; None is one that throws and is rolled back. */
  ghost function ReconcileListing(before: R.Db, byKey: RowsByKey, i: Input, at: int): Option<R.Db> {
    if MembersStored(Answer(i), byKey) then Some(R.Reconcile(before, i.name, Result(i, byKey), at)) else None
  }

  // --- Every event once ------------------------------------------------------

  lemma {:induction false} FoundConcat(a: seq<Key>, b: seq<Key>, byKey: RowsByKey)
    ensures Found(a + b, byKey) == Found(a, byKey) + Found(b, byKey)
  {
    if b == [] {
      assert a + b == a;
    } else {
      var n := |b| - 1;
      FoundConcat(a, b[..n], byKey);
      assert (a + b)[..|a + b| - 1] == a + b[..n];
    }
  }

  lemma {:induction false} FoundMeans(keys: seq<Key>, byKey: RowsByKey)
    ensures forall id :: id in Found(keys, byKey) <==> exists k :: k in keys && k in byKey && byKey[k] == id
  {
    if keys != [] {
      var n := |keys| - 1;
      FoundMeans(keys[..n], byKey);
      assert keys == keys[..n] + [keys[n]];
    }
  }

  lemma {:induction false} FoundDistinct(keys: seq<Key>, byKey: RowsByKey)
    requires NoRepeats(keys) && OneEventPerRow(byKey)
    ensures RL.Distinct(Found(keys, byKey))
  {
    if keys != [] {
      var n := |keys| - 1;
      FoundDistinct(keys[..n], byKey);
      FoundMeans(keys[..n], byKey);
      if keys[n] in byKey { assert byKey[keys[n]] !in Found(keys[..n], byKey); }
    }
  }

  /** The keys of the members, group by group. */
  function MatchedList(ms: seq<M.Comparison>, describe: Describing): seq<Key> {
    if ms == [] then []
    else
      var m := ms[|ms| - 1];
      MatchedList(ms[..|ms| - 1], describe) + MemberList(m, describe(m).order)
  }

  lemma {:induction false} MembersFound(ms: seq<M.Comparison>, describe: Describing, byKey: RowsByKey)
    ensures RL.Members(GroupsOf(ms, describe, byKey)) == Found(MatchedList(ms, describe), byKey)
  {
    if ms != [] {
      var n := |ms| - 1;
      MembersFound(ms[..n], describe, byKey);
      var front, g := GroupsOf(ms[..n], describe, byKey), GroupOf(ms[n], describe, byKey);
      assert (front + [g])[..|front + [g]| - 1] == front;
      FoundConcat(MatchedList(ms[..n], describe), MemberList(ms[n], describe(ms[n]).order), byKey);
    }
  }

  lemma {:induction false} UnmatchedFound(us: seq<M.Unmatched>, byKey: RowsByKey)
    ensures RL.Rows(UnmatchedRows(us, byKey)) == Found(ML.UnmatchedKeys(us), byKey)
  {
    if us != [] {
      var n := |us| - 1;
      UnmatchedFound(us[..n], byKey);
      var front, keys := UnmatchedRows(us[..n], byKey), ML.UnmatchedKeys(us[..n]);
      assert (keys + [us[n].key])[..|keys|] == keys;
      if us[n].key in byKey {
        var u := (byKey[us[n].key], ReasonText(us[n].reason));
        assert (front + [u])[..|front|] == front;
      }
    }
  }

  lemma {:induction false} MemberListMeans(m: M.Comparison, order: seq<string>)
    requires NoRepeats(order) && forall p :: p in order ==> p in m.providers
    ensures |MemberList(m, order)| == |order| && NoRepeats(MemberList(m, order))
    ensures forall i :: 0 <= i < |order| ==> MemberList(m, order)[i] == (order[i], m.providers[order[i]].eventId)
  {
    if order != [] { MemberListMeans(m, order[..|order| - 1]); }
  }

  lemma {:induction false} MemberListBag(m: M.Comparison, order: seq<string>)
    requires NoRepeats(order) && (set p | p in order) == m.providers.Keys
    ensures multiset(MemberList(m, order)) == multiset(ML.MemberKeys(m))
    ensures forall k :: k in MemberList(m, order) <==> k in ML.MemberKeys(m)
  {
    forall p | p in order ensures p in m.providers { assert p in (set q | q in order); }
    MemberListMeans(m, order);
    var keys := MemberList(m, order);
    forall k | k in ML.MemberKeys(m) ensures k in keys {
      var p :| p in m.providers && (p, m.providers[p].eventId) == k;
      assert p in (set q | q in order);
      var i :| 0 <= i < |order| && order[i] == p;
      assert keys[i] == k;
    }
    ML.NoRepeatsBag(keys);
    assert (set k | k in keys) == ML.MemberKeys(m);
  }

  lemma {:induction false} MatchedListBag(ms: seq<M.Comparison>, describe: Describing)
    requires Enumerates(describe)
    ensures multiset(MatchedList(ms, describe)) == ML.MatchedBag(ms)
  {
    if ms != [] {
      var n := |ms| - 1;
      MatchedListBag(ms[..n], describe);
      MemberListBag(ms[n], describe(ms[n]).order);
    }
  }

  /** A sequence that uses up a set element by element repeats none. */
  lemma {:induction false} BagNoRepeats<T>(s: seq<T>, all: set<T>)
    requires multiset(s) == multiset(all)
    ensures NoRepeats(s)
  {
    forall i, j | 0 <= i < j < |s| ensures s[i] != s[j] {
      assert s == s[..j] + s[j..] && s[..j][i] == s[i] && s[j..][0] == s[j];
      assert multiset(s)[s[i]] <= 1;
    }
  }

  /** The keys of a matching result in the order in which they are folded. */
  ghost function AllKeys(i: Input): seq<Key> {
    Answer(i).notApplicable + MatchedList(Answer(i).matched, i.describe) + ML.UnmatchedKeys(Answer(i).unmatched)
  }

  lemma {:induction false} AllKeysOnce(i: Input)
    requires Enumerates(i.describe)
    ensures NoRepeats(AllKeys(i))
    ensures forall k :: k in AllKeys(i) <==> k in ML.CoveredKeys(i.events, i.coverage)
  {
    var o, covered := Answer(i), ML.CoveredKeys(i.events, i.coverage);
    ML.Conservation(i.events, i.coverage, i.canon);
    MatchedListBag(o.matched, i.describe);
    assert multiset(AllKeys(i)) == multiset(covered);
    BagNoRepeats(AllKeys(i), covered);
    assert forall k :: k in AllKeys(i) <==> k in multiset(AllKeys(i));
  }

  lemma {:induction false} TouchedFound(i: Input, byKey: RowsByKey)
    ensures RL.Touched(Result(i, byKey)) == Found(AllKeys(i), byKey)
  {
    var o := Answer(i);
    var ms, us := MatchedList(o.matched, i.describe), ML.UnmatchedKeys(o.unmatched);
    MembersFound(o.matched, i.describe, byKey);
    UnmatchedFound(o.unmatched, byKey);
    FoundConcat(o.notApplicable, ms, byKey);
    FoundConcat(o.notApplicable + ms, us, byKey);
  }

  /** A matching result names every row at most once, whatever was listed, and exactly
      the rows of the covered events. */
  lemma {:induction false} AnswerOnce(i: Input, byKey: RowsByKey)
    requires Enumerates(i.describe) && OneEventPerRow(byKey)
    ensures RL.Once(Result(i, byKey))
    ensures forall id :: id in RL.Touched(Result(i, byKey)) <==>
              exists k :: k in ML.CoveredKeys(i.events, i.coverage) && k in byKey && byKey[k] == id
  {
    AllKeysOnce(i);
    TouchedFound(i, byKey);
    FoundDistinct(AllKeys(i), byKey);
    FoundMeans(AllKeys(i), byKey);
  }

  lemma {:induction false} AnswerKnown(before: R.Db, i: Input, byKey: RowsByKey)
    requires byKey.Values == before.rows
    ensures RL.MembersKnown(before, Result(i, byKey))
  {
    var o := Answer(i);
    MembersFound(o.matched, i.describe, byKey);
    FoundMeans(MatchedList(o.matched, i.describe), byKey);
  }

  lemma {:induction false} MatchedCovered(i: Input, m: M.Comparison, k: Key)
    requires Enumerates(i.describe) && m in Answer(i).matched && k in ML.MemberKeys(m)
    ensures k in ML.CoveredKeys(i.events, i.coverage)
  {
    AllKeysOnce(i);
    MemberListBag(m, i.describe(m).order);
    MatchedListHas(Answer(i).matched, i.describe, m, k);
  }

  lemma {:induction false} MatchedListHas(ms: seq<M.Comparison>, describe: Describing, m: M.Comparison, k: Key)
    requires m in ms && k in MemberList(m, describe(m).order)
    ensures k in MatchedList(ms, describe)
  {
    if ms[|ms| - 1] != m { MatchedListHas(ms[..|ms| - 1], describe, m, k); }
  }

  // --- What the transaction does ---------------------------------------------

  /** The rows are those of `byKey`, one event each. */
  ghost predicate RowsStored(before: R.Db, byKey: RowsByKey) {
    OneEventPerRow(byKey) && byKey.Values == before.rows
  }

  /** The transaction throws iff some compared event has no row. */
  lemma {:induction false} ThrowsIff(before: R.Db, byKey: RowsByKey, i: Input, at: int)
    ensures ReconcileListing(before, byKey, i, at).None?
       <==> exists m, p :: m in Answer(i).matched && p in m.providers && (p, m.providers[p].eventId) !in byKey
  {
    if m, p :| m in Answer(i).matched && p in m.providers && (p, m.providers[p].eventId) !in byKey {
      assert (p, m.providers[p].eventId) in ML.MemberKeys(m);
    }
    if !MembersStored(Answer(i), byKey) {
      var m :| m in Answer(i).matched && !(ML.MemberKeys(m) <= byKey.Keys);
      var k :| k in ML.MemberKeys(m) && k !in byKey;
      assert k == (k.0, m.providers[k.0].eventId);
    }
  }

  /** A transaction goes through when every covered event is stored; then it keeps the
      invariant and touches no row but those of covered events. */
  lemma {:induction false} ReconcileListingInv(before: R.Db, byKey: RowsByKey, i: Input, at: int)
    requires RL.Inv(before) && RowsStored(before, byKey) && Enumerates(i.describe)
    ensures var t := ReconcileListing(before, byKey, i, at);
            && (ML.CoveredKeys(i.events, i.coverage) <= byKey.Keys ==> t.Some?)
            && (t.Some? ==> RL.Inv(t.value) && RL.Reworks(before, t.value, RL.Touched(Result(i, byKey))))
  {
    AnswerOnce(i, byKey);
    AnswerKnown(before, i, byKey);
    RL.ReconcileInv(before, i.name, Result(i, byKey), at);
    if ML.CoveredKeys(i.events, i.coverage) <= byKey.Keys {
      forall m, k | m in Answer(i).matched && k in ML.MemberKeys(m) ensures k in byKey {
        MatchedCovered(i, m, k);
      }
    }
  }

  /** The row of an event, if it has one that no operator has matched by hand. */
  ghost predicate Automatic(before: R.Db, byKey: RowsByKey, k: Key) {
    k in byKey && !R.IsManual(before, byKey[k])
  }

  /** The row is unmatched, with the reason in the words that are stored. */
  ghost predicate StoredUnmatched(row: Option<R.MatchRow>, reason: M.Reason) {
    && row.Some? && row.value.canonical.None? && row.value.status.Unmatched?
    && (reason.Ambiguous? ==> row.value.reason == "ambiguous")
    && (reason.TimeOrStatusMismatch? ==> row.value.reason == "time_or_status_mismatch")
    && (reason.NoTeamPair? ==> row.value.reason == "no_team_pair")
  }

  lemma {:induction false} UnmatchedStored(before: R.Db, byKey: RowsByKey, i: Input, at: int, u: M.Unmatched)
    requires RL.Inv(before) && RowsStored(before, byKey) && Enumerates(i.describe)
    requires u in Answer(i).unmatched && Automatic(before, byKey, u.key)
    ensures StoredUnmatched(R.Lookup(R.Reconcile(before, i.name, Result(i, byKey), at).matches, byKey[u.key]), u.reason)
  {
    AnswerOnce(i, byKey);
    AnswerKnown(before, i, byKey);
    UnmatchedHas(Answer(i).unmatched, byKey, u);
    RL.UnmatchedStored(before, i.name, Result(i, byKey), at);
  }

  lemma {:induction false} UnmatchedHas(us: seq<M.Unmatched>, byKey: RowsByKey, u: M.Unmatched)
    requires u in us && u.key in byKey
    ensures (byKey[u.key], ReasonText(u.reason)) in UnmatchedRows(us, byKey)
  {
    if us[|us| - 1] != u { UnmatchedHas(us[..|us| - 1], byKey, u); }
  }

  lemma {:induction false} DismissedStored(before: R.Db, byKey: RowsByKey, i: Input, at: int, k: Key)
    requires RL.Inv(before) && RowsStored(before, byKey) && Enumerates(i.describe)
    requires k in Answer(i).notApplicable && Automatic(before, byKey, k)
    ensures R.Lookup(R.Reconcile(before, i.name, Result(i, byKey), at).matches, byKey[k])
            == RL.WithoutUnmatched(R.Lookup(before.matches, byKey[k]))
  {
    AnswerOnce(i, byKey);
    AnswerKnown(before, i, byKey);
    FoundMeans(Answer(i).notApplicable, byKey);
    RL.DismissedStored(before, i.name, Result(i, byKey), at, byKey[k]);
  }

  /** The n-th matched group is settled in the final state as its turn decided. */
  ghost predicate SettledAt(before: R.Db, byKey: RowsByKey, i: Input, at: int, n: nat)
    requires n < |Answer(i).matched|
  {
    var r := Result(i, byKey);
    n <= |r.matched| &&
    RL.Settled(R.SettleAll(R.Dismissed(before, r, at), before, i.name, r.matched[..n], at),
               R.Reconcile(before, i.name, r, at), before, i.name, GroupOf(Answer(i).matched[n], i.describe, byKey))
  }

  /** The group's rows are those of the comparison's events. */
  ghost predicate RowsOf(m: M.Comparison, g: R.Group, byKey: RowsByKey) {
    forall id :: id in g.members <==> exists k :: k in ML.MemberKeys(m) && k in byKey && byKey[k] == id
  }

  lemma {:induction false} MatchedStored(before: R.Db, byKey: RowsByKey, i: Input, at: int, n: nat)
    requires RL.Inv(before) && RowsStored(before, byKey) && Enumerates(i.describe)
    requires n < |Answer(i).matched|
    ensures SettledAt(before, byKey, i, at, n)
    ensures RowsOf(Answer(i).matched[n], GroupOf(Answer(i).matched[n], i.describe, byKey), byKey)
  {
    var m := Answer(i).matched[n];
    AnswerOnce(i, byKey);
    AnswerKnown(before, i, byKey);
    GroupAt(Answer(i).matched, i.describe, byKey, n);
    RL.ReconcileStores(before, i.name, Result(i, byKey), at, n);
    MemberListBag(m, i.describe(m).order);
    FoundMeans(MemberList(m, i.describe(m).order), byKey);
  }

  lemma {:induction false} GroupAt(ms: seq<M.Comparison>, describe: Describing, byKey: RowsByKey, n: nat)
    requires n < |ms|
    ensures |GroupsOf(ms, describe, byKey)| == |ms| && GroupsOf(ms, describe, byKey)[n] == GroupOf(ms[n], describe, byKey)
  {
    GroupsLength(ms, describe, byKey);
    GroupsLength(ms[..|ms| - 1], describe, byKey);
    if n < |ms| - 1 { GroupAt(ms[..|ms| - 1], describe, byKey, n); }
  }

  lemma {:induction false} GroupsLength(ms: seq<M.Comparison>, describe: Describing, byKey: RowsByKey)
    ensures |GroupsOf(ms, describe, byKey)| == |ms|
  {
    if ms != [] { GroupsLength(ms[..|ms| - 1], describe, byKey); }
  }

  /** Some two of the events start at different times. */
  ghost predicate StartsDiffer(events: seq<Event>) {
    exists x, y :: x in events && y in events && x.startsAt != y.startsAt
  }

  ghost predicate OneTournament(events: seq<Event>, c: M.Canon) {
    forall x, y :: x in events && y in events ==> c.tournament(x.tournament, x.esport) == c.tournament(y.tournament, y.esport)
  }

  ghost predicate ReasonTells(reason: string, events: seq<Event>, c: M.Canon) {
    && (StartsDiffer(events) ==> reason == "normalized_team_alias_near_time_same_competition")
    && (!StartsDiffer(events) && OneTournament(events, c) ==> reason == "exact_normalized_teams_time_same_competition")
    && (!StartsDiffer(events) && !OneTournament(events, c) ==> reason == "exact_normalized_teams_time_competition_differs")
  }

  ghost predicate CanonicalTells(k: R.Canonical, d: Details, events: seq<Event>, c: M.Canon) {
    && events != [] && k.esport == events[0].esport && events[0].startsAt == Some(k.startsAt)
    && k.tournament == c.tournament(events[0].tournament, events[0].esport) && k.teamA == d.teamA && k.teamB == d.teamB
  }

  /** The stored group is that of the listed events: its canonical event is the first
      one's, under the comparison's labels; its reason tells whether their starts differ
      and, if not, whether their tournaments do; its rows are theirs. */
  ghost predicate GroupStores(g: R.Group, d: Details, events: seq<Event>, c: M.Canon, byKey: RowsByKey) {
    && CanonicalTells(g.canonical, d, events, c)
    && g.aliases == d.aliases && g.tournaments == d.tournaments
    && ReasonTells(g.reason, events, c)
    && RowsAre(g.members, events, byKey)
  }

  ghost predicate RowsAre(ids: seq<R.RowId>, events: seq<Event>, byKey: RowsByKey) {
    forall id :: id in ids <==> exists x :: x in events && RowIs(byKey, x, id)
  }

  ghost predicate RowIs(byKey: RowsByKey, x: Event, id: R.RowId) {
    (x.provider, x.eventId) in byKey && byKey[(x.provider, x.eventId)] == id
  }

  lemma {:induction false} SpanTells(span: int, events: seq<Event>)
    requires M.Timed(events) && ML.SpanIs(span, events)
    ensures span > 0 <==> StartsDiffer(events)
  {
    var x, y :| x in events && y in events && x.startsAt.value - y.startsAt.value == span;
    if span > 0 { assert x.startsAt != y.startsAt; }
    if a, b :| a in events && b in events && a.startsAt != b.startsAt {
      assert a.startsAt.value - b.startsAt.value <= span && b.startsAt.value - a.startsAt.value <= span;
      SameValueSame(a.startsAt, b.startsAt);
    }
  }

  lemma {:induction false} SameValueSame(a: Option<int>, b: Option<int>)
    requires a.Some? && b.Some? && a != b
    ensures a.value != b.value
  {
  }

  lemma {:induction false} FirstTells(name: string, events: seq<Event>, c: M.Canon)
    requires events != [] && name == c.tournament(events[0].tournament, events[0].esport)
    ensures (forall x :: x in events ==> c.tournament(x.tournament, x.esport) == name) <==> OneTournament(events, c)
  {
    assert events[0] in events;
  }

  lemma {:induction false} MembersAre(m: M.Comparison, events: seq<Event>, c: M.Canon, k: Key)
    requires ML.WellFormed(m, events, c)
    ensures k in ML.MemberKeys(m) <==> exists x :: x in events && (x.provider, x.eventId) == k
  {
    if x :| x in events && (x.provider, x.eventId) == k {
      assert x.provider in (set y | y in events :: y.provider);
      assert m.providers[x.provider].eventId == x.eventId;
    }
    if k in ML.MemberKeys(m) {
      assert k.0 in (set y | y in events :: y.provider);
    }
  }

  lemma {:induction false} GroupRows(i: Input, byKey: RowsByKey, m: M.Comparison, events: seq<Event>, id: R.RowId)
    requires Enumerates(i.describe) && ML.WellFormed(m, events, i.canon)
    ensures id in GroupOf(m, i.describe, byKey).members <==> exists x :: x in events && RowIs(byKey, x, id)
  {
    var g := GroupOf(m, i.describe, byKey);
    MemberListBag(m, i.describe(m).order);
    FoundMeans(MemberList(m, i.describe(m).order), byKey);
    if id in g.members {
      var k :| k in ML.MemberKeys(m) && k in byKey && byKey[k] == id;
      MembersAre(m, events, i.canon, k);
      var x :| x in events && (x.provider, x.eventId) == k;
      assert RowIs(byKey, x, id);
    }
    if x :| x in events && RowIs(byKey, x, id) {
      MembersAre(m, events, i.canon, (x.provider, x.eventId));
    }
  }

  lemma {:induction false} ReasonSays(m: M.Comparison, events: seq<Event>, c: M.Canon)
    requires ML.WellFormed(m, events, c)
    ensures ReasonTells(MatchReason(m), events, c)
  {
    SpanTells(m.spanMs, events);
    FirstTells(m.tournament, events, c);
    assert m.spanMs > 0 <==> StartsDiffer(events);
    assert m.sameCompetition <==> OneTournament(events, c);
  }

  lemma {:induction false} CanonicalSays(i: Input, byKey: RowsByKey, m: M.Comparison, events: seq<Event>)
    requires ML.WellFormed(m, events, i.canon)
    ensures CanonicalTells(GroupOf(m, i.describe, byKey).canonical, i.describe(m), events, i.canon)
  {
  }

  lemma {:induction false} RowsSay(i: Input, byKey: RowsByKey, m: M.Comparison, events: seq<Event>)
    requires Enumerates(i.describe) && ML.WellFormed(m, events, i.canon)
    ensures RowsAre(GroupOf(m, i.describe, byKey).members, events, byKey)
  {
    forall id ensures id in GroupOf(m, i.describe, byKey).members <==> exists x :: x in events && RowIs(byKey, x, id) {
      GroupRows(i, byKey, m, events, id);
    }
  }

  lemma {:induction false} StoredGroup(i: Input, byKey: RowsByKey, n: nat) returns (events: seq<Event>)
    requires Enumerates(i.describe) && n < |Answer(i).matched|
    ensures MM.Agreeing(events, i.canon) && forall x :: x in events ==> MM.Undisputed(i.events, i.coverage, x)
    ensures var m := Answer(i).matched[n];
            GroupStores(GroupOf(m, i.describe, byKey), i.describe(m), events, i.canon, byKey)
  {
    var m := Answer(i).matched[n];
    events := MM.MatchMeans(i.events, i.coverage, i.canon, m);
    CanonicalSays(i, byKey, m, events);
    ReasonSays(m, events, i.canon);
    RowsSay(i, byKey, m, events);
  }

  /** What is stored, event by event: one that matching leaves alone ends unmatched with
      its reason; one that only a single provider can list loses its unmatched row; the
      members of each matched group share an identity, or keep their rows and get
      conflict issues. */
  lemma {:induction false} ReconcileListingStores(before: R.Db, byKey: RowsByKey, i: Input, at: int)
    requires RL.Inv(before) && RowsStored(before, byKey) && Enumerates(i.describe)
    ensures var t := R.Reconcile(before, i.name, Result(i, byKey), at);
            && (forall u :: u in Answer(i).unmatched && Automatic(before, byKey, u.key) ==>
                  StoredUnmatched(R.Lookup(t.matches, byKey[u.key]), u.reason))
            && (forall k :: k in Answer(i).notApplicable && Automatic(before, byKey, k) ==>
                  R.Lookup(t.matches, byKey[k]) == RL.WithoutUnmatched(R.Lookup(before.matches, byKey[k])))
    ensures forall n :: 0 <= n < |Answer(i).matched| ==>
              && SettledAt(before, byKey, i, at, n)
              && RowsOf(Answer(i).matched[n], GroupOf(Answer(i).matched[n], i.describe, byKey), byKey)
  {
    var t := R.Reconcile(before, i.name, Result(i, byKey), at);
    forall u | u in Answer(i).unmatched && Automatic(before, byKey, u.key)
      ensures StoredUnmatched(R.Lookup(t.matches, byKey[u.key]), u.reason)
    {
      UnmatchedStored(before, byKey, i, at, u);
    }
    forall k | k in Answer(i).notApplicable && Automatic(before, byKey, k)
      ensures R.Lookup(t.matches, byKey[k]) == RL.WithoutUnmatched(R.Lookup(before.matches, byKey[k]))
    {
      DismissedStored(before, byKey, i, at, k);
    }
    forall n | 0 <= n < |Answer(i).matched|
      ensures SettledAt(before, byKey, i, at, n)
      ensures RowsOf(Answer(i).matched[n], GroupOf(Answer(i).matched[n], i.describe, byKey), byKey)
    {
      MatchedStored(before, byKey, i, at, n);
    }
  }
}
