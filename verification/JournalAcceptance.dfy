/** What the file journal does with a batch, read off the log alone: the verdict, and
    what an accepted batch's entry says. */
module JournalAcceptance {
  import opened Domain
  import opened MarketChanges
  import opened MarketJournal

  /** What the log has of the scope, if anything, is of the batch's provider. */
  ghost predicate ScopesProvider(log: seq<Entry>, b: Batch) {
    forall i, e, f :: 0 <= i < |log| && log[i].batch.scope == b.scope && e in log[i].batch.matches && f in b.matches ==>
      e.provider == f.provider
  }

  /** A well-formed batch of one provider, which is the scope's. */
  ghost predicate Admissible(log: seq<Entry>, b: Batch) {
    BatchOk(b) && OneProvider(b.matches) && ScopesProvider(log, b)
  }

  /** Strictly newer than everything the log has of the scope. */
  ghost predicate Advances(log: seq<Entry>, b: Batch) {
    forall i :: 0 <= i < |log| && log[i].batch.scope == b.scope ==>
      log[i].batch.at.Some? && b.at.Some? && log[i].batch.at.value < b.at.value
  }

  /** The log has the batch itself, or something newer of the scope. */
  ghost predicate Overtaken(log: seq<Entry>, b: Batch) {
    exists i :: 0 <= i < |log| && log[i].batch.scope == b.scope
                && (log[i].batch == b || (log[i].batch.at.Some? && b.at.Some? && b.at.value < log[i].batch.at.value))
  }

  /** l is the scope's last place in the log. */
  ghost predicate IsLast(log: seq<Entry>, scope: string, l: int) {
    0 <= l < |log| && log[l].batch.scope == scope && forall j :: l < j < |log| ==> log[j].batch.scope != scope
  }

  lemma {:induction false} LoadedAt(log: seq<Entry>, scope: string) returns (l: int)
    requires scope in Load(log)
    ensures IsLast(log, scope, l) && log[l] == Load(log)[scope]
  {
    LoadIsLast(log, scope);
    l :| 0 <= l < |log| && log[l] == Load(log)[scope] && log[l].batch.scope == scope
         && forall j :: l < j < |log| ==> log[j].batch.scope != scope;
  }

  lemma {:induction false} LastDecidesProvider(log: seq<Entry>, b: Batch, l: int)
    requires LogOk(log) && BatchOk(b) && IsLast(log, b.scope, l)
    ensures OneProvider(log[l].batch.matches + b.matches) <==> OneProvider(b.matches) && ScopesProvider(log, b)
  {
    var last := log[l].batch.matches;
    assert BatchOk(log[l].batch);
    if OneProvider(last + b.matches) {
      assert forall e :: e in b.matches ==> e in last + b.matches;
      forall i, e, f | 0 <= i < |log| && log[i].batch.scope == b.scope && e in log[i].batch.matches && f in b.matches
        ensures e.provider == f.provider
      {
        assert OneProvider(log[i].batch.matches);
        assert i == l || OneProvider(log[i].batch.matches + last);
        assert last[0] in log[i].batch.matches + last && e in log[i].batch.matches + last;
        assert last[0] in last + b.matches && f in last + b.matches;
      }
    }
    if OneProvider(b.matches) && ScopesProvider(log, b) {
      assert OneProvider(last);
      forall e, f | e in last + b.matches && f in last + b.matches ensures e.provider == f.provider {
      }
    }
  }

  lemma {:induction false} LastDecidesTime(log: seq<Entry>, b: Batch, l: int)
    requires LogOk(log) && b.at.Some? && IsLast(log, b.scope, l)
    ensures log[l].batch.at.Some?
    ensures Advances(log, b) <==> log[l].batch.at.value < b.at.value
    ensures Overtaken(log, b) <==> b.at.value < log[l].batch.at.value || log[l].batch == b
  {
    assert BatchOk(log[l].batch);
    forall i | 0 <= i < |log| && log[i].batch.scope == b.scope
      ensures log[i].batch.at.Some? && log[i].batch.at.value <= log[l].batch.at.value
      ensures i != l ==> log[i].batch.at.value < log[l].batch.at.value
    {
      assert BatchOk(log[i].batch);
    }
  }

  lemma {:induction false} VerdictOn(log: seq<Entry>, b: Batch)
    requires LogOk(log)
    ensures Decide(Load(log), b).Accepted? <==> Admissible(log, b) && b.complete && Advances(log, b)
    ensures Decide(Load(log), b).Ignored? <==> Admissible(log, b) && Overtaken(log, b)
  {
    if b.scope in Load(log) {
      var l := LoadedAt(log, b.scope);
      if BatchOk(b) {
        LastDecidesProvider(log, b, l);
        LastDecidesTime(log, b, l);
      }
    } else {
      LoadIsLast(log, b.scope);
    }
  }

  /** After every run of a journal that is up: a batch is accepted iff it is well
      formed, complete, of one provider that is the scope's, and strictly newer than
      everything logged of the scope; it is ignored iff the log has it or something newer
      of the scope; and otherwise it is refused. */
  lemma {:induction false} VerdictMeans(steps: seq<Step>, b: Batch)
    requires Execute(steps).index.Some?
    ensures var log, verdict := Execute(steps).log, Decide(Execute(steps).index.value, b);
            && (verdict.Accepted? <==> Admissible(log, b) && b.complete && Advances(log, b))
            && (verdict.Ignored? <==> Admissible(log, b) && Overtaken(log, b))
  {
    RunInv(steps);
    VerdictOn(Execute(steps).log, b);
  }

  /** The matches the scope was last logged with, none if it never was. */
  ghost predicate LastLogged(log: seq<Entry>, scope: string, before: seq<Match>) {
    || (exists l :: IsLast(log, scope, l) && before == log[l].batch.matches)
    || (before == [] && forall i :: 0 <= i < |log| ==> log[i].batch.scope != scope)
  }

  lemma {:induction false} PriorIsLast(log: seq<Entry>, scope: string)
    ensures LastLogged(log, scope, PriorMatches(Load(log), scope))
  {
    if scope in Load(log) {
      var l := LoadedAt(log, scope);
      assert IsLast(log, scope, l);
    } else {
      LoadIsLast(log, scope);
    }
  }

  /** The entry logged for an accepted batch holds the batch, one snapshot for each of its
      selections and the exact changes since the scope's last entry. */
  lemma {:induction false} EntryMeans(steps: seq<Step>, b: Batch) returns (before: seq<Match>)
    requires Execute(steps).index.Some? && Decide(Execute(steps).index.value, b).Accepted?
    ensures var e := Decide(Execute(steps).index.value, b).entry;
            && LastLogged(Execute(steps).log, b.scope, before) && e.batch == b && b.at.Some?
            && (forall x :: x in e.snapshots <==> exists m, k, s :: m in b.matches && k in m.markets && s in k.selections && Tells(x, m, k, s))
            && forall c :: c in e.changes <==> Warranted(c, before, b.matches, b.at.value)
  {
    var latest := Execute(steps).index.value;
    RunInv(steps);
    before := PriorMatches(latest, b.scope);
    PriorIsLast(Execute(steps).log, b.scope);
    AcceptedBatch(latest, b);
    var e := Decide(latest, b).entry;
    forall x ensures x in e.snapshots
                <==> exists m, k, s :: m in b.matches && k in m.markets && s in k.selections && Tells(x, m, k, s) {
      SnapshotsAll(b.matches, x);
    }
    forall c ensures c in e.changes <==> Warranted(c, before, b.matches, b.at.value) {
      ChangesExact(c, before, b.matches, b.at.value);
    }
  }
}
