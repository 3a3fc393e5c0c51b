/** Data issues and their history (issues.repository.ts). */
module DataIssues {
  import opened Domain

  datatype IssueStatus = Open | Resolved | Ignored

  datatype Transition = Transition(status: IssueStatus, at: int)

  datatype Issue = Issue(status: IssueStatus, details: string, detectedAt: int, resolvedAt: Option<int>, history: seq<Transition>)

  /** `open`: a new issue, or a known one reopened; an ignored one stays as it is. */
  function Opened(prior: Option<Issue>, details: string, at: int): Issue {
    match prior
    case None => Issue(Open, details, at, None, [Transition(Open, at)])
    case Some(i) =>
      if i.status.Ignored? then i
      else if i.status.Open? then i.(details := details, resolvedAt := None)
      else Issue(Open, details, at, None, i.history + [Transition(Open, at)])
  }

  /** `transition`: nothing without a known issue in another status. */
  function Moved(prior: Option<Issue>, status: IssueStatus, at: int): Option<Issue> {
    if prior.None? || prior.value.status == status then prior
    else
      var i := prior.value;
      Some(i.(status := status, resolvedAt := if status.Resolved? then Some(at) else None, history := i.history + [Transition(status, at)]))
  }

  /** The history starts open, never repeats a status and ends in the current one; an
      issue has a resolution time exactly while it is resolved. */
  ghost predicate Coherent(i: Issue) {
    && i.history != [] && i.history[0].status.Open?
    && i.history[|i.history| - 1].status == i.status
    && (forall k :: 0 <= k < |i.history| - 1 ==> i.history[k].status != i.history[k + 1].status)
    && (i.resolvedAt.Some? <==> i.status.Resolved?)
    && (i.resolvedAt.Some? ==> i.resolvedAt.value == i.history[|i.history| - 1].at)
  }

  /** Every sequence of the two operations keeps issues coherent, never shortens a
      history, and never reopens an ignored issue by `open`. */
  lemma {:induction false} OpenedCoherent(prior: Option<Issue>, details: string, at: int)
    requires prior.Some? ==> Coherent(prior.value)
    ensures var i := Opened(prior, details, at);
            && Coherent(i) && !i.status.Resolved?
            && (i.status.Ignored? <==> prior.Some? && prior.value.status.Ignored?)
            && (prior.Some? ==> prior.value.history <= i.history)
  {
  }

  lemma {:induction false} MovedCoherent(prior: Option<Issue>, status: IssueStatus, at: int)
    requires prior.Some? ==> Coherent(prior.value)
    ensures var i := Moved(prior, status, at);
            && (i.Some? <==> prior.Some?)
            && (i.Some? ==> Coherent(i.value) && i.value.status == status && prior.value.history <= i.value.history)
  {
  }

  /** An issue that is opened again and again gains one history entry, the first. */
  lemma {:induction false} ReopeningIsQuiet(prior: Option<Issue>, details: string, other: string, at: int, later: int)
    ensures var i, j := Opened(prior, details, at), Opened(Some(Opened(prior, details, at)), other, later);
            j.history == i.history && j.detectedAt == i.detectedAt && j.status == i.status
  {
  }

  class IssuesRepository {
    var issues: map<string, Issue>

    constructor (issues: map<string, Issue>)
      ensures this.issues == issues
    {
      this.issues := issues;
    }

    function Find(key: string): (i: Option<Issue>)
      reads this
      ensures i.Some? <==> key in issues
      ensures i.Some? ==> i.value == issues[key]
    {
      if key in issues then Some(issues[key]) else None
    }

    method OpenIssue(key: string, details: string, at: int)
      modifies this
      ensures issues == old(issues)[key := Opened(old(Find(key)), details, at)]
    {
      var prior := Find(key);
      if prior.None? {
        issues := issues[key := Issue(Open, details, at, None, [Transition(Open, at)])];
        return;
      }
      var i := prior.value;
      if i.status != Ignored {
        var reopened := i.status != Open;
        i := i.(status := Open, details := details, resolvedAt := None);
        if reopened { i := i.(detectedAt := at, history := i.history + [Transition(Open, at)]); }
      }
      issues := issues[key := i];
    }

    method Move(key: string, status: IssueStatus, at: int)
      modifies this
      ensures issues == match Moved(old(Find(key)), status, at) { case Some(i) => old(issues)[key := i] case None => old(issues) }
    {
      var prior := Find(key);
      if prior.Some? && prior.value.status != status {
        issues := issues[key := prior.value.(status := status, resolvedAt := if status.Resolved? then Some(at) else None,
                                             history := prior.value.history + [Transition(status, at)])];
      } else if prior.Some? {
        assert issues == issues[key := prior.value];
      }
    }
  }
}
