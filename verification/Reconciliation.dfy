/** Folding a matching result into stored matches, decisions, issues and aliases
    (matching.repository.ts `reconcile`), inside one transaction. */
module Reconciliation {
  import opened Domain
  import opened DataIssues

  datatype MatchStatus = Matched | Partial | LowConfidence | Manual | Unmatched

  type RowId = string
  type CanonId = nat

  /** An event's match row. Confidence and start difference are not modelled. */
  datatype MatchRow = MatchRow(canonical: Option<CanonId>, status: MatchStatus, reason: string)

  datatype Decision = Decision(row: RowId, canonical: Option<CanonId>, status: MatchStatus, reason: string, at: int)

  datatype Canonical = Canonical(esport: Esport, tournament: string, teamA: string, teamB: string, startsAt: int)

  type Aliases = map<(Esport, string), string>

  /** Stored state; `rows` are the known provider events, `nextCanonical` a fresh identifier. */
  datatype Db = Db(
    rows: set<RowId>,
    matches: map<RowId, MatchRow>,
    decisions: seq<Decision>,
    canonicals: map<CanonId, Canonical>,
    nextCanonical: CanonId,
    issues: map<string, Issue>,
    aliases: Aliases,
    tournaments: Aliases)

  datatype Learned = Learned(alias: string, canonical: string)

  /** A matched group: its members' rows, one per provider, and what it taught. */
  datatype Group = Group(members: seq<RowId>, canonical: Canonical, reason: string,
                         aliases: seq<Learned>, tournaments: seq<Learned>)

  datatype Outcome = Outcome(notApplicable: seq<RowId>, matched: seq<Group>, unmatched: seq<(RowId, string)>)

  /** Canonical team name under the aliases known so far. */
  type Naming = (Aliases, Esport, string) -> string

  function UnmatchedKey(id: RowId): string { "unmatched:" + id }

  function ConflictKey(id: RowId): string { "canonical-conflict:" + id }

  function Lookup<K, V>(m: map<K, V>, k: K): Option<V> {
    if k in m then Some(m[k]) else None
  }

  predicate IsManual(db: Db, id: RowId) {
    id in db.matches && db.matches[id].status.Manual?
  }

  function WithIssueOpen(db: Db, key: string, details: string, at: int): Db {
    db.(issues := db.issues[key := Opened(Lookup(db.issues, key), details, at)])
  }

  function WithIssueMoved(db: Db, key: string, status: IssueStatus, at: int): Db {
    match Moved(Lookup(db.issues, key), status, at)
    case Some(i) => db.(issues := db.issues[key := i])
    case None => db
  }

  // --- Events for which matching does not apply ------------------------------

  function Dismiss(db: Db, before: Db, id: RowId, at: int): Db {
    if id !in before.rows || IsManual(before, id) then db
    else
      var t := WithIssueMoved(db, UnmatchedKey(id), Resolved, at);
      if id in before.matches && before.matches[id].status.Unmatched? then t.(matches := t.matches - {id}) else t
  }

  // --- Matched groups --------------------------------------------------------

  /** The row's latest decision that named a canonical event; of equally late ones
      the one recorded last. */
  function Historic(ds: seq<Decision>, id: RowId): Option<Decision> {
    if ds == [] then None
    else
      var d, h := ds[|ds| - 1], Historic(ds[..|ds| - 1], id);
      if d.row == id && d.canonical.Some? && (h.None? || h.value.at <= d.at) then Some(d) else h
  }

  predicate SameTeams(name: Naming, aliases: Aliases, e: Esport, a: Canonical, b: Canonical) {
    multiset{name(aliases, e, a.teamA), name(aliases, e, a.teamB)} == multiset{name(aliases, e, b.teamA), name(aliases, e, b.teamB)}
  }

  function Abs(x: int): int { if x < 0 then -x else x }

  /** A past identity counts if it is the same fixture within five minutes. */
  function HistoricalId(before: Db, name: Naming, aliases: Aliases, c: Canonical, id: RowId): Option<CanonId> {
    var h := Historic(before.decisions, id);
    if h.None? || h.value.canonical.None? || h.value.canonical.value !in before.canonicals then None
    else
      var e := before.canonicals[h.value.canonical.value];
      if e.esport == c.esport && SameTeams(name, aliases, c.esport, e, c) && Abs(e.startsAt - c.startsAt) <= 5 * 60_000
      then h.value.canonical else None
  }

  function PriorId(before: Db, name: Naming, aliases: Aliases, c: Canonical, id: RowId): Option<CanonId> {
    if id in before.matches && before.matches[id].canonical.Some? then before.matches[id].canonical
    else HistoricalId(before, name, aliases, c, id)
  }

  /** The distinct earlier identities of a group's members. */
  function PriorIds(before: Db, name: Naming, aliases: Aliases, c: Canonical, members: seq<RowId>): (ids: seq<CanonId>)
    ensures forall i, j :: 0 <= i < j < |ids| ==> ids[i] != ids[j]
    ensures forall x :: x in ids <==> exists m :: m in members && PriorId(before, name, aliases, c, m) == Some(x)
  {
    if members == [] then []
    else
      var n := |members| - 1;
      var ids, last := PriorIds(before, name, aliases, c, members[..n]), PriorId(before, name, aliases, c, members[n]);
      assert members == members[..n] + [members[n]];
      if last.None? || last.value in ids then ids else ids + [last.value]
  }

  /** Learning never overwrites: `stored` keeps what it has, `known` is what this
      transaction compares names with. */
  function Learn(stored: Aliases, known: Aliases, e: Esport, ls: seq<Learned>): (Aliases, Aliases) {
    if ls == [] then (stored, known)
    else
      var n := |ls| - 1;
      var (s, k) := Learn(stored, known, e, ls[..n]);
      var key := (e, ls[n].alias);
      if key in k && k[key] != "" && k[key] != ls[n].canonical then (s, k)
      else (if key in s then s else s[key := ls[n].canonical], k[key := ls[n].canonical])
  }

  function Conflict(db: Db, members: seq<RowId>, at: int): Db {
    if members == [] then db
    else WithIssueOpen(Conflict(db, members[..|members| - 1], at), ConflictKey(members[|members| - 1]), "event", at)
  }

  function Join(db: Db, before: Db, id: RowId, c: CanonId, reason: string, at: int): Db {
    if IsManual(before, id) then db
    else
      var prior := Lookup(before.matches, id);
      var changed := prior.None? || prior.value.canonical != Some(c) || !prior.value.status.Matched?;
      var t := db.(decisions := if changed then db.decisions + [Decision(id, Some(c), Matched, reason, at)] else db.decisions,
                   matches := db.matches[id := MatchRow(Some(c), Matched, reason)]);
      WithIssueMoved(t, UnmatchedKey(id), Resolved, at)
  }

  function JoinAll(db: Db, before: Db, members: seq<RowId>, c: CanonId, reason: string, at: int): Db {
    if members == [] then db
    else Join(JoinAll(db, before, members[..|members| - 1], c, reason, at), before, members[|members| - 1], c, reason, at)
  }

  /** The database and the names known within the transaction. */
  datatype Progress = Progress(db: Db, known: Aliases, knownTournaments: Aliases)

  /** The group's identity: the one it had, or a new one. */
  function Identity(x: Progress, ids: seq<CanonId>): CanonId { if ids == [] then x.db.nextCanonical else ids[0] }

  /** What the group taught is stored and its identity created or brought up to date. */
  function Adopted(x: Progress, g: Group, ids: seq<CanonId>): Db {
    var c, e := Identity(x, ids), g.canonical.esport;
    var esport := if c in x.db.canonicals then x.db.canonicals[c].esport else e;
    x.db.(aliases := Learn(x.db.aliases, x.known, e, g.aliases).0,
          tournaments := Learn(x.db.tournaments, x.knownTournaments, e, g.tournaments).0,
          canonicals := x.db.canonicals[c := g.canonical.(esport := esport)],
          nextCanonical := if ids == [] then c + 1 else x.db.nextCanonical)
  }

  function Settle(x: Progress, before: Db, name: Naming, g: Group, at: int): Progress {
    var ids := PriorIds(before, name, x.known, g.canonical, g.members);
    if |ids| > 1 then x.(db := Conflict(x.db, g.members, at))
    else
      Progress(JoinAll(Adopted(x, g, ids), before, g.members, Identity(x, ids), g.reason, at),
               Learn(x.db.aliases, x.known, g.canonical.esport, g.aliases).1,
               Learn(x.db.tournaments, x.knownTournaments, g.canonical.esport, g.tournaments).1)
  }

  // --- Unmatched events ------------------------------------------------------

  function Part(db: Db, before: Db, id: RowId, reason: string, at: int): Db {
    if id !in before.rows || IsManual(before, id) then db
    else
      var prior := Lookup(before.matches, id);
      var changed := prior.None? || !prior.value.status.Unmatched? || prior.value.reason != reason;
      var t := db.(decisions := if changed then db.decisions + [Decision(id, None, Unmatched, reason, at)] else db.decisions,
                   matches := db.matches[id := MatchRow(None, Unmatched, reason)]);
      WithIssueOpen(t, UnmatchedKey(id), reason, at)
  }

  // --- The whole transaction -------------------------------------------------

  function DismissAll(db: Db, before: Db, ids: seq<RowId>, at: int): Db {
    if ids == [] then db else Dismiss(DismissAll(db, before, ids[..|ids| - 1], at), before, ids[|ids| - 1], at)
  }

  function SettleAll(x: Progress, before: Db, name: Naming, gs: seq<Group>, at: int): Progress {
    if gs == [] then x else Settle(SettleAll(x, before, name, gs[..|gs| - 1], at), before, name, gs[|gs| - 1], at)
  }

  function PartAll(db: Db, before: Db, us: seq<(RowId, string)>, at: int): Db {
    if us == [] then db else Part(PartAll(db, before, us[..|us| - 1], at), before, us[|us| - 1].0, us[|us| - 1].1, at)
  }

  function Dismissed(before: Db, r: Outcome, at: int): Progress {
    Progress(DismissAll(before, before, r.notApplicable, at), before.aliases, before.tournaments)
  }

  function Reconcile(before: Db, name: Naming, r: Outcome, at: int): Db {
    PartAll(SettleAll(Dismissed(before, r, at), before, name, r.matched, at).db, before, r.unmatched, at)
  }
}
