/** Provider events as every component sees them (normalized-event.ts). */
module Domain {

  datatype Option<+T> = None | Some(value: T)

  datatype Esport = Cs2 | Lol | Valorant

  datatype Status = Scheduled | Live | Suspended | Finished

  /** `startsAt` and `fetchedAt` are parsed instants in milliseconds; None is a
      time that does not parse. `content` stands for every other field. */
  datatype Event = Event(
    provider: string,
    eventId: string,
    esport: Esport,
    teamA: string,
    teamB: string,
    tournament: string,
    startsAt: Option<int>,
    fetchedAt: Option<int>,
    status: Status,
    inPlay: Option<bool>,
    content: string)

  /** provider + ":" + eventId. Provider names contain no colon. */
  type Key = (string, string)

  function KeyOf(e: Event): Key { (e.provider, e.eventId) }
}
