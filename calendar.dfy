/** Calendar event creation (oop.py, `GoogleServices.create_event`).

    The OAuth state is reduced to the `connected` flag that `auth` leaves
    behind. `datetime.fromisoformat` is an abstract oracle mapping the string
    `"{date}T{time}:00"` to a start instant counted in minutes from
    0001-01-01 00:00 (None when it raises), and the outcome of the remote
    `events().insert(...).execute()` is an oracle boolean. An end before
    `datetime.min` or after `datetime.max` raises OverflowError, which
    `create_event` also turns into False. */
module Calendar {
  import opened Common
  import opened Extraction

  /** The duration `create_event` and its callers fall back to. */
  const DefaultDuration: int := 60
  const EventTimeZone: string := "Europe/Moscow"
  /** Two popup reminders, 30 and 10 minutes before the start. */
  const PopupReminders: seq<nat> := [30, 10]
  /** 9999-12-31 23:59, the last whole minute a `datetime` can hold, in
      minutes from 0001-01-01 00:00 (3652058 days and 1439 minutes). */
  const MaxMinute: int := 3652058 * 1440 + 1439

  /** `start + timedelta(minutes=m)` stays within the `datetime` range. */
  predicate EndInRange(start: int, m: int)
  {
    0 <= start + m <= MaxMinute
  }

  /** The request body `create_event` inserts into the primary calendar. */
  datatype EventBody = EventBody(
    summary: Option<string>,
    start: int,
    end: int,
    timeZone: string,
    reminders: seq<nat>)

  /** `ev.get('duration', 60)`: a missing duration becomes 60 minutes. */
  function DurationOrDefault(d: Duration): (r: Duration)
    ensures r != Absent
    ensures d.Absent? ==> r == Minutes(DefaultDuration)
    ensures !d.Absent? ==> r == d
  {
    if d.Absent? then Minutes(DefaultDuration) else d
  }

  /** The string handed to `datetime.fromisoformat`. */
  function IsoStart(date: string, time: string): string
  {
    date + "T" + time + ":00"
  }

  datatype GoogleServices = GoogleServices(connected: bool) {

    /** The body `create_event` sends, or None when it returns False before
        reaching the remote insert: not connected, a start the ISO parser
        rejects, a duration `timedelta` rejects, or an end outside the
        `datetime` range. The title is the Python value passed (None for a
        JSON null), sent unchanged as the summary. */
    function PlannedBody(title: Option<string>, date: string, time: string, duration: Duration,
                         parseStart: string -> Option<int>): (r: Option<EventBody>)
      ensures r.Some? <==>
        && connected && parseStart(IsoStart(date, time)).Some? && !duration.Malformed?
        && EndInRange(parseStart(IsoStart(date, time)).value, DurationOrDefault(duration).m)
      ensures r.Some? ==>
        && r.value.summary == title
        && r.value.start == parseStart(IsoStart(date, time)).value
        && r.value.end == r.value.start + DurationOrDefault(duration).m
        && r.value.timeZone == EventTimeZone
        && r.value.reminders == PopupReminders
    {
      if !connected then None
      else match parseStart(IsoStart(date, time))
        case None => None
        case Some(start) =>
          match DurationOrDefault(duration)
          case Minutes(m) =>
            if EndInRange(start, m) then Some(EventBody(title, start, start + m, EventTimeZone, PopupReminders))
            else None
          case _ => None
    }

    /** `create_event`'s return value: True exactly when a body was built and
        the remote insert (the oracle `inserted`) succeeded. */
    function CreateEvent(title: Option<string>, date: string, time: string, duration: Duration,
                         parseStart: string -> Option<int>, inserted: bool): (ok: bool)
      ensures ok ==> connected && inserted
      ensures ok <==> PlannedBody(title, date, time, duration, parseStart).Some? && inserted
    {
      && connected && inserted && parseStart(IsoStart(date, time)).Some? && !duration.Malformed?
      && EndInRange(parseStart(IsoStart(date, time)).value, DurationOrDefault(duration).m)
    }
  }
}
