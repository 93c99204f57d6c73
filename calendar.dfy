/**
 * Dates, instants and the time-zone database, as the scheduler uses them.
 *
 * A date is a day number counted from 0001-01-01, which was a Monday, so
 * `d % 7` is Python's `date.weekday()` (Monday = 0). An instant is a count of
 * seconds since 0001-01-01T00:00 UTC; a local date-time is the same count read
 * off a wall clock. The zone database (zoneinfo) is abstract: a set of known
 * names and the two conversions between UTC and local wall-clock time.
 */
module Calendar {

  type Instant = int
  type Date = int
  type LocalDateTime = int

  const SecondsPerMinute: int := 60
  const SecondsPerHour: int := 3600
  const SecondsPerDay: int := 86400

  /** A wall-clock time of day (Django's TimeField), in seconds after midnight. */
  type TimeOfDay = t: int | 0 <= t < SecondsPerDay

  function Minutes(n: int): int { n * SecondsPerMinute }
  function Hours(n: int): int { n * SecondsPerHour }
  function Days(n: int): int { n * SecondsPerDay }

  /** `instant.date()` of an aware datetime expressed in UTC. */
  function UtcDate(t: Instant): Date { t / SecondsPerDay }

  /** `date.weekday()`, Monday = 0 ... Sunday = 6. */
  function Weekday(d: Date): (w: int)
    ensures 0 <= w < 7
  {
    d % 7
  }

  function LocalDate(l: LocalDateTime): Date { l / SecondsPerDay }

  function TimeOf(l: LocalDateTime): TimeOfDay { l % SecondsPerDay }

  /** `datetime.combine(date, time)`. */
  function Combine(d: Date, t: TimeOfDay): LocalDateTime { d * SecondsPerDay + t }

  lemma CombineSplits(d: Date, t: TimeOfDay)
    ensures LocalDate(Combine(d, t)) == d
    ensures TimeOf(Combine(d, t)) == t
  {
    var l := d * SecondsPerDay + t;
    assert l == SecondsPerDay * d + t;
  }

  /** The zone database: which names `ZoneInfo` accepts, and its two conversions. */
  datatype ZoneDb = ZoneDb(
    known: string -> bool,
    toLocal: (string, Instant) -> LocalDateTime,
    fromLocal: (string, LocalDateTime) -> Instant)

  /** A resolved zone: `ZoneInfo('UTC')` or a zone the database knows by name. */
  datatype Zone = Utc | Named(name: string)

  /** `ZoneInfo(name)`, falling back to UTC when the name is rejected. */
  function ResolveZone(db: ZoneDb, name: string): (z: Zone)
    ensures !db.known(name) ==> z == Utc
    ensures db.known(name) ==> z == Named(name)
  {
    if db.known(name) then Named(name) else Utc
  }

  /** `instant.astimezone(zone)`, read as a wall-clock value. */
  function ToLocal(db: ZoneDb, z: Zone, t: Instant): LocalDateTime {
    match z
    case Utc => t
    case Named(n) => db.toLocal(n, t)
  }

  /** `local.replace(tzinfo=zone).astimezone(UTC)`. */
  function FromLocal(db: ZoneDb, z: Zone, l: LocalDateTime): Instant {
    match z
    case Utc => l
    case Named(n) => db.fromLocal(n, l)
  }

  /** The zone's conversions are inverse on every wall-clock value (no gaps or folds). */
  ghost predicate RoundTrips(db: ZoneDb, z: Zone) {
    forall l :: ToLocal(db, z, FromLocal(db, z, l)) == l
  }

  /**
   * The wall-clock value `l` exists in the zone: converting it to UTC and
   * back gives `l` again. A spring-forward gap is exactly where this fails.
   */
  ghost predicate WallTimeExists(db: ZoneDb, z: Zone, l: LocalDateTime) {
    ToLocal(db, z, FromLocal(db, z, l)) == l
  }

  /** A zone whose offset from UTC never changes. */
  ghost predicate FixedOffset(db: ZoneDb, z: Zone, offset: int) {
    (forall t :: ToLocal(db, z, t) == t + offset) &&
    (forall l :: FromLocal(db, z, l) == l - offset)
  }

  lemma UtcIsFixed(db: ZoneDb)
    ensures FixedOffset(db, Utc, 0) && RoundTrips(db, Utc)
  {
  }
}
