/** Daily quiet hours in a zone whose offset changes at most once near the instant. */
module QuietHours {
  import opened Contracts

  const DAY := 86_400

  /** The part of a time zone around one instant: offset `before` until `change`,
      offset `after` from then on. Instants and offsets are in seconds. */
  datatype Zone = Zone(change: int, before: int, after: int) {
    function Offset(utc: int): int {
      if utc < change then before else after
    }

    function Wall(utc: int): int { utc + Offset(utc) }

    /** The UTC reading of a wall time. Fold 0 keeps the earlier offset up to the later of
        the two wall images of the change, fold 1 only up to the earlier one. */
    function Resolve(wall: int, fold: bool): int {
      var image := if fold then Min(before, after) else Max(before, after);
      if wall < change + image then wall - before else wall - after
    }
  }

  function Min(a: int, b: int): int { if a <= b then a else b }

  function Max(a: int, b: int): int { if a <= b then b else a }

  datatype DailyQuietHours = DailyQuietHours(zone: Zone, startLocal: int, endLocal: int) {
    predicate Valid() {
      0 <= startLocal < DAY && 0 <= endLocal < DAY && startLocal != endLocal
    }

    predicate Overnight() { startLocal > endLocal }
  }

  /** The wall time of day lies in the configured interval. */
  predicate InQuietInterval(q: DailyQuietHours, now: int) {
    QuietTime(q, q.zone.Wall(now) % DAY)
  }

  predicate QuietTime(q: DailyQuietHours, tod: int) {
    if q.Overnight() then q.startLocal <= tod || tod < q.endLocal
    else q.startLocal <= tod < q.endLocal
  }

  /** A boundary is read in the way that keeps the interval longest. */
  function ResolveBoundary(z: Zone, wall: int, earliest: bool): int {
    var first, second := z.Resolve(wall, false), z.Resolve(wall, true);
    if earliest then Min(first, second) else Max(first, second)
  }

  /** The quiet interval that starts on a local date, in UTC. */
  function Interval(q: DailyQuietHours, date: int): (int, int) {
    var endDate := if q.Overnight() then date + 1 else date;
    (ResolveBoundary(q.zone, date * DAY + q.startLocal, true),
     ResolveBoundary(q.zone, endDate * DAY + q.endLocal, false))
  }

  predicate Covers(q: DailyQuietHours, date: int, now: int) {
    Interval(q, date).0 <= now < Interval(q, date).1
  }

  /** The end of the interval that covers `now`, looking at yesterday's first. */
  method QuietHoursEnd(configuration: Option<DailyQuietHours>, now: int) returns (r: Option<int>)
    ensures r == QuietEnd(configuration, now)
  {
    hide ResolveBoundary;
    if configuration.None? { return None; }
    var q := configuration.value;
    var date := q.zone.Wall(now) / DAY;
    for start := date - 1 to date + 1
      invariant forall d :: date - 1 <= d < start ==> !Covers(q, d, now)
    {
      var (startUtc, endUtc) := Interval(q, start);
      if startUtc <= now < endUtc {
        assert Covers(q, start, now);
        return Some(endUtc);
      }
    }
    return None;
  }

  function QuietEnd(configuration: Option<DailyQuietHours>, now: int): (r: Option<int>)
    ensures r.Some? ==> now < r.value
  {
    match configuration
    case None => None
    case Some(q) =>
      var date := q.zone.Wall(now) / DAY;
      if Covers(q, date - 1, now) then Some(Interval(q, date - 1).1)
      else if Covers(q, date, now) then Some(Interval(q, date).1)
      else None
  }

  /** A wall time that exists is read as the first and as the last instant that shows it; fold 0
      is the first reading and fold 1 the last. */
  lemma BoundariesShowTheWall(z: Zone, now: int)
    ensures var wall := z.Wall(now);
            && z.Wall(ResolveBoundary(z, wall, true)) == wall == z.Wall(ResolveBoundary(z, wall, false))
            && ResolveBoundary(z, wall, true) <= now <= ResolveBoundary(z, wall, false)
            && z.Resolve(wall, false) <= now <= z.Resolve(wall, true)
  {}

  lemma StartIsReached(z: Zone, wall: int, now: int)
    requires wall <= z.Wall(now)
    ensures ResolveBoundary(z, wall, true) <= now
  {}

  lemma EndIsAhead(z: Zone, wall: int, now: int)
    requires z.Wall(now) < wall
    ensures now < ResolveBoundary(z, wall, false)
  {}

  /** A wall time inside the quiet interval that starts on `date`. */
  predicate QuietWall(q: DailyQuietHours, date: int, wall: int) {
    date * DAY + q.startLocal <= wall < (if q.Overnight() then date + 1 else date) * DAY + q.endLocal
  }

  lemma QuietWallIsCovered(q: DailyQuietHours, d: int, now: int)
    requires QuietWall(q, d, q.zone.Wall(now))
    ensures Covers(q, d, now)
  {
    hide ResolveBoundary;
    StartIsReached(q.zone, d * DAY + q.startLocal, now);
    EndIsAhead(q.zone, (if q.Overnight() then d + 1 else d) * DAY + q.endLocal, now);
  }

  /** Whatever the offset change does, no instant whose wall time is quiet slips through,
      and the reported end lies strictly ahead. */
  lemma QuietInstantIsBlocked(q: DailyQuietHours, now: int)
    requires q.Valid()
    requires InQuietInterval(q, now)
    ensures QuietEnd(Some(q), now).Some?
    ensures now < QuietEnd(Some(q), now).value
  {
    hide Covers, Interval;
    var wall := q.zone.Wall(now);
    QuietWallExactly(q, wall);
    if QuietWall(q, wall / DAY - 1, wall) { QuietWallIsCovered(q, wall / DAY - 1, now); }
    if QuietWall(q, wall / DAY, wall) { QuietWallIsCovered(q, wall / DAY, now); }
  }

  lemma ConstantBoundary(z: Zone, wall: int, earliest: bool)
    requires z.before == z.after
    ensures ResolveBoundary(z, wall, earliest) == wall - z.before
  {}

  /** Under a constant offset an interval covers exactly its wall times. */
  lemma ConstantCovers(q: DailyQuietHours, d: int, now: int)
    requires q.zone.before == q.zone.after
    ensures Covers(q, d, now) <==> QuietWall(q, d, q.zone.Wall(now))
    ensures q.zone.Wall(Interval(q, d).1) == (if q.Overnight() then d + 1 else d) * DAY + q.endLocal
  {
    hide ResolveBoundary;
    ConstantBoundary(q.zone, d * DAY + q.startLocal, true);
    ConstantBoundary(q.zone, (if q.Overnight() then d + 1 else d) * DAY + q.endLocal, false);
  }

  /** A quiet wall time lies in the interval of its own date or of the day before. */
  lemma QuietWallExactly(q: DailyQuietHours, wall: int)
    requires q.Valid()
    ensures QuietWall(q, wall / DAY - 1, wall) || QuietWall(q, wall / DAY, wall) <==> QuietTime(q, wall % DAY)
  {
    assert wall == wall / DAY * DAY + wall % DAY;
  }

  /** Under a constant offset blocking is exact, and the end is the next quiet end. */
  lemma ConstantOffsetIsExact(q: DailyQuietHours, now: int)
    requires q.Valid() && q.zone.before == q.zone.after
    ensures QuietEnd(Some(q), now).Some? <==> InQuietInterval(q, now)
    ensures var end := QuietEnd(Some(q), now);
            end.Some? ==> q.zone.Wall(end.value) % DAY == q.endLocal && end.value - now < DAY
  {
    hide Covers, Interval;
    var wall := q.zone.Wall(now);
    ConstantCovers(q, wall / DAY - 1, now);
    ConstantCovers(q, wall / DAY, now);
    QuietWallExactly(q, wall);
  }

  function Jump(z: Zone): int {
    Max(z.before, z.after) - Min(z.before, z.after)
  }

  lemma BoundaryIsNear(z: Zone, wall: int, now: int)
    ensures ResolveBoundary(z, wall, true) <= now ==> wall <= z.Wall(now) + Jump(z)
    ensures now < ResolveBoundary(z, wall, false) ==> z.Wall(now) < wall + Jump(z)
  {}

  /** Across a change, an instant is blocked beyond the quiet interval only if its wall time
      is within the size of the change of a quiet one. */
  lemma OverblockingIsBounded(q: DailyQuietHours, now: int)
    requires q.Valid()
    requires QuietEnd(Some(q), now).Some?
    ensures exists date, wall :: QuietWall(q, date, wall) && -Jump(q.zone) <= wall - q.zone.Wall(now) <= Jump(q.zone)
  {
    hide ResolveBoundary;
    var wall := q.zone.Wall(now);
    var d := if Covers(q, wall / DAY - 1, now) then wall / DAY - 1 else wall / DAY;
    var lo, hi := d * DAY + q.startLocal, (if q.Overnight() then d + 1 else d) * DAY + q.endLocal;
    BoundaryIsNear(q.zone, lo, now);
    BoundaryIsNear(q.zone, hi, now);
    assert QuietWall(q, d, if wall < lo then lo else if wall >= hi then hi - 1 else wall);
  }
}
