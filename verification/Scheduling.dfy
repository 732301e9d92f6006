/** Six-hour windows of a site's local day, for a time zone with a fixed offset from UTC. */
module Scheduling {
  import opened Contracts

  const SECOND: int := 1_000_000
  const HOUR: int := 3_600_000_000
  const DAY: int := 86_400_000_000

  datatype WindowBounds = WindowBounds(start: Time, end: Time)

  /** The largest of the boundary hours 0, 6, 12, 18 not after the hour. */
  function StartHour(hour: int): int {
    if hour >= 18 then 18 else if hour >= 12 then 12 else if hour >= 6 then 6 else 0
  }

  /** `offset` is `None` for a time zone that is not recognized. */
  function ResolveSixHourWindow(instant: Time, offset: Option<int>): Option<WindowBounds> {
    match offset
    case None => None
    case Some(east) =>
      var date := (instant + east) / DAY;
      var startHour := StartHour((instant + east) % DAY / HOUR);
      var (endDate, endHour) := if startHour + 6 == 24 then (date + 1, 0) else (date, startHour + 6);
      Some(WindowBounds(date * DAY + startHour * HOUR - east, endDate * DAY + endHour * HOUR - east))
  }

  /** The window of an instant, given a recognized time zone. */
  function WindowOf(instant: Time, east: int): WindowBounds {
    ResolveSixHourWindow(instant, Some(east)).value
  }

  lemma {:induction false} WindowShape(t: Time, east: int)
    ensures var w := WindowOf(t, east);
      && w.start <= t < w.end && w.end == w.start + 6 * HOUR
      && w.start == (t + east) / (6 * HOUR) * (6 * HOUR) - east
  {
    var local := t + east;
    var date, rest := local / DAY, local % DAY;
    var hour := rest / HOUR;
    assert local == date * DAY + rest && 0 <= rest < DAY;
    assert rest == hour * HOUR + rest % HOUR && 0 <= hour < 24;
    var start := date * DAY + StartHour(hour) * HOUR;
    assert start <= local < start + 6 * HOUR;
    assert start == (date * 4 + StartHour(hour) / 6) * (6 * HOUR);
    QuotientIs(local, 6 * HOUR, date * 4 + StartHour(hour) / 6);
  }

  lemma QuotientIs(x: int, d: int, q: int)
    requires d == 6 * HOUR && q * d <= x < q * d + d
    ensures x / d == q
  {
  }

  /**
    Windows tile time: an instant lies in its own half-open six-hour window, an instant has the same
    window exactly when it lies in it, and the next window starts where this one ends, midnight included.
  */
  lemma WindowsTile(t: Time, u: Time, east: int)
    ensures var w := WindowOf(t, east);
      && w.start <= t < w.end && w.end == w.start + 6 * HOUR
      && (WindowOf(u, east) == w <==> w.start <= u < w.end)
      && WindowOf(w.end, east) == WindowBounds(w.end, w.end + 6 * HOUR)
      && WindowOf(w.start, east) == w
  {
    var w := WindowOf(t, east);
    WindowShape(t, east);
    WindowShape(u, east);
    WindowShape(w.end, east);
    WindowShape(w.start, east);
    hide ResolveSixHourWindow, StartHour;
    var q := (t + east) / (6 * HOUR);
    QuotientIs(w.start + east, 6 * HOUR, q);
    QuotientIs(w.end + east, 6 * HOUR, q + 1);
    if w.start <= u < w.end {
      QuotientIs(u + east, 6 * HOUR, q);
    }
  }

  /** Without a recognized time zone there is no window and no next boundary. */
  function NextBoundary(on: bool, watermark: Time, offset: Option<int>): Option<Time> {
    if !on then None
    else
      var bounds := ResolveSixHourWindow(watermark, offset);
      if bounds.None? then None else Some(bounds.value.end)
  }

  predicate AfterWatermark(bounds: WindowBounds, watermark: Time) {
    bounds.start > watermark
  }

  /** The scheduler admits an instant's window exactly from the boundary the control service announced. */
  lemma GateOpensAtNextBoundary(watermark: Time, t: Time, east: int)
    ensures NextBoundary(true, watermark, Some(east)).Some?
    ensures AfterWatermark(WindowOf(t, east), watermark) <==> t >= NextBoundary(true, watermark, Some(east)).value
    ensures NextBoundary(true, watermark, Some(east)).value > watermark
    ensures NextBoundary(false, watermark, Some(east)).None? && NextBoundary(true, watermark, None).None?
  {
    WindowShape(watermark, east);
    WindowShape(t, east);
    var d := 6 * HOUR;
    var a, b := (watermark + east) / d, (t + east) / d;
    NextMultiple(watermark + east, t + east, d, a, b);
    assert WindowOf(t, east).start == b * d - east;
    assert WindowOf(watermark, east).end == a * d + d - east;
    hide StartHour, WindowOf;
  }

  lemma NextMultiple(x: int, y: int, d: int, a: int, b: int)
    requires d == 6 * HOUR && a * d <= x < a * d + d && b * d <= y < b * d + d
    ensures b * d > x <==> y >= a * d + d
  {
  }
}
