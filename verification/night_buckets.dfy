/** Calendar dates as instants.  A stay is given by local dates of the inventory's time
    zone; calendar rows sit at UTC midnights.  Instants are milliseconds since the epoch,
    day labels are days since the epoch. */
module NightBuckets {
  import opened Common

  const MS_PER_DAY: int := 86_400_000
  const MAX_NIGHTS: int := 30

  /** The inventory's zone: the offset in force at each local midnight, and the local
      date of each instant. */
  datatype Zone = Zone(midnightOffset: int -> int, dateOf: int -> int)

  /** What a client may send: a plain date, an instant, or neither. */
  datatype DateInput = DateOnly(day: int) | Instant(ms: int) | Malformed

  /** Local midnight of a labelled day. */
  function Midnight(z: Zone, day: int): int { day * MS_PER_DAY - z.midnightOffset(day) }

  function LabelOf(z: Zone, input: DateInput): Option<int> {
    match input
    case DateOnly(d) => Some(d)
    case Instant(t) => Some(z.dateOf(t))
    case Malformed => None
  }

  function ToUtcBucket(z: Zone, input: DateInput): Option<int> {
    var day := LabelOf(z, input);
    if day.None? then None else Some(Midnight(z, day.value))
  }

  /** JavaScript's rounding of a span to whole days: halves go up. */
  function RoundDays(ms: int): int { (2 * ms + MS_PER_DAY) / (2 * MS_PER_DAY) }

  function Nights(checkIn: int, checkOut: int): int { RoundDays(checkOut - checkIn) }

  /** The UTC day an instant falls in, and the first UTC midnight not before it. */
  function FloorDay(ms: int): int { ms / MS_PER_DAY }

  function CeilDay(ms: int): int { -((-ms) / MS_PER_DAY) }

  /** The calendar row of `day` lies in the half-open window of a stay. */
  predicate InWindow(checkIn: int, checkOut: int, day: int) { checkIn <= day * MS_PER_DAY < checkOut }

  lemma WindowBounds(checkIn: int, checkOut: int, day: int)
    ensures InWindow(checkIn, checkOut, day) <==> CeilDay(checkIn) <= day < CeilDay(checkOut)
  {
  }

  /** Offsets of a zone east of Greenwich that never jump by half a day. */
  ghost predicate EastZone(z: Zone) {
    && (forall d :: 0 <= z.midnightOffset(d) < MS_PER_DAY)
    && (forall d, e :: -MS_PER_DAY < 2 * (z.midnightOffset(d) - z.midnightOffset(e)) < MS_PER_DAY)
  }

  /** The window of a stay holds exactly the calendar rows labelled with its local dates,
      one per night, even when the offset changes during the stay. */
  lemma WindowIsTheStay(z: Zone, d: int, e: int, day: int)
    requires EastZone(z)
    ensures Nights(Midnight(z, d), Midnight(z, e)) == e - d
    ensures InWindow(Midnight(z, d), Midnight(z, e), day) <==> d <= day < e
  {
    var a, b := z.midnightOffset(d), z.midnightOffset(e);
    assert Midnight(z, e) - Midnight(z, d) == (e - d) * MS_PER_DAY + (a - b);
    RoundNear(e - d, a - b);
  }

  lemma RoundNear(n: int, r: int)
    requires -MS_PER_DAY < 2 * r < MS_PER_DAY
    ensures RoundDays(n * MS_PER_DAY + r) == n
  {
  }

  // ---------- days as the server counts them ----------

  /** The two ends of the server's count of days: the check-in, and a day before the
      check-out; they are taken in order, whichever comes first. */
  function SpanStart(checkIn: int, checkOut: int): int {
    if checkIn <= checkOut - MS_PER_DAY then checkIn else checkOut - MS_PER_DAY
  }

  function SpanEnd(checkIn: int, checkOut: int): int {
    if checkIn <= checkOut - MS_PER_DAY then checkOut - MS_PER_DAY else checkIn
  }

  /** A midnight of a server that stands at a fixed offset, from the day of the first end up
      to the last end. */
  predicate ServerMidnight(off: int, checkIn: int, checkOut: int, ms: int) {
    && (ms + off) % MS_PER_DAY == 0
    && FloorDay(SpanStart(checkIn, checkOut) + off) * MS_PER_DAY - off <= ms <= SpanEnd(checkIn, checkOut)
  }

  function ServerDays(off: int, checkIn: int, checkOut: int): (n: int)
    ensures n >= 1
  {
    FloorDay(SpanEnd(checkIn, checkOut) + off) - FloorDay(SpanStart(checkIn, checkOut) + off) + 1
  }

  lemma ShiftedDay(day: int, shift: int)
    ensures FloorDay(day * MS_PER_DAY + shift) == day + FloorDay(shift)
  {
  }

  /** When the server counts a stay as it has nights: exactly if the two local midnights lie
      in the same day of the server's clock, seen from their labels. */
  lemma ServerDaysIff(z: Zone, off: int, d: int, e: int)
    requires EastZone(z) && d < e
    ensures ServerDays(off, Midnight(z, d), Midnight(z, e)) == e - d
            <==> FloorDay(off - z.midnightOffset(d)) == FloorDay(off - z.midnightOffset(e))
  {
    var x, y := off - z.midnightOffset(d), off - z.midnightOffset(e);
    assert Midnight(z, d) + off == d * MS_PER_DAY + x && Midnight(z, e) - MS_PER_DAY + off == (e - 1) * MS_PER_DAY + y;
    ShiftedDay(d, x);
    ShiftedDay(e - 1, y);
    if Midnight(z, d) > Midnight(z, e) - MS_PER_DAY { ShortStay(z, d, e); }
  }

  /** A span below one day is a single night into a larger offset. */
  lemma ShortStay(z: Zone, d: int, e: int)
    requires EastZone(z) && d < e && Midnight(z, d) > Midnight(z, e) - MS_PER_DAY
    ensures e == d + 1 && z.midnightOffset(d) < z.midnightOffset(e)
  {
    var a, b := z.midnightOffset(d), z.midnightOffset(e);
    assert 2 * (b - a) < MS_PER_DAY && (e - d - 1) * MS_PER_DAY < b - a;
  }

  /** The days that a walk over an interval visits, on a server at a fixed offset: its local
      midnights, from the day of the earlier end on. */
  method EachDayOfInterval(off: int, start: int, end: int) returns (days: seq<int>)
    ensures var lo, hi := if start <= end then start else end, if start <= end then end else start;
            && |days| == FloorDay(hi + off) - FloorDay(lo + off) + 1
            && forall ms ::
                 ms in days
                 <==> (ms + off) % MS_PER_DAY == 0 && FloorDay(lo + off) * MS_PER_DAY - off <= ms <= hi
    ensures forall i, j :: 0 <= i < j < |days| ==> days[i] != days[j]
  {
    var lo, hi := if start <= end then start else end, if start <= end then end else start;
    var first := FloorDay(lo + off);
    var date := first * MS_PER_DAY - off;
    days := [];
    while date <= hi
      invariant date == (first + |days|) * MS_PER_DAY - off && first + |days| <= FloorDay(hi + off) + 1
      invariant forall i :: 0 <= i < |days| ==> days[i] == (first + i) * MS_PER_DAY - off
      decreases hi - date
    {
      days := days + [date];
      date := date + MS_PER_DAY;
    }
    forall ms ensures ms in days <==> (ms + off) % MS_PER_DAY == 0 && first * MS_PER_DAY - off <= ms <= hi {
      if (ms + off) % MS_PER_DAY == 0 && first * MS_PER_DAY - off <= ms <= hi {
        var k := FloorDay(ms + off);
        assert ms == k * MS_PER_DAY - off && days[k - first] == ms;
      }
      if ms in days {
        var i :| 0 <= i < |days| && days[i] == ms;
        ShiftedDay(first + i, 0);
      }
    }
  }

  /** A zone whose offset never changes. */
  function FixedZone(off: int): Zone { Zone((d: int) => off, (ms: int) => FloorDay(ms + off)) }

  ghost predicate RowsMatchLabels(z: Zone) {
    forall d, e, day :: InWindow(Midnight(z, d), Midnight(z, e), day) <==> d <= day < e
  }

  /** Exactly when local dates and rows agree: for a zone with one fixed offset inside a
      day, every window holds the rows of its local dates if and only if the offset is
      not negative. */
  lemma RowsMatchLabelsIff(off: int)
    requires -MS_PER_DAY < off < MS_PER_DAY
    ensures RowsMatchLabels(FixedZone(off)) <==> off >= 0
  {
    var z := FixedZone(off);
    if off < 0 {
      assert !InWindow(Midnight(z, 0), Midnight(z, 1), 0);
    }
  }

  /** An instant goes to the midnight that starts its local day. */
  lemma BucketStartsTheDay(off: int, t: int)
    ensures var z := FixedZone(off);
            var b := ToUtcBucket(z, Instant(t));
            b.Some? && b.value <= t < b.value + MS_PER_DAY && ToUtcBucket(z, Instant(b.value)) == b
  {
    var z := FixedZone(off);
    var d := FloorDay(t + off);
    assert z.midnightOffset(d) == off && z.dateOf(t) == d;
    assert z.dateOf(Midnight(z, d)) == FloorDay(d * MS_PER_DAY) == d;
  }

  const HOUR: int := 3_600_000

  /** London in spring: the clocks go forward one hour after the midnight of day 1. */
  const LONDON: Zone :=
    Zone((d: int) => if d <= 1 then 0 else HOUR, (ms: int) => FloorDay(ms + if ms < MS_PER_DAY + HOUR then 0 else HOUR))

  lemma LondonDate(ms: int)
    requires ms >= MS_PER_DAY + HOUR
    ensures LONDON.dateOf(ms) == FloorDay(ms + HOUR)
  {
  }
}
