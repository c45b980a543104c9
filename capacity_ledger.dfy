/**
 * The per-date capacity ledger the booking service keeps in each tour's
 * `startDates`: finding the entry of an exact start instant, adding to its
 * participant counter and recomputing its sold-out flag, and the calendar
 * day bounds the checkout query uses.
 */
module CapacityLedger {
  import opened Wrappers
  import opened TourModel

  const DAY_MS: int := 86400000

  /** `date.setHours(0, 0, 0, 0)`, taken in UTC. */
  function DayStart(t: int): int {
    (t / DAY_MS) * DAY_MS
  }

  /** `date.setHours(23, 59, 59, 999)`, taken in UTC. */
  function DayEnd(t: int): int {
    DayStart(t) + DAY_MS - 1
  }

  /** The checkout range `[startOfDay, endOfDay]` holds exactly the instants of the same calendar day. */
  lemma SameDayRange(t: int, d: int)
    ensures DayStart(t) <= d <= DayEnd(t) <==> d / DAY_MS == t / DAY_MS
  {
    var k := t / DAY_MS;
    if DayStart(t) <= d <= DayEnd(t) {
      assert k * DAY_MS <= d < (k + 1) * DAY_MS;
      assert d / DAY_MS == k;
    }
    if d / DAY_MS == k {
      assert d == k * DAY_MS + d % DAY_MS;
    }
  }

  /** `startDates.find(d => d.date.getTime() === instant)`: the first entry with exactly that instant. */
  function FindEntry(dates: seq<StartDate>, instant: int): (r: Option<nat>)
    ensures r.Some? ==> r.value < |dates| && dates[r.value].date == instant
    ensures r.Some? ==> forall j :: 0 <= j < r.value ==> dates[j].date != instant
    ensures r.None? <==> forall j :: 0 <= j < |dates| ==> dates[j].date != instant
    decreases |dates|
  {
    if |dates| == 0 then None
    else if dates[0].date == instant then Some(0)
    else match FindEntry(dates[1..], instant)
      case None => None
      case Some(i) => Some(i + 1)
  }

  /**
   * `entry.participants += delta; entry.soldOut = entry.participants >= maxGroupSize`
   * on entry `i` of the tour. Only that entry's counter and flag change.
   */
  function Adjust(t: Tour, i: nat, delta: Count): (r: Tour)
    requires i < |t.startDates|
    ensures |r.startDates| == |t.startDates|
    ensures r.startDates[i].date == t.startDates[i].date
    ensures r.startDates[i].participants == t.startDates[i].participants.Plus(delta)
    ensures r.startDates[i].soldOut <==> r.startDates[i].participants.AtLeast(t.maxGroupSize)
    ensures forall j :: 0 <= j < |t.startDates| && j != i ==> r.startDates[j] == t.startDates[j]
    ensures r.(startDates := t.startDates) == t
  {
    var entry := t.startDates[i];
    var participants := entry.participants.Plus(delta);
    t.(startDates := t.startDates[i := StartDate(entry.date, participants, participants.AtLeast(t.maxGroupSize))])
  }

  /** Once a counter is NaN no later adjustment makes it a number again, so the date never sells out. */
  lemma NaNIsSticky(t: Tour, i: nat, delta: Count)
    requires i < |t.startDates| && t.startDates[i].participants.NaN?
    ensures Adjust(t, i, delta).startDates[i].participants.NaN?
    ensures !Adjust(t, i, delta).startDates[i].soldOut
  {
  }
}
