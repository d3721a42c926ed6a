/**
 * The counting parts of the report service (services/report/main.py): the
 * booking report's date filter and status counts, the room report's status
 * counts, and the day-by-day occupancy table.
 */
module Reports {
  import opened Wrappers
  import opened Dependencies

  /** What a call to another service produced: its answer, or the message of the exception it raised. */
  datatype Reply<T> = Answered(value: T) | Raised(message: string)

  /** The fields the reports read from a booking returned by the booking service. */
  datatype ReportBooking = ReportBooking(checkIn: int, checkOut: int, status: string)

  /** How many entries of `statuses` equal `s` (`sum(1 for b in ... if b.get("status") == s)`). */
  function CountStatus(statuses: seq<string>, s: string): (n: nat)
    ensures n <= |statuses|
    ensures n == 0 <==> s !in statuses
  {
    if statuses == [] then 0
    else (if statuses[0] == s then 1 else 0) + CountStatus(statuses[1..], s)
  }

  /** How many entries of `statuses` are none of `labels`. */
  function CountOutside(statuses: seq<string>, labels: seq<string>): (n: nat)
    ensures n <= |statuses|
  {
    if statuses == [] then 0
    else (if statuses[0] !in labels then 1 else 0) + CountOutside(statuses[1..], labels)
  }

  function StatusesOf(bs: seq<ReportBooking>): (r: seq<string>)
    ensures |r| == |bs| && forall i :: 0 <= i < |bs| ==> r[i] == bs[i].status
  {
    if bs == [] then [] else [bs[0].status] + StatusesOf(bs[1..])
  }

  /** The five statuses the booking report counts, in chart order. */
  const BOOKING_REPORT_STATUSES: seq<string> := ["confirmed", "checked_in", "checked_out", "cancelled", "pending"]
  const BOOKING_REPORT_LABELS: seq<string> := ["Confirmed", "Checked In", "Checked Out", "Cancelled", "Pending"]

  /** The four statuses the room report counts, in chart order. */
  const ROOM_REPORT_STATUSES: seq<string> := ["available", "booked", "occupied", "maintenance"]
  const ROOM_REPORT_LABELS: seq<string> := ["Available", "Booked", "Occupied", "Maintenance"]

  function Counts(statuses: seq<string>, labels: seq<string>): (r: seq<nat>)
    ensures |r| == |labels| && forall i :: 0 <= i < |labels| ==> r[i] == CountStatus(statuses, labels[i])
  {
    if labels == [] then [] else [CountStatus(statuses, labels[0])] + Counts(statuses, labels[1..])
  }

  function SumOf(xs: seq<nat>): nat
  {
    if xs == [] then 0 else xs[0] + SumOf(xs[1..])
  }

  /** No label appears twice. */
  predicate Distinct(labels: seq<string>)
  {
    forall i, j :: 0 <= i < j < |labels| ==> labels[i] != labels[j]
  }

  /** The first status adds one to the sum of the counts exactly when it is one of the (distinct) labels. */
  lemma {:induction false} CountsStep(statuses: seq<string>, labels: seq<string>)
    requires statuses != [] && Distinct(labels)
    ensures SumOf(Counts(statuses, labels)) ==
      SumOf(Counts(statuses[1..], labels)) + (if statuses[0] in labels then 1 else 0)
  {
    if labels != [] {
      assert Distinct(labels[1..]) by {
        forall i, j | 0 <= i < j < |labels[1..]|
          ensures labels[1..][i] != labels[1..][j]
        {
          assert labels[1..][i] == labels[i + 1] && labels[1..][j] == labels[j + 1];
        }
      }
      CountsStep(statuses, labels[1..]);
      assert statuses[0] == labels[0] ==> statuses[0] !in labels[1..];
      assert statuses[0] in labels <==> statuses[0] == labels[0] || statuses[0] in labels[1..];
    }
  }

  /**
   * Every status falls in exactly one bucket: for distinct labels, the
   * counts plus the statuses that are none of the labels make up the whole list.
   */
  lemma {:induction false} CountsPartition(statuses: seq<string>, labels: seq<string>)
    requires Distinct(labels)
    ensures SumOf(Counts(statuses, labels)) + CountOutside(statuses, labels) == |statuses|
  {
    if statuses == [] {
      assert forall i :: 0 <= i < |labels| ==> Counts(statuses, labels)[i] == 0;
      ZeroSum(Counts(statuses, labels));
    } else {
      CountsStep(statuses, labels);
      CountsPartition(statuses[1..], labels);
    }
  }

  lemma {:induction false} ZeroSum(xs: seq<nat>)
    requires forall i :: 0 <= i < |xs| ==> xs[i] == 0
    ensures SumOf(xs) == 0
  {
    if xs != [] {
      ZeroSum(xs[1..]);
    }
  }

  lemma ReportStatusesDistinct()
    ensures Distinct(BOOKING_REPORT_STATUSES) && Distinct(ROOM_REPORT_STATUSES)
  {
  }

  lemma {:induction false} OutsideCountsStrays(statuses: seq<string>, labels: seq<string>, s: string)
    requires s in statuses && s !in labels
    ensures CountOutside(statuses, labels) > 0
  {
    if statuses[0] != s {
      OutsideCountsStrays(statuses[1..], labels, s);
    }
  }

  lemma CompletedIsNotCounted()
    ensures "completed" !in BOOKING_REPORT_STATUSES
  {
    assert forall i :: 0 <= i < 5 ==> BOOKING_REPORT_STATUSES[i] != "completed";
  }

  /** For distinct labels the counts never add up to more than the total, and a status outside them makes the sum fall short. */
  lemma CountsBounded(statuses: seq<string>, labels: seq<string>, stray: string)
    requires Distinct(labels)
    ensures SumOf(Counts(statuses, labels)) <= |statuses|
    ensures stray in statuses && stray !in labels ==> SumOf(Counts(statuses, labels)) < |statuses|
  {
    CountsPartition(statuses, labels);
    if stray in statuses && stray !in labels {
      OutsideCountsStrays(statuses, labels, stray);
    }
  }

  /** The booking report's counts never exceed the total; a "completed" booking is counted in none of them. */
  lemma BookingCountsBounded(statuses: seq<string>)
    ensures SumOf(Counts(statuses, BOOKING_REPORT_STATUSES)) <= |statuses|
    ensures "completed" in statuses ==> SumOf(Counts(statuses, BOOKING_REPORT_STATUSES)) < |statuses|
  {
    ReportStatusesDistinct();
    CompletedIsNotCounted();
    CountsBounded(statuses, BOOKING_REPORT_STATUSES, "completed");
  }

  /** available + booked + occupied + maintenance never exceeds the number of rooms. */
  lemma RoomCountsBounded(statuses: seq<string>)
    ensures SumOf(Counts(statuses, ROOM_REPORT_STATUSES)) <= |statuses|
  {
    ReportStatusesDistinct();
    CountsBounded(statuses, ROOM_REPORT_STATUSES, "");
  }

  /** The booking report's date test: start <= check_in (when a start is given) and check_in <= end (when an end is given). */
  predicate InReportRange(b: ReportBooking, start: Option<int>, end: Option<int>)
  {
    (start.None? || start.value <= b.checkIn) && (end.None? || b.checkIn <= end.value)
  }

  /** The bookings the date filter keeps, in their original order. */
  function InRange(bs: seq<ReportBooking>, start: Option<int>, end: Option<int>): (r: seq<ReportBooking>)
    ensures |r| <= |bs|
    ensures forall b :: b in r <==> b in bs && InReportRange(b, start, end)
  {
    if bs == [] then []
    else
      var last := bs[|bs| - 1];
      InRange(bs[..|bs| - 1], start, end) + (if InReportRange(last, start, end) then [last] else [])
  }

  /** Without bounds nothing is dropped. */
  lemma {:induction false} NoBoundsKeepsAll(bs: seq<ReportBooking>)
    ensures InRange(bs, None, None) == bs
  {
    if bs != [] {
      NoBoundsKeepsAll(bs[..|bs| - 1]);
      assert bs[..|bs| - 1] + [bs[|bs| - 1]] == bs;
    }
  }

  /** The filter loop of get_booking_report (lines 160-169). */
  method FilterByCheckIn(bs: seq<ReportBooking>, start: Option<int>, end: Option<int>) returns (kept: seq<ReportBooking>)
    ensures kept == InRange(bs, start, end)
  {
    kept := [];
    for i := 0 to |bs|
      invariant kept == InRange(bs[..i], start, end)
    {
      assert bs[..i + 1][..i] == bs[..i];
      if InReportRange(bs[i], start, end) {
        kept := kept + [bs[i]];
      }
    }
    assert bs[..|bs|] == bs;
  }

  /** The counting part of the booking report: the total, then the five counts in chart order. */
  datatype BookingStats = BookingStats(total: nat, counts: seq<nat>, labels: seq<string>)

  /**
   * get_booking_report: get_token (401), then the booking list; a failed
   * call is 500. The date filter applies when either bound is given (an
   * absent or empty bound is None).
   */
  method BookingReport(authorization: Option<string>, bookings: Reply<seq<ReportBooking>>,
                       start: Option<int>, end: Option<int>) returns (r: Result<BookingStats>)
    ensures GetToken(authorization).Err? ==> r == Err(GetToken(authorization).error)
    ensures GetToken(authorization).Ok? && bookings.Raised? ==>
      r == Fail(500, "Error generating booking report: " + bookings.message)
    ensures r.Ok? <==> GetToken(authorization).Ok? && bookings.Answered?
    ensures r.Ok? ==>
      var kept := InRange(bookings.value, start, end);
      && r.value.total == |kept|
      && r.value.labels == BOOKING_REPORT_LABELS
      && |r.value.counts| == 5
      && (forall i :: 0 <= i < 5 ==> r.value.counts[i] == CountStatus(StatusesOf(kept), BOOKING_REPORT_STATUSES[i]))
      && SumOf(r.value.counts) <= r.value.total
  {
    var token := GetToken(authorization);
    if token.Err? {
      return Err(token.error);
    }
    if bookings.Raised? {
      return Fail(500, "Error generating booking report: " + bookings.message);
    }
    var kept := bookings.value;
    if start.Some? || end.Some? {
      kept := FilterByCheckIn(bookings.value, start, end);
    } else {
      NoBoundsKeepsAll(bookings.value);
    }
    var statuses := StatusesOf(kept);
    BookingCountsBounded(statuses);
    r := Ok(BookingStats(|kept|, Counts(statuses, BOOKING_REPORT_STATUSES), BOOKING_REPORT_LABELS));
  }

  /** The counting part of the room report: the total, then the four counts in chart order. */
  datatype RoomStats = RoomStats(totalRooms: nat, counts: seq<nat>, labels: seq<string>)

  /** get_room_occupancy_report over the statuses of the rooms the room service returned. */
  function RoomReport(authorization: Option<string>, rooms: Reply<seq<string>>): (r: Result<RoomStats>)
    ensures GetToken(authorization).Err? ==> r == Err(GetToken(authorization).error)
    ensures GetToken(authorization).Ok? && rooms.Raised? ==>
      r == Fail(500, "Error generating room report: " + rooms.message)
    ensures r.Ok? <==> GetToken(authorization).Ok? && rooms.Answered?
    ensures r.Ok? ==>
      && r.value.totalRooms == |rooms.value|
      && r.value.labels == ROOM_REPORT_LABELS
      && |r.value.counts| == 4
      && (forall i :: 0 <= i < 4 ==> r.value.counts[i] == CountStatus(rooms.value, ROOM_REPORT_STATUSES[i]))
      && SumOf(r.value.counts) <= r.value.totalRooms
  {
    var _ :- GetToken(authorization);
    match rooms
    case Raised(message) => Fail(500, "Error generating room report: " + message)
    case Answered(statuses) =>
      RoomCountsBounded(statuses);
      Ok(RoomStats(|statuses|, Counts(statuses, ROOM_REPORT_STATUSES), ROOM_REPORT_LABELS))
  }

  /** A booking holds a room on night `d`: check_in <= d < check_out, and it is neither cancelled nor checked out. */
  predicate Occupies(b: ReportBooking, d: int)
  {
    b.checkIn <= d < b.checkOut && b.status != "cancelled" && b.status != "checked_out"
  }

  /** The number of bookings that hold a room on night `d`. */
  function OccupiedOn(bs: seq<ReportBooking>, d: int): (n: nat)
    ensures n <= |bs|
    ensures n == 0 <==> forall b :: b in bs ==> !Occupies(b, d)
  {
    if bs == [] then 0
    else OccupiedOn(bs[..|bs| - 1], d) + (if Occupies(bs[|bs| - 1], d) then 1 else 0)
  }

  /** The inner loop of get_occupancy_rate_by_date (lines 289-297). */
  method CountOccupied(bs: seq<ReportBooking>, d: int) returns (n: nat)
    ensures n == OccupiedOn(bs, d)
  {
    n := 0;
    for i := 0 to |bs|
      invariant n == OccupiedOn(bs[..i], d)
    {
      assert bs[..i + 1][..i] == bs[..i];
      if Occupies(bs[i], d) {
        n := n + 1;
      }
    }
    assert bs[..|bs|] == bs;
  }

  /** One row of the occupancy table (the floating-point rate is not modelled). */
  datatype DayOccupancy = DayOccupancy(date: int, occupied: nat, available: int)

  /** The row for day `d`: available is total_rooms minus occupied, with no lower bound. */
  function RowFor(bs: seq<ReportBooking>, totalRooms: nat, d: int): DayOccupancy
  {
    DayOccupancy(d, OccupiedOn(bs, d), totalRooms - OccupiedOn(bs, d))
  }

  /**
   * The outer while loop (lines 284-307): one row per day from `start` to
   * `end` inclusive, in date order, none when start > end.
   */
  method OccupancyByDate(bs: seq<ReportBooking>, totalRooms: nat, start: int, end: int)
    returns (days: seq<DayOccupancy>)
    ensures |days| == if start <= end then end - start + 1 else 0
    ensures forall i :: 0 <= i < |days| ==> days[i] == RowFor(bs, totalRooms, start + i)
  {
    days := [];
    var current := start;
    while current <= end
      invariant start <= end ==> start <= current <= end + 1
      invariant start > end ==> current == start
      invariant |days| == current - start
      invariant forall i :: 0 <= i < |days| ==> days[i] == RowFor(bs, totalRooms, start + i)
      decreases end - current
    {
      var occupied := CountOccupied(bs, current);
      days := days + [DayOccupancy(current, occupied, totalRooms - occupied)];
      current := current + 1;
    }
  }

  /** A single live booking is counted on each night of its stay and on no other day. */
  lemma OneBookingCountsItsNights(b: ReportBooking, d: int)
    requires b.status != "cancelled" && b.status != "checked_out"
    ensures OccupiedOn([b], d) == (if b.checkIn <= d < b.checkOut then 1 else 0)
  {
    assert [b][..0] == [];
  }

  /** Nothing keeps `available` from going negative: two live bookings of one night in a one-room hotel. */
  lemma AvailableCanBeNegative()
    ensures RowFor([ReportBooking(0, 1, "confirmed"), ReportBooking(0, 1, "checked_in")], 1, 0).available == -1
  {
    var bs := [ReportBooking(0, 1, "confirmed"), ReportBooking(0, 1, "checked_in")];
    assert bs[..1] == [bs[0]];
    assert bs[..1][..0] == [];
  }

  /** The occupancy table with the total it was computed against. */
  datatype OccupancyTable = OccupancyTable(start: int, end: int, totalRooms: nat, days: seq<DayOccupancy>)

  /**
   * get_occupancy_rate_by_date: get_token (401); the room list, then the
   * booking list (either call failing is 500); then the table.
   */
  method OccupancyReport(authorization: Option<string>, rooms: Reply<seq<string>>,
                         bookings: Reply<seq<ReportBooking>>, start: int, end: int)
    returns (r: Result<OccupancyTable>)
    ensures GetToken(authorization).Err? ==> r == Err(GetToken(authorization).error)
    ensures GetToken(authorization).Ok? && rooms.Raised? ==>
      r == Fail(500, "Error generating occupancy rate report: " + rooms.message)
    ensures GetToken(authorization).Ok? && rooms.Answered? && bookings.Raised? ==>
      r == Fail(500, "Error generating occupancy rate report: " + bookings.message)
    ensures r.Ok? <==> GetToken(authorization).Ok? && rooms.Answered? && bookings.Answered?
    ensures r.Ok? ==>
      && r.value.totalRooms == |rooms.value|
      && |r.value.days| == (if start <= end then end - start + 1 else 0)
      && (forall i :: 0 <= i < |r.value.days| ==>
            r.value.days[i] == RowFor(bookings.value, |rooms.value|, start + i))
  {
    var token := GetToken(authorization);
    if token.Err? {
      return Err(token.error);
    }
    if rooms.Raised? {
      return Fail(500, "Error generating occupancy rate report: " + rooms.message);
    }
    if bookings.Raised? {
      return Fail(500, "Error generating occupancy rate report: " + bookings.message);
    }
    var days := OccupancyByDate(bookings.value, |rooms.value|, start, end);
    r := Ok(OccupancyTable(start, end, |rooms.value|, days));
  }
}
