/**
 * How the room service's availability check and the booking service's own
 * filters see the same bookings: the two overlap tests, the statuses each
 * side ignores, and what the room service can see when it lists a room's
 * bookings with the caller's token.
 */
module CrossService {
  import opened Wrappers
  import opened Dependencies
  import Rooms
  import Bookings
  import Payments

  /** A stored booking as the room service reads it from the booking service's list. */
  function AsRemote(b: Bookings.Booking): (r: Rooms.RemoteBooking)
    ensures r.status == Some(b.status) && r.checkIn == Some(b.checkIn) && r.checkOut == Some(b.checkOut)
    ensures !Rooms.Unparseable(r)
  {
    Rooms.RemoteBooking(Some(b.status), Some(b.checkIn), Some(b.checkOut))
  }

  /**
   * The room side's `not (check_out <= b.check_in or check_in >= b.check_out)`
   * and the booking side's `b.check_in < check_out and b.check_out > check_in`
   * are the same half-open interval overlap.
   */
  lemma OverlapTestsAgree(b: Bookings.Booking, checkIn: int, checkOut: int)
    ensures Rooms.RoomOverlap(checkIn, checkOut, b.checkIn, b.checkOut) <==> Bookings.BookingOverlap(b, checkIn, checkOut)
  {
  }

  /** The night `d` lies in the half-open stay [first, last). */
  predicate Covers(first: int, last: int, d: int)
  {
    first <= d < last
  }

  /** For non-empty stays, overlapping means sharing at least one night. */
  lemma OverlapMeansSharedNight(b: Bookings.Booking, checkIn: int, checkOut: int)
    requires checkIn < checkOut && b.checkIn < b.checkOut
    ensures Bookings.BookingOverlap(b, checkIn, checkOut) <==>
      exists d :: Covers(checkIn, checkOut, d) && Covers(b.checkIn, b.checkOut, d)
  {
    if Bookings.BookingOverlap(b, checkIn, checkOut) {
      var d := if checkIn < b.checkIn then b.checkIn else checkIn;
      assert Covers(checkIn, checkOut, d) && Covers(b.checkIn, b.checkOut, d);
    }
  }

  /** Apart from "completed", both sides treat a booking of the room alike. */
  lemma SidesAgreeExceptCompleted(b: Bookings.Booking, checkIn: int, checkOut: int)
    requires b.status != "completed"
    ensures Rooms.ConflictsWith(AsRemote(b), checkIn, checkOut) <==> Bookings.Blocks(b, b.roomId, checkIn, checkOut)
  {
    OverlapTestsAgree(b, checkIn, checkOut);
  }

  /** A "completed" booking still blocks the room on the booking side but not on the room side. */
  lemma CompletedBlocksOnlyBookingSide(b: Bookings.Booking, checkIn: int, checkOut: int)
    requires b.status == "completed" && Bookings.BookingOverlap(b, checkIn, checkOut)
    ensures Bookings.Blocks(b, b.roomId, checkIn, checkOut)
    ensures !Rooms.ConflictsWith(AsRemote(b), checkIn, checkOut)
  {
  }

  /** The query the room service sends: `bookings?room_id=<id>`, nothing else. */
  function RoomQuery(roomId: int): (q: Bookings.BookingQuery)
    ensures q.customerId.None? && q.roomId == Some(roomId)
  {
    Bookings.BookingQuery(None, Some(roomId), None, None, None)
  }

  /** The availability answer create_booking reads from the room service's verdict. */
  function ReplyOf(v: Rooms.Verdict): (a: Bookings.AvailabilityReply)
    ensures a.available == v.available
  {
    Bookings.AvailabilityReply(v.available, None)
  }

  /**
   * A customer asking about a room only sees, through the room service, the
   * bookings the booking service lets them list: their own. Another
   * customer's confirmed booking of an already "booked" room over the same
   * nights is invisible, the room is reported available, and create_booking
   * accepts the request: two live bookings block the same room on the same
   * nights.
   */
  lemma DoubleBookingThroughCallerToken(other: Bookings.Booking, user: Payload, checkIn: int, checkOut: int,
                                        newId: int, typeReply: Bookings.RemoteRoomType)
    requires !IsElevated(user.roles) && other.customerId != user.sub
    requires other.status == "confirmed" && other.checkIn < checkOut && other.checkOut > checkIn
    requires checkIn < checkOut
    ensures Bookings.ListOwnBookings(map[other.id := other], user, RoomQuery(other.roomId)) == {}
    ensures Rooms.Decide("booked", checkIn, checkOut, Some([])).available
    ensures var req := Bookings.BookingRequest(user.sub, other.roomId, checkIn, checkOut, 1, None);
      var replies := Bookings.CreateReplies(true, Some(ReplyOf(Rooms.Decide("booked", checkIn, checkOut, Some([])))),
                                            Some(Bookings.RemoteRoom(Some("booked"), Some(1))), Some(typeReply));
      && Bookings.CreateCheck(req, replies).Ok?
      && var created := Bookings.NewBooking(newId, req, Bookings.CreateCheck(req, replies).value);
      && Bookings.Blocks(created, other.roomId, checkIn, checkOut)
      && Bookings.Blocks(other, other.roomId, checkIn, checkOut)
  {
  }

  /**
   * What create_payment's booking lookup yields: the booking as the booking
   * service's get_booking returns it to the caller's token, or nothing when
   * the call raised (the client raises on every status outside 2xx, 403
   * included).
   */
  function PaymentLookup(r: Result<Bookings.Booking>): (b: Option<Payments.RemoteBooking>)
    ensures b.Some? <==> r.Ok?
    ensures r.Ok? ==> b.value.id == r.value.id && b.value.customerId == r.value.customerId
                      && b.value.status == r.value.status
  {
    if r.Ok? then Some(Payments.RemoteBooking(r.value.id, r.value.customerId, r.value.status)) else None
  }

  /**
   * A customer paying for another customer's booking is told the booking
   * does not exist: get_booking refuses the lookup with 403, and
   * create_payment turns the raised call into 404.
   */
  lemma ForeignBookingLooksMissing(bookings: map<int, Bookings.Booking>, bookingId: int, user: Payload)
    requires bookingId in bookings && !IsElevated(user.roles) && bookings[bookingId].customerId != user.sub
    ensures Payments.BookingCheck(user, PaymentLookup(Bookings.OwnedBooking(bookings, bookingId, user, "view")))
         == Fail(404, "Booking not found")
  {
    Bookings.NonStaffCannotTouchOthers(bookings, bookingId, user, "view");
  }

  /**
   * Through the booking service, create_payment's own ownership check never
   * refuses: whatever the lookup returns, the caller may already act on it.
   */
  lemma PaymentOwnershipCheckIsShadowed(bookings: map<int, Bookings.Booking>, bookingId: int, user: Payload)
    ensures Payments.BookingCheck(user, PaymentLookup(Bookings.OwnedBooking(bookings, bookingId, user, "view"))).Err? ==>
      Payments.BookingCheck(user, PaymentLookup(Bookings.OwnedBooking(bookings, bookingId, user, "view"))).error.status != 403
  {
  }
}
