/**
 * The booking service (services/booking/main.py): the bookings table and its
 * lifecycle (create, check-in, check-out, cancel, generic update), the
 * ownership rule, the list filters, the available-rooms filter and booking
 * details. Dates are day numbers; money is an integer.
 */
module Bookings {
  import opened Wrappers
  import opened Dependencies

  datatype Booking = Booking(
    id: int, customerId: int, roomId: int, checkIn: int, checkOut: int, guests: int,
    status: string, totalAmount: Option<int>, specialRequests: Option<string>,
    checkedInAt: Option<int>, checkedOutAt: Option<int>)

  /** A BookingCreate body, with the dates already parsed. */
  datatype BookingRequest = BookingRequest(customerId: int, roomId: int, checkIn: int, checkOut: int,
                                           guests: int, specialRequests: Option<string>)

  /** A best-effort call the handler made after its own work; its failure is swallowed. */
  datatype SideCall =
    | RoomStatusPush(roomId: int, newStatus: string, token: string)
    | Notify(bookingId: int, kind: string, token: string)

  /** The answers the room service gives create_booking. */
  datatype AvailabilityReply = AvailabilityReply(available: bool, reason: Option<string>)
  datatype RemoteRoom = RemoteRoom(status: Option<string>, roomTypeId: Option<int>)
  /** A room type; `pricePerNight` is None when the key is absent (`.get` then gives 0). */
  datatype RemoteRoomType = RemoteRoomType(pricePerNight: Option<int>)

  /** What create_booking's remote calls returned; None (or false) where the call raised. */
  datatype CreateReplies = CreateReplies(customerFound: bool, availability: Option<AvailabilityReply>,
                                         room: Option<RemoteRoom>, roomType: Option<RemoteRoomType>)

  const ROOM_LOOKUP_FAILED: string := "Room not found or service unavailable"

  function PriceOf(t: RemoteRoomType): int
  {
    if t.pricePerNight.Some? then t.pricePerNight.value else 0
  }

  /** Python's rendering of an optional status in an f-string. */
  function StatusText(s: Option<string>): string
  {
    if s.Some? then s.value else "None"
  }

  /** The room status create_booking accepts (a room already "booked" included). */
  predicate BookableStatus(s: Option<string>)
  {
    s.Some? && (s.value == "available" || s.value == "booked")
  }

  /** Every remote answer create_booking needs came back and says yes. */
  predicate RemoteChecksPass(o: CreateReplies)
  {
    && o.customerFound
    && o.availability.Some? && o.availability.value.available
    && o.room.Some? && BookableStatus(o.room.value.status)
    && o.room.value.roomTypeId.Some? && o.roomType.Some?
  }

  /**
   * The checks of create_booking, in source order, and the total it stores:
   * customer lookup (404), availability answer (404 when the call raised, 400
   * when it says no, with its reason), room status (400 unless available or
   * booked), room type lookup (404), and only then the date order (400).
   * Nothing here looks at the local bookings table: create relies on the
   * room service's answer alone.
   */
  function CreateCheck(req: BookingRequest, o: CreateReplies): (r: Result<int>)
    ensures !o.customerFound ==> r == Fail(404, "Customer not found")
    ensures o.customerFound && o.availability.None? ==> r.Err? && r.error.status == 404
    ensures o.customerFound && o.availability.Some? && !o.availability.value.available ==>
      r == Fail(400, if o.availability.value.reason.Some? then o.availability.value.reason.value
                     else "Room is not available for the selected dates")
    ensures (o.customerFound && o.availability.Some? && o.availability.value.available
             && o.room.Some? && !BookableStatus(o.room.value.status)) ==>
      r.Err? && r.error.status == 400
    ensures RemoteChecksPass(o) && req.checkOut <= req.checkIn ==>
      r == Fail(400, "Check-out date must be after check-in date")
    ensures r.Ok? <==> RemoteChecksPass(o) && req.checkIn < req.checkOut
    ensures r.Ok? ==> r.value == (req.checkOut - req.checkIn) * PriceOf(o.roomType.value)
  {
    if !o.customerFound then Fail(404, "Customer not found")
    else if o.availability.None? then Fail(404, ROOM_LOOKUP_FAILED)
    else if !o.availability.value.available then
      Fail(400, if o.availability.value.reason.Some? then o.availability.value.reason.value
                else "Room is not available for the selected dates")
    else if o.room.None? then Fail(404, ROOM_LOOKUP_FAILED)
    else if !BookableStatus(o.room.value.status) then
      Fail(400, "Room status is " + StatusText(o.room.value.status) + ", cannot create booking")
    else if o.room.value.roomTypeId.None? || o.roomType.None? then Fail(404, ROOM_LOOKUP_FAILED)
    else if req.checkOut <= req.checkIn then Fail(400, "Check-out date must be after check-in date")
    else Ok((req.checkOut - req.checkIn) * PriceOf(o.roomType.value))
  }

  /**
   * The date check comes after the remote calls: a reversed stay is always
   * refused, but while a remote check fails the error does not depend on the
   * dates at all.
   */
  lemma DateCheckComesLast(req: BookingRequest, o: CreateReplies, otherIn: int, otherOut: int)
    ensures req.checkOut <= req.checkIn ==> CreateCheck(req, o).Err?
    ensures !RemoteChecksPass(o) ==>
      CreateCheck(req, o) == CreateCheck(req.(checkIn := otherIn, checkOut := otherOut), o)
  {
  }

  /** The booking create stores: confirmed, with the computed total. */
  function NewBooking(id: int, req: BookingRequest, total: int): (b: Booking)
    ensures b.id == id && b.status == "confirmed" && b.totalAmount == Some(total)
    ensures b.customerId == req.customerId && b.roomId == req.roomId
    ensures b.checkIn == req.checkIn && b.checkOut == req.checkOut
  {
    Booking(id, req.customerId, req.roomId, req.checkIn, req.checkOut, req.guests,
            "confirmed", Some(total), req.specialRequests, None, None)
  }

  // ----- Lifecycle transitions -----

  /** check_in: only from confirmed or pending; sets checked_in and the check-in time. */
  function CheckInTransition(b: Booking, now: int): (r: Result<Booking>)
    ensures r.Ok? <==> b.status == "confirmed" || b.status == "pending"
    ensures r.Err? ==> r.error.status == 400
    ensures r.Ok? ==> r.value == b.(status := "checked_in", checkedInAt := Some(now))
  {
    if b.status != "confirmed" && b.status != "pending" then
      Fail(400, "Cannot check-in booking with status: " + b.status)
    else Ok(b.(status := "checked_in", checkedInAt := Some(now)))
  }

  /** check_out: only from checked_in; sets checked_out and the check-out time. */
  function CheckOutTransition(b: Booking, now: int): (r: Result<Booking>)
    ensures r.Ok? <==> b.status == "checked_in"
    ensures r.Err? ==> r == Fail(400, "Booking must be checked in before check-out")
    ensures r.Ok? ==> r.value == b.(status := "checked_out", checkedOutAt := Some(now))
  {
    if b.status != "checked_in" then Fail(400, "Booking must be checked in before check-out")
    else Ok(b.(status := "checked_out", checkedOutAt := Some(now)))
  }

  /** Both cancel endpoints: refused from cancelled and from checked_out, otherwise cancelled. */
  function CancelTransition(b: Booking): (r: Result<Booking>)
    ensures b.status == "cancelled" ==> r == Fail(400, "Booking is already cancelled")
    ensures b.status == "checked_out" ==> r == Fail(400, "Cannot cancel a checked-out booking")
    ensures r.Ok? <==> b.status != "cancelled" && b.status != "checked_out"
    ensures r.Ok? ==> r.value == b.(status := "cancelled")
  {
    if b.status == "cancelled" then Fail(400, "Booking is already cancelled")
    else if b.status == "checked_out" then Fail(400, "Cannot cancel a checked-out booking")
    else Ok(b.(status := "cancelled"))
  }

  predicate Terminal(status: string)
  {
    status == "cancelled" || status == "checked_out"
  }

  /** No lifecycle transition leaves a cancelled or checked-out booking. */
  lemma TerminalStatesAreFinal(b: Booking, now: int)
    requires Terminal(b.status)
    ensures CheckInTransition(b, now).Err? && CheckOutTransition(b, now).Err? && CancelTransition(b).Err?
  {
  }

  /** A successful cancel makes the next one fail, on either endpoint. */
  lemma SecondCancelFails(b: Booking)
    requires CancelTransition(b).Ok?
    ensures CancelTransition(CancelTransition(b).value) == Fail(400, "Booking is already cancelled")
  {
  }

  /** The intended path: confirmed, checked in, checked out; every step moves to a status the next accepts. */
  lemma HappyPath(b: Booking, t1: int, t2: int)
    requires b.status == "confirmed"
    ensures var c := CheckInTransition(b, t1);
      && c.Ok? && c.value.status == "checked_in"
      && CheckOutTransition(c.value, t2).Ok? && CheckOutTransition(c.value, t2).value.status == "checked_out"
      && CancelTransition(CheckOutTransition(c.value, t2).value).Err?
  {
  }

  // ----- Generic update -----

  /** A BookingUpdate body, with the dates already parsed; Some for each field the client set. */
  datatype BookingUpdate = BookingUpdate(
    customerId: Option<int>, roomId: Option<int>, checkIn: Option<int>, checkOut: Option<int>,
    guests: Option<int>, status: Option<string>, totalAmount: Option<int>, specialRequests: Option<string>)

  /** The booking after the setattr loop: each supplied field is written, the others are kept. */
  function ApplyBookingUpdate(b: Booking, u: BookingUpdate): (r: Booking)
    ensures r.id == b.id && r.checkedInAt == b.checkedInAt && r.checkedOutAt == b.checkedOutAt
    ensures r.customerId == (if u.customerId.Some? then u.customerId.value else b.customerId)
    ensures r.roomId == (if u.roomId.Some? then u.roomId.value else b.roomId)
    ensures r.checkIn == (if u.checkIn.Some? then u.checkIn.value else b.checkIn)
    ensures r.checkOut == (if u.checkOut.Some? then u.checkOut.value else b.checkOut)
    ensures r.guests == (if u.guests.Some? then u.guests.value else b.guests)
    ensures r.status == (if u.status.Some? then u.status.value else b.status)
    ensures r.totalAmount == (if u.totalAmount.Some? then u.totalAmount else b.totalAmount)
    ensures r.specialRequests == (if u.specialRequests.Some? then u.specialRequests else b.specialRequests)
  {
    Booking(b.id,
            if u.customerId.Some? then u.customerId.value else b.customerId,
            if u.roomId.Some? then u.roomId.value else b.roomId,
            if u.checkIn.Some? then u.checkIn.value else b.checkIn,
            if u.checkOut.Some? then u.checkOut.value else b.checkOut,
            if u.guests.Some? then u.guests.value else b.guests,
            if u.status.Some? then u.status.value else b.status,
            if u.totalAmount.Some? then u.totalAmount else b.totalAmount,
            if u.specialRequests.Some? then u.specialRequests else b.specialRequests,
            b.checkedInAt, b.checkedOutAt)
  }

  /** Update is refused only on cancelled and checked_out bookings. */
  function UpdateTransition(b: Booking, u: BookingUpdate): (r: Result<Booking>)
    ensures r.Err? <==> Terminal(b.status)
    ensures r.Err? ==> r == Fail(400, "Cannot update booking with status: " + b.status)
    ensures r.Ok? ==> r.value == ApplyBookingUpdate(b, u)
  {
    if Terminal(b.status) then Fail(400, "Cannot update booking with status: " + b.status)
    else Ok(ApplyBookingUpdate(b, u))
  }

  /**
   * The generic update bypasses the lifecycle: it writes any status (a pending
   * booking straight to checked_out, or to a status no transition knows) and
   * accepts a check-out before the check-in.
   */
  lemma UpdateBypassesLifecycle(b: Booking)
    requires b.status == "pending"
    ensures var none := BookingUpdate(None, None, None, None, None, None, None, None);
      && UpdateTransition(b, none.(status := Some("checked_out"))).Ok?
      && UpdateTransition(b, none.(status := Some("checked_out"))).value.status == "checked_out"
      && CheckOutTransition(b, 0).Err?
      && UpdateTransition(b, none.(status := Some("lost"))).value.status == "lost"
      && var moved := UpdateTransition(b, none.(checkIn := Some(10), checkOut := Some(5)));
         moved.Ok? && moved.value.checkOut < moved.value.checkIn
  {
  }

  /** An update that supplies nothing leaves a non-terminal booking as it was. */
  lemma EmptyUpdateIsIdentity(b: Booking)
    requires !Terminal(b.status)
    ensures UpdateTransition(b, BookingUpdate(None, None, None, None, None, None, None, None)) == Ok(b)
  {
  }

  // ----- Dates as the handlers actually parse them -----

  /** A date argument: the ISO text `fromisoformat` expects, or the `date` object pydantic produced. */
  datatype DateArg = IsoText(day: int) | DateValue(day: int)

  /** `datetime.fromisoformat(x).date()`: a TypeError (None) unless `x` is a string. */
  function FromIsoFormat(x: DateArg): (r: Option<int>)
    ensures r.Some? <==> x.IsoText?
    ensures r.Some? ==> r.value == x.day
  {
    match x
    case IsoText(d) => Some(d)
    case DateValue(_) => None
  }

  /**
   * create_booking's checks as written: `checkIn` and `checkOut` are the
   * values handed to `fromisoformat` inside the `try`; a TypeError there is
   * turned into 404 by the generic handler.
   */
  function CreateCheckAsWritten(req: BookingRequest, o: CreateReplies, checkIn: DateArg, checkOut: DateArg): (r: Result<int>)
    ensures !o.customerFound ==> r == Fail(404, "Customer not found")
    ensures o.customerFound && (checkIn.DateValue? || checkOut.DateValue?) ==> r.Err? && r.error.status == 404
    ensures checkIn.IsoText? && checkOut.IsoText? ==>
      r == CreateCheck(req.(checkIn := checkIn.day, checkOut := checkOut.day), o)
  {
    if !o.customerFound then Fail(404, "Customer not found")
    else
      var parsedIn := FromIsoFormat(checkIn);
      var parsedOut := FromIsoFormat(checkOut);
      if parsedIn.None? || parsedOut.None? then
        Fail(404, ROOM_LOOKUP_FAILED + ": fromisoformat: argument must be str")
      else CreateCheck(req.(checkIn := parsedIn.value, checkOut := parsedOut.value), o)
  }

  /**
   * BookingCreate declares the dates as `date`, so the handler hands date
   * objects to `fromisoformat`: as written no request creates a booking, even
   * one the corrected check accepts.
   */
  lemma CreateAsWrittenNeverSucceeds(req: BookingRequest, o: CreateReplies)
    requires RemoteChecksPass(o) && req.checkIn < req.checkOut
    ensures CreateCheckAsWritten(req, o, DateValue(req.checkIn), DateValue(req.checkOut)).Err?
    ensures CreateCheckAsWritten(req, o, DateValue(req.checkIn), DateValue(req.checkOut)).error.status == 404
    ensures CreateCheck(req, o).Ok?
  {
  }

  /**
   * update_booking as written: a supplied check_in or check_out (a `date`)
   * goes through `fromisoformat`, whose TypeError nothing catches: 500, and
   * the update is not committed.
   */
  function UpdateTransitionAsWritten(b: Booking, u: BookingUpdate): (r: Result<Booking>)
    ensures Terminal(b.status) ==> r == UpdateTransition(b, u)
    ensures !Terminal(b.status) && (u.checkIn.Some? || u.checkOut.Some?) ==> r == Fail(500, "Internal Server Error")
    ensures u.checkIn.None? && u.checkOut.None? ==> r == UpdateTransition(b, u)
  {
    if Terminal(b.status) then UpdateTransition(b, u)
    else if u.checkIn.Some? && FromIsoFormat(DateValue(u.checkIn.value)).None? then Fail(500, "Internal Server Error")
    else if u.checkOut.Some? && FromIsoFormat(DateValue(u.checkOut.value)).None? then Fail(500, "Internal Server Error")
    else UpdateTransition(b, u)
  }

  /** As written, moving the dates of a live booking always fails; the corrected update moves them. */
  lemma UpdateDatesAsWrittenFails(b: Booking, newIn: int, newOut: int)
    requires !Terminal(b.status)
    ensures var u := BookingUpdate(None, None, Some(newIn), Some(newOut), None, None, None, None);
      && UpdateTransitionAsWritten(b, u) == Fail(500, "Internal Server Error")
      && UpdateTransition(b, u).Ok?
      && UpdateTransition(b, u).value.checkIn == newIn && UpdateTransition(b, u).value.checkOut == newOut
  {
  }

  // ----- Responses -----

  /** A BookingResponse: the fields a client receives, the two dates as the values the `str` fields are given. */
  datatype BookingView = BookingView(id: int, customerId: int, roomId: int, checkIn: DateArg, checkOut: DateArg,
                                     guests: int, status: string, totalAmount: Option<int>)

  /** The response a row yields once both dates are in the form the `str` fields hold. */
  function ViewWithDates(b: Booking, checkIn: DateArg, checkOut: DateArg): BookingView
  {
    BookingView(b.id, b.customerId, b.roomId, checkIn, checkOut, b.guests, b.status, b.totalAmount)
  }

  /**
   * `BookingResponse.model_validate(row)` as the handlers call it: the row's
   * dates are `date` objects and a `str` field accepts only text, so
   * validation raises and the request ends in 500.
   */
  function ValidateResponseAsWritten(b: Booking): (r: Result<BookingView>)
    ensures r.Ok? <==> FromIsoFormat(DateValue(b.checkIn)).Some? && FromIsoFormat(DateValue(b.checkOut)).Some?
    ensures r.Err? ==> r == Fail(500, "Internal Server Error")
  {
    var checkIn := DateValue(b.checkIn);
    var checkOut := DateValue(b.checkOut);
    if checkIn.IsoText? && checkOut.IsoText? then Ok(ViewWithDates(b, checkIn, checkOut))
    else Fail(500, "Internal Server Error")
  }

  /** As written, no stored booking can be returned: every handler answering with one ends in 500. */
  lemma ResponseAsWrittenFails(b: Booking)
    ensures ValidateResponseAsWritten(b) == Fail(500, "Internal Server Error")
    ensures ToResponse(b).checkIn.IsoText? && ToResponse(b).checkOut.IsoText?
  {
  }

  /**
   * The conversion `BookingResponse.from_orm` performs: each date through
   * `isoformat()` first. A client parsing the response's dates gets the
   * stored ones back, and every other field is the row's.
   */
  function ToResponse(b: Booking): (v: BookingView)
    ensures FromIsoFormat(v.checkIn) == Some(b.checkIn) && FromIsoFormat(v.checkOut) == Some(b.checkOut)
    ensures v.id == b.id && v.customerId == b.customerId && v.roomId == b.roomId && v.guests == b.guests
    ensures v.status == b.status && v.totalAmount == b.totalAmount
  {
    ViewWithDates(b, IsoText(b.checkIn), IsoText(b.checkOut))
  }

  /** Distinct stays give distinct responses: the corrected response loses no date. */
  lemma ToResponseKeepsStay(a: Booking, b: Booking)
    requires ToResponse(a) == ToResponse(b)
    ensures a.checkIn == b.checkIn && a.checkOut == b.checkOut && a.id == b.id && a.status == b.status
  {
    assert FromIsoFormat(ToResponse(a).checkIn) == Some(a.checkIn);
    assert FromIsoFormat(ToResponse(b).checkIn) == Some(b.checkIn);
  }

  // ----- Ownership -----

  /**
   * The lookup and ownership guard the read, update and cancel handlers share:
   * 404 for a missing booking first, then 403 unless the caller may act on
   * the booking's customer.
   */
  function OwnedBooking(bookings: map<int, Booking>, bookingId: int, user: Payload, action: string): (r: Result<Booking>)
    ensures bookingId !in bookings ==> r == Fail(404, "Booking not found")
    ensures bookingId in bookings && !MayActOn(user, bookings[bookingId].customerId) ==>
      r == Fail(403, "You can only " + action + " your own bookings")
    ensures r.Ok? <==> bookingId in bookings && MayActOn(user, bookings[bookingId].customerId)
    ensures r.Ok? ==> r.value == bookings[bookingId]
  {
    if bookingId !in bookings then Fail(404, "Booking not found")
    else if !MayActOn(user, bookings[bookingId].customerId) then
      Fail(403, "You can only " + action + " your own bookings")
    else Ok(bookings[bookingId])
  }

  /** A caller without a staff role is refused (403) on every booking of another customer. */
  lemma NonStaffCannotTouchOthers(bookings: map<int, Booking>, bookingId: int, user: Payload, action: string)
    requires bookingId in bookings && !IsElevated(user.roles) && bookings[bookingId].customerId != user.sub
    ensures OwnedBooking(bookings, bookingId, user, action).Err?
    ensures OwnedBooking(bookings, bookingId, user, action).error.status == 403
  {
  }

  // ----- Listing -----

  /** The query parameters of get_bookings; dates are always truthy once given. */
  datatype BookingQuery = BookingQuery(customerId: Option<int>, roomId: Option<int>, status: Option<string>,
                                       checkIn: Option<int>, checkOut: Option<int>)

  /** A booking passes the filters that are set (falsy ids and an empty status filter nothing). */
  predicate MatchesQuery(b: Booking, q: BookingQuery)
  {
    && (TruthyInt(q.customerId) ==> b.customerId == q.customerId.value)
    && (TruthyInt(q.roomId) ==> b.roomId == q.roomId.value)
    && (TruthyString(q.status) ==> b.status == q.status.value)
    && (q.checkIn.Some? ==> b.checkIn >= q.checkIn.value)
    && (q.checkOut.Some? ==> b.checkOut <= q.checkOut.value)
  }

  /** get_bookings as written: a non-staff caller's customer filter is forced to the caller only when absent. */
  function ListBookings(bookings: map<int, Booking>, user: Payload, q: BookingQuery): (r: set<Booking>)
    ensures forall b :: b in r ==> b in bookings.Values
    ensures IsElevated(user.roles) ==> forall id :: id in bookings ==> (bookings[id] in r <==> MatchesQuery(bookings[id], q))
    ensures !IsElevated(user.roles) && !TruthyInt(q.customerId) && user.sub != 0 ==>
      forall b :: b in r ==> b.customerId == user.sub
    ensures !IsElevated(user.roles) && !TruthyInt(q.customerId) ==>
      forall id :: id in bookings ==> (bookings[id] in r <==> MatchesQuery(bookings[id], q.(customerId := Some(user.sub))))
    ensures !IsElevated(user.roles) && TruthyInt(q.customerId) ==>
      forall id :: id in bookings ==> (bookings[id] in r <==> MatchesQuery(bookings[id], q))
  {
    var eff := if !IsElevated(user.roles) && !TruthyInt(q.customerId) then q.(customerId := Some(user.sub)) else q;
    set id | id in bookings && MatchesQuery(bookings[id], eff) :: bookings[id]
  }

  /** As written, a customer who names another customer's id lists that customer's bookings. */
  lemma NonStaffListsOthersAsWritten(other: Booking, user: Payload)
    requires !IsElevated(user.roles) && other.customerId != user.sub && other.customerId != 0
    ensures other in ListBookings(map[other.id := other], user,
                                  BookingQuery(Some(other.customerId), None, None, None, None))
  {
    var bookings := map[other.id := other];
    assert other == bookings[other.id];
  }

  /** get_bookings as intended: a non-staff caller only ever lists their own bookings. */
  function ListOwnBookings(bookings: map<int, Booking>, user: Payload, q: BookingQuery): (r: set<Booking>)
    ensures forall b :: b in r ==> b in bookings.Values
    ensures !IsElevated(user.roles) ==> forall b :: b in r ==> b.customerId == user.sub
    ensures !IsElevated(user.roles) ==> forall id :: id in bookings ==>
      (bookings[id] in r <==> bookings[id].customerId == user.sub && MatchesQuery(bookings[id], q.(customerId := None)))
    ensures IsElevated(user.roles) ==> r == ListBookings(bookings, user, q)
  {
    if IsElevated(user.roles) then ListBookings(bookings, user, q)
    else set id | id in bookings && bookings[id].customerId == user.sub && MatchesQuery(bookings[id], q.(customerId := None))
                :: bookings[id]
  }

  /**
   * Without a customer_id the as-written listing is the intended one: a
   * non-staff caller with a non-zero id lists exactly their own matching bookings.
   */
  lemma ListBookingsDefaultIsOwn(bookings: map<int, Booking>, user: Payload, q: BookingQuery)
    requires !IsElevated(user.roles) && !TruthyInt(q.customerId) && user.sub != 0
    ensures ListBookings(bookings, user, q) == ListOwnBookings(bookings, user, q)
  {
    var l := ListBookings(bookings, user, q);
    var o := ListOwnBookings(bookings, user, q);
    forall b | b in l
      ensures b in o
    {
      var id :| id in bookings && bookings[id] == b;
      assert MatchesQuery(b, q.(customerId := Some(user.sub)));
    }
    forall b | b in o
      ensures b in l
    {
      var id :| id in bookings && bookings[id] == b;
      assert MatchesQuery(b, q.(customerId := Some(user.sub)));
    }
  }

  // ----- Available rooms -----

  /** A room the room service returned; `id` is None when the entry has no "id" key. */
  datatype RoomEntry = RoomEntry(id: Option<int>, room: Json)

  /** The booking-side overlap test: b.check_in < check_out and b.check_out > check_in. */
  predicate BookingOverlap(b: Booking, checkIn: int, checkOut: int)
  {
    b.checkIn < checkOut && b.checkOut > checkIn
  }

  /** A booking that blocks `roomId` for the stay: same room, not cancelled or checked out, overlapping. */
  predicate Blocks(b: Booking, roomId: int, checkIn: int, checkOut: int)
  {
    b.roomId == roomId && b.status != "cancelled" && b.status != "checked_out" && BookingOverlap(b, checkIn, checkOut)
  }

  predicate RoomIsBlocked(bookings: map<int, Booking>, roomId: int, checkIn: int, checkOut: int)
  {
    exists id :: id in bookings && Blocks(bookings[id], roomId, checkIn, checkOut)
  }

  predicate FreeEntry(bookings: map<int, Booking>, e: RoomEntry, checkIn: int, checkOut: int)
  {
    e.id.Some? && !RoomIsBlocked(bookings, e.id.value, checkIn, checkOut)
  }

  /** The remote room list, in its order, minus the rooms some local booking blocks. */
  function KeepFree(rooms: seq<RoomEntry>, bookings: map<int, Booking>, checkIn: int, checkOut: int): (r: seq<RoomEntry>)
    requires forall i :: 0 <= i < |rooms| ==> rooms[i].id.Some?
    ensures |r| <= |rooms|
  {
    if rooms == [] then []
    else
      var rest := KeepFree(rooms[1..], bookings, checkIn, checkOut);
      if FreeEntry(bookings, rooms[0], checkIn, checkOut) then [rooms[0]] + rest else rest
  }

  /** What the filter keeps: exactly the listed rooms no local booking blocks. */
  lemma {:induction false} KeepFreeMeans(rooms: seq<RoomEntry>, bookings: map<int, Booking>, checkIn: int, checkOut: int)
    requires forall i :: 0 <= i < |rooms| ==> rooms[i].id.Some?
    ensures forall e :: e in KeepFree(rooms, bookings, checkIn, checkOut) <==>
      e in rooms && FreeEntry(bookings, e, checkIn, checkOut)
  {
    if rooms != [] {
      KeepFreeMeans(rooms[1..], bookings, checkIn, checkOut);
      assert rooms == [rooms[0]] + rooms[1..];
      forall e
        ensures e in rooms <==> e == rooms[0] || e in rooms[1..]
      {
      }
    }
  }

  /** The filter keeps the remote order: filtering a concatenation concatenates the filtered parts. */
  lemma {:induction false} KeepFreeAppend(a: seq<RoomEntry>, b: seq<RoomEntry>, bookings: map<int, Booking>,
                                          checkIn: int, checkOut: int)
    requires forall i :: 0 <= i < |a| ==> a[i].id.Some?
    requires forall i :: 0 <= i < |b| ==> b[i].id.Some?
    ensures forall i :: 0 <= i < |a + b| ==> (a + b)[i].id.Some?
    ensures KeepFree(a + b, bookings, checkIn, checkOut) == KeepFree(a, bookings, checkIn, checkOut) + KeepFree(b, bookings, checkIn, checkOut)
  {
    if a == [] {
      assert a + b == b;
    } else {
      assert (a + b)[1..] == a[1..] + b;
      KeepFreeAppend(a[1..], b, bookings, checkIn, checkOut);
    }
  }

  /**
   * get_available_rooms (booking side): get_token first (outside the `try`);
   * then the remote list (None when the call raised) filtered against the
   * local bookings; any failure inside the `try`, an entry without "id"
   * included, is 500.
   */
  function AvailableRooms(authorization: Option<string>, checkIn: int, checkOut: int,
                          remote: Option<seq<RoomEntry>>, bookings: map<int, Booking>): (r: Result<seq<RoomEntry>>)
    ensures GetToken(authorization).Err? ==> r == Err(GetToken(authorization).error)
    ensures GetToken(authorization).Ok? && remote.None? ==> r.Err? && r.error.status == 500
    ensures r.Ok? ==> remote.Some? && forall i :: 0 <= i < |remote.value| ==> remote.value[i].id.Some?
    ensures r.Ok? ==> r.value == KeepFree(remote.value, bookings, checkIn, checkOut)
  {
    var token :- GetToken(authorization);
    if remote.None? then Fail(500, "Error checking room availability")
    else if exists i :: 0 <= i < |remote.value| && remote.value[i].id.None? then
      Fail(500, "Error checking room availability")
    else Ok(KeepFree(remote.value, bookings, checkIn, checkOut))
  }

  // ----- Booking details -----

  datatype BookingDetail = BookingDetail(id: int, bookingId: int, serviceName: Option<string>, serviceType: Option<string>,
                                         quantity: int, unitPrice: Option<int>, totalPrice: int, notes: Option<string>)

  /** A BookingDetailCreate body (its own booking_id is not used: the path's is). */
  datatype DetailRequest = DetailRequest(serviceName: Option<string>, serviceType: Option<string>,
                                         quantity: int, unitPrice: Option<int>, notes: Option<string>)

  function OrZero(x: Option<int>): int
  {
    if x.Some? then x.value else 0
  }

  /** The booking after a detail costing `price` is added: `(total_amount or 0) + price`. */
  function Charge(b: Booking, price: int): (r: Booking)
    ensures r.totalAmount.Some? && r.totalAmount.value == OrZero(b.totalAmount) + price
    ensures r.(totalAmount := b.totalAmount) == b
  {
    b.(totalAmount := Some(OrZero(b.totalAmount) + price))
  }

  function Sum(xs: seq<int>): int
  {
    if xs == [] then 0 else xs[0] + Sum(xs[1..])
  }

  function ChargeAll(b: Booking, prices: seq<int>): Booking
    decreases |prices|
  {
    if prices == [] then b else ChargeAll(Charge(b, prices[0]), prices[1..])
  }

  /** Adding details one after another adds their prices to the stored total (an absent total counts as 0). */
  lemma {:induction false} ChargesAccumulate(b: Booking, prices: seq<int>)
    requires prices != []
    ensures ChargeAll(b, prices).totalAmount == Some(OrZero(b.totalAmount) + Sum(prices))
    ensures ChargeAll(b, prices).(totalAmount := b.totalAmount) == b
    decreases |prices|
  {
    if |prices| > 1 {
      ChargesAccumulate(Charge(b, prices[0]), prices[1..]);
    }
  }

  /** The table of bookings and booking details. */
  class BookingService {
    var bookings: map<int, Booking>
    var details: seq<BookingDetail>
    var nextId: int
    var nextDetailId: int

    /** Bookings are stored under their own ids; every detail belongs to a stored booking; detail ids increase. */
    predicate Valid()
      reads this
    {
      && 0 < nextId && 0 < nextDetailId
      && (forall id :: id in bookings ==> bookings[id].id == id && 0 < id < nextId)
      && (forall i :: 0 <= i < |details| ==> details[i].bookingId in bookings && 0 < details[i].id < nextDetailId)
      && (forall i, j :: 0 <= i < j < |details| ==> details[i].id < details[j].id)
    }

    constructor ()
      ensures Valid() && bookings == map[] && details == []
    {
      bookings := map[];
      details := [];
      nextId := 1;
      nextDetailId := 1;
    }

    /**
     * create_booking: get_token first, then CreateCheck; on success the
     * confirmed booking is stored under a fresh id, and the handler pushes
     * "booked" to the room service and sends a confirmation notification.
     * Those two calls are best-effort: their failures are swallowed, so they
     * are only recorded in `calls` and take no part in the result or the state.
     */
    method CreateBooking(authorization: Option<string>, req: BookingRequest, o: CreateReplies)
      returns (r: Result<Booking>, calls: seq<SideCall>)
      requires Valid()
      modifies this
      ensures Valid()
      ensures GetToken(authorization).Err? ==> r == Err(GetToken(authorization).error)
      ensures GetToken(authorization).Ok? && CreateCheck(req, o).Err? ==> r == Err(CreateCheck(req, o).error)
      ensures r.Err? ==> unchanged(this) && calls == []
      ensures r.Ok? <==> GetToken(authorization).Ok? && CreateCheck(req, o).Ok?
      ensures r.Ok? ==>
        && r.value == NewBooking(old(nextId), req, CreateCheck(req, o).value)
        && bookings == old(bookings)[r.value.id := r.value]
        && details == old(details)
        && calls == [RoomStatusPush(req.roomId, "booked", GetToken(authorization).value),
                     Notify(r.value.id, "confirmation", GetToken(authorization).value)]
    {
      var tokenResult := GetToken(authorization);
      if tokenResult.Err? {
        return Err(tokenResult.error), [];
      }
      var token := tokenResult.value;
      var check := CreateCheck(req, o);
      if check.Err? {
        return Err(check.error), [];
      }
      var b := NewBooking(nextId, req, check.value);
      bookings := bookings[b.id := b];
      nextId := nextId + 1;
      calls := [RoomStatusPush(req.roomId, "booked", token)];
      calls := calls + [Notify(b.id, "confirmation", token)];
      r := Ok(b);
    }

    /** get_booking: 404, then 403 for a non-staff caller who does not own it. */
    method GetBooking(user: Payload, bookingId: int) returns (r: Result<Booking>)
      ensures r == OwnedBooking(bookings, bookingId, user, "view")
      ensures r.Ok? ==> bookingId in bookings && r.value == bookings[bookingId]
    {
      if bookingId !in bookings {
        return Fail(404, "Booking not found");
      }
      var b := bookings[bookingId];
      if !(IsElevated(user.roles) || b.customerId == user.sub) {
        return Fail(403, "You can only view your own bookings");
      }
      return Ok(b);
    }

    /** update_booking: 404, then 403, then 400 on a terminal booking; otherwise the supplied fields are written. */
    method UpdateBooking(user: Payload, bookingId: int, u: BookingUpdate) returns (r: Result<Booking>)
      requires Valid()
      modifies this
      ensures Valid()
      ensures OwnedBooking(old(bookings), bookingId, user, "update").Err? ==>
        r == Err(OwnedBooking(old(bookings), bookingId, user, "update").error)
      ensures OwnedBooking(old(bookings), bookingId, user, "update").Ok? ==>
        r == UpdateTransition(old(bookings)[bookingId], u)
      ensures r.Err? ==> unchanged(this)
      ensures r.Ok? ==> bookings == old(bookings)[bookingId := r.value] && details == old(details) && nextId == old(nextId)
    {
      var owned := OwnedBooking(bookings, bookingId, user, "update");
      if owned.Err? {
        return Err(owned.error);
      }
      r := UpdateTransition(owned.value, u);
      if r.Ok? {
        bookings := bookings[bookingId := r.value];
      }
    }

    /**
     * check_in (no ownership check): 404, then the transition; the new status
     * is committed before get_token runs. A header that passed the HTTPBearer
     * guard without the exact, case-sensitive "Bearer " prefix (a case variant
     * such as "bearer <token>") therefore gives 401 with the booking already
     * checked in. Then "occupied" is pushed.
     */
    method CheckIn(bookingId: int, authorization: Option<string>, now: int)
      returns (r: Result<Booking>, calls: seq<SideCall>)
      requires Valid()
      modifies this
      ensures Valid()
      ensures bookingId !in old(bookings) ==> r == Fail(404, "Booking not found") && unchanged(this) && calls == []
      ensures bookingId in old(bookings) && CheckInTransition(old(bookings)[bookingId], now).Err? ==>
        r == Err(CheckInTransition(old(bookings)[bookingId], now).error) && unchanged(this) && calls == []
      ensures bookingId in old(bookings) && CheckInTransition(old(bookings)[bookingId], now).Ok? ==>
        && bookings == old(bookings)[bookingId := CheckInTransition(old(bookings)[bookingId], now).value]
        && details == old(details) && nextId == old(nextId)
        && (GetToken(authorization).Err? ==> r == Err(GetToken(authorization).error) && calls == [])
        && (GetToken(authorization).Ok? ==>
              && r == CheckInTransition(old(bookings)[bookingId], now)
              && calls == [RoomStatusPush(old(bookings)[bookingId].roomId, "occupied", GetToken(authorization).value)])
    {
      if bookingId !in bookings {
        return Fail(404, "Booking not found"), [];
      }
      var t := CheckInTransition(bookings[bookingId], now);
      if t.Err? {
        return Err(t.error), [];
      }
      bookings := bookings[bookingId := t.value];
      var token := GetToken(authorization);
      if token.Err? {
        return Err(token.error), [];
      }
      return t, [RoomStatusPush(t.value.roomId, "occupied", token.value)];
    }

    /** check_out (no ownership check): as check_in, from checked_in only, then "available" is pushed. */
    method CheckOut(bookingId: int, authorization: Option<string>, now: int)
      returns (r: Result<Booking>, calls: seq<SideCall>)
      requires Valid()
      modifies this
      ensures Valid()
      ensures bookingId !in old(bookings) ==> r == Fail(404, "Booking not found") && unchanged(this) && calls == []
      ensures bookingId in old(bookings) && CheckOutTransition(old(bookings)[bookingId], now).Err? ==>
        r == Fail(400, "Booking must be checked in before check-out") && unchanged(this) && calls == []
      ensures bookingId in old(bookings) && CheckOutTransition(old(bookings)[bookingId], now).Ok? ==>
        && bookings == old(bookings)[bookingId := CheckOutTransition(old(bookings)[bookingId], now).value]
        && details == old(details) && nextId == old(nextId)
        && (GetToken(authorization).Err? ==> r == Err(GetToken(authorization).error) && calls == [])
        && (GetToken(authorization).Ok? ==>
              && r == CheckOutTransition(old(bookings)[bookingId], now)
              && calls == [RoomStatusPush(old(bookings)[bookingId].roomId, "available", GetToken(authorization).value)])
    {
      if bookingId !in bookings {
        return Fail(404, "Booking not found"), [];
      }
      var t := CheckOutTransition(bookings[bookingId], now);
      if t.Err? {
        return Err(t.error), [];
      }
      bookings := bookings[bookingId := t.value];
      var token := GetToken(authorization);
      if token.Err? {
        return Err(token.error), [];
      }
      return t, [RoomStatusPush(t.value.roomId, "available", token.value)];
    }

    /**
     * The shared body of the two cancel endpoints: 404, 403, then the cancel
     * transition, committed before get_token (so a case variant of the
     * "Bearer " scheme gives 401 after the commit). The test of "checked_in" that
     * guards the room push looks at the status just set to "cancelled", so the
     * room is always pushed back to "available", even for a guest still in it.
     */
    method CancelCommon(user: Payload, bookingId: int, authorization: Option<string>)
      returns (r: Result<Booking>, push: seq<SideCall>)
      requires Valid()
      modifies this
      ensures Valid()
      ensures OwnedBooking(old(bookings), bookingId, user, "cancel").Err? ==>
        r == Err(OwnedBooking(old(bookings), bookingId, user, "cancel").error) && unchanged(this) && push == []
      ensures OwnedBooking(old(bookings), bookingId, user, "cancel").Ok? && CancelTransition(old(bookings)[bookingId]).Err? ==>
        r == Err(CancelTransition(old(bookings)[bookingId]).error) && unchanged(this) && push == []
      ensures OwnedBooking(old(bookings), bookingId, user, "cancel").Ok? && CancelTransition(old(bookings)[bookingId]).Ok? ==>
        && bookings == old(bookings)[bookingId := CancelTransition(old(bookings)[bookingId]).value]
        && details == old(details) && nextId == old(nextId)
        && (GetToken(authorization).Err? ==> r == Err(GetToken(authorization).error) && push == [])
        && (GetToken(authorization).Ok? ==>
              && r == CancelTransition(old(bookings)[bookingId])
              && push == [RoomStatusPush(old(bookings)[bookingId].roomId, "available", GetToken(authorization).value)])
    {
      var owned := OwnedBooking(bookings, bookingId, user, "cancel");
      if owned.Err? {
        return Err(owned.error), [];
      }
      var t := CancelTransition(owned.value);
      if t.Err? {
        return Err(t.error), [];
      }
      bookings := bookings[bookingId := t.value];
      push := [];
      if t.value.status != "checked_in" {
        var token := GetToken(authorization);
        if token.Err? {
          return Err(token.error), [];
        }
        push := [RoomStatusPush(t.value.roomId, "available", token.value)];
      }
      r := t;
    }

    /** DELETE /bookings/{id}: the cancel, then a cancellation notification; no body (204). */
    method DeleteBooking(user: Payload, bookingId: int, authorization: Option<string>)
      returns (r: Result<()>, calls: seq<SideCall>)
      requires Valid()
      modifies this
      ensures Valid()
      ensures OwnedBooking(old(bookings), bookingId, user, "cancel").Err? ==>
        r == Err(OwnedBooking(old(bookings), bookingId, user, "cancel").error) && unchanged(this) && calls == []
      ensures OwnedBooking(old(bookings), bookingId, user, "cancel").Ok? && CancelTransition(old(bookings)[bookingId]).Err? ==>
        r == Err(CancelTransition(old(bookings)[bookingId]).error) && unchanged(this) && calls == []
      ensures OwnedBooking(old(bookings), bookingId, user, "cancel").Ok? && CancelTransition(old(bookings)[bookingId]).Ok? ==>
        && bookings == old(bookings)[bookingId := old(bookings)[bookingId].(status := "cancelled")]
        && details == old(details) && nextId == old(nextId)
        && (GetToken(authorization).Err? ==> r == Err(GetToken(authorization).error) && calls == [])
        && (GetToken(authorization).Ok? ==>
              && r == Ok(())
              && calls == [RoomStatusPush(old(bookings)[bookingId].roomId, "available", GetToken(authorization).value),
                           Notify(bookingId, "cancellation", GetToken(authorization).value)])
    {
      var c, push := CancelCommon(user, bookingId, authorization);
      if c.Err? {
        return Err(c.error), push;
      }
      return Ok(()), push + [Notify(c.value.id, "cancellation", push[0].token)];
    }

    /** PUT /bookings/{id}/cancel: the cancel alone, returning the cancelled booking. */
    method CancelBooking(user: Payload, bookingId: int, authorization: Option<string>)
      returns (r: Result<Booking>, calls: seq<SideCall>)
      requires Valid()
      modifies this
      ensures Valid()
      ensures OwnedBooking(old(bookings), bookingId, user, "cancel").Err? ==>
        r == Err(OwnedBooking(old(bookings), bookingId, user, "cancel").error) && unchanged(this) && calls == []
      ensures OwnedBooking(old(bookings), bookingId, user, "cancel").Ok? && CancelTransition(old(bookings)[bookingId]).Err? ==>
        r == Err(CancelTransition(old(bookings)[bookingId]).error) && unchanged(this) && calls == []
      ensures OwnedBooking(old(bookings), bookingId, user, "cancel").Ok? && CancelTransition(old(bookings)[bookingId]).Ok? ==>
        && bookings == old(bookings)[bookingId := old(bookings)[bookingId].(status := "cancelled")]
        && details == old(details) && nextId == old(nextId)
        && (GetToken(authorization).Err? ==> r == Err(GetToken(authorization).error) && calls == [])
        && (GetToken(authorization).Ok? ==>
              && r == Ok(old(bookings)[bookingId].(status := "cancelled"))
              && calls == [RoomStatusPush(old(bookings)[bookingId].roomId, "available", GetToken(authorization).value)])
    {
      r, calls := CancelCommon(user, bookingId, authorization);
    }

    /**
     * add_booking_detail: 404 for a missing booking; otherwise the detail is
     * appended with total (unit_price or 0) * quantity, and that total is
     * added to the booking's total_amount.
     */
    method AddBookingDetail(bookingId: int, d: DetailRequest) returns (r: Result<BookingDetail>)
      requires Valid()
      modifies this
      ensures Valid()
      ensures bookingId !in old(bookings) ==> r == Fail(404, "Booking not found") && unchanged(this)
      ensures bookingId in old(bookings) ==>
        && r.Ok?
        && r.value == BookingDetail(old(nextDetailId), bookingId, d.serviceName, d.serviceType, d.quantity,
                                    d.unitPrice, OrZero(d.unitPrice) * d.quantity, d.notes)
        && details == old(details) + [r.value]
        && bookings == old(bookings)[bookingId := Charge(old(bookings)[bookingId], r.value.totalPrice)]
        && nextId == old(nextId)
    {
      if bookingId !in bookings {
        return Fail(404, "Booking not found");
      }
      var price := (if d.unitPrice.Some? then d.unitPrice.value else 0) * d.quantity;
      var detail := BookingDetail(nextDetailId, bookingId, d.serviceName, d.serviceType, d.quantity,
                                  d.unitPrice, price, d.notes);
      details := details + [detail];
      nextDetailId := nextDetailId + 1;
      bookings := bookings[bookingId := Charge(bookings[bookingId], price)];
      return Ok(detail);
    }
  }
}
