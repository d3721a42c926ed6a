/**
 * The room service (services/room/main.py): the room-type and room tables,
 * their create/update handlers, and the availability decision that combines
 * a room's own status with the bookings the booking service reports for it.
 */
module Rooms {
  import opened Wrappers

  datatype RoomType = RoomType(id: int, name: string, description: Option<string>,
                               pricePerNight: int, maxOccupancy: int, amenities: Option<string>)

  /** The fields of a RoomTypeCreate body. */
  datatype RoomTypeData = RoomTypeData(name: string, description: Option<string>,
                                       pricePerNight: int, maxOccupancy: int, amenities: Option<string>)

  datatype Room = Room(id: int, roomNumber: string, roomTypeId: int, status: string, floor: Option<int>)

  /** The fields of a RoomCreate body. */
  datatype RoomData = RoomData(roomNumber: string, roomTypeId: int, status: string, floor: Option<int>)

  /** A RoomUpdate body: Some for each field the client set. */
  datatype RoomUpdate = RoomUpdate(roomNumber: Option<string>, roomTypeId: Option<int>,
                                   status: Option<string>, floor: Option<int>)

  /** The statuses update_room_status accepts. */
  const VALID_STATUSES: seq<string> := ["available", "booked", "occupied", "maintenance"]

  predicate NumberTaken(rooms: map<int, Room>, number: string)
  {
    exists id :: id in rooms && rooms[id].roomNumber == number
  }

  predicate NameTaken(types: map<int, RoomType>, name: string)
  {
    exists id :: id in types && types[id].name == name
  }

  predicate UniqueRoomNumbers(rooms: map<int, Room>)
  {
    forall a, b :: a in rooms && b in rooms && rooms[a].roomNumber == rooms[b].roomNumber ==> a == b
  }

  predicate UniqueTypeNames(types: map<int, RoomType>)
  {
    forall a, b :: a in types && b in types && types[a].name == types[b].name ==> a == b
  }

  /**
   * The fields of `room` after update_room's setattr loop: each supplied field
   * replaces the stored one, every other field (and the id) is kept.
   */
  function ApplyRoomUpdate(room: Room, u: RoomUpdate): (r: Room)
    ensures r.id == room.id
    ensures r.roomNumber == (if u.roomNumber.Some? then u.roomNumber.value else room.roomNumber)
    ensures r.roomTypeId == (if u.roomTypeId.Some? then u.roomTypeId.value else room.roomTypeId)
    ensures r.status == (if u.status.Some? then u.status.value else room.status)
    ensures r.floor == (if u.floor.Some? then u.floor else room.floor)
  {
    Room(room.id,
         if u.roomNumber.Some? then u.roomNumber.value else room.roomNumber,
         if u.roomTypeId.Some? then u.roomTypeId.value else room.roomTypeId,
         if u.status.Some? then u.status.value else room.status,
         if u.floor.Some? then u.floor else room.floor)
  }

  /** Applying the same update twice is applying it once; an empty update changes nothing. */
  lemma ApplyRoomUpdateIdempotent(room: Room, u: RoomUpdate)
    ensures ApplyRoomUpdate(ApplyRoomUpdate(room, u), u) == ApplyRoomUpdate(room, u)
    ensures ApplyRoomUpdate(room, RoomUpdate(None, None, None, None)) == room
    ensures u.roomNumber.Some? ==> ApplyRoomUpdate(room, u).roomNumber == u.roomNumber.value
    ensures u.status.Some? ==> ApplyRoomUpdate(room, u).status == u.status.value
  {
  }

  /** update_room does not validate `status`: any text, even one update_room_status refuses, is stored. */
  lemma UpdateRoomSkipsStatusValidation(room: Room)
    ensures var r := ApplyRoomUpdate(room, RoomUpdate(None, None, Some("broken"), None));
      r.status == "broken" && r.status !in VALID_STATUSES
  {
  }

  // ----- Availability -----

  /** A booking as the booking service lists it; a date is None when the entry is missing. */
  datatype RemoteBooking = RemoteBooking(status: Option<string>, checkIn: Option<int>, checkOut: Option<int>)

  /** Bookings in these statuses are ignored by the availability check. */
  predicate Skipped(b: RemoteBooking)
  {
    b.status.Some? && b.status.value in ["cancelled", "checked_out", "completed"]
  }

  /** The room-side overlap test: not (check_out <= b.check_in or check_in >= b.check_out). */
  predicate RoomOverlap(checkIn: int, checkOut: int, bookingIn: int, bookingOut: int)
  {
    !(checkOut <= bookingIn || checkIn >= bookingOut)
  }

  /** An active booking whose dates parse and overlap the requested stay. */
  predicate ConflictsWith(b: RemoteBooking, checkIn: int, checkOut: int)
  {
    !Skipped(b) && b.checkIn.Some? && b.checkOut.Some? && RoomOverlap(checkIn, checkOut, b.checkIn.value, b.checkOut.value)
  }

  /** An active booking whose date cannot be parsed (`fromisoformat("")` raises). */
  predicate Unparseable(b: RemoteBooking)
  {
    !Skipped(b) && (b.checkIn.None? || b.checkOut.None?)
  }

  /**
   * The scan of the listed bookings: the active overlapping ones in list
   * order, or None when the scan raises on an active booking without dates.
   */
  function Scan(bs: seq<RemoteBooking>, checkIn: int, checkOut: int): (r: Option<seq<RemoteBooking>>)
    ensures r.None? <==> exists i :: 0 <= i < |bs| && Unparseable(bs[i])
    ensures r.Some? ==> |r.value| <= |bs| && forall b :: b in r.value ==> b in bs && ConflictsWith(b, checkIn, checkOut)
    ensures r.Some? ==> forall i :: 0 <= i < |bs| && ConflictsWith(bs[i], checkIn, checkOut) ==> bs[i] in r.value
  {
    if bs == [] then Some([])
    else
      var init := bs[..|bs| - 1];
      var b := bs[|bs| - 1];
      assert forall i :: 0 <= i < |init| ==> init[i] == bs[i];
      match Scan(init, checkIn, checkOut)
      case None => None
      case Some(acc) =>
        if Skipped(b) then Some(acc)
        else if b.checkIn.None? || b.checkOut.None? then None
        else if RoomOverlap(checkIn, checkOut, b.checkIn.value, b.checkOut.value) then Some(acc + [b])
        else Some(acc)
  }

  /** The loop over the listed bookings that collects the active overlapping ones. */
  method CollectActiveBookings(bs: seq<RemoteBooking>, checkIn: int, checkOut: int)
    returns (active: Option<seq<RemoteBooking>>)
    ensures active == Scan(bs, checkIn, checkOut)
  {
    var acc: seq<RemoteBooking> := [];
    for i := 0 to |bs|
      invariant Scan(bs[..i], checkIn, checkOut) == Some(acc)
    {
      var b := bs[i];
      assert bs[..i + 1][..i] == bs[..i];
      if b.status.Some? && b.status.value in ["cancelled", "checked_out", "completed"] {
        continue;
      }
      if b.checkIn.None? || b.checkOut.None? {
        assert Unparseable(bs[i]);
        return None;
      }
      if !(checkOut <= b.checkIn.value || checkIn >= b.checkOut.value) {
        acc := acc + [b];
      }
    }
    assert bs[..|bs|] == bs;
    return Some(acc);
  }

  datatype Reason =
    | UnderMaintenance
    | CurrentlyOccupied
    | ActiveBookings(count: nat)
    | RoomIsAvailable
    | StatusFallbackAvailable
    | UnableToVerify

  datatype Verdict = Verdict(available: bool, reason: Reason)

  /**
   * The availability decision for a room in `status` over [checkIn, checkOut):
   * maintenance and occupied rooms are unavailable whatever the bookings;
   * otherwise `lookup` is the booking list (None when the call raised), and a
   * failed lookup or a failed scan falls back to `status == "available"`.
   */
  function Decide(status: string, checkIn: int, checkOut: int, lookup: Option<seq<RemoteBooking>>): (v: Verdict)
    ensures status == "maintenance" || status == "occupied" ==> !v.available
    ensures (status != "maintenance" && status != "occupied"
             && (lookup.None? || Scan(lookup.value, checkIn, checkOut).None?)) ==> (v.available <==> status == "available")
  {
    if status == "maintenance" then Verdict(false, UnderMaintenance)
    else if status == "occupied" then Verdict(false, CurrentlyOccupied)
    else match lookup
      case None => Fallback(status)
      case Some(bs) =>
        match Scan(bs, checkIn, checkOut)
        case None => Fallback(status)
        case Some(active) =>
          if |active| > 0 then Verdict(false, ActiveBookings(|active|)) else Verdict(true, RoomIsAvailable)
  }

  function Fallback(status: string): Verdict
  {
    if status == "available" then Verdict(true, StatusFallbackAvailable) else Verdict(false, UnableToVerify)
  }

  /**
   * When the lookup and the scan succeed, a room that is neither in
   * maintenance nor occupied is available exactly when no active listed
   * booking overlaps the stay, whatever its own status ("booked" included).
   */
  lemma AvailableIffNoConflict(status: string, checkIn: int, checkOut: int, bs: seq<RemoteBooking>)
    requires status != "maintenance" && status != "occupied"
    requires forall i :: 0 <= i < |bs| ==> !Unparseable(bs[i])
    ensures Decide(status, checkIn, checkOut, Some(bs)).available <==>
      forall i :: 0 <= i < |bs| ==> !ConflictsWith(bs[i], checkIn, checkOut)
  {
    var r := Scan(bs, checkIn, checkOut);
    if r.Some? && |r.value| > 0 {
      var b := r.value[0];
      assert b in r.value;
      var i :| 0 <= i < |bs| && bs[i] == b;
      assert ConflictsWith(bs[i], checkIn, checkOut);
    }
  }

  datatype Availability = Availability(roomId: int, available: bool, reason: Reason, checkIn: int, checkOut: int)

  /** A room among the ones get_available_rooms lists (`lookup` is the booking list the per-room check receives). */
  predicate Listed(room: Room, checkIn: Option<int>, checkOut: Option<int>, roomTypeId: Option<int>,
                   lookup: int -> Option<seq<RemoteBooking>>)
  {
    && room.status == "available"
    && (TruthyInt(roomTypeId) ==> room.roomTypeId == roomTypeId.value)
    && (checkIn.Some? && checkOut.Some? ==> Decide(room.status, checkIn.value, checkOut.value, lookup(room.id)).available)
  }

  /**
   * A listed room is an available room of the requested type; with both dates,
   * it has no active overlapping booking unless the lookup failed, in which
   * case the fallback lists it (its status is "available").
   */
  lemma ListedMeansFree(room: Room, checkIn: int, checkOut: int, roomTypeId: Option<int>,
                        lookup: int -> Option<seq<RemoteBooking>>)
    requires Listed(room, Some(checkIn), Some(checkOut), roomTypeId, lookup)
    ensures room.status == "available"
    ensures lookup(room.id).Some? && Scan(lookup(room.id).value, checkIn, checkOut).Some? ==>
      forall i :: 0 <= i < |lookup(room.id).value| ==> !ConflictsWith(lookup(room.id).value[i], checkIn, checkOut)
  {
    var l := lookup(room.id);
    if l.Some? && Scan(l.value, checkIn, checkOut).Some? {
      AvailableIffNoConflict(room.status, checkIn, checkOut, l.value);
    }
  }

  lemma NonEmptyHasElement(s: set<int>)
    requires s != {}
    ensures exists x :: x in s
  {
    if forall x :: x !in s {
      assert false;
    }
  }

  /** The room service's tables. */
  class RoomService {
    var roomTypes: map<int, RoomType>
    var rooms: map<int, Room>
    var nextTypeId: int
    var nextRoomId: int

    /**
     * Each row is stored under its own id below the next id; every room's type
     * exists; room numbers and type names are unique.
     */
    predicate Valid()
      reads this
    {
      && 0 < nextTypeId && 0 < nextRoomId
      && (forall id :: id in roomTypes ==> roomTypes[id].id == id && 0 < id < nextTypeId)
      && (forall id :: id in rooms ==> rooms[id].id == id && 0 < id < nextRoomId && rooms[id].roomTypeId in roomTypes)
      && UniqueRoomNumbers(rooms)
      && UniqueTypeNames(roomTypes)
    }

    constructor ()
      ensures Valid() && roomTypes == map[] && rooms == map[]
    {
      roomTypes := map[];
      rooms := map[];
      nextTypeId := 1;
      nextRoomId := 1;
    }

    /** create_room_type: 400 when the name is taken; otherwise the new type is stored under a fresh id. */
    method CreateRoomType(data: RoomTypeData) returns (r: Result<RoomType>)
      requires Valid()
      modifies this
      ensures Valid()
      ensures r.Err? <==> NameTaken(old(roomTypes), data.name)
      ensures r.Err? ==> r == Fail(400, "Room type with this name already exists") && unchanged(this)
      ensures r.Ok? ==>
        && r.value == RoomType(old(nextTypeId), data.name, data.description, data.pricePerNight,
                               data.maxOccupancy, data.amenities)
        && roomTypes == old(roomTypes)[r.value.id := r.value]
        && rooms == old(rooms) && nextRoomId == old(nextRoomId)
    {
      if exists id :: id in roomTypes && roomTypes[id].name == data.name {
        return Fail(400, "Room type with this name already exists");
      }
      var t := RoomType(nextTypeId, data.name, data.description, data.pricePerNight, data.maxOccupancy, data.amenities);
      roomTypes := roomTypes[t.id := t];
      nextTypeId := nextTypeId + 1;
      return Ok(t);
    }

    /**
     * create_room: 404 when the room type does not exist, checked first; then
     * 400 when the room number is taken; otherwise the room is stored under a
     * fresh id.
     */
    method CreateRoom(data: RoomData) returns (r: Result<Room>)
      requires Valid()
      modifies this
      ensures Valid()
      ensures data.roomTypeId !in old(roomTypes) ==> r == Fail(404, "Room type not found") && unchanged(this)
      ensures data.roomTypeId in old(roomTypes) && NumberTaken(old(rooms), data.roomNumber) ==>
        r == Fail(400, "Room number already exists") && unchanged(this)
      ensures r.Ok? <==> data.roomTypeId in old(roomTypes) && !NumberTaken(old(rooms), data.roomNumber)
      ensures r.Ok? ==>
        && r.value == Room(old(nextRoomId), data.roomNumber, data.roomTypeId, data.status, data.floor)
        && rooms == old(rooms)[r.value.id := r.value]
        && roomTypes == old(roomTypes) && nextTypeId == old(nextTypeId)
    {
      if data.roomTypeId !in roomTypes {
        return Fail(404, "Room type not found");
      }
      if exists id :: id in rooms && rooms[id].roomNumber == data.roomNumber {
        return Fail(400, "Room number already exists");
      }
      var room := Room(nextRoomId, data.roomNumber, data.roomTypeId, data.status, data.floor);
      rooms := rooms[room.id := room];
      nextRoomId := nextRoomId + 1;
      return Ok(room);
    }

    /** get_room: the stored room, or 404. */
    method GetRoom(roomId: int) returns (r: Result<Room>)
      requires Valid()
      ensures r.Err? <==> roomId !in rooms
      ensures r.Err? ==> r == Fail(404, "Room not found")
      ensures r.Ok? ==> r.value.id == roomId && r.value == rooms[roomId]
    {
      if roomId !in rooms {
        return Fail(404, "Room not found");
      }
      return Ok(rooms[roomId]);
    }

    /**
     * update_room: 404 for a missing room, then 404 when a supplied
     * room_type_id does not exist; otherwise the supplied fields are written.
     * A supplied room number held by another room violates the table's unique
     * constraint, so the commit fails with 500 and nothing changes.
     */
    method UpdateRoom(roomId: int, u: RoomUpdate) returns (r: Result<Room>)
      requires Valid()
      modifies this
      ensures Valid()
      ensures roomId !in old(rooms) ==> r == Fail(404, "Room not found")
      ensures roomId in old(rooms) && u.roomTypeId.Some? && u.roomTypeId.value !in old(roomTypes) ==>
        r == Fail(404, "Room type not found")
      ensures r.Err? ==> unchanged(this)
      ensures r.Ok? ==>
        && roomId in old(rooms)
        && r.value == ApplyRoomUpdate(old(rooms)[roomId], u)
        && rooms == old(rooms)[roomId := r.value]
        && roomTypes == old(roomTypes)
      ensures r.Ok? <==>
        && roomId in old(rooms)
        && (u.roomTypeId.Some? ==> u.roomTypeId.value in old(roomTypes))
        && (u.roomNumber.Some? ==> forall id :: id in old(rooms) && id != roomId ==> old(rooms)[id].roomNumber != u.roomNumber.value)
    {
      if roomId !in rooms {
        return Fail(404, "Room not found");
      }
      if u.roomTypeId.Some? && u.roomTypeId.value !in roomTypes {
        return Fail(404, "Room type not found");
      }
      if u.roomNumber.Some? && exists id :: id in rooms && id != roomId && rooms[id].roomNumber == u.roomNumber.value {
        return Fail(500, "Internal Server Error");
      }
      var updated := ApplyRoomUpdate(rooms[roomId], u);
      rooms := rooms[roomId := updated];
      return Ok(updated);
    }

    /**
     * update_room_status: the new status is validated before the room is
     * looked up (400 for a missing, empty or unknown value, even for a room
     * that does not exist); then 404; otherwise only the status changes.
     */
    method UpdateRoomStatus(roomId: int, newStatus: Option<string>) returns (r: Result<Room>)
      requires Valid()
      modifies this
      ensures Valid()
      ensures !(TruthyString(newStatus) && newStatus.value in VALID_STATUSES) ==>
        r == Fail(400, "Invalid status. Must be one of: available, booked, occupied, maintenance")
      ensures TruthyString(newStatus) && newStatus.value in VALID_STATUSES && roomId !in old(rooms) ==>
        r == Fail(404, "Room not found")
      ensures r.Err? ==> unchanged(this)
      ensures r.Ok? ==>
        && newStatus.Some? && newStatus.value in VALID_STATUSES && roomId in old(rooms)
        && r.value == old(rooms)[roomId].(status := newStatus.value)
        && rooms == old(rooms)[roomId := r.value]
        && roomTypes == old(roomTypes)
    {
      if newStatus.None? || newStatus.value == "" || newStatus.value !in VALID_STATUSES {
        return Fail(400, "Invalid status. Must be one of: available, booked, occupied, maintenance");
      }
      if roomId !in rooms {
        return Fail(404, "Room not found");
      }
      var updated := rooms[roomId].(status := newStatus.value);
      rooms := rooms[roomId := updated];
      return Ok(updated);
    }

    /**
     * check_room_availability for a stay [checkIn, checkOut): 404 for a
     * missing room; otherwise the decision for the room's status and the
     * booking list `lookup` (None when the booking service call raised).
     */
    method CheckRoomAvailability(roomId: int, checkIn: int, checkOut: int, lookup: Option<seq<RemoteBooking>>)
      returns (r: Result<Availability>)
      ensures roomId !in rooms ==> r == Fail(404, "Room not found")
      ensures roomId in rooms ==>
        && r.Ok? && r.value.roomId == roomId
        && r.value.available == Decide(rooms[roomId].status, checkIn, checkOut, lookup).available
        && r.value.reason == Decide(rooms[roomId].status, checkIn, checkOut, lookup).reason
    {
      if roomId !in rooms {
        return Fail(404, "Room not found");
      }
      var room := rooms[roomId];
      if room.status == "maintenance" {
        return Ok(Availability(roomId, false, UnderMaintenance, checkIn, checkOut));
      }
      if room.status == "occupied" {
        return Ok(Availability(roomId, false, CurrentlyOccupied, checkIn, checkOut));
      }
      var active: Option<seq<RemoteBooking>> := None;
      if lookup.Some? {
        active := CollectActiveBookings(lookup.value, checkIn, checkOut);
      }
      if active.None? {
        if room.status == "available" {
          return Ok(Availability(roomId, true, StatusFallbackAvailable, checkIn, checkOut));
        }
        return Ok(Availability(roomId, false, UnableToVerify, checkIn, checkOut));
      }
      if |active.value| > 0 {
        return Ok(Availability(roomId, false, ActiveBookings(|active.value|), checkIn, checkOut));
      }
      return Ok(Availability(roomId, true, RoomIsAvailable, checkIn, checkOut));
    }

    /**
     * get_available_rooms: the rooms whose status is "available", of the given
     * type when one is given, and, when both dates are given, for which the
     * per-room availability check says available. Each room appears once; the
     * order of the database query is not modelled.
     */
    method GetAvailableRooms(checkIn: Option<int>, checkOut: Option<int>, roomTypeId: Option<int>,
                             lookup: int -> Option<seq<RemoteBooking>>) returns (listed: seq<Room>)
      requires Valid()
      ensures forall i :: 0 <= i < |listed| ==> listed[i].id in rooms && rooms[listed[i].id] == listed[i]
      ensures forall i, j :: 0 <= i < j < |listed| ==> listed[i].id != listed[j].id
      ensures forall id :: id in rooms ==> (rooms[id] in listed <==> Listed(rooms[id], checkIn, checkOut, roomTypeId, lookup))
    {
      listed := [];
      var remaining := rooms.Keys;
      while remaining != {}
        invariant remaining <= rooms.Keys
        invariant forall i :: 0 <= i < |listed| ==>
          listed[i].id in rooms && listed[i].id !in remaining && rooms[listed[i].id] == listed[i]
          && Listed(listed[i], checkIn, checkOut, roomTypeId, lookup)
        invariant forall i, j :: 0 <= i < j < |listed| ==> listed[i].id != listed[j].id
        invariant forall id :: id in rooms && id !in remaining && Listed(rooms[id], checkIn, checkOut, roomTypeId, lookup) ==>
          rooms[id] in listed
        decreases remaining
      {
        NonEmptyHasElement(remaining);
        var id :| id in remaining;
        var room := rooms[id];
        if room.status == "available" && (roomTypeId.None? || roomTypeId.value == 0 || room.roomTypeId == roomTypeId.value) {
          if checkIn.Some? && checkOut.Some? {
            var a := CheckRoomAvailability(id, checkIn.value, checkOut.value, lookup(id));
            if a.Ok? && a.value.available {
              listed := listed + [room];
            }
          } else {
            listed := listed + [room];
          }
        }
        remaining := remaining - {id};
      }
      forall id | id in rooms && rooms[id] in listed
        ensures Listed(rooms[id], checkIn, checkOut, roomTypeId, lookup)
      {
        var i :| 0 <= i < |listed| && listed[i] == rooms[id];
      }
    }
  }
}
