/**
 * A hotel room and its two-state occupancy machine (vacant / occupied).
 *
 * The Python program's `Room` class and its subclass `Suite` are one class here, tagged by
 * an immutable `Kind`. The state machine is specified by pure functions on
 * `RoomState` values; the methods of `Room` update the object in place and are
 * proved to follow those functions.
 */
module Rooms {
  import opened Wrappers

  /** The variant of a room: a standard room, or a suite with its whirlpool flag. */
  datatype Kind = Standard | Suite(hasWhirlpool: bool)

  /**
   * Everything a room holds. The first four fields never change after
   * construction; `occupied`, `guest` and `checkInTime` are the occupancy state.
   * `price` is an opaque amount (for instance in cents): it is only ever copied.
   */
  datatype RoomState = RoomState(
    number: int,
    capacity: int,
    price: int,
    kind: Kind,
    occupied: bool,
    guest: Option<string>,
    checkInTime: Option<string>)

  /** The billing record a check-out hands back: who stayed and what they owe. */
  datatype Bill = Bill(guest: Option<string>, amount: int)

  /** The occupancy invariant: a room is occupied exactly when a guest and a check-in time are recorded. */
  predicate Consistent(s: RoomState) {
    s.guest.Some? == s.occupied && s.checkInTime.Some? == s.occupied
  }

  /** The two states share their static attributes. */
  predicate SameRoom(s: RoomState, t: RoomState) {
    s.number == t.number && s.capacity == t.capacity && s.price == t.price && s.kind == t.kind
  }

  /** A freshly built room: vacant, no guest, no check-in time. */
  function Vacant(number: int, capacity: int, price: int, kind: Kind): (s: RoomState)
    ensures Consistent(s) && !s.occupied
    ensures s.number == number && s.capacity == capacity && s.price == price && s.kind == kind
  {
    RoomState(number, capacity, price, kind, false, None, None)
  }

  /**
   * Check-in: succeeds only on a vacant room, and then records the guest and
   * the check-in time `now`; on an occupied room it fails and changes nothing.
   */
  function CheckInStep(s: RoomState, guestName: string, now: string): (r: (bool, RoomState))
    ensures SameRoom(r.1, s)
    ensures r.0 <==> !s.occupied
    ensures r.0 ==> r.1.occupied && r.1.guest == Some(guestName) && r.1.checkInTime == Some(now)
    ensures !r.0 ==> r.1 == s
    ensures Consistent(s) ==> Consistent(r.1)
    ensures r.0 ==> Consistent(r.1)
  {
    if !s.occupied then
      (true, s.(occupied := true, guest := Some(guestName), checkInTime := Some(now)))
    else
      (false, s)
  }

  /**
   * Check-out: on an occupied room, bills the recorded guest the room's flat
   * price and leaves the room vacant with guest and time cleared; on a vacant
   * room it returns no bill and changes nothing.
   */
  function CheckOutStep(s: RoomState): (r: (Option<Bill>, RoomState))
    ensures SameRoom(r.1, s)
    ensures r.0.Some? <==> s.occupied
    ensures s.occupied ==> r.0 == Some(Bill(s.guest, s.price))
    ensures s.occupied ==> !r.1.occupied && r.1.guest == None && r.1.checkInTime == None
    ensures !s.occupied ==> r.1 == s
    ensures Consistent(s) ==> Consistent(r.1)
    ensures s.occupied ==> Consistent(r.1)
  {
    if s.occupied then
      (Some(Bill(s.guest, s.price)), s.(occupied := false, guest := None, checkInTime := None))
    else
      (None, s)
  }

  /**
   * A stay: checking a guest into a vacant room and checking out again bills
   * that guest the room's price, whatever the check-in time, and returns the
   * room to the state it was in before.
   */
  lemma StayRestoresVacancy(s: RoomState, guestName: string, now: string)
    requires Consistent(s) && !s.occupied
    ensures CheckInStep(s, guestName, now).0
    ensures CheckOutStep(CheckInStep(s, guestName, now).1) == (Some(Bill(Some(guestName), s.price)), s)
  {
  }

  /** An occupied room refuses a second check-in; a vacant room refuses a check-out. */
  lemma GuardedTransitions(s: RoomState, guestName: string, now: string)
    ensures s.occupied ==> CheckInStep(s, guestName, now) == (false, s)
    ensures !s.occupied ==> CheckOutStep(s) == (None, s)
  {
  }

  /** One room object. Its static attributes are constants; its occupancy changes in place. */
  class Room {
    const number: int
    const capacity: int
    const price: int
    const kind: Kind
    var occupied: bool
    var guest: Option<string>
    var checkInTime: Option<string>

    /** The room's current value. */
    function State(): RoomState
      reads this
    {
      RoomState(number, capacity, price, kind, occupied, guest, checkInTime)
    }

    /** The occupancy invariant of this room. */
    predicate Valid()
      reads this
    {
      Consistent(State())
    }

    /** A standard room, vacant. */
    constructor (number: int, capacity: int, price: int)
      ensures State() == Vacant(number, capacity, price, Standard)
      ensures Valid()
    {
      this.number := number;
      this.capacity := capacity;
      this.price := price;
      this.kind := Standard;
      this.occupied := false;
      this.guest := None;
      this.checkInTime := None;
    }

    /** A suite with its whirlpool flag, vacant. */
    constructor Suite(number: int, capacity: int, price: int, hasWhirlpool: bool)
      ensures State() == Vacant(number, capacity, price, Kind.Suite(hasWhirlpool))
      ensures Valid()
    {
      this.number := number;
      this.capacity := capacity;
      this.price := price;
      this.kind := Kind.Suite(hasWhirlpool);
      this.occupied := false;
      this.guest := None;
      this.checkInTime := None;
    }

    /** Checks `guestName` in at time `now` (the caller reads the clock). */
    method CheckIn(guestName: string, now: string) returns (ok: bool)
      modifies this
      ensures (ok, State()) == CheckInStep(old(State()), guestName, now)
      ensures old(Valid()) ==> Valid()
    {
      if !occupied {
        occupied := true;
        guest := Some(guestName);
        checkInTime := Some(now);
        return true;
      }
      return false;
    }

    /** Checks the current guest out and returns the bill, or `None` if the room was vacant. */
    method CheckOut() returns (bill: Option<Bill>)
      modifies this
      ensures (bill, State()) == CheckOutStep(old(State()))
      ensures old(Valid()) ==> Valid()
    {
      if occupied {
        var stayed := guest;
        var amount := price;
        occupied := false;
        guest := None;
        checkInTime := None;
        return Some(Bill(stayed, amount));
      }
      return None;
    }
  }

  /** The values of a sequence of rooms, in order. */
  function States(rs: seq<Room>): seq<RoomState>
    reads rs
  {
    seq(|rs|, i requires 0 <= i < |rs| reads rs => rs[i].State())
  }
}
