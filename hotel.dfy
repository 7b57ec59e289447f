/**
 * The hotel registry: an ordered list of rooms, saved to and loaded from a
 * data file as a list of room records. Adding a room keeps the room numbers
 * distinct; loading keeps whatever numbers the file holds.
 */
module Registry {
  import opened Wrappers
  import opened Rooms
  import opened Records

  /** No number occurs twice. */
  predicate Distinct(ns: seq<int>) {
    forall i, j :: 0 <= i < j < |ns| ==> ns[i] != ns[j]
  }

  /** The numbers of a room list, in order. */
  function Numbers(rs: seq<Room>): seq<int> {
    seq(|rs|, i requires 0 <= i < |rs| => rs[i].number)
  }

  /** The numbers of a record list, in order. */
  function RecordNumbers(recs: seq<Record>): seq<int> {
    seq(|recs|, i requires 0 <= i < |recs| => recs[i].number)
  }

  /** Some room of `rs` has number `n`. */
  predicate HasNumber(rs: seq<Room>, n: int) {
    exists k :: 0 <= k < |rs| && rs[k].number == n
  }

  /** Appending a room whose number is new keeps the numbers distinct. */
  lemma AppendKeepsDistinct(rs: seq<Room>, room: Room)
    requires Distinct(Numbers(rs)) && !HasNumber(rs, room.number)
    ensures Distinct(Numbers(rs + [room]))
  {
    var ns := Numbers(rs + [room]);
    forall i, j | 0 <= i < j < |ns| ensures ns[i] != ns[j] {
      assert ns[i] == (rs + [room])[i].number && ns[j] == (rs + [room])[j].number;
      if j < |rs| {
        assert Numbers(rs)[i] == rs[i].number && Numbers(rs)[j] == rs[j].number;
      } else {
        assert rs[i].number == ns[i];
      }
    }
  }

  /** In a list with distinct numbers, a number identifies one position. */
  lemma NumberIdentifiesRoom(rs: seq<Room>, a: nat, b: nat)
    requires Distinct(Numbers(rs))
    requires a < |rs| && b < |rs| && rs[a].number == rs[b].number
    ensures a == b
  {
    var ns := Numbers(rs);
    assert ns[a] == rs[a].number && ns[b] == rs[b].number;
  }

  class Hotel {
    const name: string
    /** The rooms, in insertion order. */
    var rooms: seq<Room>
    /** The contents of the data file: `None` while no file exists. */
    var stored: Option<seq<Record>>

    /** The registry's invariant: no two rooms share a number. */
    predicate Valid()
      reads this
    {
      Distinct(Numbers(rooms))
    }

    /** The values of the rooms, in order. */
    function Contents(): seq<RoomState>
      reads this, rooms
    {
      States(rooms)
    }

    /** A hotel named `name` whose data file holds `file`; the rooms are loaded from it. */
    constructor (name: string, file: Option<seq<Record>>)
      ensures this.name == name && stored == file
      ensures file.None? ==> rooms == []
      ensures file.Some? ==> Contents() == FromDicts(file.value)
      ensures forall k :: 0 <= k < |rooms| ==> fresh(rooms[k])
      ensures Valid() <==> (file.None? || Distinct(RecordNumbers(file.value)))
    {
      this.name := name;
      rooms := [];
      stored := file;
      new;
      LoadData();
    }

    /** Adds `room` at the end unless a room with its number exists; on success, saves. */
    method AddRoom(room: Room)
      modifies this
      ensures HasNumber(old(rooms), room.number) ==> rooms == old(rooms) && stored == old(stored)
      ensures !HasNumber(old(rooms), room.number) ==>
                rooms == old(rooms) + [room] && stored == Some(ToDicts(Contents()))
      ensures old(Valid()) ==> Valid()
    {
      var i := 0;
      while i < |rooms|
        invariant 0 <= i <= |rooms|
        invariant forall k :: 0 <= k < i ==> rooms[k].number != room.number
      {
        if rooms[i].number == room.number {
          return;
        }
        i := i + 1;
      }
      if Valid() {
        AppendKeepsDistinct(rooms, room);
      }
      rooms := rooms + [room];
      SaveData();
    }

    /** The first room numbered `number`, or `None` when there is none. */
    method GetRoomByNumber(number: int) returns (found: Option<Room>)
      ensures found.None? <==> !HasNumber(rooms, number)
      ensures found.Some? ==> exists i :: 0 <= i < |rooms| && rooms[i] == found.value &&
                                (forall k :: 0 <= k < i ==> rooms[k].number != number)
      ensures found.Some? ==> found.value in rooms && found.value.number == number
      ensures Valid() && found.Some? ==>
                forall k :: 0 <= k < |rooms| && rooms[k].number == number ==> rooms[k] == found.value
    {
      var i := 0;
      while i < |rooms|
        invariant 0 <= i <= |rooms|
        invariant forall k :: 0 <= k < i ==> rooms[k].number != number
      {
        if rooms[i].number == number {
          forall k | 0 <= k < |rooms| && rooms[k].number == number && Valid()
            ensures rooms[k] == rooms[i]
          {
            NumberIdentifiesRoom(rooms, k, i);
          }
          return Some(rooms[i]);
        }
        i := i + 1;
      }
      return None;
    }

    /** Overwrites the data file with the records of all rooms, in order. */
    method SaveData()
      modifies this`stored
      ensures stored == Some(ToDicts(Contents()))
    {
      stored := Some(ToDicts(States(rooms)));
    }

    /**
     * Replaces the rooms by those rebuilt from the data file, in file order;
     * does nothing when no file exists.
     */
    method LoadData()
      modifies this`rooms
      ensures stored.None? ==> rooms == old(rooms)
      ensures stored.Some? ==> Contents() == FromDicts(stored.value)
      ensures stored.Some? ==> forall k :: 0 <= k < |rooms| ==> fresh(rooms[k])
      ensures stored.Some? ==> (Valid() <==> Distinct(RecordNumbers(stored.value)))
    {
      if stored.None? {
        return;
      }
      var items := stored.value;
      rooms := [];
      var i := 0;
      while i < |items|
        invariant 0 <= i <= |items|
        invariant |rooms| == i
        invariant forall k :: 0 <= k < i ==> fresh(rooms[k])
        invariant forall k :: 0 <= k < i ==> rooms[k].State() == FromDict(items[k])
      {
        var item := items[i];
        var room: Room;
        if item.tag == "Suite" {
          room := new Room.Suite(item.number, item.capacity, item.price, item.whirlpool.GetOr(false));
        } else {
          room := new Room(item.number, item.capacity, item.price);
        }
        room.occupied := item.occupied;
        room.guest := item.guest;
        room.checkInTime := item.time.GetOr(None);
        rooms := rooms + [room];
        i := i + 1;
      }
      assert forall k :: 0 <= k < |items| ==> Numbers(rooms)[k] == RecordNumbers(items)[k];
      assert Numbers(rooms) == RecordNumbers(items);
    }
  }

  /**
   * Seeding an empty hotel: two rooms are added in order, and a third room
   * with a number already taken is refused.
   */
  method SeedingScenario()
  {
    var hotel := new Hotel("Grand Hotel Python", None);
    var standard := new Room(101, 2, 8000);
    hotel.AddRoom(standard);
    assert hotel.rooms == [standard];
    var suite := new Room.Suite(201, 2, 15000, true);
    hotel.AddRoom(suite);
    assert hotel.rooms == [standard, suite];
    assert hotel.Valid();
    var duplicate := new Room(101, 1, 6000);
    assert hotel.rooms[0].number == duplicate.number;
    hotel.AddRoom(duplicate);
    assert hotel.rooms == [standard, suite];
    LookupScenario(hotel, standard, suite);
  }

  /** Looking rooms up by number in the seeded hotel. */
  method LookupScenario(hotel: Hotel, standard: Room, suite: Room)
    requires standard.number == 101 && suite.number == 201
    requires hotel.rooms == [standard, suite]
  {
    var missing := hotel.GetRoomByNumber(102);
    assert missing == None;
    assert hotel.rooms[1].number == 201;
    var found := hotel.GetRoomByNumber(201);
    assert found == Some(suite);
  }

  /** A stay in room 101: a second check-in is refused and the bill is the room's price. */
  method StayScenario()
  {
    var standard := new Room(101, 2, 8000);
    var ok := standard.CheckIn("Alice", "2024-01-01T12:00:00");
    assert ok;
    var again := standard.CheckIn("Bob", "2024-01-01T13:00:00");
    assert !again;
    var bill := standard.CheckOut();
    assert bill == Some(Bill(Some("Alice"), 8000));
    assert standard.State() == Vacant(101, 2, 8000, Standard);
    var none := standard.CheckOut();
    assert none == None;
  }

  /** Saving a hotel and loading the file again gives back the same rooms. */
  method ReloadScenario(hotel: Hotel)
    modifies hotel
  {
    hotel.SaveData();
    ghost var before := hotel.Contents();
    SaveLoadRoundTrip(before);
    hotel.LoadData();
    assert hotel.Contents() == before;
  }
}
