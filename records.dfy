/**
 * The persisted form of a room: one record per room, as `to_dict` builds it
 * and `load_data` reads it back.
 */
module Records {
  import opened Wrappers
  import opened Rooms

  /**
   * One room record. `tag` is the record's "type" entry. A key the file may
   * omit is an `Option`, with `None` meaning the key is absent: `whirlpool` is
   * written for suites only, and `time` is `Some(None)` when written as null.
   * `guest` follows a different rule: the key is required, and its `None`
   * means a stored null.
   */
  datatype Record = Record(
    tag: string,
    number: int,
    capacity: int,
    price: int,
    occupied: bool,
    guest: Option<string>,
    time: Option<Option<string>>,
    whirlpool: Option<bool>)

  /**
   * The record every room writes: tagged "Standard", carrying the room's
   * attributes and occupancy, always with a time entry (null while vacant),
   * and without a whirlpool entry.
   */
  function BaseRecord(s: RoomState): (r: Record)
    ensures r.tag == "Standard" && r.whirlpool == None
    ensures r.number == s.number && r.capacity == s.capacity && r.price == s.price
    ensures r.occupied == s.occupied && r.guest == s.guest
    ensures r.time.Some? && r.time.value == s.checkInTime
  {
    Record("Standard", s.number, s.capacity, s.price, s.occupied, s.guest, Some(s.checkInTime), None)
  }

  /**
   * Rebuilds a room from its record: a suite when the tag is "Suite" (with the
   * stored whirlpool flag, false when absent), a standard room for any other
   * tag; the occupancy fields are restored as stored, a missing time as none.
   */
  function FromDict(rec: Record): (s: RoomState)
    ensures s.number == rec.number && s.capacity == rec.capacity && s.price == rec.price
    ensures s.kind.Suite? <==> rec.tag == "Suite"
    ensures rec.tag == "Suite" && rec.whirlpool.None? ==> s.kind == Kind.Suite(false)
    ensures rec.tag == "Suite" && rec.whirlpool.Some? ==> s.kind == Kind.Suite(rec.whirlpool.value)
    ensures s.occupied == rec.occupied && s.guest == rec.guest
    ensures rec.time.None? ==> s.checkInTime == None
    ensures rec.time.Some? ==> s.checkInTime == rec.time.value
  {
    var kind := if rec.tag == "Suite" then Kind.Suite(rec.whirlpool.GetOr(false)) else Standard;
    RoomState(rec.number, rec.capacity, rec.price, kind, rec.occupied, rec.guest, rec.time.GetOr(None))
  }

  /**
   * The record of a room: a suite's record is the standard record retagged
   * "Suite" with its whirlpool flag added. Reading the record back gives the
   * room again.
   */
  function ToDict(s: RoomState): (r: Record)
    ensures FromDict(r) == s
    ensures r.number == s.number
    ensures s.kind.Suite? ==> r == BaseRecord(s).(tag := "Suite", whirlpool := Some(s.kind.hasWhirlpool))
    ensures s.kind.Standard? ==> r == BaseRecord(s)
  {
    match s.kind
    case Standard => BaseRecord(s)
    case Suite(w) => BaseRecord(s).(tag := "Suite", whirlpool := Some(w))
  }

  /** The records of a room list, in order (the list built by `save_data`). */
  function ToDicts(ss: seq<RoomState>): (rs: seq<Record>)
    ensures |rs| == |ss|
    ensures forall i :: 0 <= i < |ss| ==> rs[i] == ToDict(ss[i])
  {
    seq(|ss|, i requires 0 <= i < |ss| => ToDict(ss[i]))
  }

  /** The rooms rebuilt from a record list, in order (the list built by `load_data`). */
  function FromDicts(recs: seq<Record>): (ss: seq<RoomState>)
    ensures |ss| == |recs|
    ensures forall i :: 0 <= i < |recs| ==> ss[i] == FromDict(recs[i])
  {
    seq(|recs|, i requires 0 <= i < |recs| => FromDict(recs[i]))
  }

  /** Saving and loading again gives back the same rooms, in the same order. */
  lemma SaveLoadRoundTrip(ss: seq<RoomState>)
    ensures FromDicts(ToDicts(ss)) == ss
  {
  }
}
