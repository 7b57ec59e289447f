# Hotel front-desk tracker: the room and registry model

This project models the backend of a small hotel front-desk program
(`hotel_management.py`). It has three parts:

- **Rooms** hold fixed attributes: a number, a capacity and a price. They also
  hold an occupancy state that moves between *vacant* and *occupied*.
  `check_in` succeeds only on a vacant room. It records the guest and the
  check-in time. `check_out` succeeds only on an occupied room. It returns a
  bill of the room's flat price to the recorded guest and clears the
  occupancy fields.
- **Suites** are rooms with an immutable whirlpool flag. In the modelled
  logic, suites differ only in their saved record: it is tagged `"Suite"` and
  carries the flag. Their display text, which is left out, differs too.
- **The hotel** keeps an ordered list of rooms. It adds a room only when its
  number is new, so adding keeps the numbers distinct. Loading does not check
  this: distinctness after a load depends on the file. The hotel finds rooms
  by number with a linear scan. It saves the list to a data file as one record per room and loads it
  back.

Modules:

- `Wrappers` (wrappers.dfy) holds `Option`, used for Python's `None`.
  `GetOr` is `dict.get` with a default.
- `Rooms` (rooms.dfy) holds the variant tag `Kind`, the value `RoomState`,
  the `Bill`, and the pure transition functions `CheckInStep` and
  `CheckOutStep`. It also holds the class `Room`. Python's `Room` and `Suite`
  classes become this one class: its `const kind` tells them apart. Its
  methods update the object in place and are proved to follow the pure
  steps.
- `Records` (records.dfy) holds the persisted `Record`, `ToDict` with its
  inverse `FromDict`, and the list-level maps used by saving and loading.
- `Registry` (hotel.dfy) holds the class `Hotel` and the lemmas about
  distinct room numbers. It also holds four small client methods:
  `SeedingScenario`, `LookupScenario`, `StayScenario` and `ReloadScenario`.
  Using only the contracts, they walk through adding a standard room 101 and
  a suite 201 and refusing a second room 101, looking up numbers, one stay,
  and a save followed by a reload.

Modelling choices:

- The data file is the field `Hotel.stored`. `None` means no file exists.
  `SaveData` overwrites it; `LoadData` reads it.
- The clock is a parameter: `CheckIn` takes the timestamp `now`.
- `price` is an opaque `int`, for example an amount in cents. The program
  only copies it.
- A record key that a file may omit is an `Option`, with `None` meaning
  absent. So `Record.whirlpool` is `None` for a standard room.
  `Record.time` is `Some(None)` when the time is stored as null.
  `Record.guest` follows a different rule: the key is required, and its
  `None` means a stored null.
- `load_data` restores occupancy fields exactly as stored. So a room loaded
  from a hand-edited file may break the occupancy invariant. `Room.Valid()`
  is therefore not a precondition of anything. `CheckIn`, `CheckOut` and the
  constructors preserve or establish it. Records written by `ToDict` reload
  to the same room, so a room that satisfied it still does.
- `load_data` does not check that room numbers are unique.
  `Hotel.LoadData` therefore guarantees the registry invariant `Valid()`
  exactly when the stored numbers are distinct.
- On a duplicate number `AddRoom` returns nothing and changes nothing, as
  `add_room` does (hotel_management.py:96-98).

## Model

| member | source | states |
|---|---|---|
| `Rooms.Vacant` | hotel_management.py:15-21 | A new room is vacant with no guest and no time, satisfies the occupancy invariant, and keeps its number, capacity, price and kind |
| `Rooms.CheckInStep` | hotel_management.py:23-29 | Check-in succeeds exactly when the room is vacant. On success it records the guest and time and marks the room occupied. On failure the room is unchanged. Static attributes never change. The occupancy invariant is preserved, and it holds after any success |
| `Rooms.CheckOutStep` | hotel_management.py:31-47 | A bill is returned exactly when the room is occupied. The bill is the recorded guest and the room's price. Afterwards the room is vacant with guest and time cleared. A vacant room is unchanged. The invariant is preserved |
| `Rooms.StayRestoresVacancy` | hotel_management.py:19-47 | On a consistent vacant room, check-in succeeds. The following check-out bills that guest exactly the price, whatever the time, and gives back the original vacant room |
| `Rooms.GuardedTransitions` | hotel_management.py:23-47 | Check-in on an occupied room returns false and changes nothing. Check-out on a vacant room returns no bill and changes nothing |
| `Rooms.Room.constructor` | hotel_management.py:15-21 | A new standard room is in the vacant state with the given attributes, and it satisfies the occupancy invariant |
| `Rooms.Room.Suite` | hotel_management.py:69-72 | A new suite is a vacant room of kind Suite with the given whirlpool flag, and it satisfies the occupancy invariant |
| `Rooms.Room.CheckIn` | hotel_management.py:23-29 | The in-place update returns the same success flag and leaves the same new state as `CheckInStep`. It preserves `Valid()` |
| `Rooms.Room.CheckOut` | hotel_management.py:31-47 | The in-place update returns the same bill and leaves the same new state as `CheckOutStep`. It preserves `Valid()` |
| `Records.BaseRecord` | hotel_management.py:49-59 | A room's base record is tagged "Standard" and has no whirlpool entry. It carries the room's number, capacity, price, occupied flag and guest, and it always has a time entry holding the check-in time, null while vacant |
| `Records.ToDict` | hotel_management.py:74-79 | Decoding a room's record gives that room back. A suite's record is the base record retagged "Suite" with its flag added. A standard room's record is the base record |
| `Records.FromDict` | hotel_management.py:127-137 | The tag "Suite" and only that tag gives a suite. Its flag is the stored one, or false when absent. Number, capacity, price, occupied and guest are restored as stored. The time is the stored one, or none when the key is absent |
| `Records.ToDicts` | hotel_management.py:110 | The saved list has one record per room, in room order |
| `Records.FromDicts` | hotel_management.py:126-138 | The loaded list has one room per record, in record order, each decoded by `FromDict` |
| `Records.SaveLoadRoundTrip` | hotel_management.py:109-138 | Loading the saved list gives back exactly the same rooms in the same order, including variant, whirlpool flag, occupancy, guest and time |
| `Registry.Hotel.constructor` | hotel_management.py:88-92 | A new hotel keeps its name and loads its rooms from the data file. With no file it has no rooms. Its rooms are fresh objects. It satisfies `Valid()` exactly when the stored room numbers are distinct |
| `Registry.Hotel.AddRoom` | hotel_management.py:94-100 | If a room with the same number exists, the rooms and the file are unchanged. Otherwise the room is appended at the end with earlier rooms untouched, and the file is overwritten with all records. Distinct numbers stay distinct |
| `Registry.Hotel.GetRoomByNumber` | hotel_management.py:102-106 | Returns `None` exactly when no room has the number. Otherwise it returns a room of the list with that number, the first such room in list order. When the numbers are distinct, it is the only room with that number |
| `Registry.AppendKeepsDistinct` | hotel_management.py:94-99 | Appending a room whose number no room has keeps the room numbers pairwise distinct |
| `Registry.NumberIdentifiesRoom` | hotel_management.py:102-106 | In a room list with distinct numbers, two positions holding the same number are the same position |
| `Registry.Hotel.SaveData` | hotel_management.py:109-113 | The data file becomes the records of all rooms, in order. The rooms are unchanged |
| `Registry.Hotel.LoadData` | hotel_management.py:118-138 | With no file, the rooms are unchanged. Otherwise they are replaced by fresh rooms decoded from the stored records in order. `Valid()` then holds exactly when the stored numbers are distinct |

## Left out

- The tkinter user interface `HotelGUI` (hotel_management.py:147-246) is left out. It covers presentation, dialogs and parsing the room-number text. Its save after each check-in or check-out is a call to `SaveData`, which is modelled.
- File and JSON I/O (`open`, `json.dump`, `json.load`, `os.path.exists`) is left out. The file's contents are the field `Hotel.stored`, and the fixed file name "hotel_data.json" is not modelled.
- Write failures in `save_data` and their printed message are left out. Success messages are left out too.
- Read and parse failures in `load_data`, and the partial room list they leave behind, are left out. They depend on the JSON library. This includes a record with no "type", "number", "capacity", "price", "occupied" or "guest" key, on which `load_data` raises a key error. A JSON null stored as a whirlpool flag is also not modelled.
- `datetime.now().isoformat()` is not called. The check-in time is the parameter `now`.
- `__str__` of `Room` and `Suite` is left out. It is German display text with float formatting of the price.
- The float arithmetic of `price` is not modelled. The price is an opaque `int` and is only copied.
- The `__main__` block is not modelled. It seeds four rooms (101, 102, Suite 201, Suite 202) whenever the hotel has no rooms after loading, which covers no file, an empty list and a load that fails before any room is appended. Then it starts the event loop. `SeedingScenario` is not that block: it adds 101 and Suite 201 and then tries a second 101.
