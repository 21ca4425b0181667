/** The dungeon controller of `src/dungeon.rs`: a fixed vector of rooms built
    up front and a cursor on the current one. */
module Dungeons {
  import opened Wrappers
  import opened Arith
  import opened Text
  import opened Rooms

  datatype Dungeon = Dungeon(rooms: seq<Room>, level: int, currentRoom: nat)

  /** A dungeon whose cursor points at one of its rooms. */
  predicate Valid(d: Dungeon) {
    d.currentRoom < |d.rooms|
  }

  /** The threat budget of room i of n: the dungeon level, one more for the last room. */
  function RoomThreat(level: int, n: int, i: int): int {
    if i == n - 1 then level + 1 else level
  }

  /** The name of the room at index i, counted from 1. */
  function RoomName(i: nat): string {
    "Room " + NatToString(i + 1)
  }

  function RoomDescription(level: int, n: int, i: int): string {
    "Level " + IntToString(RoomThreat(level, n, i))
  }

  /** The room `Room::new` makes for index k from that index's draws; None
      when there are no draws for it or they run out. */
  function RoomAt(level: int, n: int, k: nat, draws: seq<RoomDraws>): Option<Room> {
    if k < |draws| then NewRoom(RoomName(k), RoomDescription(level, n, k), RoomThreat(level, n, k), draws[k])
    else None
  }

  /** Room j of a list built from index i is the room made for index i + j. */
  ghost predicate BuiltFrom(rooms: seq<Room>, level: int, n: int, i: nat, draws: seq<RoomDraws>) {
    forall j :: 0 <= j < |rooms| ==> Some(rooms[j]) == RoomAt(level, n, i + j, draws)
  }

  /** The loop of `Dungeon::new` from index i on: one `Room::new` per index
      below n, each with its own draws. None when a room's draws run out. */
  function BuildRooms(level: int, n: int, i: nat, draws: seq<RoomDraws>): (r: Option<seq<Room>>)
    ensures r.Some? ==> |r.value| == Max(n - i, 0)
    decreases Max(n - i, 0)
  {
    if i as int >= n then Some([])
    else
      match RoomAt(level, n, i, draws)
      case None => None
      case Some(room) =>
        match BuildRooms(level, n, i + 1, draws)
        case None => None
        case Some(rest) => Some([room] + rest)
  }

  /** Each built room is the one `Room::new` makes for its index, threat and draws. */
  lemma {:induction false} BuildRoomsInOrder(level: int, n: int, i: nat, draws: seq<RoomDraws>)
    requires BuildRooms(level, n, i, draws).Some?
    ensures BuiltFrom(BuildRooms(level, n, i, draws).value, level, n, i, draws)
    decreases Max(n - i, 0)
  {
    if i < n {
      BuildRoomsInOrder(level, n, i + 1, draws);
      var rest := BuildRooms(level, n, i + 1, draws).value;
      var rooms := BuildRooms(level, n, i, draws).value;
      assert rooms == [RoomAt(level, n, i, draws).value] + rest;
      forall j | 0 <= j < |rooms|
        ensures Some(rooms[j]) == RoomAt(level, n, i + j, draws)
      {
        if j > 0 {
          assert rooms[j] == rest[j - 1];
          assert (i + 1) + (j - 1) == i + j;
        }
      }
    }
  }

  /** `Dungeon::new`: n rooms (none when n <= 0) named "Room 1" onward, the
      cursor on the first, the level stored; room j is `Room::new` of its own
      name, description, threat and draws. */
  function NewDungeon(level: int, n: int, draws: seq<RoomDraws>): (d: Option<Dungeon>)
    ensures d.Some? ==> |d.value.rooms| == Max(n, 0) && d.value.currentRoom == 0 && d.value.level == level
    ensures d.Some? ==> BuiltFrom(d.value.rooms, level, n, 0, draws)
  {
    match BuildRooms(level, n, 0, draws)
    case None => None
    case Some(rooms) =>
      BuildRoomsInOrder(level, n, 0, draws);
      Some(Dungeon(rooms, level, 0))
  }

  /** Room j of a new dungeon is named "Room j+1", has its cursor on its first
      monster, and was built on the threat of its position. */
  lemma NewDungeonRoom(level: int, n: int, draws: seq<RoomDraws>, j: nat)
    requires NewDungeon(level, n, draws).Some? && j < |NewDungeon(level, n, draws).value.rooms|
    ensures j < |draws|
    ensures var room := NewDungeon(level, n, draws).value.rooms[j];
      room.name == RoomName(j) && room.currentMonster == 0
      && Some(room) == NewRoom(RoomName(j), RoomDescription(level, n, j), RoomThreat(level, n, j), draws[j])
  {
    var rooms := NewDungeon(level, n, draws).value.rooms;
    assert Some(rooms[j]) == RoomAt(level, n, 0 + j, draws);
  }

  /** Every room but the last is built on the dungeon's level; the last on one more. */
  lemma LastRoomIsHarder(level: int, n: int, j: int)
    requires 0 <= j < n
    ensures j < n - 1 ==> RoomThreat(level, n, j) == level
    ensures j == n - 1 ==> RoomThreat(level, n, j) == level + 1
  {
  }

  /** `is_there_rooms_left`: false exactly when the cursor is on the last room. */
  function IsThereRoomsLeft(d: Dungeon): (b: bool)
    ensures !b <==> d.currentRoom + 1 == |d.rooms|
  {
    |d.rooms| != d.currentRoom + 1
  }

  /** `next_room`: the cursor moves by one unless it is on the last room.
      The code subtracts 1 from the room count as an unsigned integer, so it
      needs at least one room. */
  function NextRoom(d: Dungeon): (r: Dungeon)
    requires |d.rooms| >= 1
    ensures r.rooms == d.rooms && r.level == d.level
    ensures d.currentRoom < |d.rooms| - 1 ==> r.currentRoom == d.currentRoom + 1
    ensures d.currentRoom >= |d.rooms| - 1 ==> r == d
    ensures Valid(d) ==> Valid(r)
  {
    if |d.rooms| - 1 > d.currentRoom then d.(currentRoom := d.currentRoom + 1) else d
  }

  /** On a valid dungeon, rooms are left exactly when `next_room` would move. */
  lemma RoomsLeftIffNextRoomMoves(d: Dungeon)
    requires Valid(d)
    ensures IsThereRoomsLeft(d) <==> NextRoom(d).currentRoom == d.currentRoom + 1
    ensures !IsThereRoomsLeft(d) <==> NextRoom(d) == d
  {
  }

  /** `get_current_room_immutable`. */
  function CurrentRoom(d: Dungeon): (room: Room)
    requires Valid(d)
    ensures room == d.rooms[d.currentRoom] && room in d.rooms
  {
    d.rooms[d.currentRoom]
  }

  /** Writing through `get_current_room_mutable`: the current room is replaced,
      every other room, the cursor and the level stay. */
  function UpdateCurrentRoom(d: Dungeon, room: Room): (r: Dungeon)
    requires Valid(d)
    ensures Valid(r) && CurrentRoom(r) == room
    ensures r.currentRoom == d.currentRoom && r.level == d.level && |r.rooms| == |d.rooms|
    ensures forall j :: 0 <= j < |d.rooms| && j != d.currentRoom ==> r.rooms[j] == d.rooms[j]
  {
    d.(rooms := d.rooms[d.currentRoom := room])
  }

  /** Reading back what was written changes nothing. */
  lemma UpdateWithCurrentIsIdentity(d: Dungeon)
    requires Valid(d)
    ensures UpdateCurrentRoom(d, CurrentRoom(d)) == d
  {
  }

  function NextRoomTimes(d: Dungeon, k: nat): Dungeon
    requires |d.rooms| >= 1
    decreases k
  {
    if k == 0 then d else NextRoomTimes(NextRoom(d), k - 1)
  }

  /** k calls of `next_room` move the cursor k rooms on, stopping at the last room. */
  lemma {:induction false} WalkRooms(d: Dungeon, k: nat)
    requires Valid(d)
    ensures NextRoomTimes(d, k).rooms == d.rooms
    ensures NextRoomTimes(d, k).currentRoom == Min(d.currentRoom + k, |d.rooms| - 1)
    decreases k
  {
    if k > 0 {
      WalkRooms(NextRoom(d), k - 1);
    }
  }

  /** From the first room, where `Dungeon::new` puts the cursor, one call of
      `next_room` per remaining room reaches the last room, and then no rooms
      are left. */
  lemma WalkFromFirstRoom(d: Dungeon)
    requires |d.rooms| >= 1 && d.currentRoom == 0
    ensures var e := NextRoomTimes(d, |d.rooms| - 1);
      e.currentRoom == |d.rooms| - 1 && !IsThereRoomsLeft(e)
  {
    WalkRooms(d, |d.rooms| - 1);
  }
}
