/** The room generator of `src/zone/generator.rs`: a room's archetype from its
    number and a roll, its size from the archetype, and its monsters from the
    balancer. */
module Generator {
  import opened RoomTypes
  import opened Entity
  import Zones
  import Balancer

  /** `determine_room_type`. Room 10 is the boss room whatever the roll; any
      other multiple of 5 is a treasure room on a roll below 0.3; otherwise the
      room number picks a tier of roll thresholds. */
  function DetermineRoomType(roomNumber: int, roll: real): (t: RoomType)
    requires 0.0 <= roll < 1.0
    ensures t == Boss <==> roomNumber == 10
    ensures t == Entrance <==> roomNumber == 1
    ensures roomNumber != 10 && roomNumber % 5 == 0 && roll < 0.3 ==> t == Treasure
    ensures 2 <= roomNumber <= 4 ==> (t == Normal <==> roll < 0.8) && (t == Elite <==> 0.8 <= roll)
    ensures 5 <= roomNumber <= 9 && !(roomNumber == 5 && roll < 0.3) ==>
      (t == Normal <==> roll < 0.7) && (t == Elite <==> 0.7 <= roll < 0.9) && (t == Treasure <==> 0.9 <= roll)
    ensures (roomNumber <= 0 || roomNumber >= 11) && !(roomNumber % 5 == 0 && roll < 0.3) ==>
      (t == Normal <==> roll < 0.6) && (t == Elite <==> 0.6 <= roll < 0.85) && (t == Treasure <==> 0.85 <= roll)
  {
    if roomNumber == 10 then Boss
    else if roomNumber % 5 == 0 && roll < 0.3 then Treasure
    else if roomNumber == 1 then Entrance
    else if 2 <= roomNumber <= 4 then (if roll < 0.8 then Normal else Elite)
    else if 5 <= roomNumber <= 9 then (if roll < 0.7 then Normal else if roll < 0.9 then Elite else Treasure)
    else if roll < 0.6 then Normal
    else if roll < 0.85 then Elite
    else Treasure
  }

  /** The first rooms after the entrance are never treasure rooms, and a
      treasure room is never the boss room. */
  lemma EarlyRoomsNeverTreasure(roomNumber: int, roll: real)
    requires 0.0 <= roll < 1.0 && 1 <= roomNumber <= 4
    ensures DetermineRoomType(roomNumber, roll) != Treasure
    ensures DetermineRoomType(roomNumber, roll) != Boss
  {
  }

  function SizeRange(t: RoomType): (int, int) {
    match t
    case Entrance => (1, 2)
    case Normal => (2, 4)
    case Elite => (1, 3)
    case Treasure => (1, 1)
    case Boss => (1, 1)
  }

  /** `determine_room_size`: a uniform draw over the archetype's inclusive range. */
  function DetermineRoomSize(t: RoomType, draw: nat): (size: nat)
    ensures 1 <= size <= 4
    ensures t == Entrance ==> 1 <= size <= 2
    ensures t == Normal ==> 2 <= size <= 4
    ensures t == Elite ==> 1 <= size <= 3
    ensures t == Treasure || t == Boss ==> size == 1
  {
    var (lo, hi) := SizeRange(t);
    lo + draw % (hi - lo + 1)
  }

  /** Every size of the archetype's range can be drawn. */
  lemma EverySizeDrawable(t: RoomType, k: int)
    requires SizeRange(t).0 <= k <= SizeRange(t).1
    ensures DetermineRoomSize(t, (k - SizeRange(t).0) as nat) == k
  {
  }

  /** The most monsters a generated room can hold. */
  const MaxRoomSize: nat := 4

  /** A room as the generator hands it on: the four-argument `Room::new` the
      generator calls is not part of this model, so its inputs are kept as they are. */
  datatype GeneratedRoom = GeneratedRoom(
    roomNumber: int,
    zone: Zones.Zone,
    roomType: RoomType,
    monsters: seq<Monster>)

  /** `generate_room`: archetype, then size, then one balancer attempt per slot,
      with the same zone, archetype and number passed on to the balancer. */
  function GenerateRoom(zone: Zones.Zone, roomNumber: int, roll: real, sizeDraw: nat, slotDraws: seq<nat>): (r: GeneratedRoom)
    requires 0.0 <= roll < 1.0
    requires |slotDraws| >= MaxRoomSize
    ensures r.roomNumber == roomNumber && r.zone == zone
    ensures r.roomType == DetermineRoomType(roomNumber, roll)
    ensures |r.monsters| <= DetermineRoomSize(r.roomType, sizeDraw) <= MaxRoomSize
    ensures forall i :: 0 <= i < |r.monsters| ==>
      r.monsters[i].level == Balancer.MonsterLevel(Balancer.RoomData(zone, r.roomType, roomNumber))
      && r.monsters[i].name in Balancer.MonsterPool(Balancer.RoomData(zone, r.roomType, roomNumber))
    ensures r.monsters == Balancer.Survivors(Balancer.RoomData(zone, r.roomType, roomNumber),
                                             slotDraws[..DetermineRoomSize(r.roomType, sizeDraw)])
    ensures (forall j :: 0 <= j < |zone.uniqueMonsters| ==> zone.uniqueMonsters[j] in Balancer.BasePool) ==>
      |r.monsters| == DetermineRoomSize(r.roomType, sizeDraw)
  {
    var roomType := DetermineRoomType(roomNumber, roll);
    var roomSize := DetermineRoomSize(roomType, sizeDraw);
    var data := Balancer.RoomData(zone, roomType, roomNumber);
    assert (forall j :: 0 <= j < |zone.uniqueMonsters| ==> zone.uniqueMonsters[j] in Balancer.BasePool) ==>
      |Balancer.Survivors(data, slotDraws[..roomSize])| == roomSize
    by {
      if forall j :: 0 <= j < |zone.uniqueMonsters| ==> zone.uniqueMonsters[j] in Balancer.BasePool {
        Balancer.KnownPoolFillsEverySlot(data, slotDraws[..roomSize]);
      }
    }
    GeneratedRoom(roomNumber, zone, roomType, Balancer.Survivors(data, slotDraws[..roomSize]))
  }

  /** Only the first `size` slot draws are read: two draw lists that agree up
      to the drawn room size give the same room, whatever follows. */
  lemma SlotsPastSizeIgnored(zone: Zones.Zone, n: int, roll: real, sizeDraw: nat, slotDraws: seq<nat>, again: seq<nat>)
    requires 0.0 <= roll < 1.0 && |slotDraws| >= MaxRoomSize && |again| >= MaxRoomSize
    requires var size := DetermineRoomSize(DetermineRoomType(n, roll), sizeDraw);
      slotDraws[..size] == again[..size]
    ensures GenerateRoom(zone, n, roll, sizeDraw, slotDraws) == GenerateRoom(zone, n, roll, sizeDraw, again)
  {
  }

  /** In the first room of a zone that fields only known species, the
      balancer fills every slot with a Slime of the zone's lowest level. */
  lemma FirstRoomSlots(zone: Zones.Zone, draws: seq<nat>)
    requires zone.difficulty == Zones.Normal && zone.uniqueMonsters == Balancer.BasePool
    ensures var ms := Balancer.Survivors(Balancer.RoomData(zone, Entrance, 1), draws);
      |ms| == |draws| && forall i :: 0 <= i < |ms| ==> ms[i].name == "Slime" && ms[i].level == 1
  {
    var data := Balancer.RoomData(zone, Entrance, 1);
    Balancer.KnownPoolFillsEverySlot(data, draws);
    assert Balancer.MonsterPool(data) == ["Slime"];
    Balancer.JungleLevels(zone, 1);
  }

  /** The first room of the Jungle is an entrance holding one or two level-1 Slimes. */
  lemma FirstJungleRoom(roll: real, sizeDraw: nat, slotDraws: seq<nat>)
    requires 0.0 <= roll < 1.0 && |slotDraws| >= MaxRoomSize
    ensures var r := GenerateRoom(Zones.AvailableZones()[0], 1, roll, sizeDraw, slotDraws);
      r.roomType == Entrance
      && 1 <= |r.monsters| <= 2
      && forall i :: 0 <= i < |r.monsters| ==> r.monsters[i].name == "Slime" && r.monsters[i].level == 1
  {
    var zone := Zones.AvailableZones()[0];
    assert zone.uniqueMonsters == Balancer.BasePool;
    FirstRoomSlots(zone, slotDraws[..DetermineRoomSize(Entrance, sizeDraw)]);
  }
}
