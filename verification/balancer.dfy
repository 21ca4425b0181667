/** The monster balancer of `src/monsters/balancer.rs`: which species a room
    may hold, at what level, and how many survive the name-to-species lookup. */
module Balancer {
  import opened Wrappers
  import opened Arith
  import opened Entity
  import opened Monsters
  import opened RoomTypes
  import Zones

  datatype RoomData = RoomData(zone: Zones.Zone, roomType: RoomType, roomNumber: int)

  /** The generic species every zone may field. */
  const BasePool: seq<string> := ["Slime", "Goblin", "Ogre"]

  /** `get_monster_pool`: the generic species followed by the zone's own, except
      that room 1 fields only Slimes and room 2 (the half-open range `2..3`)
      Slimes and Goblins. */
  function MonsterPool(rd: RoomData): (pool: seq<string>)
    ensures |pool| >= 1
    ensures rd.roomNumber == 1 ==> pool == ["Slime"]
    ensures rd.roomNumber == 2 ==> pool == ["Slime", "Goblin"]
    ensures rd.roomNumber != 1 && rd.roomNumber != 2 ==> pool == BasePool + rd.zone.uniqueMonsters
    ensures BasePool[0] in pool
  {
    var pool := BasePool + rd.zone.uniqueMonsters;
    if rd.roomNumber == 1 then ["Slime"]
    else if 2 <= rd.roomNumber < 3 then ["Slime", "Goblin"]
    else pool
  }

  /** Room 3 keeps the full pool: the override for room 2 does not reach it. */
  lemma RoomThreeNotOverridden(zone: Zones.Zone, t: RoomType)
    ensures MonsterPool(RoomData(zone, t, 3))[..3] == BasePool
    ensures |MonsterPool(RoomData(zone, t, 3))| == 3 + |zone.uniqueMonsters|
  {
  }

  function RoomBonus(t: RoomType): int {
    match t
    case Entrance => -1
    case Normal => 0
    case Elite => 2
    case Treasure => 1
    case Boss => 5
  }

  /** The midpoint of a level range, shifted by a bonus and clamped into the range. */
  function ClampedLevel(lo: int, hi: int, bonus: int): (level: int)
    requires lo <= hi
    ensures lo <= level <= hi
  {
    Clamp(Midpoint(lo, hi) + bonus, lo, hi)
  }

  /** A larger bonus never gives a lower level. */
  lemma LevelMonotoneInBonus(lo: int, hi: int, b1: int, b2: int)
    requires lo <= hi && b1 <= b2
    ensures ClampedLevel(lo, hi, b1) <= ClampedLevel(lo, hi, b2)
  {
  }

  /** `calculate_monster_level`: the zone's midpoint level plus the room's bonus,
      kept inside the zone's range. */
  function MonsterLevel(rd: RoomData): (level: int)
    ensures Zones.LevelRange(rd.zone).0 <= level <= Zones.LevelRange(rd.zone).1
  {
    var (lo, hi) := Zones.LevelRange(rd.zone);
    ClampedLevel(lo, hi, RoomBonus(rd.roomType))
  }

  /** For the (1, 4) range: Entrance 1, Normal 2, Treasure 3, Elite and Boss 4. */
  lemma JungleLevels(zone: Zones.Zone, n: int)
    requires zone.difficulty == Zones.Normal
    ensures MonsterLevel(RoomData(zone, Entrance, n)) == 1
    ensures MonsterLevel(RoomData(zone, Normal, n)) == 2
    ensures MonsterLevel(RoomData(zone, Treasure, n)) == 3
    ensures MonsterLevel(RoomData(zone, Elite, n)) == 4
    ensures MonsterLevel(RoomData(zone, Boss, n)) == 4
  {
  }

  /** The species lookup the balancer calls (`create_monster`, whose body is not
      part of this model): the three known names build their species, any other name gives None. */
  function CreateMonster(name: string, level: int): (r: Option<Monster>)
    ensures r.Some? <==> name in BasePool
    ensures r.Some? ==> r.value.name == name && r.value.level == level
  {
    if name == "Slime" then Some(SlimeNew(level))
    else if name == "Goblin" then Some(GoblinNew(level))
    else if name == "Ogre" then Some(OgreNew(level))
    else None
  }

  /** `generate_monster_for_room`: one species drawn from the pool, built at
      the room's level; None when the name is not a known species. */
  function GenerateMonsterForRoom(rd: RoomData, draw: nat): (r: Option<Monster>)
    ensures r.Some? <==> MonsterPool(rd)[draw % |MonsterPool(rd)|] in BasePool
    ensures r.Some? ==> r.value.name in MonsterPool(rd) && r.value.level == MonsterLevel(rd)
  {
    var pool := MonsterPool(rd);
    CreateMonster(pool[draw % |pool|], MonsterLevel(rd))
  }

  /** Every species in the pool can be drawn. */
  lemma EverySpeciesDrawable(rd: RoomData, k: nat)
    requires k < |MonsterPool(rd)| && MonsterPool(rd)[k] in BasePool
    ensures GenerateMonsterForRoom(rd, k).Some?
    ensures GenerateMonsterForRoom(rd, k).value.name == MonsterPool(rd)[k]
  {
    assert k % |MonsterPool(rd)| == k;
  }

  /** Reference definition of `generate_monsters_for_room`: one attempt per draw,
      failed lookups dropped, the order of the draws kept. */
  function Survivors(rd: RoomData, draws: seq<nat>): (ms: seq<Monster>)
    ensures |ms| <= |draws|
    ensures forall i :: 0 <= i < |ms| ==> ms[i].name in MonsterPool(rd) && ms[i].level == MonsterLevel(rd)
  {
    if |draws| == 0 then []
    else
      var init := Survivors(rd, draws[..|draws| - 1]);
      match GenerateMonsterForRoom(rd, draws[|draws| - 1])
      case Some(m) => init + [m]
      case None => init
  }

  /** `MonsterBalancer::generate_monsters_for_room`: one attempt per slot,
      so at most `roomSize` monsters, all from the pool and all at one level. */
  method GenerateMonstersForRoom(rd: RoomData, roomSize: nat, draws: seq<nat>) returns (monsters: seq<Monster>)
    requires |draws| >= roomSize
    ensures monsters == Survivors(rd, draws[..roomSize])
    ensures |monsters| <= roomSize
    ensures forall i :: 0 <= i < |monsters| ==>
      monsters[i].name in MonsterPool(rd) && monsters[i].level == MonsterLevel(rd)
  {
    monsters := [];
    var i := 0;
    while i < roomSize
      invariant 0 <= i <= roomSize
      invariant monsters == Survivors(rd, draws[..i])
    {
      SurvivorsStep(rd, draws, i);
      var m := GenerateMonsterForRoom(rd, draws[i]);
      if m.Some? {
        monsters := monsters + [m.value];
      }
      i := i + 1;
    }
  }

  /** One more draw adds its monster to the survivors, or nothing when the
      lookup fails. */
  lemma SurvivorsStep(rd: RoomData, draws: seq<nat>, i: nat)
    requires i < |draws|
    ensures var m := GenerateMonsterForRoom(rd, draws[i]);
      Survivors(rd, draws[..i + 1]) == Survivors(rd, draws[..i]) + (if m.Some? then [m.value] else [])
  {
    assert draws[..i + 1][..i] == draws[..i];
    assert draws[..i + 1][i] == draws[i];
  }

  /** When every name of the zone's own list is a known species, no slot is
      dropped: the balancer returns exactly one monster per draw. */
  lemma {:induction false} KnownPoolFillsEverySlot(rd: RoomData, draws: seq<nat>)
    requires forall j :: 0 <= j < |rd.zone.uniqueMonsters| ==> rd.zone.uniqueMonsters[j] in BasePool
    ensures |Survivors(rd, draws)| == |draws|
    decreases |draws|
  {
    if |draws| > 0 {
      KnownPoolFillsEverySlot(rd, draws[..|draws| - 1]);
      var pool := MonsterPool(rd);
      var k := draws[|draws| - 1] % |pool|;
      assert pool[k] in BasePool by {
        if rd.roomNumber != 1 && rd.roomNumber != 2 {
          if k < 3 {
            assert pool[k] == BasePool[k];
          } else {
            assert pool[k] == rd.zone.uniqueMonsters[k - 3];
          }
        }
      }
      assert GenerateMonsterForRoom(rd, draws[|draws| - 1]).Some?;
    }
  }

  /** All monsters of one room share the same level. */
  lemma OneLevelPerRoom(rd: RoomData, draws: seq<nat>, i: int, j: int)
    requires 0 <= i < |Survivors(rd, draws)| && 0 <= j < |Survivors(rd, draws)|
    ensures Survivors(rd, draws)[i].level == Survivors(rd, draws)[j].level
  {
  }
}
