/** The zone catalog of `src/zones/zone.rs`: read-only descriptors of the
    playable areas, and the monster-level range each difficulty allows. */
module Zones {

  datatype ZoneType = Jungle

  datatype ZoneDifficulty = Normal

  datatype Zone = Zone(
    zoneType: ZoneType,
    difficulty: ZoneDifficulty,
    name: string,
    description: string,
    recommendedLevel: int,
    uniqueMonsters: seq<string>,
    bossName: string)

  /** The descriptive part of a zone, before it is paired with its type and difficulty. */
  datatype ZoneData = ZoneData(
    name: string,
    description: string,
    recommendedLevel: int,
    uniqueMonsters: seq<string>,
    bossName: string)

  /** `Zone::jungle_data`. */
  function JungleData(difficulty: ZoneDifficulty): (d: ZoneData)
    ensures d.name == "Jungle" && d.recommendedLevel == 1
    ensures d.uniqueMonsters == ["Slime", "Goblin", "Ogre"]
    ensures d.bossName == "Giant Spider"
  {
    match difficulty
    case Normal => ZoneData("Jungle", "Dangerous heart of the jungle", 1,
                            ["Slime", "Goblin", "Ogre"], "Giant Spider")
  }

  /** `Zone::new`: type and difficulty are kept as given, the rest comes from the catalog. */
  function New(zoneType: ZoneType, difficulty: ZoneDifficulty): (z: Zone)
    ensures z.zoneType == zoneType && z.difficulty == difficulty
    ensures ZoneData(z.name, z.description, z.recommendedLevel, z.uniqueMonsters, z.bossName)
         == JungleData(difficulty)
  {
    var d := match zoneType case Jungle => JungleData(difficulty);
    Zone(zoneType, difficulty, d.name, d.description, d.recommendedLevel, d.uniqueMonsters, d.bossName)
  }

  /** `Zone::get_monster_level_range`: an inclusive (min, max) pair. */
  function LevelRange(z: Zone): (r: (int, int))
    ensures 1 <= r.0 <= r.1
    ensures z.difficulty == Normal ==> r == (1, 4)
  {
    match z.difficulty
    case Normal => (1, 4)
  }

  /** `Zone::get_available_zones`: the single Jungle zone at Normal difficulty. */
  function AvailableZones(): (zs: seq<Zone>)
    ensures |zs| == 1
    ensures zs[0].zoneType == Jungle && zs[0].difficulty == Normal
    ensures zs[0].name == "Jungle" && zs[0].bossName == "Giant Spider"
    ensures zs[0].uniqueMonsters == ["Slime", "Goblin", "Ogre"]
    ensures LevelRange(zs[0]) == (1, 4)
  {
    [New(Jungle, Normal)]
  }
}
