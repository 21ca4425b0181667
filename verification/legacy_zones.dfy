/** The older catalog snapshot of `src/zone/zone.rs`: the same zone shape with
    French texts and a level range of (1, 5). */
module LegacyZones {
  import Z = Zones

  /** `Zone::jungle_data` of the older snapshot. */
  function JungleData(difficulty: Z.ZoneDifficulty): (d: Z.ZoneData)
    ensures d.name == "Jungle Profonde" && d.recommendedLevel == 1
    ensures d.uniqueMonsters == ["Slime", "Goblin", "Ogre"]
    ensures d.bossName == "Araign\U{e9}e G\U{e9}ante"
  {
    match difficulty
    case Normal => Z.ZoneData("Jungle Profonde", "C\U{153}ur dangereux de la jungle", 1,
                              ["Slime", "Goblin", "Ogre"], "Araign\U{e9}e G\U{e9}ante")
  }

  /** `Zone::new` of the older snapshot. */
  function New(zoneType: Z.ZoneType, difficulty: Z.ZoneDifficulty): (z: Z.Zone)
    ensures z.zoneType == zoneType && z.difficulty == difficulty
    ensures Z.ZoneData(z.name, z.description, z.recommendedLevel, z.uniqueMonsters, z.bossName)
         == JungleData(difficulty)
  {
    var d := match zoneType case Jungle => JungleData(difficulty);
    Z.Zone(zoneType, difficulty, d.name, d.description, d.recommendedLevel, d.uniqueMonsters, d.bossName)
  }

  /** `Zone::get_monster_level_range` of the older snapshot. */
  function LevelRange(z: Z.Zone): (r: (int, int))
    ensures 1 <= r.0 <= r.1
    ensures z.difficulty == Z.Normal ==> r == (1, 5)
  {
    match z.difficulty
    case Normal => (1, 5)
  }

  /** `Zone::get_available_zones` of the older snapshot. */
  function AvailableZones(): (zs: seq<Z.Zone>)
    ensures |zs| == 1
    ensures zs[0].zoneType == Z.Jungle && zs[0].difficulty == Z.Normal
    ensures zs[0].name == "Jungle Profonde"
    ensures LevelRange(zs[0]) == (1, 5)
  {
    [New(Z.Jungle, Z.Normal)]
  }

  /** The two snapshots differ only in their texts and in the top of the level range. */
  lemma SnapshotsDiffer(zt: Z.ZoneType, d: Z.ZoneDifficulty)
    ensures New(zt, d).uniqueMonsters == Z.New(zt, d).uniqueMonsters
    ensures New(zt, d).recommendedLevel == Z.New(zt, d).recommendedLevel
    ensures LevelRange(New(zt, d)).0 == Z.LevelRange(Z.New(zt, d)).0
    ensures LevelRange(New(zt, d)).1 == Z.LevelRange(Z.New(zt, d)).1 + 1
  {
  }
}
