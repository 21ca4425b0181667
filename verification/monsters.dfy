/** The per-species monsters of `src/monsters/`: each species has its own
    level-scaling constructor; `is_alive`, `attack`, `take_damage` and
    `get_stats` are the same in every species and act on the shared stats. */
module Monsters {
  import opened Arith
  import opened Entity

  /** `Slime::new`. */
  function SlimeNew(level: int): (m: Monster)
    ensures m.name == "Slime" && m.level == level
    ensures m.health == 4 + level && m.attack == level && m.defence == 0 && m.speed == level
    ensures level >= 0 ==> IsAlive(m)
  {
    Monster("Slime", level, 4 + level, level, 0, level)
  }

  /** `Goblin::new`; the defence halves the level, rounding toward zero. */
  function GoblinNew(level: int): (m: Monster)
    ensures m.name == "Goblin" && m.level == level
    ensures m.health == 8 + 2 * level && m.attack == 2 + level && m.speed == 3 + 2 * level
    ensures m.defence == HalfTowardZero(level)
    ensures level >= 0 ==> IsAlive(m) && 0 <= level - 2 * m.defence <= 1
  {
    Monster("Goblin", level, 8 + level * 2, 2 + level, HalfTowardZero(level), 3 + level * 2)
  }

  /** `Ogre::new`; the speed halves the level, rounding toward zero. */
  function OgreNew(level: int): (m: Monster)
    ensures m.name == "Ogre" && m.level == level
    ensures m.health == 15 + 3 * level && m.attack == 3 + 2 * level && m.defence == 1 + level
    ensures m.speed == HalfTowardZero(level)
    ensures level >= 0 ==> IsAlive(m) && 0 <= level - 2 * m.speed <= 1
  {
    Monster("Ogre", level, 15 + level * 3, 3 + level * 2, 1 + level, HalfTowardZero(level))
  }

  /** `take_damage`: health drops by exactly the amount; nothing else changes. */
  function TakeDamage(m: Monster, damage: int): (r: Monster)
    ensures r.(health := m.health) == m
    ensures r.health == m.health - damage
  {
    m.(health := m.health - damage)
  }

  /** `get_stats`: a copy of the stats as they stand. */
  function GetStats(m: Monster): (r: Monster)
    ensures r == m
  {
    m
  }

  /** A monster that takes damage stays alive exactly while the damage is below its health. */
  lemma AliveAfterDamage(m: Monster, damage: int)
    ensures IsAlive(TakeDamage(m, damage)) <==> damage < m.health
    ensures GetStats(TakeDamage(m, damage)).health == GetStats(m).health - damage
  {
  }

  /** A fresh Slime of a non-negative level is alive, strikes with its level
      against the player's defence, and dies once it has taken 4 + level damage. */
  lemma SlimeLifecycle(level: int, target: Player, damage: int)
    requires level >= 0
    ensures IsAlive(SlimeNew(level))
    ensures MonsterAttack(SlimeNew(level), target).health
         == target.health - (if level - target.defence < 0 then 1 else level - target.defence)
    ensures IsAlive(TakeDamage(SlimeNew(level), damage)) <==> damage < 4 + level
    ensures GetStats(TakeDamage(SlimeNew(level), damage)).(health := 4 + level) == SlimeNew(level)
  {
  }

  /** A fresh Goblin of a non-negative level is alive, strikes with 2 + level,
      and dies once it has taken 8 + 2 * level damage. */
  lemma GoblinLifecycle(level: int, target: Player, damage: int)
    requires level >= 0
    ensures IsAlive(GoblinNew(level))
    ensures MonsterAttack(GoblinNew(level), target).health
         == target.health - (if 2 + level - target.defence < 0 then 1 else 2 + level - target.defence)
    ensures IsAlive(TakeDamage(GoblinNew(level), damage)) <==> damage < 8 + 2 * level
    ensures GetStats(TakeDamage(GoblinNew(level), damage)).(health := 8 + 2 * level) == GoblinNew(level)
  {
  }

  /** A fresh Ogre of a non-negative level is alive, strikes with 3 + 2 * level,
      and dies once it has taken 15 + 3 * level damage. */
  lemma OgreLifecycle(level: int, target: Player, damage: int)
    requires level >= 0
    ensures IsAlive(OgreNew(level))
    ensures MonsterAttack(OgreNew(level), target).health
         == target.health - (if 3 + 2 * level - target.defence < 0 then 1 else 3 + 2 * level - target.defence)
    ensures IsAlive(TakeDamage(OgreNew(level), damage)) <==> damage < 15 + 3 * level
    ensures GetStats(TakeDamage(OgreNew(level), damage)).(health := 15 + 3 * level) == OgreNew(level)
  {
  }

  /** Among fresh monsters of the same positive level, the Ogre is the toughest
      and the Slime the frailest. */
  lemma SpeciesToughnessOrder(level: int)
    requires level > 0
    ensures SlimeNew(level).health < GoblinNew(level).health < OgreNew(level).health
    ensures SlimeNew(level).defence <= GoblinNew(level).defence < OgreNew(level).defence
  {
  }
}
