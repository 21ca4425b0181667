/** Players, weapons and the enum-dispatched monsters of `src/entity.rs`, with the
    two damage rules: the player's damage floors at 0, a monster's negative damage
    becomes 1. */
module Entity {
  import opened Wrappers
  import opened Arith
  import opened Text

  datatype WeaponType = Sword | Dagger | Axe

  datatype Rarity = Common | Rare | Epic | Legendary | Mythical

  datatype Weapon = Weapon(name: string, weaponType: WeaponType, attackValue: int, rarity: Rarity)

  /** The player. The code spells the defence stat both `defense` and `defence`;
      one field serves both spellings. */
  datatype Player = Player(
    name: string,
    health: int,
    attack: int,
    defence: int,
    speed: int,
    weapon: Option<Weapon>)

  datatype MonsterType = Slime | Goblin | Ogre

  /** A monster's stats. The struct of `entity.rs` and the per-species
      `MonsterStats` carry exactly these fields. */
  datatype Monster = Monster(
    name: string,
    level: int,
    health: int,
    attack: int,
    defence: int,
    speed: int)

  function TypeName(t: WeaponType): string {
    match t
    case Sword => "Sword"
    case Dagger => "Dagger"
    case Axe => "Axe"
  }

  /** The quality prefixes, in the order a draw indexes them. */
  const Prefixes: seq<string> := ["Broken", "Rusty", "", "Sharp"]

  function BaseAttack(t: WeaponType): int {
    match t
    case Sword => 10
    case Dagger => 5
    case Axe => 15
  }

  /** Broken halves (rounding toward zero), Rusty takes 2, Sharp adds 2. */
  function ApplyPrefix(prefix: string, value: int): int {
    if prefix == "Broken" then HalfTowardZero(value)
    else if prefix == "Rusty" then value - 2
    else if prefix == "Sharp" then value + 2
    else value
  }

  /** `Weapon::new` as written: the prefix is drawn, but the name always uses
      the word "Sword", whatever weapon type is asked for. */
  function NewWeapon(weaponType: WeaponType, draw: nat): (w: Weapon)
    ensures w.weaponType == weaponType && w.rarity == Common
    ensures EndsWith(w.name, " Sword")
    ensures w.name[..|w.name| - 6] == Prefixes[draw % 4]
    ensures BaseAttack(weaponType) / 2 <= w.attackValue <= BaseAttack(weaponType) + 2
    ensures w.attackValue == BaseAttack(weaponType) <==> Prefixes[draw % 4] == ""
    ensures draw % 4 == 0 ==> w.attackValue == BaseAttack(weaponType) / 2
    ensures draw % 4 == 1 ==> w.attackValue == BaseAttack(weaponType) - 2
    ensures draw % 4 == 3 ==> w.attackValue == BaseAttack(weaponType) + 2
  {
    var prefix := Prefixes[draw % 4];
    Weapon(prefix + " Sword", weaponType, ApplyPrefix(prefix, BaseAttack(weaponType)), Common)
  }

  /** Each of the four prefixes can be drawn, and draw k names the weapon
      with prefix k. */
  lemma EveryPrefixDrawable(t: WeaponType, k: nat)
    requires k < 4
    ensures NewWeapon(t, k).name == Prefixes[k] + " Sword"
    ensures NewTypedWeapon(t, k).name == Prefixes[k] + " " + TypeName(t)
  {
  }

  /** `Weapon::new` with the name built from the weapon type that was asked for. */
  function NewTypedWeapon(weaponType: WeaponType, draw: nat): (w: Weapon)
    ensures EndsWith(w.name, " " + TypeName(weaponType))
    ensures w.name[..|w.name| - |TypeName(weaponType)| - 1] == Prefixes[draw % 4]
    ensures w.(name := NewWeapon(weaponType, draw).name) == NewWeapon(weaponType, draw)
  {
    var prefix := Prefixes[draw % 4];
    Weapon(prefix + " " + TypeName(weaponType), weaponType,
           ApplyPrefix(prefix, BaseAttack(weaponType)), Common)
  }

  /** Asking for a Dagger yields a weapon whose name says "Sword". */
  lemma DaggerNamedSword()
    ensures NewWeapon(Dagger, 0).name == "Broken Sword"
    ensures NewWeapon(Dagger, 0).weaponType == Dagger
    ensures NewTypedWeapon(Dagger, 0).name == "Broken Dagger"
  {
  }

  /** For a Sword, the only type the game ever creates, both constructors agree. */
  lemma TypedWeaponAgreesOnSword(draw: nat)
    ensures NewTypedWeapon(Sword, draw) == NewWeapon(Sword, draw)
  {
  }

  /** The prefixes are ordered by quality: each later draw index gives a
      strictly stronger weapon of the same type. */
  lemma PrefixOrdering(t: WeaponType)
    ensures NewWeapon(t, 0).attackValue < NewWeapon(t, 1).attackValue
    ensures NewWeapon(t, 1).attackValue < NewWeapon(t, 2).attackValue
    ensures NewWeapon(t, 2).attackValue < NewWeapon(t, 3).attackValue
  {
  }

  /** `Weapon::empty`: a nameless Sword worth nothing. */
  function EmptyWeapon(): (w: Weapon)
    ensures w.name == "" && w.weaponType == Sword && w.attackValue == 0 && w.rarity == Common
  {
    Weapon("", Sword, 0, Common)
  }

  /** `Player::new`. */
  function NewPlayer(name: string): (p: Player)
    ensures p.name == name && p.health == 100 && p.attack == 10
    ensures p.defence == 5 && p.speed == 5 && p.weapon == None
    ensures !IsDead(p)
  {
    Player(name, 100, 10, 5, 5, None)
  }

  predicate IsDead(p: Player) {
    p.health <= 0
  }

  predicate IsAlive(m: Monster) {
    m.health > 0
  }

  /** A monster's blow kills the player exactly when its damage reaches the
      player's remaining health. */
  lemma PlayerDiesIffDamageReachesHealth(m: Monster, p: Player)
    ensures IsDead(MonsterAttack(m, p)) <==> MonsterDamage(m, p.defence) >= p.health
    ensures !IsDead(p) && MonsterDamage(m, p.defence) == 0 ==> !IsDead(MonsterAttack(m, p))
  {
  }

  /** The player's blow kills a monster exactly when its damage reaches the
      monster's remaining health. */
  lemma MonsterDiesIffDamageReachesHealth(p: Player, m: Monster)
    ensures !IsAlive(PlayerAttack(p, m)) <==> PlayerDamage(p, m.defence) >= m.health
    ensures IsAlive(m) && PlayerDamage(p, m.defence) == 0 ==> IsAlive(PlayerAttack(p, m))
  {
  }

  /** `Player::equip`. */
  function Equip(p: Player, w: Weapon): (q: Player)
    ensures q.weapon == Some(w)
    ensures q.(weapon := p.weapon) == p
  {
    p.(weapon := Some(w))
  }

  function WeaponBonus(p: Player): int {
    match p.weapon
    case Some(w) => w.attackValue
    case None => 0
  }

  /** The damage the player deals to a target of the given defence:
      attack plus weapon bonus minus defence, floored at 0. */
  function PlayerDamage(p: Player, targetDefence: int): (d: int)
    ensures d >= 0
    ensures d >= p.attack + WeaponBonus(p) - targetDefence
    ensures d == 0 || d == p.attack + WeaponBonus(p) - targetDefence
  {
    var raw := p.attack + WeaponBonus(p) - targetDefence;
    if raw < 0 then 0 else raw
  }

  /** `Player::attack`: only the target's health changes, by exactly the damage. */
  function PlayerAttack(p: Player, target: Monster): (t: Monster)
    ensures t.(health := target.health) == target
    ensures t.health == target.health - PlayerDamage(p, target.defence)
    ensures t.health <= target.health
  {
    target.(health := target.health - PlayerDamage(p, target.defence))
  }

  /** The damage a monster deals to a target of the given defence: attack minus
      defence, except that a negative difference becomes 1. A difference of
      exactly 0 stays 0. */
  function MonsterDamage(m: Monster, targetDefence: int): (d: int)
    ensures d >= 0
    ensures d == 0 <==> m.attack == targetDefence
    ensures m.attack >= targetDefence ==> d == m.attack - targetDefence
    ensures m.attack < targetDefence ==> d == 1
  {
    var raw := m.attack - targetDefence;
    if raw < 0 then 1 else raw
  }

  /** `Monster::attack` (and the identical `attack` of every species):
      only the player's health changes, by exactly the damage. */
  function MonsterAttack(m: Monster, target: Player): (p: Player)
    ensures p.(health := target.health) == target
    ensures p.health == target.health - MonsterDamage(m, target.defence)
    ensures p.health <= target.health
  {
    target.(health := target.health - MonsterDamage(m, target.defence))
  }

  /** Equipping the empty weapon leaves the player's damage as it was unarmed. */
  lemma EmptyWeaponAddsNothing(p: Player, targetDefence: int)
    ensures PlayerDamage(Equip(p, EmptyWeapon()), targetDefence)
         == PlayerDamage(p.(weapon := None), targetDefence)
  {
  }

  /** The two floor rules agree except on a negative difference, where the
      player deals 0 and a monster with the same attack deals 1. */
  lemma FloorRulesDifferOnlyWhenNegative(p: Player, m: Monster, targetDefence: int)
    requires p.weapon == None && p.attack == m.attack
    ensures m.attack >= targetDefence ==> MonsterDamage(m, targetDefence) == PlayerDamage(p, targetDefence)
    ensures m.attack < targetDefence ==>
      MonsterDamage(m, targetDefence) == 1 && PlayerDamage(p, targetDefence) == 0
  {
  }

  function SpeciesName(t: MonsterType): string {
    match t
    case Slime => "Slime"
    case Goblin => "Goblin"
    case Ogre => "Ogre"
  }

  /** `Monster::new`: every stat is the level times a per-species factor. */
  function NewMonster(t: MonsterType, level: int): (m: Monster)
    ensures m.name == SpeciesName(t) && m.level == level
    ensures t == Slime ==>
      m.health == 10 * level && m.attack == 2 * level && m.defence == level && m.speed == level
    ensures t == Goblin ==>
      m.health == 20 * level && m.attack == 3 * level && m.defence == level && m.speed == 5 * level
    ensures t == Ogre ==>
      m.health == 30 * level && m.attack == 4 * level && m.defence == 2 * level && m.speed == level
    ensures level > 0 ==> IsAlive(m)
  {
    match t
    case Slime => Monster("Slime", level, level * 10, level * 2, level, level)
    case Goblin => Monster("Goblin", level, level * 20, level * 3, level, level * 5)
    case Ogre => Monster("Ogre", level, level * 30, level * 4, level * 2, level)
  }

  /** Scaling is linear: a level-L monster has L times each stat of its level-1 self. */
  lemma MonsterScalesLinearly(t: MonsterType, level: int)
    ensures NewMonster(t, level).health == level * NewMonster(t, 1).health
    ensures NewMonster(t, level).attack == level * NewMonster(t, 1).attack
    ensures NewMonster(t, level).defence == level * NewMonster(t, 1).defence
    ensures NewMonster(t, level).speed == level * NewMonster(t, 1).speed
  {
  }

  /** The threat value of a monster, read back from its species name:
      Slime 1, Goblin 2, Ogre 3, anything else 0. */
  function ThreatOf(m: Monster): int {
    if m.name == "Slime" then 1
    else if m.name == "Goblin" then 2
    else if m.name == "Ogre" then 3
    else 0
  }

  /** `Monster::monster_based_on_threat`: threats 1, 2 and 3 give a level-1 Slime,
      Goblin and Ogre; every other threat is an error. */
  function MonsterBasedOnThreat(threat: int): (r: Result<Monster, string>)
    ensures r.Success? <==> 1 <= threat <= 3
    ensures r.Failure? ==> r.error == "Monster not found"
    ensures r.Success? ==> r.value.level == 1 && IsAlive(r.value) && ThreatOf(r.value) == threat
    ensures threat == 1 ==> r == Success(NewMonster(Slime, 1))
    ensures threat == 2 ==> r == Success(NewMonster(Goblin, 1))
    ensures threat == 3 ==> r == Success(NewMonster(Ogre, 1))
  {
    if threat == 1 then Success(NewMonster(Slime, 1))
    else if threat == 2 then Success(NewMonster(Goblin, 1))
    else if threat == 3 then Success(NewMonster(Ogre, 1))
    else Failure("Monster not found")
  }

  /** Worked examples: a bare-handed attack of 1 against defence 0 deals 1;
      a monster attack of 2 against defence 5 deals the floor value 1. */
  lemma DamageExamples(p: Player, m: Monster)
    requires p.attack == 1 && p.weapon == None && m.attack == 2
    ensures PlayerDamage(p, 0) == 1
    ensures MonsterDamage(m, 5) == 1
    ensures MonsterDamage(m, 2) == 0
  {
  }
}
