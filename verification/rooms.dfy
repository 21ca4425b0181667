/** Rooms and treasures of `src/room.rs`: the threat-budget constructor that
    buys monsters costing 1, 2 or 3 until the budget is spent, its difficulty
    classification, and the current-monster cursor. */
module Rooms {
  import opened Wrappers
  import opened Entity

  datatype Difficulty = Easy | Medium | Hard

  datatype HealthPotion = HealthPotion(healAmount: int)

  datatype Treasure = Treasure(weapon: Option<Weapon>, gold: Option<nat>, healthPotion: Option<HealthPotion>)

  datatype Room = Room(
    name: string,
    description: string,
    difficulty: Difficulty,
    monsters: seq<Monster>,
    treasures: seq<Treasure>,
    currentMonster: nat)

  /** The random draws one call of `Room::new` consumes: one per pass of the
      threat loop, then the weapon prefix and the gold amount. */
  datatype RoomDraws = RoomDraws(threatDraws: seq<nat>, weaponDraw: nat, goldDraw: nat)

  /** What the threat loop leaves behind: the monsters bought and the budget left. */
  datatype Spawned = Spawned(monsters: seq<Monster>, remaining: int)

  predicate HasLoot(t: Treasure) {
    t.weapon.Some? || t.gold.Some? || t.healthPotion.Some?
  }

  /** Reference count of the treasures that hold anything. */
  function CountLoot(ts: seq<Treasure>): (n: nat)
    ensures n <= |ts|
    ensures n == 0 <==> forall i :: 0 <= i < |ts| ==> !HasLoot(ts[i])
  {
    if |ts| == 0 then 0
    else
      var init := ts[..|ts| - 1];
      assert forall i :: 0 <= i < |init| ==> init[i] == ts[i];
      CountLoot(init) + (if HasLoot(ts[|ts| - 1]) then 1 else 0)
  }

  /** `TreasureUtils::treasure_len`: the number of treasures holding a weapon,
      gold or a potion. */
  method TreasureLen(ts: seq<Treasure>) returns (res: nat)
    ensures res == CountLoot(ts)
    ensures res <= |ts|
  {
    res := 0;
    var i := 0;
    while i < |ts|
      invariant 0 <= i <= |ts|
      invariant res == CountLoot(ts[..i])
    {
      assert ts[..i + 1][..i] == ts[..i];
      if ts[i].weapon.Some? || ts[i].gold.Some? || ts[i].healthPotion.Some? {
        res := res + 1;
      }
      i := i + 1;
    }
    assert ts[..|ts|] == ts;
  }

  /** The number of values `random_range(1..hi)` can return in the threat loop:
      hi is the budget when it exceeds 3, otherwise the budget plus 2. */
  function ThreatSpan(remaining: int): int
    requires remaining > 0
  {
    if remaining > 3 then remaining - 1 else remaining + 1
  }

  /** One threat draw: a value in [1, budget - 1] above a budget of 3,
      in [1, budget + 1] otherwise. */
  function ThreatDraw(remaining: int, raw: nat): (num: int)
    requires remaining > 0
    ensures 1 <= num
    ensures remaining > 3 ==> num <= remaining - 1
    ensures remaining <= 3 ==> num <= remaining + 1
  {
    1 + raw % ThreatSpan(remaining)
  }

  /** Every value of the drawn range is reachable by some raw draw. */
  lemma ThreatDrawCoversRange(remaining: int, k: int)
    requires remaining > 0 && 1 <= k <= ThreatSpan(remaining)
    ensures ThreatDraw(remaining, (k - 1) as nat) == k
  {
  }

  /** The summed threat of a list of monsters. */
  function TotalThreat(ms: seq<Monster>): int {
    if |ms| == 0 then 0 else ThreatOf(ms[0]) + TotalThreat(ms[1..])
  }

  lemma TotalThreatPrepend(m: Monster, ms: seq<Monster>)
    ensures TotalThreat([m] + ms) == ThreatOf(m) + TotalThreat(ms)
  {
    assert ([m] + ms)[1..] == ms;
  }

  /** The threat loop of `Room::new`, draw by draw. A draw outside 1..3 is
      rejected and leaves the budget alone; an accepted one buys a monster and
      lowers the budget by its threat. None means the draws ran out while
      budget remained (the code would keep drawing). */
  function SpendThreat(remaining: int, draws: seq<nat>): (r: Option<Spawned>)
    ensures r.Some? && remaining <= 0 ==> r.value == Spawned([], remaining)
    ensures r.Some? ==> r.value.remaining <= 0
    ensures r.Some? && remaining >= 1 ==> r.value.remaining >= -1
    ensures r.Some? ==> TotalThreat(r.value.monsters) == remaining - r.value.remaining
    ensures r.Some? ==> forall i :: 0 <= i < |r.value.monsters| ==>
      r.value.monsters[i].level == 1 && 1 <= ThreatOf(r.value.monsters[i]) <= 3
    decreases |draws|
  {
    if remaining <= 0 then Some(Spawned([], remaining))
    else if |draws| == 0 then None
    else
      var num := ThreatDraw(remaining, draws[0]);
      match MonsterBasedOnThreat(num)
      case Failure(_) => SpendThreat(remaining, draws[1..])
      case Success(m) =>
        match SpendThreat(remaining - num, draws[1..])
        case None => None
        case Some(rest) =>
          TotalThreatPrepend(m, rest.monsters);
          Some(Spawned([m] + rest.monsters, rest.remaining))
  }

  /** A rejected draw changes nothing: the loop goes on with the same budget. */
  lemma RejectedDrawChangesNothing(remaining: int, draws: seq<nat>)
    requires remaining > 0 && |draws| > 0 && ThreatDraw(remaining, draws[0]) > 3
    ensures SpendThreat(remaining, draws) == SpendThreat(remaining, draws[1..])
  {
  }

  function PrependSpawned(ms: seq<Monster>, r: Option<Spawned>): Option<Spawned> {
    match r
    case None => None
    case Some(s) => Some(Spawned(ms + s.monsters, s.remaining))
  }

  lemma PrependNothing(r: Option<Spawned>)
    ensures PrependSpawned([], r) == r
  {
    if r.Some? {
      assert [] + r.value.monsters == r.value.monsters;
    }
  }

  lemma PrependTwice(a: seq<Monster>, b: seq<Monster>, r: Option<Spawned>)
    ensures PrependSpawned(a, PrependSpawned(b, r)) == PrependSpawned(a + b, r)
  {
    if r.Some? {
      assert a + (b + r.value.monsters) == (a + b) + r.value.monsters;
    }
  }

  /** One pass of the threat loop, stated on the reference definition. */
  lemma SpendOneDraw(remaining: int, draws: seq<nat>)
    requires remaining > 0 && |draws| > 0
    ensures var m := MonsterBasedOnThreat(ThreatDraw(remaining, draws[0]));
      SpendThreat(remaining, draws)
      == if m.Success?
         then PrependSpawned([m.value], SpendThreat(remaining - ThreatDraw(remaining, draws[0]), draws[1..]))
         else SpendThreat(remaining, draws[1..])
  {
  }

  /** The threat loop as the code runs it, with a mutable budget. */
  method SpawnMonsters(threat: int, draws: seq<nat>) returns (r: Option<Spawned>)
    ensures r == SpendThreat(threat, draws)
    ensures r.Some? ==> r.value.remaining <= 0
    ensures r.Some? ==> TotalThreat(r.value.monsters) == threat - r.value.remaining
  {
    var remaining := threat;
    var monsters: seq<Monster> := [];
    var i := 0;
    assert draws[0..] == draws;
    PrependNothing(SpendThreat(threat, draws));
    while remaining > 0 && i < |draws|
      invariant 0 <= i <= |draws|
      invariant SpendThreat(threat, draws) == PrependSpawned(monsters, SpendThreat(remaining, draws[i..]))
      decreases |draws| - i
    {
      SpendOneDraw(remaining, draws[i..]);
      assert draws[i..][1..] == draws[i + 1..];
      var num := ThreatDraw(remaining, draws[i]);
      var monster := MonsterBasedOnThreat(num);
      if monster.Success? {
        PrependTwice(monsters, [monster.value], SpendThreat(remaining - num, draws[i + 1..]));
        monsters := monsters + [monster.value];
        remaining := remaining - num;
      }
      i := i + 1;
    }
    if remaining > 0 {
      r := None;
    } else {
      assert monsters + [] == monsters;
      r := Some(Spawned(monsters, remaining));
    }
  }

  /** The difficulty match of `Room::new`, arms in source order. The `Hard` arm
      follows the `Medium` arm that already takes every negative value, so it
      is never chosen. */
  function Classify(remaining: int): (d: Difficulty)
    ensures d == Medium <==> remaining < 0
    ensures d == Easy <==> remaining >= 0
  {
    if remaining < 0 then Medium
    else if remaining < -3 then Hard
    else Easy
  }

  /** No remaining budget is ever classified Hard. */
  lemma HardIsUnreachable(remaining: int)
    ensures Classify(remaining) != Hard
  {
  }

  /** `Room::new`: spends the threat budget on monsters, classifies the
      overspend, and attaches one treasure (a Sword and up to 49 gold). */
  function NewRoom(name: string, description: string, threat: int, draws: RoomDraws): (r: Option<Room>)
    ensures r.Some? <==> SpendThreat(threat, draws.threatDraws).Some?
    ensures r.Some? ==> r.value.name == name && r.value.description == description
    ensures r.Some? ==> r.value.currentMonster == 0 && |r.value.treasures| == 1
    ensures r.Some? ==> var t := r.value.treasures[0];
      t.weapon.Some? && t.weapon.value.weaponType == Sword && t.weapon.value.rarity == Common
      && t.gold.Some? && t.gold.value < 50 && t.healthPotion == None
    ensures r.Some? ==> r.value.treasures[0].weapon == Some(NewWeapon(Sword, draws.weaponDraw))
    ensures r.Some? ==> (r.value.difficulty == Medium <==> TotalThreat(r.value.monsters) > threat)
    ensures r.Some? ==> r.value.difficulty != Hard
    ensures r.Some? && threat >= 1 ==> threat <= TotalThreat(r.value.monsters) <= threat + 1
    ensures r.Some? && threat <= 0 ==> r.value.monsters == []
  {
    match SpendThreat(threat, draws.threatDraws)
    case None => None
    case Some(spent) =>
      // The corrected constructor; for a Sword it equals `Weapon::new` as written.
      TypedWeaponAgreesOnSword(draws.weaponDraw);
      var treasures := [Treasure(Some(NewTypedWeapon(Sword, draws.weaponDraw)), Some(draws.goldDraw % 50), None)];
      Some(Room(name, description, Classify(spent.remaining), spent.monsters, treasures, 0))
  }

  /** `Room::monster_slain`: advances the cursor and answers false while a
      monster remains under it; otherwise changes nothing and answers true. */
  function MonsterSlain(room: Room): (r: (Room, bool))
    ensures r.0.(currentMonster := room.currentMonster) == room
    ensures room.currentMonster < |room.monsters| ==>
      r.0.currentMonster == room.currentMonster + 1 && !r.1
    ensures room.currentMonster >= |room.monsters| ==> r.0 == room && r.1
    ensures room.currentMonster <= |room.monsters| ==> r.0.currentMonster <= |room.monsters|
  {
    if |room.monsters| > room.currentMonster then
      (room.(currentMonster := room.currentMonster + 1), false)
    else
      (room, true)
  }

  /** `Treasure::default`: a Sword, 10 to 49 gold, no potion. */
  function DefaultTreasure(weaponDraw: nat, goldDraw: nat): (t: Treasure)
    ensures t.weapon.Some? && t.weapon.value.weaponType == Sword
    ensures t.weapon == Some(NewWeapon(Sword, weaponDraw))
    ensures t.gold.Some? && 10 <= t.gold.value < 50
    ensures t.healthPotion == None
    ensures HasLoot(t)
  {
    TypedWeaponAgreesOnSword(weaponDraw);
    Treasure(Some(NewTypedWeapon(Sword, weaponDraw)), Some(10 + goldDraw % 40), None)
  }

  /** Every gold amount from 10 to 49 can come out of the default treasure. */
  lemma DefaultGoldCoversRange(weaponDraw: nat, gold: nat)
    requires 10 <= gold < 50
    ensures DefaultTreasure(weaponDraw, gold - 10).gold == Some(gold)
  {
  }

  /** Every gold amount from 0 to 49 can come out of a new room's treasure. */
  lemma NewRoomGoldCoversRange(name: string, description: string, threat: int, draws: RoomDraws, gold: nat)
    requires gold < 50 && SpendThreat(threat, draws.threatDraws).Some?
    ensures NewRoom(name, description, threat, draws.(goldDraw := gold)).value.treasures[0].gold == Some(gold)
  {
  }

  /** Whether every monster of the room has been slain; the code calls this
      `is_empty`, whose body is not part of this model. */
  predicate RoomCleared(room: Room) {
    room.currentMonster >= |room.monsters|
  }

  /** The room is cleared exactly when `monster_slain` would answer that no
      monster is left to slay, and one slaying per monster clears a fresh room. */
  lemma ClearedIffNothingToSlay(room: Room)
    ensures RoomCleared(room) <==> MonsterSlain(room).1
    ensures room.currentMonster < |room.monsters| ==>
      (RoomCleared(MonsterSlain(room).0) <==> room.currentMonster + 1 == |room.monsters|)
  {
  }

  /** Whether some treasure holds a weapon (`contains_weapon`, whose body is not part of this model). */
  predicate ContainsWeapon(ts: seq<Treasure>) {
    exists i :: 0 <= i < |ts| && ts[i].weapon.Some?
  }

  /** The first weapon among the treasures (`get_weapon`, whose body is not part of this model). */
  function FirstWeapon(ts: seq<Treasure>): (w: Weapon)
    requires ContainsWeapon(ts)
    ensures exists i :: 0 <= i < |ts| && ts[i].weapon == Some(w)
  {
    if ts[0].weapon.Some? then ts[0].weapon.value
    else
      assert ContainsWeapon(ts[1..]) by {
        var i :| 0 <= i < |ts| && ts[i].weapon.Some?;
        assert ts[1..][i - 1] == ts[i];
      }
      var w := FirstWeapon(ts[1..]);
      ghost var j :| 0 <= j < |ts[1..]| && ts[1..][j].weapon == Some(w);
      assert ts[j + 1] == ts[1..][j];
      w
  }
}
