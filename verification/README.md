# Ardentia engine model

A Dafny model of the turn-based engine of Ardentia, a terminal dungeon
crawler written in Rust. It covers:

- the entities: players, weapons, and monsters in both the enum form and the
  per-species form, with their damage rules;
- the zone catalog (the current snapshot and an older one);
- the monster balancer and the room generator;
- the threat-budget room constructor;
- the dungeon controller;
- the key handlers and the main loop's screen state machine.

Every random choice of the program is an explicit input. A range draw
`random_range(lo..hi)` is a natural `raw` mapped to `lo + raw % (hi - lo)`, and
lemmas show that every value of the range is reachable (threat draws, room
sizes, balancer species, weapon prefixes and both gold draws). The `f64` roll of the
room generator is an exact `real` in `[0, 1)`. Rust integers are unbounded
`int`s, and the Rust operators that do not match Dafny's are written out:

- `/ 2` truncates toward zero (`Arith.HalfTowardZero`);
- `i32::midpoint` rounds toward zero (`Arith.Midpoint`);
- `Ord::clamp` is `Arith.Clamp`.

A panic of the code is an explicit outcome. That covers `todo!()` and an index
out of range on a `Vec`.

Modules, one per source component:

| file | module | models |
|---|---|---|
| entity.dfy | Entity | `src/entity.rs` |
| monsters.dfy | Monsters | `src/monsters/slime.rs`, `jungle/goblin.rs`, `jungle/ogre.rs` |
| zones.dfy, legacy_zones.dfy | Zones, LegacyZones | `src/zones/zone.rs`, `src/zone/zone.rs` |
| balancer.dfy | Balancer | `src/monsters/balancer.rs` |
| generator.dfy | Generator | `src/zone/generator.rs` |
| room_types.dfy, rooms.dfy | RoomTypes, Rooms | `src/room.rs` |
| dungeons.dfy | Dungeons | `src/dungeon.rs` |
| app_state.dfy | AppState | `src/app.rs` (the state and its helpers) |
| keybinds.dfy | Keybinds | `src/keybinds.rs` |
| game_loop.dfy | GameLoop | `src/app.rs` (`App::run`) |
| wrappers.dfy, arith.dfy, text.dfy | Wrappers, Arith, Text | shared `Option`/`Result`, Rust arithmetic, decimal rendering |

The snapshot's files are partly out of step with one another. The model uses
one datatype for each concept and does not try to reconcile what would not
compile:

- `Screen` lists every variant any file uses.
- `App` carries the main-menu cursor of `app.rs` and also the combat and
  weapon-swap cursors that `keybinds.rs` reads.
- The player's defence stat is spelt `defense` in one place and `defence` in
  another. It is one field here.
- `entity::Monster` and `MonsterStats` are one record.
- The generator imports the older `zone::zone::Zone`, but it hands that zone to
  the balancer, which takes the current `zones::zone::Zone`. The generator is
  therefore modelled with the current zone. The older catalog is modelled
  separately, and a lemma records how the two differ.
- `App::draw` has no arm for the combat loading, defeat and death screens.
  The model draws them without effect; drawing the weapon-swap screen panics.
- `app.rs` and `keybinds.rs` both define `option_up`/`option_down`. Both are
  modelled. The handlers use the screen-aware version in `keybinds.rs`. On the
  main menu it is the same as the `app.rs` version.

Behaviours of the code that a reader might not expect, all modelled as written:

- A monster whose attack equals the player's defence deals 0 damage. Only a
  negative difference becomes 1.
- When the player and the monster have equal speed, the monster strikes first.
- A player killed by the monster's first blow still strikes back.
- A dungeon is a fixed vector of rooms, and `is_there_rooms_left` compares the
  cursor against its length. There is no separate room counter.
- The main loop dispatches keys only to the main-menu and room handlers. So
  the combat screen is never reached from the loop, and the combat loading
  screen is a dead end that only Esc leaves (`GameLoop.CombatLoadingIsStuck`).
  No timed pass-through exists for the combat loading or defeat screens. Only
  the dungeon and room loading screens advance on their own.

## Model

| member | source | states |
|---|---|---|
| Arith.HalfTowardZero | src/monsters/jungle/goblin.rs:20 | integer halving truncates toward zero: the remainder has the sign of the dividend and magnitude at most 1 |
| Arith.Midpoint | src/monsters/balancer.rs:93 | `i32::midpoint` lies between the two bounds and rounds the exact half toward zero |
| Arith.Clamp | src/monsters/balancer.rs:103 | `clamp` returns the value when inside `[lo, hi]`, else the nearer bound |
| Entity.NewWeapon | src/entity.rs:73-101 | as written: the kind passed in is kept and rarity is Common; the name is the drawn prefix followed by " Sword" for every kind; attack is the base (Sword 10, Dagger 5, Axe 15) halved toward zero for Broken, minus 2 for Rusty, plus 2 for Sharp, and exactly the base for the empty prefix |
| Entity.NewTypedWeapon | src/entity.rs:73-101 | corrected: the name ends in the kind actually passed; every other field agrees with `NewWeapon` |
| Entity.DaggerNamedSword | src/entity.rs:78 | a Dagger drawn with prefix 0 is named "Broken Sword" as written, and "Broken Dagger" once corrected |
| Entity.TypedWeaponAgreesOnSword | src/entity.rs:78 | for a Sword, which is the only kind the rooms create, the corrected and as-written constructors agree |
| Entity.PrefixOrdering | src/entity.rs:86-91 | Broken < Rusty < plain < Sharp in attack value, for every kind |
| Entity.EveryPrefixDrawable | src/entity.rs:76 | each of the four prefixes is reachable, and draw k names the weapon with prefix k |
| Entity.EmptyWeapon | src/entity.rs:104-111 | the empty weapon has no name, attack 0, kind Sword, rarity Common |
| Entity.NewPlayer | src/entity.rs:116-126 | a new player has health 100, attack 10, defence 5, speed 5, no weapon, and is not dead |
| Entity.Equip | src/entity.rs:168-170 | `equip` sets the weapon to `Some(w)` and changes nothing else |
| Entity.PlayerDamage | src/entity.rs:145-153 | the player's damage is attack plus weapon bonus minus defence when that is non-negative, else 0 |
| Entity.PlayerAttack | src/entity.rs:144-161 | `Player::attack` changes only the target's health, lowering it by exactly the damage |
| Entity.MonsterDamage | src/entity.rs:246-252 | a monster's damage is attack minus defence when non-negative, 1 when negative; it is 0 exactly when attack equals defence |
| Entity.MonsterAttack | src/entity.rs:246-260 | `Monster::attack` changes only the player's health, lowering it by exactly the damage |
| Entity.IsDead | src/entity.rs:164-166 | a player is dead once health is at most 0 |
| Entity.IsAlive | src/entity.rs:242-244 | a monster is alive while health is above 0 |
| Entity.PlayerDiesIffDamageReachesHealth | src/entity.rs:164-166 | a monster's blow leaves the player dead exactly when its damage reaches the player's health; a 0-damage blow never kills |
| Entity.MonsterDiesIffDamageReachesHealth | src/entity.rs:242-244 | the player's blow leaves a monster dead exactly when its damage reaches the monster's health; a 0-damage blow never kills |
| Entity.EmptyWeaponAddsNothing | src/entity.rs:144-148 | equipping the empty weapon deals the same damage as fighting bare-handed |
| Entity.FloorRulesDifferOnlyWhenNegative | src/entity.rs:150-153 | the player's and the monster's floor rules agree except on a negative difference, where they give 0 and 1 |
| Entity.DamageExamples | src/entity.rs:246-254 | worked cases of both damage rules, including 0 damage when attack equals defence |
| Entity.NewMonster | src/entity.rs:201-228 | `Monster::new` gives each species its name and stats equal to the level times the species factors; alive at a positive level |
| Entity.MonsterScalesLinearly | src/entity.rs:201-228 | every stat of a level-L monster is L times the stat at level 1 |
| Entity.MonsterBasedOnThreat | src/entity.rs:230-237 | threats 1, 2 and 3 give a level-1 Slime, Goblin and Ogre whose threat reads back as the input; every other value is the "Monster not found" error |
| Monsters.SlimeNew | src/monsters/slime.rs:10-21 | a Slime of level L has health 4+L, attack L, defence 0, speed L; it is alive when L >= 0 |
| Monsters.GoblinNew | src/monsters/jungle/goblin.rs:13-24 | a Goblin of level L has health 8+2L, attack 2+L, defence L/2 truncated, speed 3+2L; it is alive when L >= 0 |
| Monsters.OgreNew | src/monsters/jungle/ogre.rs:13-24 | an Ogre of level L has health 15+3L, attack 3+2L, defence 1+L, speed L/2 truncated; it is alive when L >= 0 |
| Monsters.TakeDamage | src/monsters/slime.rs:44-46 | `take_damage` lowers health by exactly the amount and leaves every other stat unchanged |
| Monsters.GetStats | src/monsters/slime.rs:40-42 | `get_stats` returns the stats as they stand |
| Monsters.AliveAfterDamage | src/monsters/slime.rs:25-46 | a monster stays alive after damage exactly when the damage is below its health |
| Monsters.SlimeLifecycle | src/monsters/slime.rs:10-46 | a fresh Slime is alive, hits for its attack minus defence or 1 when negative, and dies once it has taken 4+L damage |
| Monsters.GoblinLifecycle | src/monsters/jungle/goblin.rs:13-49 | the same for a Goblin, with attack 2+L and health 8+2L |
| Monsters.OgreLifecycle | src/monsters/jungle/ogre.rs:13-49 | the same for an Ogre, with attack 3+2L and health 15+3L |
| Monsters.SpeciesToughnessOrder | src/monsters/jungle/ogre.rs:18-20 | at the same positive level, Slime health < Goblin health < Ogre health, and Slime defence <= Goblin defence < Ogre defence |
| Zones.JungleData | src/zones/zone.rs:60-74 | the Normal Jungle is "Jungle", recommended level 1, unique monsters Slime, Goblin, Ogre, boss "Giant Spider" |
| Zones.New | src/zones/zone.rs:44-58 | `Zone::new` stores the type and difficulty unchanged and takes the rest from the jungle data |
| Zones.LevelRange | src/zones/zone.rs:77-81 | the Normal difficulty gives the level range (1, 4), and min <= max |
| Zones.AvailableZones | src/zones/zone.rs:84-86 | exactly one zone is available: the Normal Jungle, with range (1, 4) |
| LegacyZones.JungleData | src/zone/zone.rs:59-73 | the older Normal Jungle is "Jungle Profonde", level 1, the same three species, boss "Araignée Géante" |
| LegacyZones.New | src/zone/zone.rs:43-57 | the older `Zone::new` stores the type and difficulty unchanged |
| LegacyZones.LevelRange | src/zone/zone.rs:75-79 | the older Normal range is (1, 5) |
| LegacyZones.AvailableZones | src/zone/zone.rs:81-83 | the older catalog also holds exactly one zone, the Normal Jungle |
| LegacyZones.SnapshotsDiffer | src/zone/zone.rs:75-79 | the two snapshots agree on species and recommended level, and the older maximum level is one higher |
| Balancer.MonsterPool | src/monsters/balancer.rs:69-89 | room 1's pool is exactly Slime; room 2's is Slime, Goblin; every other room's is Slime, Goblin, Ogre followed by the zone's species in order; never empty |
| Balancer.RoomThreeNotOverridden | src/monsters/balancer.rs:84 | the half-open `2..3` leaves room 3 with the full pool |
| Balancer.ClampedLevel | src/monsters/balancer.rs:93-103 | the shifted midpoint, clamped into the range, lies inside it |
| Balancer.LevelMonotoneInBonus | src/monsters/balancer.rs:93-103 | a larger room bonus never gives a lower level |
| Balancer.MonsterLevel | src/monsters/balancer.rs:91-104 | a room's monster level lies inside its zone's level range |
| Balancer.JungleLevels | src/monsters/balancer.rs:95-103 | for the range (1, 4): Entrance 1, Normal 2, Treasure 3, Elite 4, Boss 4 |
| Balancer.CreateMonster | src/monsters/balancer.rs:56 | the species lookup succeeds exactly on Slime, Goblin and Ogre, keeping the name and level |
| Balancer.GenerateMonsterForRoom | src/monsters/balancer.rs:43-57 | one attempt yields a monster exactly when the drawn name is a known species; it is named from the pool and has the room's level |
| Balancer.EverySpeciesDrawable | src/monsters/balancer.rs:52-53 | every known species of the pool can be drawn |
| Balancer.Survivors | src/monsters/balancer.rs:33-37 | reference: one attempt per draw, failures dropped, so at most one monster per draw, each from the pool at the room's level |
| Balancer.GenerateMonstersForRoom | src/monsters/balancer.rs:26-40 | the loop returns exactly the reference survivors of its `room_size` draws, so at most `room_size` monsters |
| Balancer.KnownPoolFillsEverySlot | src/monsters/balancer.rs:33-89 | when every zone species is known, no attempt fails and each slot yields a monster |
| Balancer.OneLevelPerRoom | src/monsters/balancer.rs:55-56 | all monsters generated for one room have the same level |
| Generator.DetermineRoomType | src/zone/generator.rs:38-63 | Boss exactly at room 10; Entrance exactly at room 1; other multiples of 5 with a roll below 0.3 are Treasure; rooms 2-4, 5-9 and the rest follow their roll thresholds |
| Generator.EarlyRoomsNeverTreasure | src/zone/generator.rs:52-55 | rooms 1 to 4 are never Treasure or Boss |
| Generator.DetermineRoomSize | src/zone/generator.rs:65-74 | sizes: Entrance 1-2, Normal 2-4, Elite 1-3, Treasure and Boss exactly 1 |
| Generator.EverySizeDrawable | src/zone/generator.rs:68-70 | every size of a type's range can be drawn |
| Generator.GenerateRoom | src/zone/generator.rs:21-36 | the room keeps its number and zone, its type is the determined one, and its monsters are exactly the balancer's survivors of the first drawn-size slot draws: at most the drawn size (at most 4), from that room's pool at that room's level, and exactly the drawn size when the zone fields only known species |
| Generator.SlotsPastSizeIgnored | src/zone/generator.rs:21-36 | only the first room-size slot draws are read: draw lists agreeing on them give the same room |
| Generator.FirstRoomSlots | src/monsters/balancer.rs:82-86 | in room 1 of a zone fielding only known species, every slot holds a level-1 Slime |
| Generator.FirstJungleRoom | src/zone/generator.rs:21-36 | the Jungle's first room is an Entrance holding one or two level-1 Slimes |
| Rooms.CountLoot | src/room.rs:21-35 | reference count of treasures holding a weapon, gold or potion; at most the number of treasures, and 0 exactly when none holds anything |
| Rooms.TreasureLen | src/room.rs:21-35 | `treasure_len` equals the reference count, so it never exceeds the number of treasures |
| Rooms.ThreatDraw | src/room.rs:68-74 | a threat draw is in `[1, t-1]` when t > 3 and in `[1, t+1]` otherwise |
| Rooms.ThreatDrawCoversRange | src/room.rs:68-74 | every value of the draw range is reachable |
| Rooms.TotalThreatPrepend | src/room.rs:75-80 | total threat is additive over the monster list |
| Rooms.SpendThreat | src/room.rs:64-81 | reference threat loop: the final budget is <= 0, and >= -1 from a positive start; total monster threat equals the budget spent; every monster is level 1 with threat 1-3; a budget <= 0 buys nothing |
| Rooms.RejectedDrawChangesNothing | src/room.rs:75-80 | a draw outside 1..3 leaves the loop state unchanged |
| Rooms.SpendOneDraw | src/room.rs:67-80 | one pass of the loop either buys the drawn monster and lowers the budget by its threat, or changes nothing |
| Rooms.SpawnMonsters | src/room.rs:64-81 | the mutable loop returns exactly the reference result |
| Rooms.Classify | src/room.rs:83-87 | difficulty is Medium exactly when the final budget is negative, else Easy |
| Rooms.HardIsUnreachable | src/room.rs:85 | the Hard arm is never chosen |
| Rooms.NewRoom | src/room.rs:63-103 | a new room keeps its name and description, has cursor 0 and one treasure (the `Weapon::new(Sword)` of its weapon draw, gold below 50, no potion); it is Medium exactly when the monsters overspend the threat, never Hard, and empty for a threat <= 0 |
| Rooms.MonsterSlain | src/room.rs:105-112 | below the end the cursor moves by one and the answer is false; at the end nothing changes and the answer is true; cursor <= length is preserved |
| Rooms.RoomCleared | src/keybinds.rs:91 | `Room::is_empty`, whose body is not part of this model, taken as every monster slain: the cursor has reached the end of the monster list |
| Rooms.ClearedIffNothingToSlay | src/room.rs:105-112 | a room is cleared exactly when `monster_slain` answers that nothing is left; slaying the monster under the cursor clears the room exactly when it was the last |
| Rooms.DefaultTreasure | src/room.rs:136-144 | the default treasure holds the `Weapon::new(Sword)` of its weapon draw, 10 to 49 gold, no potion |
| Rooms.DefaultGoldCoversRange | src/room.rs:140 | every gold amount from 10 to 49 is reachable |
| Rooms.NewRoomGoldCoversRange | src/room.rs:91 | every gold amount from 0 to 49 is reachable in a new room's treasure |
| Rooms.FirstWeapon | src/keybinds.rs:84 | the weapon taken from the treasures is one that some treasure holds |
| Dungeons.BuildRooms | src/dungeon.rs:16-28 | the room loop yields n - i rooms from index i |
| Dungeons.BuildRoomsInOrder | src/dungeon.rs:16-28 | each built room is exactly `Room::new` of its index's name, description, threat and draws |
| Dungeons.NewDungeon | src/dungeon.rs:13-35 | n rooms (none for n <= 0), cursor 0, level stored; room j is `Room::new` of index j's name, description, threat and draws |
| Dungeons.NewDungeonRoom | src/dungeon.rs:16-27 | room j of a new dungeon is named "Room j+1", has its monster cursor at 0 and was built on its position's threat |
| Text.NatToStringAppendsDigit | src/dungeon.rs:24 | the room number is printed in decimal: the last digit is the remainder by ten after the rest |
| Text.NatToStringExamples | src/dungeon.rs:24 | rooms 1, 5, 10 and 42 are printed as "1", "5", "10" and "42" |
| Dungeons.LastRoomIsHarder | src/dungeon.rs:17-21 | every room but the last has the dungeon's threat; the last has one more |
| Dungeons.IsThereRoomsLeft | src/dungeon.rs:37-39 | no rooms are left exactly when the cursor is on the last room |
| Dungeons.NextRoom | src/dungeon.rs:41-45 | the cursor advances by exactly one below the last room, else nothing changes; rooms and level are kept; a valid cursor stays valid |
| Dungeons.RoomsLeftIffNextRoomMoves | src/dungeon.rs:37-45 | rooms are left exactly when `next_room` moves the cursor |
| Dungeons.CurrentRoom | src/dungeon.rs:52-54 | the current room is the room at the dungeon's cursor |
| Dungeons.UpdateCurrentRoom | src/dungeon.rs:47-49 | writing through the current room replaces it and nothing else |
| Dungeons.UpdateWithCurrentIsIdentity | src/dungeon.rs:47-54 | writing back the current room changes nothing |
| Dungeons.WalkRooms | src/dungeon.rs:41-45 | k calls of `next_room` move the cursor to min(c + k, last) |
| Dungeons.WalkFromFirstRoom | src/dungeon.rs:37-45 | from the first room of a dungeon of n >= 1 rooms, where `Dungeon::new` leaves the cursor, n - 1 calls reach the last room and then no rooms are left |
| AppState.DefaultApp | src/app.rs:16-23 | the app starts on the main menu with New Game selected |
| AppState.MenuDown | src/app.rs:75-80 | Down moves one entry lower, stopping at Quit |
| AppState.MenuUp | src/app.rs:82-87 | Up moves one entry higher, stopping at New Game |
| AppState.MenuEndsWithinTwo | src/app.rs:75-87 | two Downs reach Quit and two Ups reach New Game from anywhere; no wraparound |
| AppState.AppOptionDown | src/app.rs:75-80 | only the main-menu cursor changes |
| AppState.AppOptionUp | src/app.rs:82-87 | only the main-menu cursor changes |
| AppState.SwitchScreen | src/app.rs:89-91 | the screen becomes the argument and nothing else changes |
| AppState.CreatePlayer | src/app.rs:93-95 | the player becomes a fresh "You" and nothing else changes |
| AppState.CreateDungeon | src/app.rs:97-99 | the dungeon becomes a level-1 dungeon of five rooms with cursor 0, and nothing else changes |
| AppState.NewGameBudgets | src/app.rs:98 | the five rooms of a new game have threats 1, 1, 1, 1 and 2 |
| Keybinds.OptionDown | src/keybinds.rs:110-120 | Down moves the cursor of the screen on show (menu, combat to Run, weapon swap to No) and nothing else |
| Keybinds.OptionUp | src/keybinds.rs:122-132 | Up moves the cursor of the screen on show (menu, combat to Attack, weapon swap to Yes) and nothing else |
| Keybinds.TwoEntryMenusToggle | src/keybinds.rs:110-132 | on the combat and weapon-swap menus Up and Down undo each other and repeat presses change nothing |
| Keybinds.HandleMainScreen | src/keybinds.rs:13-29 | the handler quits exactly on Enter with Quit; panics exactly on Enter with Load Game; Enter with New Game makes player and dungeon and shows the dungeon loading screen; Up and Down are the cursor moves (on the main menu, those of `app.rs`); other keys change nothing |
| Keybinds.HandleRoom | src/keybinds.rs:31-42 | Enter on a room with monsters shows combat loading; otherwise nothing changes; only Enter can hit a bad cursor |
| Keybinds.ClearedRoomStillStartsCombat | src/keybinds.rs:33-38 | the condition reads the monster list, not the cursor, so a room whose monsters are all slain still starts combat |
| Keybinds.Exchange | src/keybinds.rs:53-63 | the monster always takes exactly the player's blow; the player takes the monster's blow exactly when the monster strikes while alive, first on a speed tie or when faster |
| Keybinds.TieGoesToMonster | src/keybinds.rs:53-58 | with equal speed the monster strikes first even when the player's blow would kill it |
| Keybinds.DeadPlayerStrikesBack | src/keybinds.rs:58-63 | a slower player killed by the first blow still deals full damage |
| Keybinds.FirstStrikeKillIsFree | src/keybinds.rs:53-57 | a faster player who kills the monster takes no damage |
| Keybinds.HandleCombat | src/keybinds.rs:44-78 | panics exactly without a current monster or on Run; Up and Down are the cursor moves and other keys change nothing; Attack plays one exchange and writes only the player and the fought monster back, showing the defeat screen with the cursor advanced if it died, else the death screen if the player died, else no screen change; the cursors, the level, the room cursor and the room's other fields stay |
| Keybinds.LastKillClearsRoom | src/keybinds.rs:65-67 | killing the last monster clears the room, and the next combat key panics |
| Keybinds.HandleChangeWeapon | src/keybinds.rs:80-108 | nothing happens without a weapon in the treasures; Up and Down are the cursor moves and other keys change nothing; Enter equips on Yes only, then goes to the next room's loading screen, to the main menu after the last room, or back to combat, changing nothing but the player, the screen and the room cursor |
| Keybinds.ClearedRoomMovesOn | src/keybinds.rs:91-95 | Enter on a cleared room's weapon screen, with rooms left, shows the loading screen of the next room, which is a valid room |
| Keybinds.LastRoomReturnsToMenu | src/keybinds.rs:91-98 | after the last room Enter returns to the main menu with the dungeon unchanged, equipping only on Yes; a following New Game builds a fresh five-room dungeon from its first room |
| GameLoop.Step | src/app.rs:26-62 | the weapon-swap screen panics when drawn; loading screens advance without input; non-press events change nothing; a press goes to the main-menu handler on the main menu and to the room handler on the room screen, and changes nothing elsewhere; the loop ends exactly on an Esc press that does not crash, or on a quit request; it crashes exactly on the weapon-swap screen, Load Game or a bad room cursor |
| GameLoop.StepPreservesConsistent | src/app.rs:26-62 | every pass keeps the loop's screens and a valid dungeon off the main menu |
| GameLoop.OnlyLoadGameCrashes | src/app.rs:40-49 | from a consistent state the only panic is Enter on Load Game |
| GameLoop.CombatLoadingIsStuck | src/app.rs:40-58 | on the combat loading screen no event changes the game and only Esc leaves |
| GameLoop.Run | src/app.rs:27-60 | a running loop never rests on a loading screen, and the weapon-swap screen crashes it |
| GameLoop.RunPreservesConsistent | src/app.rs:27-60 | consistency holds over any sequence of events |
| GameLoop.NewGameHandled | src/keybinds.rs:17-22 | the main-menu handler answers Enter on New Game with the new player, the new dungeon and the dungeon loading screen, without quitting |
| GameLoop.NewGameStep | src/app.rs:40-49 | Enter on New Game is one pass to the dungeon loading screen with the new player and dungeon |
| GameLoop.NewGameReachesFirstRoom | src/app.rs:29-45 | from the default app one Enter reaches the first room through both loading screens |

## Left out

- Rendering (`src/screen.rs`, `App::draw`) and every `Display`/`println!`: terminal output with no state.
- `src/main.rs`: terminal and error-reporting setup.
- `terminal.draw`, `thread::sleep` and `event::read` inside `App::run`: the model takes the next event as a parameter, and the loading pauses take no time.
- `Player::select_action`: reads standard input; the key handlers replace it.
- The random number generator: each draw is an input. The `f64` roll is an exact real, with no floating-point rounding.
- Fixed-width integers (`i32`, `u16`, `u32`, `usize`) are unbounded integers; overflow and wrap-around are not modelled.
- The bodies of `create_monster`, `Room::is_empty`, `contains_weapon` and `get_weapon` are not part of this model. They are modelled as a name lookup over the three known species, "every monster slain", "some treasure holds a weapon" and "the first such weapon".
- HandleChangeWeapon: `get_weapon` is called through a mutable borrow and its body is not part of this model. The model takes it to read the first weapon without removing it, so the treasures stay as they were; a `get_weapon` that took the weapon out would also change the current room's treasures.
- The four-argument `Room::new` the generator calls does not exist in `src/room.rs`. `Generator.GenerateRoom` returns its inputs as a record.
- `Rooms.SpendThreat`, `Rooms.SpawnMonsters`, `Rooms.NewRoom`: the threat loop draws until the budget is spent and can in principle draw forever. The model consumes a finite list of draws and returns None when they run out with budget left. `Dungeons.NewDungeon`, `AppState.CreateDungeon`, `Keybinds.HandleMainScreen` and `GameLoop.Step` pass that on.
- `Balancer.GenerateMonstersForRoom` requires at least `room_size` draws, one per slot, because it consumes one per attempt.
- `App::draw` on the weapon-swap screen (`todo!()`), the Run combat option and Load Game are panics, modelled as `Failure`/`Panicked`/`Crashed`, with the code's message.
- The loop replays the same room draws if a game is started twice; each call of `create_dungeon` reading fresh randomness is not modelled.

## Findings

| source | as written | input that shows it | evidently intended | confidence | as-written member | corrected member |
|---|---|---|---|---|---|---|
| src/entity.rs:78 | the weapon name is built from `WeaponType::Sword` instead of the `weapon_type` argument | `Weapon::new(WeaponType::Dagger)` with the "Broken" prefix is named "Broken Sword" | the name ends in the kind passed: "Broken Dagger" | medium; not executed | Entity.DaggerNamedSword | Entity.NewTypedWeapon |
