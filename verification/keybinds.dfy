/** The key handlers of `src/keybinds.rs`: the main menu, the room screen, one
    round of combat and the weapon-swap prompt, with the screen-aware cursor
    moves. A panic of the code (`todo!()` or an out-of-range index) is a
    `Failure` carrying the panic message. */
module Keybinds {
  import opened Wrappers
  import opened Entity
  import R = Rooms
  import D = Dungeons
  import opened AppState

  datatype KeyCode = Up | Down | Enter | Esc | OtherKey

  datatype KeyEventKind = Press | Repeat | Release

  datatype KeyEvent = KeyEvent(code: KeyCode, kind: KeyEventKind)

  /** What the main-menu handler leads to: the new app and whether the game is
      quitting, a panic, or a new game whose room draws ran out. */
  datatype Outcome = Handled(app: App, quitting: bool) | Panicked(reason: string) | Starved

  const NotImplemented: string := "not yet implemented"
  const RunNotImplemented: string := "not yet implemented: Run not implemented yet"
  const IndexOutOfBounds: string := "index out of bounds"

  /** The three option cursors are the only fields the cursor moves touch. */
  predicate SameButCursors(a: App, b: App) {
    a.(mainMenuOption := b.mainMenuOption, combatOption := b.combatOption,
       changeWeaponOption := b.changeWeaponOption) == b
  }

  /** `option_down` of `keybinds.rs`: moves the cursor of the screen on show;
      screens without a menu ignore it. */
  function OptionDown(app: App): (r: App)
    ensures SameButCursors(r, app)
    ensures app.screen == MainMenu ==> r == AppOptionDown(app)
    ensures app.screen == Combat ==>
      (r.combatOption == Run && r.mainMenuOption == app.mainMenuOption && r.changeWeaponOption == app.changeWeaponOption)
    ensures app.screen == RoomResult ==>
      (r.changeWeaponOption == No && r.mainMenuOption == app.mainMenuOption && r.combatOption == app.combatOption)
    ensures app.screen !in {MainMenu, Combat, RoomResult} ==> r == app
  {
    match app.screen
    case MainMenu => app.(mainMenuOption := MenuDown(app.mainMenuOption))
    case Combat => app.(combatOption := Run)
    case RoomResult => app.(changeWeaponOption := No)
    case _ => app
  }

  /** `option_up` of `keybinds.rs`. */
  function OptionUp(app: App): (r: App)
    ensures SameButCursors(r, app)
    ensures app.screen == MainMenu ==> r == AppOptionUp(app)
    ensures app.screen == Combat ==>
      (r.combatOption == Attack && r.mainMenuOption == app.mainMenuOption && r.changeWeaponOption == app.changeWeaponOption)
    ensures app.screen == RoomResult ==>
      (r.changeWeaponOption == Yes && r.mainMenuOption == app.mainMenuOption && r.combatOption == app.combatOption)
    ensures app.screen !in {MainMenu, Combat, RoomResult} ==> r == app
  {
    match app.screen
    case MainMenu => app.(mainMenuOption := MenuUp(app.mainMenuOption))
    case Combat => app.(combatOption := Attack)
    case RoomResult => app.(changeWeaponOption := Yes)
    case _ => app
  }

  /** On the two-entry menus, Up undoes Down and Down undoes Up; a repeated
      press changes nothing more. */
  lemma TwoEntryMenusToggle(app: App)
    requires app.screen == Combat || app.screen == RoomResult
    ensures OptionUp(OptionDown(app)) == OptionUp(app)
    ensures OptionDown(OptionUp(app)) == OptionDown(app)
    ensures OptionDown(OptionDown(app)) == OptionDown(app)
    ensures OptionUp(OptionUp(app)) == OptionUp(app)
  {
  }

  /** `handle_main_screen`: Up and Down move the cursor; Enter on "New Game"
      makes a fresh player and a new dungeon and shows the dungeon loading
      screen, on "Load Game" it panics, on "Quit" it asks the loop to stop. */
  function HandleMainScreen(app: App, key: KeyEvent, draws: seq<R.RoomDraws>): (o: Outcome)
    ensures o.Handled? && o.quitting <==> key.code == Enter && app.mainMenuOption == Quit
    ensures o.Panicked? <==> key.code == Enter && app.mainMenuOption == LoadGame
    ensures o.Starved? <==> key.code == Enter && app.mainMenuOption == NewGame && CreateDungeon(app, draws).None?
    ensures o.Handled? && key.code == Enter && app.mainMenuOption == NewGame ==>
      o.app.screen == DungeonLoading && o.app.player == NewPlayer("You")
      && Some(o.app.(screen := app.screen, player := app.player)) == CreateDungeon(app, draws)
      && D.Valid(o.app.dungeon) && |o.app.dungeon.rooms| == 5
    ensures o.Handled? && key.code != Enter ==> SameButCursors(o.app, app)
    ensures key.code == Up ==> o == Handled(OptionUp(app), false)
    ensures key.code == Down ==> o == Handled(OptionDown(app), false)
    ensures app.screen == MainMenu && key.code == Up ==> o == Handled(AppOptionUp(app), false)
    ensures app.screen == MainMenu && key.code == Down ==> o == Handled(AppOptionDown(app), false)
    ensures key.code !in {Up, Down, Enter} ==> o == Handled(app, false)
    ensures o.Handled? && o.quitting ==> o.app == app
  {
    match key.code
    case Up => Handled(OptionUp(app), false)
    case Down => Handled(OptionDown(app), false)
    case Enter =>
      (match app.mainMenuOption
       case NewGame =>
         (match CreateDungeon(CreatePlayer(app), draws)
          case None => Starved
          case Some(a) => Handled(SwitchScreen(a, DungeonLoading), false))
       case LoadGame => Panicked(NotImplemented)
       case Quit => Handled(app, true))
    case _ => Handled(app, false)
  }

  /** `handle_room`: Enter starts combat when the current room's monster list
      is not empty. Only Enter reads the room, so only Enter can hit an
      out-of-range cursor. */
  function HandleRoom(app: App, key: KeyEvent): (r: Result<App, string>)
    ensures r.Failure? <==> key.code == Enter && !D.Valid(app.dungeon)
    ensures r.Success? ==> r.value == app || r.value == SwitchScreen(app, CombatLoading)
    ensures r.Success? && r.value.screen == CombatLoading && app.screen != CombatLoading ==>
      key.code == Enter && |D.CurrentRoom(app.dungeon).monsters| > 0
    ensures key.code == Enter && D.Valid(app.dungeon) && |D.CurrentRoom(app.dungeon).monsters| > 0 ==>
      r == Success(SwitchScreen(app, CombatLoading))
  {
    if key.code != Enter then Success(app)
    else if !D.Valid(app.dungeon) then Failure(IndexOutOfBounds)
    else if |D.CurrentRoom(app.dungeon).monsters| != 0 then Success(SwitchScreen(app, CombatLoading))
    else Success(app)
  }

  /** The room test reads the monster list, not the slain-monster cursor: a
      room whose every monster is slain still starts combat. */
  lemma ClearedRoomStillStartsCombat(app: App)
    requires D.Valid(app.dungeon)
    requires R.RoomCleared(D.CurrentRoom(app.dungeon)) && |D.CurrentRoom(app.dungeon).monsters| > 0
    ensures HandleRoom(app, KeyEvent(Enter, Press)) == Success(SwitchScreen(app, CombatLoading))
  {
  }

  /** One round of the Attack choice: the faster side strikes first, the
      monster strikes only while alive, and the player strikes in any case.
      A tie in speed goes to the monster. */
  function Exchange(p: Player, m: Monster): (r: (Player, Monster))
    ensures r.1 == PlayerAttack(p, m)
    ensures r.0 == p || r.0 == MonsterAttack(m, p)
    ensures r.0 == MonsterAttack(m, p) && r.0 != p ==>
      if p.speed > m.speed then IsAlive(PlayerAttack(p, m)) else IsAlive(m)
    ensures (if p.speed > m.speed then IsAlive(PlayerAttack(p, m)) else IsAlive(m)) ==>
      r.0 == MonsterAttack(m, p)
    ensures r.0.(health := p.health) == p && r.1.(health := m.health) == m
  {
    if p.speed > m.speed then
      var m1 := PlayerAttack(p, m);
      (if IsAlive(m1) then MonsterAttack(m1, p) else p, m1)
    else
      var p1 := if IsAlive(m) then MonsterAttack(m, p) else p;
      (p1, PlayerAttack(p1, m))
  }

  /** With equal speed the monster strikes first, even when the player's blow
      would have killed it. */
  lemma TieGoesToMonster(p: Player, m: Monster)
    requires p.speed == m.speed && IsAlive(m)
    requires !IsAlive(PlayerAttack(p, m))
    ensures Exchange(p, m).0 == MonsterAttack(m, p)
    ensures !IsAlive(Exchange(p, m).1)
  {
  }

  /** A slower player killed by the monster's blow still deals their own damage. */
  lemma DeadPlayerStrikesBack(p: Player, m: Monster)
    requires p.speed <= m.speed && IsAlive(m)
    requires IsDead(MonsterAttack(m, p))
    ensures IsDead(Exchange(p, m).0)
    ensures Exchange(p, m).1.health == m.health - PlayerDamage(p, m.defence)
  {
  }

  /** A faster player who kills the monster takes no damage. */
  lemma FirstStrikeKillIsFree(p: Player, m: Monster)
    requires p.speed > m.speed && !IsAlive(PlayerAttack(p, m))
    ensures Exchange(p, m) == (p, PlayerAttack(p, m))
  {
  }

  /** Whether the cursors of the dungeon and of the current room both point at
      something; `handle_combat` indexes both before reading the key. */
  predicate CombatTarget(app: App) {
    D.Valid(app.dungeon)
    && D.CurrentRoom(app.dungeon).currentMonster < |D.CurrentRoom(app.dungeon).monsters|
  }

  /** `handle_combat`. Enter with Attack plays one exchange against the room's
      current monster; a slain monster advances the room's cursor and shows the
      defeat screen, a dead player shows the death screen. Enter with Run
      panics, as does any key when there is no current monster. */
  function HandleCombat(app: App, key: KeyEvent): (r: Result<App, string>)
    ensures r.Failure? <==> !CombatTarget(app) || (key.code == Enter && app.combatOption == Run)
    ensures r.Success? && key.code != Enter ==> SameButCursors(r.value, app)
    ensures CombatTarget(app) && key.code == Up ==> r == Success(OptionUp(app))
    ensures CombatTarget(app) && key.code == Down ==> r == Success(OptionDown(app))
    ensures CombatTarget(app) && key.code !in {Up, Down, Enter} ==> r == Success(app)
    ensures r.Success? && key.code == Enter ==>
      var room := D.CurrentRoom(app.dungeon);
      var (p, m) := Exchange(app.player, room.monsters[room.currentMonster]);
      var a := r.value;
      && a.player == p
      && a.(player := app.player, dungeon := app.dungeon, screen := app.screen) == app
      && a.dungeon.(rooms := app.dungeon.rooms) == app.dungeon
      && a.dungeon.currentRoom == app.dungeon.currentRoom && |a.dungeon.rooms| == |app.dungeon.rooms|
      && (forall j :: 0 <= j < |app.dungeon.rooms| && j != app.dungeon.currentRoom ==>
            a.dungeon.rooms[j] == app.dungeon.rooms[j])
      && D.CurrentRoom(a.dungeon).monsters == room.monsters[room.currentMonster := m]
      && D.CurrentRoom(a.dungeon).currentMonster == room.currentMonster + (if IsAlive(m) then 0 else 1)
      && D.CurrentRoom(a.dungeon).(monsters := room.monsters, currentMonster := room.currentMonster) == room
      && (!IsAlive(m) ==> a.screen == DefeatMonster)
      && (IsAlive(m) && IsDead(p) ==> a.screen == DeadPlayer)
      && (IsAlive(m) && !IsDead(p) ==> a.screen == app.screen)
  {
    if !CombatTarget(app) then Failure(IndexOutOfBounds)
    else
      var room := D.CurrentRoom(app.dungeon);
      match key.code
      case Enter =>
        (match app.combatOption
         case Attack =>
           var (p, m) := Exchange(app.player, room.monsters[room.currentMonster]);
           var fought := room.(monsters := room.monsters[room.currentMonster := m]);
           if !IsAlive(m) then
             var slain := R.MonsterSlain(fought).0;
             Success(SwitchScreen(app.(player := p, dungeon := D.UpdateCurrentRoom(app.dungeon, slain)), DefeatMonster))
           else
             var a := app.(player := p, dungeon := D.UpdateCurrentRoom(app.dungeon, fought));
             if IsDead(p) then Success(SwitchScreen(a, DeadPlayer)) else Success(a)
         case Run => Failure(RunNotImplemented))
      case Up => Success(OptionUp(app))
      case Down => Success(OptionDown(app))
      case _ => Success(app)
  }

  /** After the last monster of a room is slain the room counts as cleared, and
      the next key on the combat screen panics. */
  lemma LastKillClearsRoom(app: App, key: KeyEvent)
    requires CombatTarget(app) && app.combatOption == Attack
    requires D.CurrentRoom(app.dungeon).currentMonster == |D.CurrentRoom(app.dungeon).monsters| - 1
    requires var room := D.CurrentRoom(app.dungeon);
      !IsAlive(Exchange(app.player, room.monsters[room.currentMonster]).1)
    ensures var r := HandleCombat(app, KeyEvent(Enter, Press));
      r.Success? && R.RoomCleared(D.CurrentRoom(r.value.dungeon)) && HandleCombat(r.value, key).Failure?
  {
  }

  /** `handle_change_weapon`. Nothing happens unless a treasure of the current
      room holds a weapon. Enter equips the first such weapon when Yes is
      selected, then moves on: to the next room's loading screen, to the main
      menu after the last room, or back to combat while monsters remain. */
  function HandleChangeWeapon(app: App, key: KeyEvent): (r: Result<App, string>)
    ensures r.Failure? <==> !D.Valid(app.dungeon)
    ensures r.Success? && !R.ContainsWeapon(D.CurrentRoom(app.dungeon).treasures) ==> r.value == app
    ensures r.Success? && key.code != Enter ==> SameButCursors(r.value, app)
    ensures r.Success? && R.ContainsWeapon(D.CurrentRoom(app.dungeon).treasures) && key.code == Up ==>
      r.value == OptionUp(app)
    ensures r.Success? && R.ContainsWeapon(D.CurrentRoom(app.dungeon).treasures) && key.code == Down ==>
      r.value == OptionDown(app)
    ensures r.Success? && key.code !in {Up, Down, Enter} ==> r.value == app
    ensures r.Success? && key.code == Enter && R.ContainsWeapon(D.CurrentRoom(app.dungeon).treasures) ==>
      var room := D.CurrentRoom(app.dungeon);
      var a := r.value;
      && a.(player := app.player, dungeon := app.dungeon, screen := app.screen) == app
      && a.dungeon.(currentRoom := app.dungeon.currentRoom) == app.dungeon
      && a.player == (if app.changeWeaponOption == Yes then Equip(app.player, R.FirstWeapon(room.treasures)) else app.player)
      && a.dungeon.rooms == app.dungeon.rooms
      && (!R.RoomCleared(room) ==> a.screen == CombatLoading && a.dungeon == app.dungeon)
      && (R.RoomCleared(room) && D.IsThereRoomsLeft(app.dungeon) ==>
            a.screen == RoomLoading && a.dungeon.currentRoom == app.dungeon.currentRoom + 1)
      && (R.RoomCleared(room) && !D.IsThereRoomsLeft(app.dungeon) ==>
            a.screen == MainMenu && a.dungeon == app.dungeon)
  {
    if !D.Valid(app.dungeon) then Failure(IndexOutOfBounds)
    else
      var room := D.CurrentRoom(app.dungeon);
      if !R.ContainsWeapon(room.treasures) then Success(app)
      else
        match key.code
        case Enter =>
          var p := match app.changeWeaponOption
            case Yes => Equip(app.player, R.FirstWeapon(room.treasures))
            case No => app.player;
          var a := app.(player := p);
          if R.RoomCleared(room) then
            if D.IsThereRoomsLeft(app.dungeon) then
              Success(SwitchScreen(a.(dungeon := D.NextRoom(app.dungeon)), RoomLoading))
            else
              Success(SwitchScreen(a, MainMenu))
          else
            Success(SwitchScreen(a, CombatLoading))
        case Up => Success(OptionUp(app))
        case Down => Success(OptionDown(app))
        case _ => Success(app)
  }

  /** Enter on the weapon screen of a cleared room that is not the last moves
      the cursor on to the next room, which is valid, and shows its loading screen. */
  lemma ClearedRoomMovesOn(app: App)
    requires D.Valid(app.dungeon) && R.ContainsWeapon(D.CurrentRoom(app.dungeon).treasures)
    requires R.RoomCleared(D.CurrentRoom(app.dungeon)) && D.IsThereRoomsLeft(app.dungeon)
    ensures var r := HandleChangeWeapon(app, KeyEvent(Enter, Press));
      r.Success? && r.value.screen == RoomLoading && D.Valid(r.value.dungeon)
      && D.CurrentRoom(r.value.dungeon) == app.dungeon.rooms[app.dungeon.currentRoom + 1]
  {
  }

  /** After the last room, Enter on the weapon screen goes back to the main
      menu with the dungeon left as it was, and a following "New Game" builds
      a fresh dungeon whose cursor is on its first room. */
  lemma LastRoomReturnsToMenu(app: App, draws: seq<R.RoomDraws>)
    requires D.Valid(app.dungeon) && R.ContainsWeapon(D.CurrentRoom(app.dungeon).treasures)
    requires R.RoomCleared(D.CurrentRoom(app.dungeon)) && !D.IsThereRoomsLeft(app.dungeon)
    ensures var r := HandleChangeWeapon(app, KeyEvent(Enter, Press));
      r.Success? && r.value.screen == MainMenu && r.value.dungeon == app.dungeon
      && r.value.mainMenuOption == app.mainMenuOption
      && (app.changeWeaponOption == No ==> r.value == SwitchScreen(app, MainMenu))
      && (app.changeWeaponOption == Yes ==> r.value.player.weapon == Some(R.FirstWeapon(D.CurrentRoom(app.dungeon).treasures)))
    ensures var r := HandleChangeWeapon(app, KeyEvent(Enter, Press));
      var o := HandleMainScreen(r.value, KeyEvent(Enter, Press), draws);
      app.mainMenuOption == NewGame && o.Handled? ==>
        o.app.screen == DungeonLoading && o.app.dungeon.currentRoom == 0 && |o.app.dungeon.rooms| == 5
  {
  }
}
