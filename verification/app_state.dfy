/** The application record of `src/app.rs`: the active screen, the menu
    cursors, the dungeon and the player, with the menu moves, the screen switch
    and the new-game constructors. */
module AppState {
  import opened Wrappers
  import opened Arith
  import opened Entity
  import R = Rooms
  import D = Dungeons

  /** Every screen the code names anywhere. */
  datatype Screen =
    | MainMenu
    | DungeonLoading
    | RoomLoading
    | Room
    | CombatLoading
    | Combat
    | DefeatMonster
    | DeadPlayer
    | RoomResult

  datatype MainMenuOption = NewGame | LoadGame | Quit

  datatype CombatOption = Attack | Run

  datatype ChangeWeaponOption = Yes | No

  /** The fields `app.rs` declares together with the two option cursors the
      key handlers read. */
  datatype App = App(
    screen: Screen,
    mainMenuOption: MainMenuOption,
    combatOption: CombatOption,
    changeWeaponOption: ChangeWeaponOption,
    dungeon: D.Dungeon,
    player: Player,
    currentRoom: nat)

  /** `App::default`: the main menu with "New Game" selected, an empty dungeon,
      and a placeholder player that nothing reads before a new game replaces it. */
  function DefaultApp(): (a: App)
    ensures a.screen == MainMenu && a.mainMenuOption == NewGame
    ensures a.dungeon.rooms == [] && a.dungeon.currentRoom == 0
  {
    App(MainMenu, NewGame, Attack, Yes, D.Dungeon([], 0, 0), Player("", 0, 0, 0, 0, None), 0)
  }

  /** The position of a main-menu entry, top to bottom. */
  function MenuIndex(o: MainMenuOption): nat {
    match o
    case NewGame => 0
    case LoadGame => 1
    case Quit => 2
  }

  /** Down on the main menu: one entry lower, stopping at "Quit". */
  function MenuDown(o: MainMenuOption): (r: MainMenuOption)
    ensures MenuIndex(r) == Min(MenuIndex(o) + 1, 2)
  {
    match o
    case NewGame => LoadGame
    case _ => Quit
  }

  /** Up on the main menu: one entry higher, stopping at "New Game". */
  function MenuUp(o: MainMenuOption): (r: MainMenuOption)
    ensures MenuIndex(r) == Max(MenuIndex(o) - 1, 0)
  {
    match o
    case Quit => LoadGame
    case _ => NewGame
  }

  /** There is no wraparound, and two presses reach either end from anywhere. */
  lemma MenuEndsWithinTwo(o: MainMenuOption)
    ensures MenuDown(MenuDown(o)) == Quit && MenuUp(MenuUp(o)) == NewGame
    ensures MenuDown(Quit) == Quit && MenuUp(NewGame) == NewGame
  {
  }

  /** `App::option_down` of `app.rs`: only the main-menu cursor moves. */
  function AppOptionDown(app: App): (r: App)
    ensures r.(mainMenuOption := app.mainMenuOption) == app
    ensures MenuIndex(r.mainMenuOption) == Min(MenuIndex(app.mainMenuOption) + 1, 2)
  {
    app.(mainMenuOption := MenuDown(app.mainMenuOption))
  }

  /** `App::option_up` of `app.rs`: only the main-menu cursor moves. */
  function AppOptionUp(app: App): (r: App)
    ensures r.(mainMenuOption := app.mainMenuOption) == app
    ensures MenuIndex(r.mainMenuOption) == Max(MenuIndex(app.mainMenuOption) - 1, 0)
  {
    app.(mainMenuOption := MenuUp(app.mainMenuOption))
  }

  /** `switch_screen`: the screen becomes the argument and nothing else changes. */
  function SwitchScreen(app: App, s: Screen): (r: App)
    ensures r.screen == s
    ensures r.(screen := app.screen) == app
  {
    app.(screen := s)
  }

  /** `create_player`: a fresh player named "You". */
  function CreatePlayer(app: App): (r: App)
    ensures r.player == NewPlayer("You") && !IsDead(r.player)
    ensures r.(player := app.player) == app
  {
    app.(player := NewPlayer("You"))
  }

  /** `create_dungeon`: a level-1 dungeon of five rooms, cursor on the first.
      None when the room draws run out before every threat loop ends. */
  function CreateDungeon(app: App, draws: seq<R.RoomDraws>): (r: Option<App>)
    ensures r.Some? <==> D.NewDungeon(1, 5, draws).Some?
    ensures r.Some? ==> r.value.(dungeon := app.dungeon) == app
    ensures r.Some? ==>
      (|r.value.dungeon.rooms| == 5 && r.value.dungeon.currentRoom == 0
       && r.value.dungeon.level == 1 && D.Valid(r.value.dungeon))
  {
    match D.NewDungeon(1, 5, draws)
    case None => None
    case Some(d) => Some(app.(dungeon := d))
  }

  /** The five rooms of a new game hold threat budgets 1, 1, 1, 1 and 2. */
  lemma NewGameBudgets(j: int)
    requires 0 <= j < 5
    ensures D.RoomThreat(1, 5, j) == if j == 4 then 2 else 1
  {
  }
}
