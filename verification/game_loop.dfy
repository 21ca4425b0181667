/** The event loop of `App::run` in `src/app.rs`, one pass at a time: the two
    loading screens advance on their own, every other screen waits for an
    event, and only key presses reach the handlers. Drawing and the one-second
    pauses are left out; reading an event is a parameter. */
module GameLoop {
  import opened Wrappers
  import opened Entity
  import R = Rooms
  import D = Dungeons
  import opened AppState
  import opened Keybinds

  datatype Event = Key(key: KeyEvent) | OtherEvent

  /** Where one pass of the loop leaves the game: still running, out of the
      loop, ended by a panic, or out of room draws while starting a game. */
  datatype LoopOutcome = Running(app: App) | Exited(app: App) | Crashed(reason: string) | OutOfDraws

  /** The screens the loop ever shows: it dispatches keys only to the main
      menu and room handlers, so combat and the screens after it never appear. */
  predicate LoopScreen(s: Screen) {
    s in {MainMenu, DungeonLoading, RoomLoading, Room, CombatLoading}
  }

  /** Off the main menu there is a dungeon whose cursor points at a room. */
  predicate Consistent(app: App) {
    LoopScreen(app.screen) && (app.screen != MainMenu ==> D.Valid(app.dungeon))
  }

  /** One pass of the loop. Drawing comes first, and drawing the weapon-swap
      screen panics. The event is read only when the screen is not a loading
      screen. The main-menu handler runs on the main menu, then the room
      handler runs if the screen is (now) the room screen; a press of Esc or a
      quit request ends the loop after the handlers. */
  function Step(app: App, ev: Event, draws: seq<R.RoomDraws>): (o: LoopOutcome)
    ensures app.screen == RoomResult ==> o == Crashed(NotImplemented)
    ensures app.screen == RoomLoading ==> o == Running(SwitchScreen(app, Room))
    ensures app.screen == DungeonLoading ==> o == Running(SwitchScreen(app, RoomLoading))
    ensures app.screen !in {RoomLoading, DungeonLoading, RoomResult} && (ev.OtherEvent? || ev.key.kind != Press) ==>
      o == Running(app)
    ensures o.Exited? ==>
      (ev.Key? && ev.key.kind == Press
       && (ev.key.code == Esc || (app.screen == MainMenu && ev.key.code == Enter && app.mainMenuOption == Quit)))
    ensures app.screen !in {RoomLoading, DungeonLoading, RoomResult} && ev == Key(KeyEvent(Esc, Press)) && !o.Crashed? ==>
      o.Exited?
    ensures o.Crashed? <==>
      (app.screen == RoomResult
       || (ev.Key? && ev.key.kind == Press && ev.key.code == Enter
           && ((app.screen == MainMenu && app.mainMenuOption == LoadGame) || (app.screen == Room && !D.Valid(app.dungeon)))))
    ensures app.screen == MainMenu && ev.Key? && ev.key.kind == Press ==>
      var h := HandleMainScreen(app, ev.key, draws);
      && (h.Panicked? ==> o == Crashed(h.reason))
      && (h.Starved? ==> o == OutOfDraws)
      && (h.Handled? ==> o == if ev.key.code == Esc || h.quitting then Exited(h.app) else Running(h.app))
    ensures app.screen == Room && ev.Key? && ev.key.kind == Press ==>
      var h := HandleRoom(app, ev.key);
      && (h.Failure? ==> o == Crashed(h.error))
      && (h.Success? ==> o == if ev.key.code == Esc then Exited(h.value) else Running(h.value))
    ensures app.screen in {CombatLoading, Combat, DefeatMonster, DeadPlayer} && ev.Key? && ev.key.kind == Press ==>
      o == if ev.key.code == Esc then Exited(app) else Running(app)
  {
    if app.screen == RoomResult then Crashed(NotImplemented)
    else if app.screen == RoomLoading then Running(SwitchScreen(app, Room))
    else if app.screen == DungeonLoading then Running(SwitchScreen(app, RoomLoading))
    else
      match ev
      case OtherEvent => Running(app)
      case Key(key) =>
        if key.kind != Press then Running(app)
        else
          var first := if app.screen == MainMenu then HandleMainScreen(app, key, draws) else Handled(app, false);
          match first
          case Panicked(reason) => Crashed(reason)
          case Starved => OutOfDraws
          case Handled(a, quitting) =>
            if a.screen == Room then
              match HandleRoom(a, key)
              case Failure(reason) => Crashed(reason)
              case Success(b) => if key.code == Esc || quitting then Exited(b) else Running(b)
            else if key.code == Esc || quitting then Exited(a)
            else Running(a)
  }

  /** The loop keeps its invariant: every state it reaches shows a loop
      screen, and off the main menu the dungeon cursor is in range. */
  lemma StepPreservesConsistent(app: App, ev: Event, draws: seq<R.RoomDraws>)
    requires Consistent(app)
    ensures Step(app, ev, draws).Running? ==> Consistent(Step(app, ev, draws).app)
    ensures Step(app, ev, draws).Exited? ==> Consistent(Step(app, ev, draws).app)
  {
  }

  /** From a consistent state the only crash is choosing "Load Game". */
  lemma OnlyLoadGameCrashes(app: App, ev: Event, draws: seq<R.RoomDraws>)
    requires Consistent(app)
    ensures Step(app, ev, draws).Crashed? <==>
      (app.screen == MainMenu && ev == Key(KeyEvent(Enter, Press)) && app.mainMenuOption == LoadGame)
  {
  }

  /** The combat loading screen is a dead end: no event changes the game, and
      only Esc leaves it. */
  lemma CombatLoadingIsStuck(app: App, ev: Event, draws: seq<R.RoomDraws>)
    requires app.screen == CombatLoading
    ensures Step(app, ev, draws) == Running(app) || Step(app, ev, draws) == Exited(app)
    ensures Step(app, ev, draws).Exited? <==> ev == Key(KeyEvent(Esc, Press))
  {
  }

  /** How many passes a screen advances without reading an event. */
  function LoadingRank(s: Screen): nat {
    if s == DungeonLoading then 2 else if s == RoomLoading then 1 else 0
  }

  /** The loop over a finite list of events: passes on a loading screen read
      none, every other pass reads the next one, and the weapon-swap screen
      panics as soon as it is drawn. It stops when the loop does,
      or when the events run out. */
  function Run(app: App, events: seq<Event>, draws: seq<R.RoomDraws>): (o: LoopOutcome)
    ensures o.Running? ==> !(o.app.screen in {DungeonLoading, RoomLoading})
    ensures app.screen == RoomResult ==> o == Crashed(NotImplemented)
    decreases |events|, LoadingRank(app.screen)
  {
    if app.screen == RoomResult then Crashed(NotImplemented)
    else if app.screen == RoomLoading || app.screen == DungeonLoading then
      Run(Step(app, OtherEvent, draws).app, events, draws)
    else if |events| == 0 then Running(app)
    else
      match Step(app, events[0], draws)
      case Running(a) => Run(a, events[1..], draws)
      case other => other
  }

  /** From a consistent state the loop only ever reaches consistent states. */
  lemma {:induction false} RunPreservesConsistent(app: App, events: seq<Event>, draws: seq<R.RoomDraws>)
    requires Consistent(app)
    ensures Run(app, events, draws).Running? ==> Consistent(Run(app, events, draws).app)
    ensures Run(app, events, draws).Exited? ==> Consistent(Run(app, events, draws).app)
    decreases |events|, LoadingRank(app.screen)
  {
    if app.screen == RoomLoading || app.screen == DungeonLoading {
      StepPreservesConsistent(app, OtherEvent, draws);
      RunPreservesConsistent(Step(app, OtherEvent, draws).app, events, draws);
    } else if |events| > 0 {
      StepPreservesConsistent(app, events[0], draws);
      if Step(app, events[0], draws).Running? {
        RunPreservesConsistent(Step(app, events[0], draws).app, events[1..], draws);
      }
    }
  }

  /** Starting a game: from the default app, a press of Enter builds the
      player and the dungeon, and the loop passes through both loading screens
      to the first room without another event. */
  lemma NewGameReachesFirstRoom(draws: seq<R.RoomDraws>)
    requires D.NewDungeon(1, 5, draws).Some?
    ensures var o := Run(DefaultApp(), [Key(KeyEvent(Enter, Press))], draws);
      o.Running? && o.app.screen == Room && o.app.dungeon == D.NewDungeon(1, 5, draws).value
      && o.app.player == NewPlayer("You")
  {
    var app := DefaultApp();
    var ev := Key(KeyEvent(Enter, Press));
    var d := D.NewDungeon(1, 5, draws).value;
    var a1 := SwitchScreen(CreatePlayer(app).(dungeon := d), DungeonLoading);
    NewGameStep(app, draws);
    var a2 := SwitchScreen(a1, RoomLoading);
    var a3 := SwitchScreen(a2, Room);
    assert Run(app, [ev], draws) == Run(a1, [ev][1..], draws);
    assert [ev][1..] == [];
    assert Run(a1, [], draws) == Run(a2, [], draws);
    assert Run(a2, [], draws) == Run(a3, [], draws);
  }

  /** Enter on "New Game" is one pass of the loop to the dungeon loading screen. */
  lemma NewGameStep(app: App, draws: seq<R.RoomDraws>)
    requires app.screen == MainMenu && app.mainMenuOption == NewGame
    requires D.NewDungeon(1, 5, draws).Some?
    ensures Step(app, Key(KeyEvent(Enter, Press)), draws)
         == Running(SwitchScreen(CreatePlayer(app).(dungeon := D.NewDungeon(1, 5, draws).value), DungeonLoading))
  {
    NewGameHandled(app, draws);
  }

  /** The main-menu handler's answer to Enter on "New Game". */
  lemma NewGameHandled(app: App, draws: seq<R.RoomDraws>)
    requires app.mainMenuOption == NewGame
    requires D.NewDungeon(1, 5, draws).Some?
    ensures HandleMainScreen(app, KeyEvent(Enter, Press), draws)
         == Handled(SwitchScreen(CreatePlayer(app).(dungeon := D.NewDungeon(1, 5, draws).value), DungeonLoading), false)
  {
    assert CreateDungeon(CreatePlayer(app), draws) == Some(CreatePlayer(app).(dungeon := D.NewDungeon(1, 5, draws).value));
  }
}
