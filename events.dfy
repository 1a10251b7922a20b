/** The event manager's handlers: key presses and releases, mouse motion and buttons, and the
    quit request. Build mode and seed mode are toggled by T and Y, which never leave both on. */
module Events {
  import opened Tiles
  import opened Game

  /** The keys do_key_down and do_key_up distinguish; OtherKey is any other key. */
  datatype Keycode = KeyP | KeyEscape | KeyQ | KeyW | KeyS | KeyA | KeyD | KeyT | KeyY
                   | KeyNum1 | KeyNum2 | OtherKey

  /** The events do_event distinguishes. A key event may come without a keycode. */
  datatype Event =
    | Quit
    | KeyDown(downKey: Option<Keycode>)
    | KeyUp(upKey: Option<Keycode>)
    | MouseMotion(x: int, y: int)
    | MouseButtonDown(button: MouseButton)
    | MouseButtonUp
    | OtherEvent

  /** The GameManager flags the key handlers set. */
  datatype Flags = Flags(buildMode: bool, seedMode: bool, quit: bool,
                         up: bool, down: bool, left: bool, right: bool)

  function FlagsOf(game: GameManager): Flags
    reads game
  {
    Flags(game.buildMode, game.seedMode, game.quit, game.up, game.down, game.left, game.right)
  }

  /** The game's flags are those of f, field by field. */
  predicate FlagsAre(game: GameManager, f: Flags)
    reads game
  {
    game.buildMode == f.buildMode && game.seedMode == f.seedMode && game.quit == f.quit &&
    game.up == f.up && game.down == f.down && game.left == f.left && game.right == f.right
  }

  predicate ModesExclusive(f: Flags) {
    !(f.buildMode && f.seedMode)
  }

  /** Reference effect of a key press on the flags. */
  function KeyDownFlags(f: Flags, k: Keycode): Flags
  {
    match k
    case KeyEscape => f.(quit := true)
    case KeyQ => f.(quit := true)
    case KeyW => f.(up := true)
    case KeyS => f.(down := true)
    case KeyA => f.(left := true)
    case KeyD => f.(right := true)
    case KeyT => if f.buildMode then f.(buildMode := false) else f.(buildMode := true, seedMode := false)
    case KeyY => if f.seedMode then f.(seedMode := false) else f.(seedMode := true, buildMode := false)
    case _ => f
  }

  /** T switches build mode off, or on while switching seed mode off; Y does the same the other
      way round; no other key touches the modes. */
  lemma KeyDownToggles(f: Flags, k: Keycode)
    ensures var r := KeyDownFlags(f, k);
      k == KeyT && f.buildMode ==> !r.buildMode && r.seedMode == f.seedMode
    ensures var r := KeyDownFlags(f, k);
      k == KeyT && !f.buildMode ==> r.buildMode && !r.seedMode
    ensures var r := KeyDownFlags(f, k);
      k == KeyY && f.seedMode ==> !r.seedMode && r.buildMode == f.buildMode
    ensures var r := KeyDownFlags(f, k);
      k == KeyY && !f.seedMode ==> r.seedMode && !r.buildMode
    ensures var r := KeyDownFlags(f, k);
      k != KeyT && k != KeyY ==> r.buildMode == f.buildMode && r.seedMode == f.seedMode
  {
    match k {
      case KeyP => case KeyEscape => case KeyQ => case KeyW => case KeyS => case KeyA =>
      case KeyD => case KeyT => case KeyY => case KeyNum1 => case KeyNum2 => case OtherKey =>
    }
  }

  /** After T or Y the two modes are never both on, and no key switches both on. */
  lemma KeyDownExclusive(f: Flags, k: Keycode)
    ensures k == KeyT || k == KeyY ==> ModesExclusive(KeyDownFlags(f, k))
    ensures ModesExclusive(f) ==> ModesExclusive(KeyDownFlags(f, k))
  {
    match k {
      case KeyP => case KeyEscape => case KeyQ => case KeyW => case KeyS => case KeyA =>
      case KeyD => case KeyT => case KeyY => case KeyNum1 => case KeyNum2 => case OtherKey =>
    }
  }

  /** Escape and Q ask to quit, and W, S, A and D set their own direction; no other key
      changes these flags. */
  lemma KeyDownMoves(f: Flags, k: Keycode)
    ensures var r := KeyDownFlags(f, k);
      r.quit == (f.quit || k == KeyEscape || k == KeyQ)
    ensures var r := KeyDownFlags(f, k);
      r.up == (f.up || k == KeyW) && r.down == (f.down || k == KeyS)
    ensures var r := KeyDownFlags(f, k);
      r.left == (f.left || k == KeyA) && r.right == (f.right || k == KeyD)
  {
    match k {
      case KeyP => case KeyEscape => case KeyQ => case KeyW => case KeyS => case KeyA =>
      case KeyD => case KeyT => case KeyY => case KeyNum1 => case KeyNum2 => case OtherKey =>
    }
  }

  /** Reference effect of a key release on the flags. */
  function KeyUpFlags(f: Flags, k: Keycode): Flags
  {
    match k
    case KeyW => f.(up := false)
    case KeyS => f.(down := false)
    case KeyA => f.(left := false)
    case KeyD => f.(right := false)
    case _ => f
  }

  /** What a key release promises on every flag state. */
  lemma KeyUpRules(f: Flags, k: Keycode)
    ensures var r := KeyUpFlags(f, k);
      r.buildMode == f.buildMode && r.seedMode == f.seedMode && r.quit == f.quit
    ensures var r := KeyUpFlags(f, k);
      r.up == (f.up && k != KeyW) && r.down == (f.down && k != KeyS)
    ensures var r := KeyUpFlags(f, k);
      r.left == (f.left && k != KeyA) && r.right == (f.right && k != KeyD)
  {
    if k == KeyW {
    } else if k == KeyS {
    } else if k == KeyA {
    } else if k == KeyD {
    }
  }

  /** Pressing and releasing a direction key leaves that direction off and every other flag
      as the press found it. */
  lemma PressRelease(f: Flags, k: Keycode)
    requires k == KeyW || k == KeyS || k == KeyA || k == KeyD
    ensures KeyUpFlags(KeyDownFlags(f, k), k) ==
      match k
      case KeyW => f.(up := false)
      case KeyS => f.(down := false)
      case KeyA => f.(left := false)
      case _ => f.(right := false)
  {
  }

  /** Pressing T twice from any state with build mode off leaves both modes off. */
  lemma TTwice(f: Flags)
    requires !f.buildMode
    ensures var r := KeyDownFlags(KeyDownFlags(f, KeyT), KeyT);
      !r.buildMode && !r.seedMode
  {
  }

  /** The flags after a sequence of key presses (true) and releases (false). */
  function AfterKeys(f: Flags, keys: seq<(bool, Keycode)>): Flags
    decreases |keys|
  {
    if keys == [] then f
    else
      var k := keys[|keys| - 1].1;
      var g := AfterKeys(f, keys[..|keys| - 1]);
      if keys[|keys| - 1].0 then KeyDownFlags(g, k) else KeyUpFlags(g, k)
  }

  /** Any sequence of key presses and releases keeps the two modes exclusive. */
  lemma {:induction false} KeysKeepModesExclusive(f: Flags, keys: seq<(bool, Keycode)>)
    requires ModesExclusive(f)
    ensures ModesExclusive(AfterKeys(f, keys))
    decreases |keys|
  {
    if keys != [] {
      var g := AfterKeys(f, keys[..|keys| - 1]);
      KeysKeepModesExclusive(f, keys[..|keys| - 1]);
      KeyDownExclusive(g, keys[|keys| - 1].1);
      KeyUpRules(g, keys[|keys| - 1].1);
    }
  }

  /** do_key_down: P clears the tower list and the target list; every other key acts on the
      flags only (Num1, Num2 and the rest only print). */
  method DoKeyDown(game: GameManager, towers: TowerManager, key: Keycode)
    modifies game`buildMode, game`seedMode, game`quit, game`up, game`down, game`left, game`right
    modifies game`targetVec, towers`towerVec
    ensures FlagsAre(game, KeyDownFlags(old(FlagsOf(game)), key))
    ensures key == KeyP ==> game.targetVec == [] && towers.towerVec == []
    ensures key != KeyP ==>
      game.targetVec == old(game.targetVec) && towers.towerVec == old(towers.towerVec)
  {
    match key {
      case KeyP =>
        towers.towerVec := [];
        game.targetVec := [];
      case KeyEscape => game.quit := true;
      case KeyQ => game.quit := true;
      case KeyW => game.up := true;
      case KeyS => game.down := true;
      case KeyA => game.left := true;
      case KeyD => game.right := true;
      case KeyT => ToggleBuild(game);
      case KeyY => ToggleSeed(game);
      case KeyNum1 =>
      case KeyNum2 =>
      case OtherKey =>
    }
  }

  /** The T key of do_key_down. */
  method ToggleBuild(game: GameManager)
    modifies game`buildMode, game`seedMode
    ensures FlagsAre(game, KeyDownFlags(old(FlagsOf(game)), KeyT))
  {
    if game.buildMode {
      game.buildMode := false;
    } else {
      game.buildMode := true;
      game.seedMode := false;
      return;
    }
  }

  /** The Y key of do_key_down. */
  method ToggleSeed(game: GameManager)
    modifies game`buildMode, game`seedMode
    ensures FlagsAre(game, KeyDownFlags(old(FlagsOf(game)), KeyY))
  {
    if game.seedMode {
      game.seedMode := false;
    } else {
      game.seedMode := true;
      game.buildMode := false;
      return;
    }
  }

  /** do_key_up: W, S, A and D clear their direction; other keys do nothing. */
  method DoKeyUp(game: GameManager, key: Keycode)
    modifies game`up, game`down, game`left, game`right
    ensures FlagsAre(game, KeyUpFlags(old(FlagsOf(game)), key))
  {
    match key {
      case KeyW => game.up := false;
      case KeyS => game.down := false;
      case KeyA => game.left := false;
      case KeyD => game.right := false;
      case _ =>
    }
  }

  /** One event of do_event's loop. `stop` tells whether the loop breaks after it: it does
      after a quit and after a key event that carries a keycode. */
  method DoEvent(game: GameManager, towers: TowerManager, ev: Event) returns (stop: bool)
    modifies game`buildMode, game`seedMode, game`quit, game`up, game`down, game`left, game`right
    modifies game`targetVec, towers`towerVec, game`mousePoint, game`mouseButton
    ensures stop <==> ev.Quit? || (ev.KeyDown? && ev.downKey.Some?) || (ev.KeyUp? && ev.upKey.Some?)
    ensures ev.Quit? ==> FlagsAre(game, old(FlagsOf(game)).(quit := true))
    ensures ev.KeyDown? && ev.downKey.Some? ==>
      FlagsAre(game, KeyDownFlags(old(FlagsOf(game)), ev.downKey.value))
    ensures ev.KeyUp? && ev.upKey.Some? ==>
      FlagsAre(game, KeyUpFlags(old(FlagsOf(game)), ev.upKey.value))
    ensures !stop ==> FlagsAre(game, old(FlagsOf(game)))
    // the pointer: motion moves it, a press records the button, a release resets it
    ensures game.mousePoint == if ev.MouseMotion? then (ev.x, ev.y) else old(game.mousePoint)
    ensures game.mouseButton ==
      match ev
      case MouseButtonDown(b) => b
      case MouseButtonUp => Unknown
      case _ => old(game.mouseButton)
    // only P clears the lists
    ensures ev == KeyDown(Some(KeyP)) ==> game.targetVec == [] && towers.towerVec == []
    ensures ev != KeyDown(Some(KeyP)) ==>
      game.targetVec == old(game.targetVec) && towers.towerVec == old(towers.towerVec)
  {
    stop := false;
    match ev {
      case Quit =>
        game.quit := true;
        stop := true;
      case KeyDown(k) =>
        if k.Some? {
          DoKeyDown(game, towers, k.value);
          stop := true;
        }
      case KeyUp(k) =>
        if k.Some? {
          DoKeyUp(game, k.value);
          stop := true;
        }
      case MouseMotion(x, y) =>
        game.mousePoint := (x, y);
      case MouseButtonDown(b) =>
        game.mouseButton := b;
      case MouseButtonUp =>
        game.mouseButton := Unknown;
      case OtherEvent =>
    }
  }
}
