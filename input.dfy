/**
 * input.ts: the keyboard-driven input modes. The current mode owns a cursor
 * that direction keys move inside the map; in Wall mode every step is
 * recorded on a path, which Enter turns into wall objects and Escape drops.
 */
module Input {
  import opened Wrappers
  import opened Grid

  /** Which mode class is current: `MoveMode` or `WallMode`. */
  datatype ModeKind = MoveKind | WallKind

  /** The effect of a mode's `key_<name>` method. */
  datatype Handler = Step(dx: int, dy: int) | EnterWallMode | ConfirmWall | CancelWall

  /** The `key_<name>` method the given mode has, if any: the eight direction
      keys in every mode, `w` in Move mode, `Escape` and `Enter` in Wall mode. */
  function HandlerFor(kind: ModeKind, name: string): (r: Option<Handler>)
    ensures r == Some(EnterWallMode) ==> kind == MoveKind
    ensures r == Some(ConfirmWall) || r == Some(CancelWall) ==> kind == WallKind
    ensures r.Some? && r.value.Step? ==> -1 <= r.value.dx <= 1 && -1 <= r.value.dy <= 1
  {
    if name == "ArrowRight" then Some(Step(1, 0))
    else if name == "ArrowLeft" then Some(Step(-1, 0))
    else if name == "ArrowDown" then Some(Step(0, 1))
    else if name == "ArrowUp" then Some(Step(0, -1))
    else if name == "PageUp" then Some(Step(1, -1))
    else if name == "PageDown" then Some(Step(1, 1))
    else if name == "Home" then Some(Step(-1, -1))
    else if name == "End" then Some(Step(-1, 1))
    else if kind == MoveKind && name == "w" then Some(EnterWallMode)
    else if kind == WallKind && name == "Escape" then Some(CancelWall)
    else if kind == WallKind && name == "Enter" then Some(ConfirmWall)
    else None
  }

  /** The deltas of the eight direction keys, the same in both modes. */
  lemma DirectionKeys(kind: ModeKind)
    ensures HandlerFor(kind, "ArrowRight") == Some(Step(1, 0))
    ensures HandlerFor(kind, "ArrowLeft") == Some(Step(-1, 0))
    ensures HandlerFor(kind, "ArrowDown") == Some(Step(0, 1))
    ensures HandlerFor(kind, "ArrowUp") == Some(Step(0, -1))
    ensures HandlerFor(kind, "PageUp") == Some(Step(1, -1))
    ensures HandlerFor(kind, "PageDown") == Some(Step(1, 1))
    ensures HandlerFor(kind, "Home") == Some(Step(-1, -1))
    ensures HandlerFor(kind, "End") == Some(Step(-1, 1))
  {
  }

  /** Mode-specific keys: `w` only in Move mode, `Enter` and `Escape` only in Wall mode. */
  lemma ModeKeys()
    ensures HandlerFor(MoveKind, "w") == Some(EnterWallMode) && HandlerFor(WallKind, "w") == None
    ensures HandlerFor(WallKind, "Enter") == Some(ConfirmWall) && HandlerFor(MoveKind, "Enter") == None
    ensures HandlerFor(WallKind, "Escape") == Some(CancelWall) && HandlerFor(MoveKind, "Escape") == None
  {
  }

  /** `KeyboardEvent.DOM_KEY_LOCATION_NUMPAD`. */
  const DOM_KEY_LOCATION_NUMPAD := 3

  /** `NUMPAD_TO_ARROW`, keyed by the digit the numpad reports. */
  const NUMPAD_TO_ARROW: map<string, string> := map[
    "1" := "End", "2" := "DownArrow", "3" := "PageDown", "4" := "LeftArrow",
    "6" := "RightArrow", "7" := "Home", "8" := "UpArrow", "9" := "PageUp"]

  /** The fields of a `keydown` event the handler looks at. */
  datatype KeyEvent = KeyEvent(key: string, location: int, repeat: bool,
                               altKey: bool, ctrlKey: bool, metaKey: bool)

  /** The key name after numpad translation: `NUMPAD_TO_ARROW[key] ?? key`. */
  function TranslatedKey(ev: KeyEvent): string
  {
    if ev.location == DOM_KEY_LOCATION_NUMPAD && ev.key in NUMPAD_TO_ARROW
    then NUMPAD_TO_ARROW[ev.key] else ev.key
  }

  /** The handler `handleKeyDown` calls for an event in the given mode, if any. */
  function Dispatch(kind: ModeKind, ev: KeyEvent): (r: Option<Handler>)
    ensures ev.altKey || ev.ctrlKey || ev.metaKey || ev.repeat ==> r == None
    ensures r.Some? ==> r == HandlerFor(kind, TranslatedKey(ev))
  {
    if ev.altKey || ev.ctrlKey || ev.metaKey then None
    else
      var h := HandlerFor(kind, TranslatedKey(ev));
      if h.Some? && !ev.repeat then h else None
  }

  /** An unmodified, non-repeated key reaches the current mode's handler. */
  lemma DispatchPlainKey(kind: ModeKind, ev: KeyEvent)
    requires !ev.altKey && !ev.ctrlKey && !ev.metaKey && !ev.repeat
    ensures Dispatch(kind, ev) == HandlerFor(kind, TranslatedKey(ev))
  {
  }

  /** Numpad 7, 9, 1 and 3 act as Home, PageUp, End and PageDown. */
  lemma NumpadDiagonals(kind: ModeKind, ev: KeyEvent)
    requires !ev.altKey && !ev.ctrlKey && !ev.metaKey && !ev.repeat
    requires ev.location == DOM_KEY_LOCATION_NUMPAD
    ensures ev.key == "7" ==> Dispatch(kind, ev) == Some(Step(-1, -1))
    ensures ev.key == "9" ==> Dispatch(kind, ev) == Some(Step(1, -1))
    ensures ev.key == "1" ==> Dispatch(kind, ev) == Some(Step(-1, 1))
    ensures ev.key == "3" ==> Dispatch(kind, ev) == Some(Step(1, 1))
  {
  }

  /** Numpad 2, 4, 6 and 8 translate to names no mode has a handler for
      ("DownArrow" and so on), so they do nothing. */
  lemma NumpadArrowsIgnored(kind: ModeKind, ev: KeyEvent)
    requires ev.location == DOM_KEY_LOCATION_NUMPAD
    requires ev.key == "2" || ev.key == "4" || ev.key == "6" || ev.key == "8"
    ensures Dispatch(kind, ev) == None
  {
  }

  // ---------------------------------------------------------------------
  // The cursor of a mode
  // ---------------------------------------------------------------------

  /** The cursor position and the path a mode has recorded. */
  datatype Cursor = Cursor(x: int, y: int, path: seq<Point>)

  /** A mode's cursor is inside the map, so is every recorded path point,
      and Move mode records nothing. */
  ghost predicate CursorValid(kind: ModeKind, c: Cursor)
  {
    && GameMap.InBounds(Point(c.x, c.y))
    && (forall i :: 0 <= i < |c.path| ==> GameMap.InBounds(c.path[i]))
    && (kind == MoveKind ==> c.path == [])
  }

  /** The cursor after `moveBy(dx, dy)`: the step is taken only when its
      target is inside the map, and then `moved()` records it in Wall mode. */
  function Stepped(kind: ModeKind, c: Cursor, dx: int, dy: int): Cursor
  {
    var t := Point(c.x + dx, c.y + dy);
    if !GameMap.InBounds(t) then c
    else Cursor(t.x, t.y, if kind == WallKind then c.path + [t] else c.path)
  }

  /** A step keeps the cursor and the path inside the map. */
  lemma SteppedKeepsValid(kind: ModeKind, c: Cursor, dx: int, dy: int)
    requires CursorValid(kind, c)
    ensures CursorValid(kind, Stepped(kind, c, dx, dy))
  {
  }

  /** A step moves the cursor by exactly (dx, dy) or not at all, and in
      Wall mode a step that moves appends exactly the new position to the path. */
  lemma SteppedMoves(kind: ModeKind, c: Cursor, dx: int, dy: int)
    ensures var r := Stepped(kind, c, dx, dy);
      var moved := GameMap.InBounds(Point(c.x + dx, c.y + dy));
      && (moved ==> r.x == c.x + dx && r.y == c.y + dy)
      && (!moved ==> r == c)
      && |r.path| == |c.path| + (if moved && kind == WallKind then 1 else 0)
      && r.path[..|c.path|] == c.path
      && (moved && kind == WallKind ==> r.path[|c.path|] == Point(r.x, r.y))
  {
  }

  /** An `InputMode` object; `kind` stands for its class. */
  class InputMode {
    const kind: ModeKind
    var x: int
    var y: int
    /** `WallMode.path`; a Move mode object keeps it empty. */
    var path: seq<Point>

    ghost function State(): Cursor
      reads this
    {
      Cursor(x, y, path)
    }

    ghost predicate Valid()
      reads this
    {
      CursorValid(kind, State())
    }

    /** A new mode object at (x, y). The `moved()` the source defers to a
        zero-delay timer runs at once, so a Wall mode starts its path at (x, y). */
    constructor (kind: ModeKind, x: int, y: int)
      ensures this.kind == kind && this.x == x && this.y == y
      ensures path == if kind == WallKind then [Point(x, y)] else []
    {
      this.kind := kind;
      this.x := x;
      this.y := y;
      path := [];
      new;
      Moved();
    }

    /** `moved()`: a no-op in Move mode; Wall mode pushes the cursor onto the path. */
    method Moved()
      modifies this`path
      ensures path == if kind == WallKind then old(path) + [Point(x, y)] else old(path)
    {
      if kind == WallKind {
        path := path + [Point(x, y)];
      }
    }

    /** `moveBy(dx, dy)`; the redraw that follows a step is not modelled. */
    method MoveBy(dx: int, dy: int)
      requires Valid()
      modifies this
      ensures Valid()
      ensures State() == Stepped(kind, old(State()), dx, dy)
    {
      if GameMap.InBounds(Point(x + dx, y + dy)) {
        x := x + dx;
        y := y + dy;
        Moved();
      }
      SteppedKeepsValid(kind, old(State()), dx, dy);
    }
  }

  /** The module state of input.ts: the map it edits and the `current` mode. */
  class Input {
    const gameMap: GameMap
    var current: InputMode

    ghost predicate Valid()
      reads this, current, gameMap
    {
      current.Valid() && gameMap.Valid()
    }

    /** `current = new MoveMode(5, 5)`. */
    constructor (gameMap: GameMap)
      requires gameMap.Valid()
      ensures Valid() && this.gameMap == gameMap && fresh(current)
      ensures current.kind == MoveKind && current.State() == Cursor(5, 5, [])
    {
      this.gameMap := gameMap;
      current := new InputMode(MoveKind, 5, 5);
    }

    /** `setInputMode(mode)`: a fresh mode object at the old cursor position. */
    method SetInputMode(kind: ModeKind)
      requires Valid()
      modifies this
      ensures Valid() && fresh(current)
      ensures current.kind == kind
      ensures current.State() == Cursor(old(current.x), old(current.y),
        if kind == WallKind then [Point(old(current.x), old(current.y))] else [])
    {
      current := new InputMode(kind, current.x, current.y);
    }

    /** `MoveMode.key_w`: start drawing a wall path at the cursor. */
    method KeyW()
      requires Valid() && current.kind == MoveKind
      modifies this
      ensures Valid() && fresh(current)
      ensures current.kind == WallKind
      ensures current.State() == Cursor(old(current.x), old(current.y), [Point(old(current.x), old(current.y))])
    {
      SetInputMode(WallKind);
    }

    /** `WallMode.key_Escape`: back to Move mode, no object written. */
    method KeyEscape()
      requires Valid() && current.kind == WallKind
      modifies this
      ensures Valid() && fresh(current)
      ensures current.kind == MoveKind
      ensures current.State() == Cursor(old(current.x), old(current.y), [])
      ensures gameMap.objects.entries == old(gameMap.objects.entries)
    {
      SetInputMode(MoveKind);
    }

    /** `WallMode.key_Enter`: write a wall object at every path point, in
        path order, then go back to Move mode. */
    method KeyEnter()
      requires Valid() && current.kind == WallKind
      modifies this, gameMap.objects
      ensures Valid() && fresh(current)
      ensures current.kind == MoveKind
      ensures current.State() == Cursor(old(current.x), old(current.y), [])
      ensures gameMap.objects.entries == SetAll(old(gameMap.objects.entries), PointKey, old(current.path), Wall)
    {
      var path := current.path;
      for i := 0 to |path|
        modifies gameMap.objects
        invariant gameMap.objects.entries == SetAll(old(gameMap.objects.entries), PointKey, path[..i], Wall)
      {
        assert path[..i + 1][..i] == path[..i];
        gameMap.objects.Set(path[i], Wall);
      }
      assert path[..|path|] == path;
      SetInputMode(MoveKind);
    }

    /** `handleKeyDown(event)`: filter the event, translate numpad keys and
        call the current mode's handler for the key, if it has one. */
    method HandleKeyDown(ev: KeyEvent)
      requires Valid()
      modifies this, current, gameMap.objects
      ensures Valid()
      ensures match Dispatch(old(current.kind), ev)
        case None =>
          && current == old(current) && current.State() == old(current.State())
          && gameMap.objects.entries == old(gameMap.objects.entries)
        case Some(Step(dx, dy)) =>
          && current == old(current)
          && current.State() == Stepped(current.kind, old(current.State()), dx, dy)
          && gameMap.objects.entries == old(gameMap.objects.entries)
        case Some(EnterWallMode) =>
          && fresh(current) && current.kind == WallKind
          && current.State() == Cursor(old(current.x), old(current.y), [Point(old(current.x), old(current.y))])
          && gameMap.objects.entries == old(gameMap.objects.entries)
        case Some(CancelWall) =>
          && fresh(current) && current.kind == MoveKind
          && current.State() == Cursor(old(current.x), old(current.y), [])
          && gameMap.objects.entries == old(gameMap.objects.entries)
        case Some(ConfirmWall) =>
          && fresh(current) && current.kind == MoveKind
          && current.State() == Cursor(old(current.x), old(current.y), [])
          && gameMap.objects.entries == SetAll(old(gameMap.objects.entries), PointKey, old(current.path), Wall)
    {
      match Dispatch(current.kind, ev)
      case None =>
      case Some(Step(dx, dy)) =>
        current.MoveBy(dx, dy);
      case Some(EnterWallMode) =>
        KeyW();
      case Some(CancelWall) =>
        KeyEscape();
      case Some(ConfirmWall) =>
        KeyEnter();
    }
  }
}
