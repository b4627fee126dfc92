/** The application shell (App.tsx): the table of remote cursors, the
    keyboard shortcuts and the counters that trigger board actions, and the
    guards around an AI request. Clock readings are parameters. */
module App {
  import opened Types
  import opened Strings
  import opened Broadcasting
  import opened Gemini

  /** `remoteCursors`: one record per remote user id. */
  type Presence = map<string, UserCursor>

  /** `handleBroadcast` (lines 35-45): a CURSOR_MOVE replaces or inserts the
      sender's record with the sent fields, its id and the current time;
      every other record, and the whole table for any other event, is left
      as it was. */
  function Upsert(table: Presence, e: BroadcastEvent, now: int): (r: Presence)
    ensures e.Type() != CursorMove ==> r == table
    ensures e.Type() == CursorMove ==>
      && r.Keys == table.Keys + {e.userId}
      && r[e.userId] == UserCursor(e.userId, e.payload.x, e.payload.y, e.payload.name, e.payload.color, now)
      && (forall k :: k in table && k != e.userId ==> r[k] == table[k])
  {
    match e.payload
    case Cursor(x, y, name, color) => table[e.userId := UserCursor(e.userId, x, y, name, color, now)]
    case _ => table
  }

  /** A record more than the timeout old at `now`. */
  predicate Expired(c: UserCursor, now: int) {
    now - c.lastUpdate > CURSOR_TIMEOUT_MS
  }

  /** The records a sweep at `now` keeps. */
  function Live(table: Presence, now: int): Presence {
    map k | k in table && !Expired(table[k], now) :: table[k]
  }

  /** The cleanup interval's updater (lines 51-63): copies the table,
      deletes every expired record and returns the copy if anything was
      deleted, the previous table otherwise. */
  method Sweep(prev: Presence, now: int) returns (r: Presence)
    ensures r == Live(prev, now)
    ensures r.Keys <= prev.Keys
    ensures forall k :: k in prev ==> (k in r <==> now - prev[k].lastUpdate <= CURSOR_TIMEOUT_MS)
    ensures (forall k :: k in prev ==> !Expired(prev[k], now)) ==> r == prev
  {
    var next := prev;
    var changed := false;
    var keys := prev.Keys;
    while keys != {}
      invariant keys <= prev.Keys
      invariant next == map k | k in prev && (k in keys || !Expired(prev[k], now)) :: prev[k]
      invariant changed <==> exists k :: k in prev && k !in keys && Expired(prev[k], now)
      decreases keys
    {
      var key :| key in keys;
      if Expired(next[key], now) {
        next := next - {key};
        changed := true;
      }
      keys := keys - {key};
    }
    if changed {
      r := next;
    } else {
      r := prev;
    }
  }

  /** A cursor refreshed at `t` survives every sweep up to `t + 5000`
      inclusive, and the first sweep after that drops it. */
  lemma CursorLifetime(table: Presence, e: BroadcastEvent, t: int, now: int)
    requires e.Type() == CursorMove
    ensures e.userId in Live(Upsert(table, e, t), now) <==> now <= t + CURSOR_TIMEOUT_MS
  {
  }

  /** A later sweep keeps no more than an earlier one, and sweeping twice at
      the same time is sweeping once. */
  lemma SweepMonotone(table: Presence, now1: int, now2: int)
    requires now1 <= now2
    ensures Live(table, now2).Keys <= Live(table, now1).Keys
    ensures Live(Live(table, now1), now1) == Live(table, now1)
  {
  }

  /** A key combination. */
  datatype KeyPress = KeyPress(key: string, ctrl: bool, meta: bool, shift: bool)

  /** The board action a key combination asks for. */
  datatype Shortcut = UndoShortcut | RedoShortcut | ExportShortcut | NoShortcut

  /** `handleKeyDown` (lines 67-82): with Ctrl or Meta, `z` is undo, `z`
      with Shift or `y` is redo, `s` is export; anything else is nothing. */
  function Classify(k: KeyPress): Shortcut {
    if !(k.ctrl || k.meta) then NoShortcut
    else if k.key == "z" && !k.shift then UndoShortcut
    else if k.key == "z" && k.shift then RedoShortcut
    else if k.key == "y" then RedoShortcut
    else if k.key == "s" then ExportShortcut
    else NoShortcut
  }

  /** The shortcut table: without a modifier nothing fires; with one, only
      `z`, `y` and `s` do anything, and Shift matters only for `z`. */
  lemma ShortcutTable(k: KeyPress)
    ensures !(k.ctrl || k.meta) ==> Classify(k) == NoShortcut
    ensures Classify(k) == UndoShortcut <==> (k.ctrl || k.meta) && k.key == "z" && !k.shift
    ensures Classify(k) == RedoShortcut <==> (k.ctrl || k.meta) && (k.key == "y" || (k.key == "z" && k.shift))
    ensures Classify(k) == ExportShortcut <==> (k.ctrl || k.meta) && k.key == "s"
    ensures k.key !in {"z", "y", "s"} ==> Classify(k) == NoShortcut
  {
  }

  class AppState {
    const service: BroadcastService
    const userId: string
    const userName: string
    const userColor: string
    var remoteCursors: Presence
    var clearTrigger: int
    var undoTrigger: int
    var redoTrigger: int
    var exportTrigger: int
    /** The SVG waiting to be injected into the board. */
    var svgToInject: Option<string>
    /** How many alerts the AI request path has shown. */
    var alerts: nat

    constructor (service: BroadcastService, userId: string, userName: string, userColor: string)
      ensures this.service == service && this.userId == userId
      ensures this.userName == userName && this.userColor == userColor
      ensures remoteCursors == map[] && svgToInject == None && alerts == 0
      ensures clearTrigger == 0 && undoTrigger == 0 && redoTrigger == 0 && exportTrigger == 0
    {
      this.service, this.userId, this.userName, this.userColor := service, userId, userName, userColor;
      remoteCursors, svgToInject, alerts := map[], None, 0;
      clearTrigger, undoTrigger, redoTrigger, exportTrigger := 0, 0, 0, 0;
    }

    /** The subscriber of lines 35-45, at time `now`. */
    method OnBroadcast(e: BroadcastEvent, now: int)
      modifies this`remoteCursors
      ensures remoteCursors == Upsert(old(remoteCursors), e, now)
    {
      remoteCursors := Upsert(remoteCursors, e, now);
    }

    /** One tick of the cleanup interval, at time `now`. */
    method Tick(now: int)
      modifies this`remoteCursors
      ensures remoteCursors == Live(old(remoteCursors), now)
    {
      remoteCursors := Sweep(remoteCursors, now);
    }

    /** A key press: the counter the shortcut names goes up by one, the
        others stay. */
    method KeyDown(k: KeyPress)
      modifies this`undoTrigger, this`redoTrigger, this`exportTrigger
      ensures undoTrigger == old(undoTrigger) + (if Classify(k) == UndoShortcut then 1 else 0)
      ensures redoTrigger == old(redoTrigger) + (if Classify(k) == RedoShortcut then 1 else 0)
      ensures exportTrigger == old(exportTrigger) + (if Classify(k) == ExportShortcut then 1 else 0)
    {
      match Classify(k)
      case UndoShortcut => undoTrigger := undoTrigger + 1;
      case RedoShortcut => redoTrigger := redoTrigger + 1;
      case ExportShortcut => exportTrigger := exportTrigger + 1;
      case NoShortcut =>
    }

    /** `handleCursorMove` (lines 94-100): the local pointer goes out as a
        CURSOR_MOVE with this user's name and colour. */
    method CursorMoved(x: real, y: real)
      modifies service`posted
      ensures service.posted == old(service.posted) + [BroadcastEvent(Cursor(x, y, userName, userColor), userId)]
    {
      service.Broadcast(BroadcastEvent(Cursor(x, y, userName, userColor), userId));
    }

    /** `handleClear` (lines 102-106): the clear counter goes up only when
        the user confirms. */
    method ClearRequested(confirmed: bool)
      modifies this`clearTrigger
      ensures clearTrigger == old(clearTrigger) + (if confirmed then 1 else 0)
    {
      if confirmed {
        clearTrigger := clearTrigger + 1;
      }
    }

    /** `handleAIRequest` (lines 108-121): a blank prompt returns before the
        generator is called; otherwise the generator runs with the key
        settings and the model's `response`, a non-empty SVG is queued for
        injection, and a null or empty one raises an alert instead. */
    method AIRequest(prompt: string, geminiKey: string, apiKey: string, response: Response)
      returns (called: bool)
      modifies this`svgToInject, this`alerts
      ensures called <==> Trim(prompt) != []
      ensures !called ==> svgToInject == old(svgToInject) && alerts == old(alerts)
      ensures called ==>
        || (svgToInject == old(svgToInject) && alerts == old(alerts) + 1)
        || (alerts == old(alerts) && svgToInject.Some? && svgToInject.value != "" && NoFence(svgToInject.value))
      ensures called && ((geminiKey == "" && apiKey == "") || response.Threw? || response.text == "") ==>
        svgToInject == old(svgToInject) && alerts == old(alerts) + 1
      ensures called && (geminiKey != "" || apiKey != "") && response.Reply? && response.text != "" ==>
        if Cleanup(response.text) == "" then svgToInject == old(svgToInject) && alerts == old(alerts) + 1
        else svgToInject == Some(Cleanup(response.text)) && alerts == old(alerts)
    {
      if prompt == "" || Trim(prompt) == [] {
        return false;
      }
      called := true;
      var svg, _ := GenerateSvg(geminiKey, apiKey, response);
      if svg.Some? && svg.value != "" {
        svgToInject := svg;
      } else {
        alerts := alerts + 1;
      }
    }

    /** `onSvgInjected`: the board is done with the queued SVG. */
    method SvgInjected()
      modifies this`svgToInject
      ensures svgToInject == None
    {
      svgToInject := None;
    }
  }
}
