/** Records, wire events and constants shared by every part of the whiteboard
    (types.ts, constants.ts). */
module Types {

  datatype Option<+T> = None | Some(value: T)

  /** The drawing tools (types.ts `Tool`). */
  datatype Tool = Select | Pen | Eraser | Rectangle | Circle | Text | Line | Arrow | Move | Zoom

  /** A property value of a drawable object as its JSON form carries it. */
  datatype Value = Flag(b: bool) | Num(n: real) | Str(s: string)

  type Props = map<string, Value>

  /** The engine class of a drawable object (the `type` field of its JSON). */
  datatype ObjKind =
    | PathShape | RectShape | CircleShape | TextShape | LineShape
    | TriangleShape | GroupShape | ImageShape | OtherShape

  /** A drawable object: its class and its serializable properties. */
  datatype Obj = Obj(kind: ObjKind, props: Props)

  /** The object's `id` property; an object with no string id reads as "",
      which is falsy exactly as the missing id is. */
  function Id(o: Obj): string {
    if "id" in o.props && o.props["id"].Str? then o.props["id"].s else ""
  }

  /** The object has property `k` with value `v`. */
  predicate HasProp(o: Obj, k: string, v: Value) {
    k in o.props && o.props[k] == v
  }

  /** `obj.set(p)`: every property named in `p` is overwritten. */
  function WithProps(o: Obj, p: Props): Obj {
    o.(props := o.props + p)
  }

  /** The canvas background colour the application always restores. */
  const BACKGROUND := "#0f172a"

  /** The largest number of snapshots the history keeps. */
  const HISTORY_LIMIT := 50

  /** A remote cursor not refreshed for longer than this (ms) is dropped. */
  const CURSOR_TIMEOUT_MS := 5000

  /** What the canvas holds: its objects in stacking order and its background. */
  datatype Scene = Scene(objects: seq<Obj>, background: string)

  /** A whole-scene serialization (`JSON.stringify(canvas.toJSON(['id']))`).
      The JSON text itself is not modelled: a snapshot is a value that only
      Serialize produces and only Deserialize reads. */
  datatype Snapshot = Snapshot(json: Scene)

  function Serialize(s: Scene): Snapshot {
    Snapshot(s)
  }

  function Deserialize(j: Snapshot): Scene {
    j.json
  }

  /** Loading a saved snapshot reproduces the scene that was saved. */
  lemma RoundTrip(s: Scene)
    ensures Deserialize(Serialize(s)) == s
  {
  }

  /** The wire payload, one variant per event type (the payload shapes of
      the broadcast protocol). */
  datatype Payload =
    | Cursor(x: real, y: real, name: string, color: string)
    | Added(obj: Obj)
    | Modified(id: string, data: Props)
    | Removed(id: string)
    | Cleared
    | Restore(snapshot: Snapshot)

  /** types.ts `BroadcastEventType`. */
  datatype EventType = CursorMove | ObjectAdded | ObjectModified | ObjectRemoved | Clear | RestoreState

  /** types.ts `BroadcastEvent`: the type is carried by the payload variant. */
  datatype BroadcastEvent = BroadcastEvent(payload: Payload, userId: string) {
    function Type(): EventType {
      match payload
      case Cursor(_, _, _, _) => CursorMove
      case Added(_) => ObjectAdded
      case Modified(_, _) => ObjectModified
      case Removed(_) => ObjectRemoved
      case Cleared => Clear
      case Restore(_) => RestoreState
    }
  }

  /** types.ts `UserCursor`; `lastUpdate` is a `Date.now()` reading in ms. */
  datatype UserCursor = UserCursor(id: string, x: real, y: real, name: string, color: string, lastUpdate: int)
}
