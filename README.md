# Lumina Canvas collaboration core, modelled in Dafny

Lumina Canvas is a shared whiteboard. Every browser tab keeps its own
fabric.js canvas. Tabs exchange change events (object added, modified or
removed, clear, restore, cursor move) over a same-origin broadcast
channel. This project models the part of the program that keeps those
copies in step and lets each user undo and redo:

- the per-tab history of canvas snapshots, with its 50-entry limit and its
  "is undoing" gate (`History`, from `components/hooks/useHistory.ts`);
- the handler for remote events and its "processing remote" gate (`Sync`,
  from `components/hooks/useSync.ts`);
- the local listeners that broadcast and record changes: freehand paths,
  transforms, deletions, clear, undo, redo, SVG injection and image drop
  (`CanvasBoard`, from `components/CanvasBoard.tsx`);
- the drawing tools (`Tools`, from `components/hooks/useTools.ts`);
- the broadcast service's listener list (`Broadcasting`, from
  `services/broadcastService.ts`);
- the application shell: the remote cursor table and its expiry sweep, the
  keyboard shortcuts and the AI request path (`App`, from `App.tsx`);
- the AI prompt panel (`Toolbar`, from `components/Toolbar.tsx`);
- the SVG generator's null paths and text cleanup (`Gemini`, from
  `services/geminiService.ts`).

Shared vocabulary lives in `Types` (objects, scenes, snapshots, events) and
`Strings` (JavaScript `trim` and global regular-expression removal). The
fabric.js canvas is the external engine. `Fabric.Canvas` gives it only
what the core observes: the object list in z-order, the background
colour, the active selection, the drawing mode and brush, the object
flags, and one pending `loadFromJSON`.

Modelling choices:

- An object's id is its `"id"` property, and a missing id reads as `""`.
  A remote OBJECT_MODIFIED can therefore overwrite it, as `set(data)` can.
- A scene is a sequence of objects. Lookup by id finds the first match, as
  `Array.prototype.find` does. A snapshot is a value that wraps a scene,
  and restoring it gives back the same scene (`Types.RoundTrip`).
- fabric.js selects objects, not copies of them, and removes an object by
  reference. The selection is therefore the list of the selected objects'
  positions in the object list (`Fabric.Canvas.active`). An object changed
  in place stays selected with its new properties. Removing the object at a
  position takes it out of the selection and shifts the later positions
  (`Fabric.Shift`). Deleting the selection removes exactly the selected
  objects, whatever other objects are equal to them
  (`CanvasBoard.Board.RemoveSelected`).
- Callbacks that fabric.js runs later (`loadFromJSON`,
  `enlivenObjects`) are split into a method that starts the work and a
  `Complete…` method that the environment calls when it finishes.
- React effects that fire when a counter prop changes
  (`clearTrigger`, `undoTrigger`, `redoTrigger`) are methods that take the
  counter's value. An effect with a zero counter does nothing.
- Clock readings (`Date.now()`), fresh ids (`uuidv4()`), the confirm
  dialog's answer, the model's response and the file types of a drop are
  all parameters.

Two consequences of the code:

- There are no tombstones. An OBJECT_REMOVED that arrives before the
  OBJECT_ADDED of the same object does not stop the add
  (`Sync.RemoveThenAddKeeps`).
- The cursor subscriber in `App.tsx` does not filter out the user's own
  CURSOR_MOVE, and neither does `App.Upsert`. Only the channel's not
  echoing a message to its sender keeps a user's own cursor out of the
  table.

## Model

| member | source | states |
|---|---|---|
| Types.RoundTrip | components/hooks/useHistory.ts:12 | Restoring the snapshot taken of a scene gives back exactly that scene. |
| Strings.Trim | components/Toolbar.tsx:39 | The result has no whitespace at either end and is the slice of the input that starts after its leading whitespace. Everything cut off after it is whitespace. An already trimmed input comes back unchanged, and the result is empty exactly when the input is all whitespace. |
| Strings.RemoveAllAbsent | services/geminiService.ts:29 | A string that does not contain the pattern comes back unchanged. A removal can join two pieces into a new occurrence ("aabb" without "ab" is "ab"). For the fence, `RemoveFenceLeavesNone` proves that none is left. |
| Strings.RemoveFenceLeavesNone | services/geminiService.ts:29 | After every ``` is removed, no ``` remains, even where a removal joins two backtick runs. |
| Strings.TrimKeepsNoFence | services/geminiService.ts:29 | Trimming a string without ``` cannot create one. |
| Fabric.FindIndex | components/hooks/useSync.ts:53 | Returns the first index whose object has the id, or none when no object has it. |
| Fabric.Shift | components/hooks/useSync.ts:66-68 | When the object at a position leaves the canvas, the selection gets no longer. If the removed object was not selected, the selection keeps its length and each position above the removed one moves down by one. |
| Fabric.ShiftMembers | components/hooks/useSync.ts:66-68 | The shifted selection holds exactly the other selected positions, each moved down by one if it was above the removed one. |
| Fabric.ShiftPositions | components/hooks/useSync.ts:66-68 | After a removal the shifted selection still points at distinct objects of the shorter canvas. |
| Fabric.ShiftFirst | components/CanvasBoard.tsx:94 | Removing the first selected object leaves a selection that picks exactly the remaining selected objects, in order. |
| Fabric.Canvas.RemoveAt | components/hooks/useSync.ts:66-68 | `canvas.remove` on the object at a position splices it out, takes one copy of it out of the multiset of objects, shifts the selection, and keeps the selection valid. |
| History.Push | components/hooks/useHistory.ts:13-22 | Keeps the invariant (the index is -1 on an empty stack and otherwise points into a list of at most 50 snapshots). Drops everything after the index, appends the snapshot and drops the oldest entry past 50. The index lands on the new snapshot, and everything up to the old index is kept. |
| History.Saved | components/hooks/useHistory.ts:8-26 | A save is a no-op while the canvas is missing or the gate is held. Otherwise it is a push of the canvas's current snapshot. |
| History.UndoStep | components/hooks/useHistory.ts:28-42 | At index 0 or below, nothing changes and nothing is returned. Otherwise the index drops by one and the entry there is returned; the list is untouched. |
| History.RedoStep | components/hooks/useHistory.ts:44-58 | At the top, nothing changes and nothing is returned. Otherwise the index rises by one and the entry there is returned; the list is untouched. |
| History.RedoAfterPush | components/hooks/useHistory.ts:16-22 | A save discards the redo branch: redo right after it returns nothing. |
| History.UndoThenRedo | components/hooks/useHistory.ts:28-58 | A successful undo followed by redo restores the stack and returns the snapshot that was current before the undo. |
| History.UndosStepBack | components/hooks/useHistory.ts:28-42 | For n up to the index, n undos move the index back by exactly n and keep the list. |
| History.UndosThenRedos | components/hooks/useHistory.ts:28-58 | For n up to the index, n undos followed by n redos restore the stack exactly. |
| History.RedosStepForward | components/hooks/useHistory.ts:44-58 | For n up to the number of entries above the index, n redos move the index forward by exactly n and keep the list. |
| History.PushAllKeepsNewest | components/hooks/useHistory.ts:16-22 | Saving a sequence of snapshots onto an empty stack leaves exactly the newest 50 of them, in order, with the index on the last one. |
| History.SixtyPushes | components/hooks/useHistory.ts:19 | After 60 saves the stack holds saves 11 to 60. The first ten are gone. |
| History.HistoryStack.constructor | components/hooks/useHistory.ts:4-6 | Starts with an empty list, index -1 and the gate open. |
| History.HistoryStack.Save | components/hooks/useHistory.ts:8-26 | The stack becomes `Saved` of the old stack, the gate and the canvas's current scene. Nothing else changes. |
| History.HistoryStack.Undo | components/hooks/useHistory.ts:28-42 | Returns what `UndoStep` returns. On success it closes the gate and starts loading the returned snapshot into the canvas. On failure nothing changes. |
| History.HistoryStack.Redo | components/hooks/useHistory.ts:44-58 | Returns what `RedoStep` returns. On success it closes the gate and starts the load. On failure nothing changes. |
| History.HistoryStack.CompleteLoad | components/hooks/useHistory.ts:36-40 | The load callback. The canvas shows the loaded scene on the default background, the selection is empty (the load discards it), and the gate reopens. |
| History.HistoryStack.Clear | components/hooks/useHistory.ts:60-65 | With a canvas, the history becomes the single current snapshot, with index 0. Without one, nothing changes. |
| Broadcasting.WithoutCounts | services/broadcastService.ts:17-19 | Unsubscribing removes every registration of the callback and keeps every other listener's multiplicity. |
| Broadcasting.WithoutConcat | services/broadcastService.ts:17-19 | The filter keeps the order of the remaining listeners, piece by piece. |
| Broadcasting.WithoutIdempotent | services/broadcastService.ts:17-19 | Unsubscribing twice is unsubscribing once. |
| Broadcasting.WithoutAbsent | services/broadcastService.ts:17-19 | Unsubscribing a callback that is not registered changes nothing. |
| Broadcasting.SubscribeThenUnsubscribe | services/broadcastService.ts:15-19 | For a callback that was not registered, subscribing and then unsubscribing restores the listener list. |
| Broadcasting.BroadcastService.Subscribe | services/broadcastService.ts:15-16 | Appends the callback. |
| Broadcasting.BroadcastService.Unsubscribe | services/broadcastService.ts:17-19 | The loop leaves the filtered list: every registration of the callback is gone and the order is kept. |
| Broadcasting.BroadcastService.OnMessage | services/broadcastService.ts:10-12 | Every registered listener is called once with the event, in registration order, and nothing else is called. |
| Broadcasting.BroadcastService.Broadcast | services/broadcastService.ts:22-24 | The event is posted, and only that. |
| Sync.ModifiedTouchesOne | components/hooks/useSync.ts:50-59 | An OBJECT_MODIFIED changes at most the first object with the id. That object keeps its kind and gets every sent property except `objects`. Its own `objects` property and every property not sent stay, and its keys become the old keys plus the sent keys other than `objects`. Every other object and the length are kept. An unknown id changes nothing. |
| Sync.SetWithoutObjects | components/hooks/useSync.ts:55-56 | `set(data)` after deleting `objects` from the data keeps the object's kind. Every sent key but `objects` takes the sent value, every other key keeps its value, and no other key appears. |
| Sync.ModifiedIdempotent | components/hooks/useSync.ts:50-59 | Applying the same modification twice is applying it once, provided the data does not move the object to another id. |
| Sync.RemovedTakesOne | components/hooks/useSync.ts:63-70 | An OBJECT_REMOVED with a known id takes exactly the first object with that id out of the multiset of objects, and the length drops by one. An unknown id is a no-op. |
| Sync.AddMissingKeeps | components/hooks/useSync.ts:41-44 | Adding a batch keeps every existing object where it was. |
| Sync.AddMissingCovers | components/hooks/useSync.ts:41-44 | After a batch is added, every id in it is present. |
| Sync.AddMissingPresent | components/hooks/useSync.ts:41-44 | A batch whose ids are all present changes nothing. |
| Sync.AddMissingIdempotent | components/hooks/useSync.ts:38-45 | Delivering the same OBJECT_ADDED twice has the effect of delivering it once. |
| Sync.AddThenRemove | components/hooks/useSync.ts:38-70 | Adding a new object and then removing its id gives back the original scene. |
| Sync.RemoveThenAddKeeps | components/hooks/useSync.ts:38-70 | A removal that arrives before the add of a new object is a no-op, and the object then stays present. |
| Sync.SyncEngine.constructor | components/hooks/useSync.ts:11 | Starts with the remote gate open and no pending batch. |
| Sync.SyncEngine.Handle | components/hooks/useSync.ts:14-74 | An event from this user, or one that arrives while the canvas is missing, changes nothing. CLEAR empties the canvas, resets the background and saves the empty scene. `saveHistory` checks only the undo gate, so this save does happen. RESTORE_STATE closes both gates and starts loading the snapshot. OBJECT_ADDED closes the remote gate and queues the batch. OBJECT_MODIFIED and OBJECT_REMOVED apply the change and then save with the remote gate open again. A modified object stays selected. A removed object leaves the selection, and the other selected positions shift down. Every branch except OBJECT_ADDED keeps the pending batch, and every branch except RESTORE_STATE keeps the pending load. Only RESTORE_STATE touches the undo gate. |
| Sync.SyncEngine.HandleModified | components/hooks/useSync.ts:50-61 | The OBJECT_MODIFIED branch. The objects become `ApplyModified` of the old ones and the selection is untouched. The gate ends open and the scene is saved. |
| Sync.SyncEngine.HandleRemoved | components/hooks/useSync.ts:63-72 | The OBJECT_REMOVED branch. The objects become `ApplyRemoved` of the old ones, and the selection is shifted past the removed object. The gate ends open and the scene is saved. |
| Sync.SyncEngine.CompleteRestore | components/hooks/useSync.ts:30-36 | The restore callback. The canvas shows the restored scene on the default background, both gates reopen, and the new scene is saved. |
| Sync.SyncEngine.CompleteAdded | components/hooks/useSync.ts:40-48 | The enliven callback. The loop adds each object of the batch whose id is missing, so the canvas becomes `AddMissing` of the old objects and the batch. Then the gate reopens and the result is saved. Another remote event may reopen the gate before the callback runs. In that case an added object that is not a path is also recorded by the `object:added` listener (components/CanvasBoard.tsx:78-82), so the scene is saved twice. |
| CanvasBoard.Tagged | components/CanvasBoard.tsx:52 | The finished freehand path receives the fresh id and per-pixel hit testing. Its kind and all its other properties are kept. |
| CanvasBoard.RestoreEvents | components/CanvasBoard.tsx:144-150 | An undo or redo that returned a snapshot broadcasts exactly one RESTORE_STATE carrying it. A failed one broadcasts nothing. |
| CanvasBoard.RemovedEvents | components/CanvasBoard.tsx:99-105 | One OBJECT_REMOVED per deleted object, in selection order, each carrying that object's id and the user's id. |
| CanvasBoard.Placed | components/CanvasBoard.tsx:197-203 | An inserted object is centred on the given point, with centre origins and the fresh id. Its kind is kept. The same placement is used for dropped images (lines 260-266). |
| CanvasBoard.GroupSvgElements | components/CanvasBoard.tsx:192 | A single parsed element is used as it is. Several are wrapped in one group. |
| CanvasBoard.InsertRecordsTwice | components/CanvasBoard.tsx:78-83 | A tool insert records two identical snapshots: once from the `object:added` listener and once from broadcast-and-save. So the first undo after it reloads the same scene. |
| CanvasBoard.Board.ObjectAdded | components/CanvasBoard.tsx:78-83 | The `object:added` listener saves history for every object except a path. It does nothing while either gate is held. |
| CanvasBoard.Board.PathCreated | components/CanvasBoard.tsx:49-60 | The finished path is on the canvas. Unless the remote gate is held, it gets the fresh id, is broadcast as OBJECT_ADDED and the scene is saved. Under the gate it stays untagged and unsent. |
| CanvasBoard.Board.ObjectModified | components/CanvasBoard.tsx:62-76 | Under the remote gate, with no target, or for a target without id, nothing happens. Otherwise the target's properties are broadcast as OBJECT_MODIFIED with its id, and the scene is saved. |
| CanvasBoard.Board.RemoveSelected | components/CanvasBoard.tsx:94 | The loop removes the selected objects one by one. It returns them in selection order and takes exactly them out of the multiset of objects. The length drops by the size of the selection, and the selection ends empty. |
| CanvasBoard.Board.BroadcastRemovals | components/CanvasBoard.tsx:99-105 | The loop posts exactly `RemovedEvents` of the deleted objects, in order. |
| CanvasBoard.Board.KeyDown | components/CanvasBoard.tsx:90-108 | Delete or Backspace with a selection takes exactly the selected objects out of the multiset of objects. It discards the selection, saves, and broadcasts one OBJECT_REMOVED per selected object, in selection order. Any other key, or no selection, changes nothing. |
| CanvasBoard.Board.ClearTriggered | components/CanvasBoard.tsx:126-139 | A positive trigger with a canvas clears it, resets the background, broadcasts CLEAR and saves the empty scene. Otherwise nothing changes. |
| CanvasBoard.Board.UndoTriggered | components/CanvasBoard.tsx:141-152 | A positive trigger with a canvas takes an `UndoStep`, starts loading the returned snapshot and broadcasts what `RestoreEvents` gives for it. A step that returns nothing leaves the undo gate and any pending load alone. Otherwise nothing changes. The history list is never touched. |
| CanvasBoard.Board.RedoTriggered | components/CanvasBoard.tsx:154-165 | The same as `UndoTriggered`, but with `RedoStep`. |
| CanvasBoard.Board.Place | components/CanvasBoard.tsx:211-221 | The placed object is appended and becomes the only selected object. It is broadcast as OBJECT_ADDED, and the scene is saved by the `object:added` listener and again by the caller. The same steps follow an image drop (lines 268-277). |
| CanvasBoard.Board.InjectSvg | components/CanvasBoard.tsx:184-228 | With an empty SVG or no canvas nothing happens. Otherwise the queue is released. If the SVG parsed to any element, the grouped result is centred with the fresh id, added, made the only selected object, broadcast and saved twice. |
| CanvasBoard.Board.Drop | components/CanvasBoard.tsx:237-246 | A drop is read exactly when the canvas exists and the first file's type starts with `image/`. |
| CanvasBoard.Board.ImageLoaded | components/CanvasBoard.tsx:250-278 | A loaded image is placed at the drop point with the fresh id, added, made the only selected object, broadcast and saved twice. A failed load changes nothing. |
| Tools.ToolModes | components/hooks/useTools.ts:25-71 | Free drawing and rubber-band selection are never both on. Objects are selectable exactly when selection is on, and whatever is selectable is evented. The eraser is the only drawing tool whose strokes reach objects. With no tool everything is off. |
| Tools.BrushFor | components/hooks/useTools.ts:51-59 | The pen brush takes the colour and width. The eraser brush paints the background colour at ten times the width. Other tools keep the brush. |
| Tools.ShapeFor | components/hooks/useTools.ts:96-134 | Exactly the rectangle, circle and text tools insert an object on a click. It carries the fresh id and is not a path. |
| Tools.ShapeGeometry | components/hooks/useTools.ts:96-134 | The rectangle is 100×100, the circle has radius 50, and the text reads "Type text" at size 20 in Inter. Each is at the pointer, filled with the colour. |
| Tools.Segment | components/hooks/useTools.ts:141-177 | The second click makes a group exactly for the arrow. The result is selectable, carries the fresh id and is not a path. |
| Tools.SegmentGeometry | components/hooks/useTools.ts:171-176 | A plain line runs from the start point to the end point, in the stroke colour and width. |
| Tools.ToolController.constructor | components/hooks/useTools.ts:15-17 | Starts with no line in progress, no start point and no hint. |
| Tools.ToolController.MarkObjects | components/hooks/useTools.ts:69-72 | Every object gets the selectable and evented flags of the tool, and nothing else about it changes. The selection stays valid and points at the same, now flagged, objects. |
| Tools.ToolController.ApplyTool | components/hooks/useTools.ts:20-75 | Without a canvas nothing changes. Otherwise it sets the drawing mode, the selection and the brush. Leaving line or arrow cancels a line in progress. Every object gets the flags of the tool. |
| Tools.ToolController.BroadcastAndSave | components/hooks/useTools.ts:221-228 | The object is broadcast as OBJECT_ADDED and the scene is saved. |
| Tools.ToolController.Insert | components/hooks/useTools.ts:107-109 | The new object is appended, the listener and the helper both save, and the history becomes `RecordedTwice`. A clicked shape becomes the only selected object; a segment leaves the selection alone. |
| Tools.ToolController.LineClick | components/hooks/useTools.ts:135-185 | The first click stores the start point and shows the hint. The second inserts the segment from the start point and returns to the idle state. |
| Tools.ToolController.ShapeClick | components/hooks/useTools.ts:96-134 | A rectangle, circle or text click appends the shape, makes it the only selected object, broadcasts it and saves twice. |
| Tools.ToolController.Click | components/hooks/useTools.ts:96-185 | The tool part of a press. A shape tool inserts and selects its shape and keeps the line state. Line and arrow run the two-click machine and keep the selection. Any other tool changes nothing. |
| Tools.ToolController.MouseDown | components/hooks/useTools.ts:82-187 | Nothing happens while the remote gate is held. The move tool, or Alt with any tool but text, starts panning. A click with a shape tool inserts the shape and makes it the only selected object, and keeps the line state, the pan state and rubber-band selection. With line or arrow it goes to the line state machine. Any other tool does nothing. |
| Tools.ToolController.MouseMove | components/hooks/useTools.ts:189-198 | While panning, the last pointer position follows the pointer. Otherwise nothing changes. |
| Tools.ToolController.MouseUp | components/hooks/useTools.ts:200-206 | A pan ends and rubber-band selection is switched on, whatever the tool. Without a pan nothing changes. |
| App.Upsert | App.tsx:35-45 | A CURSOR_MOVE inserts or replaces the sender's record, with the sent fields and the current time, and keeps every other record. Any other event leaves the table unchanged. |
| App.Sweep | App.tsx:51-63 | The loop returns the live part of the table: its keys are a subset of the old ones, and a record is kept exactly when it is at most 5000 ms old. When nothing expired, the previous table comes back. |
| App.CursorLifetime | App.tsx:35-63 | A cursor refreshed at t survives every sweep up to t + 5000 and is dropped by any later one. |
| App.SweepMonotone | App.tsx:51-63 | A later sweep keeps no more records than an earlier one, and a second sweep at the same time changes nothing. |
| App.ShortcutTable | App.tsx:67-82 | Without Ctrl or Meta no shortcut fires. With one, z is undo, Shift+z or y is redo, s is export, and every other key is nothing. |
| App.AppState.constructor | App.tsx:16-32 | Starts with no cursors, zero counters and nothing queued. |
| App.AppState.OnBroadcast | App.tsx:35-45 | The cursor table becomes `Upsert` of the old table. |
| App.AppState.Tick | App.tsx:51-64 | The cursor table becomes the live part of the old table. |
| App.AppState.KeyDown | App.tsx:67-82 | The counter the shortcut names goes up by one and the others stay. |
| App.AppState.CursorMoved | App.tsx:94-100 | Posts one CURSOR_MOVE with the user's id, name and colour. |
| App.AppState.ClearRequested | App.tsx:102-106 | The clear counter goes up only when the user confirms. |
| App.AppState.AIRequest | App.tsx:108-121 | A blank prompt calls nothing. Otherwise a non-empty cleaned SVG is queued, and a missing key, error or empty answer raises one alert instead. |
| App.AppState.SvgInjected | App.tsx:158 | The queue is emptied. |
| Toolbar.Validate | components/Toolbar.tsx:39-49 | A prompt that is all whitespace is refused as blank. One whose trimmed length exceeds 500 is refused as too long. Anything else is accepted as its trimmed text, which is non-empty, at most 500 long and trimmed. |
| Toolbar.Typed | components/Toolbar.tsx:93 | The input keeps the first 500 characters of what was typed, or all of it when shorter. |
| Toolbar.TypedNeverTooLong | components/Toolbar.tsx:93 | Text that went through the input can never be refused as too long. |
| Toolbar.EnabledSubmitAccepted | components/Toolbar.tsx:114 | Whatever the enabled submit button sends passes the checks. |
| Toolbar.AIPanel.constructor | components/Toolbar.tsx:33-35 | Starts closed, with an empty prompt and not generating. |
| Toolbar.AIPanel.Type | components/Toolbar.tsx:93 | The prompt becomes the typed text cut to 500. |
| Toolbar.AIPanel.BeginSubmit | components/Toolbar.tsx:37-53 | A refused prompt changes nothing. An accepted one sets generating and requests its trimmed text. |
| Toolbar.AIPanel.FinishSubmit | components/Toolbar.tsx:54-61 | Generating is cleared. On success the prompt is emptied and the panel closed; after an error both stay. |
| Gemini.Cleanup | services/geminiService.ts:29 | The cleaned text contains no ``` and has no surrounding whitespace. |
| Gemini.CleanupKeepsClean | services/geminiService.ts:29 | Trimmed text without ``` comes through unchanged. |
| Gemini.CleanupIdempotent | services/geminiService.ts:29 | Cleaning twice is cleaning once. |
| Gemini.GenerateSvg | services/geminiService.ts:3-35 | The model is called exactly when `GEMINI_API_KEY` or `API_KEY` is set. A missing key, a thrown error or an empty text give null; otherwise the result is the cleaned text. |

## Left out

- Rendering, hit-testing, `setCoords`, `renderAll` and `requestRenderAll` are fabric.js internals with no effect on the modelled state.
- The JSON text of a snapshot is not modelled. A snapshot wraps the scene value, so `JSON.stringify` cannot fail here, and the `catch` of `saveHistory` (components/hooks/useHistory.ts:23-25) is not modelled.
- `selectable` and `evented` are kept as object properties. fabric.js's `toJSON(['id'])` leaves them out of snapshots, so a restored object carries default flags.
- Broadcast payloads carry the object's whole property map. The code sends `toJSON(['id'])` (components/CanvasBoard.tsx:57, 72, 217, 275 and components/hooks/useTools.ts:225), which leaves out `selectable`, `evented` and `perPixelTargetFind`. So in the model an OBJECT_MODIFIED overwrites the receiver's flags with the sender's, whereas the code leaves the receiver's flags alone.
- CanvasBoard.Board.KeyDown: the contract states which objects remain (as a multiset) and how many, but not that the remaining objects keep their relative order.
- CanvasBoard.Board.RemoveSelected: the same gap as KeyDown. The remaining objects are given as a multiset and a count, not in their relative order.
- How fabric.js's multi-object selection group treats a member that a remote OBJECT_REMOVED takes off the canvas is not modelled. The model drops it from the selection.
- `loadFromJSON` adds objects while the undo gate is held. Every undo, redo and RESTORE_STATE load holds it until its callback, and only one load is pending at a time (see below), so the `object:added` listener is a no-op there and the model does not call it. `enlivenObjects` only builds objects and fires nothing. The `canvas.add` of the OBJECT_ADDED callback is the one sync path where the listener can run, and `Sync.SyncEngine.CompleteAdded` models it.
- Types.Id: an object whose `id` is missing or is not a string reads as having the id `""`. The code compares `o.id === id`, so a lookup for `""` would not match such an object, but the model's `FindIndex(objs, "")` does. Every id the code assigns comes from `uuidv4()` and is never empty.
- Only one `loadFromJSON` can be pending in `Fabric.Canvas`. A second load replaces the first. The environment chooses whose completion runs: `History.HistoryStack.CompleteLoad` or `Sync.SyncEngine.CompleteRestore`.
- A handler that throws while a gate is held leaves the gate held. That path, including a parse error in `loadSVGFromString`, is not modelled.
- Floating-point geometry is left out:
  - wheel zoom (components/hooks/useTools.ts:208-219);
  - the viewport pan deltas. `MouseMove` keeps only the last pointer position;
  - the arrow head's angle and offsets;
  - scaling injected SVG and images to fit.
- The cursor style strings of each tool are presentation only.
- The board's `mouse:move` listener (components/CanvasBoard.tsx:85-88) only forwards the pointer to `App.AppState.CursorMoved`.
- App.Sweep: returning the previous table object when nothing expired matters to React only by reference. The model states value equality.
- Text editing is not modelled: `enterEditing` and `selectAll` on a new text object.
- The members of an arrow group and of an injected SVG group are not modelled individually.
- PNG export (components/CanvasBoard.tsx:167-181) is file I/O and is not modelled. Only the export counter is.
- Drag-and-drop reading (`FileReader`) is split: `Drop` decides whether to read, and `ImageLoaded` receives the loaded image or nothing.
- The broadcast channel's delivery to other tabs is not modelled. `Broadcast` logs what is posted, and `Handle` and `OnMessage` are called by the environment. The service's `close` is channel teardown.
- The network request to the model is not modelled. Its outcome is the `response` parameter.
- Analytics, toasts, the confirmation modal, the cursor overlay and the toolbar's colour, width and tool pickers are not modelled. They only forward values into the modelled operations.
- React's effect lifecycle is not modelled: subscription at mount, unsubscription at unmount, and re-running an effect when its dependencies change.
- App.AppState.AIRequest: the `catch` branch of `handleAIRequest` is not modelled. It is reached only when constructing the client throws, because `createClient()` (services/geminiService.ts:13) runs before the generator's `try` (line 16). Client construction is a library call outside the model. That branch raises one alert, as the modelled null path does, so the alert count is the same.
- Toolbar.Validate, Toolbar.Typed and Toolbar.AIPanel.Type: lengths count characters, whereas JavaScript counts UTF-16 code units (the `trim().length` check and `value.slice(0, 500)`). The 500 limit is therefore in characters.
- Convergence of all tabs to one scene is not claimed, because the code does not guarantee it. Events arrive in any order, and restores replace whole scenes.
