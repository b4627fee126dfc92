/** The board component (components/CanvasBoard.tsx): the canvas listeners
    that turn local edits into broadcasts and history entries, the delete
    key, the clear/undo/redo triggers, SVG injection and image drops. */
module CanvasBoard {
  import opened Types
  import opened Strings
  import opened Fabric
  import opened History
  import opened Sync
  import opened Broadcasting

  /** `path.set({ id, perPixelTargetFind: true })` on a finished stroke. */
  function Tagged(path: Obj, id: string): (r: Obj)
    ensures r.kind == path.kind && Id(r) == id
    ensures "perPixelTargetFind" in r.props && r.props["perPixelTargetFind"] == Flag(true)
    ensures forall k :: k in path.props && k != "id" && k != "perPixelTargetFind" ==>
      k in r.props && r.props[k] == path.props[k]
  {
    WithProps(path, map["id" := Str(id), "perPixelTargetFind" := Flag(true)])
  }

  /** `obj.set({ left, top, originX: 'center', originY: 'center', id })`:
      an inserted object centred on a point with a fresh id. */
  function Placed(o: Obj, left: real, top: real, id: string): (r: Obj)
    ensures r.kind == o.kind && Id(r) == id
    ensures "left" in r.props && r.props["left"] == Num(left)
    ensures "top" in r.props && r.props["top"] == Num(top)
    ensures "originX" in r.props && r.props["originX"] == Str("center")
    ensures "originY" in r.props && r.props["originY"] == Str("center")
  {
    WithProps(o, map["left" := Num(left), "top" := Num(top), "originX" := Str("center"),
                     "originY" := Str("center"), "id" := Str(id)])
  }

  /** `fabric.util.groupSVGElements`: a single parsed element is used as it
      is, several are wrapped in a group. */
  function GroupSvgElements(elements: seq<Obj>): (r: Obj)
    requires |elements| > 0
    ensures |elements| == 1 ==> r == elements[0]
    ensures |elements| > 1 ==> r.kind == GroupShape
  {
    if |elements| == 1 then elements[0] else Obj(GroupShape, map[])
  }

  /** `canvas.width || 800` (and the same for the height): an unset or zero
      size falls back to the default. */
  function OrDefault(size: real, default: real): real {
    if size == 0.0 then default else size
  }

  /** The keys that delete the selection. */
  predicate IsDeleteKey(key: string) {
    key == "Delete" || key == "Backspace"
  }

  /** Taking away the selection one object after another: the `i`-th step
      takes away one more copy of the `i`-th selected object. */
  lemma TakeOneMore(objs: seq<Obj>, selected: seq<Obj>, i: nat)
    requires i < |selected|
    ensures multiset(objs) - multiset(selected[..i]) - multiset{selected[i]}
         == multiset(objs) - multiset(selected[..i + 1])
  {
    assert selected[..i + 1] == selected[..i] + [selected[i]];
  }

  /** The OBJECT_REMOVED events sent for a deleted selection, one per
      object, in selection order. */
  function RemovedEvents(objs: seq<Obj>, user: string): (r: seq<BroadcastEvent>)
    ensures |r| == |objs|
    ensures forall i :: 0 <= i < |objs| ==> r[i] == BroadcastEvent(Removed(Id(objs[i])), user)
    decreases |objs|
  {
    if objs == [] then []
    else RemovedEvents(objs[..|objs| - 1], user) + [BroadcastEvent(Removed(Id(objs[|objs| - 1])), user)]
  }

  /** The RESTORE_STATE broadcast that follows an undo or redo, if it
      produced a snapshot. */
  function RestoreEvents(r: Option<Snapshot>, user: string): (evs: seq<BroadcastEvent>)
    ensures r.None? <==> evs == []
    ensures r.Some? ==> evs == [BroadcastEvent(Restore(r.value), user)]
  {
    match r
    case None => []
    case Some(s) => [BroadcastEvent(Restore(s), user)]
  }

  /** Two recordings of the same scene in a row. */
  function RecordedTwice(st: Stack, blocked: bool, scene: Scene): Stack
    requires Inv(st)
  {
    Saved(Saved(st, blocked, scene), blocked, scene)
  }

  /** Inserting an object that is not a path records the scene twice: once
      from the `object:added` listener and once from the inserting code. The
      first undo after such an insertion then loads the same scene again. */
  lemma InsertRecordsTwice(st: Stack, scene: Scene)
    requires Inv(st)
    ensures var r := RecordedTwice(st, false, scene);
      && r.index >= 1
      && r.entries[r.index] == Serialize(scene)
      && r.entries[r.index - 1] == Serialize(scene)
      && UndoStep(r).0 == Some(Serialize(scene))
  {
    var once := Saved(st, false, scene);
    assert once.entries[once.index] == Serialize(scene);
  }

  class Board {
    const canvas: Canvas
    const history: HistoryStack
    const sync: SyncEngine
    const service: BroadcastService
    const userId: string

    ghost predicate Valid()
      reads this, history, sync, canvas`objects, canvas`active
    {
      && history.canvas == canvas && sync.canvas == canvas && sync.history == history
      && sync.userId == userId && history.Valid() && canvas.Valid()
    }

    constructor (canvas: Canvas, history: HistoryStack, sync: SyncEngine, service: BroadcastService)
      requires history.canvas == canvas && sync.canvas == canvas && sync.history == history
      requires history.Valid() && canvas.Valid()
      ensures this.canvas == canvas && this.history == history && this.sync == sync
      ensures this.service == service && userId == sync.userId && Valid()
    {
      this.canvas, this.history, this.sync, this.service := canvas, history, sync, service;
      userId := sync.userId;
    }

    /** `handleObjectAdded` (lines 78-83): fabric calls it for every object
        added to the canvas. It records the scene unless a remote event or a
        snapshot load is being applied, and never for a path (a finished
        stroke is recorded by `PathCreated`). */
    method ObjectAdded(o: Obj)
      requires Valid()
      modifies history`entries, history`index
      ensures Valid()
      ensures sync.isProcessingRemote || history.isUndoing || o.kind == PathShape ==>
        history.Value() == old(history.Value())
      ensures !sync.isProcessingRemote && !history.isUndoing && o.kind != PathShape ==>
        history.Value() == Saved(old(history.Value()), !canvas.mounted, canvas.Current())
    {
      if sync.isProcessingRemote || history.isUndoing {
        return;
      }
      if o.kind != PathShape {
        history.Save();
      }
    }

    /** A finished pen or eraser stroke: fabric adds the path (firing
        `object:added`), then `handlePathCreated` (lines 49-60) gives it an
        id, broadcasts it and records the scene, unless a remote event is
        being applied, in which case the path stays local and untagged. */
    method PathCreated(path: Obj, freshId: string)
      requires Valid() && path.kind == PathShape
      modifies canvas`objects, service`posted, history`entries, history`index
      ensures Valid()
      ensures sync.isProcessingRemote ==>
        && canvas.objects == old(canvas.objects) + [path]
        && service.posted == old(service.posted) && history.Value() == old(history.Value())
      ensures !sync.isProcessingRemote ==>
        && canvas.objects == old(canvas.objects) + [Tagged(path, freshId)]
        && service.posted == old(service.posted) + [BroadcastEvent(Added(Tagged(path, freshId)), userId)]
        && history.Value() == Saved(old(history.Value()), !canvas.mounted || history.isUndoing, canvas.Current())
    {
      canvas.Add(path);
      ObjectAdded(path);
      if sync.isProcessingRemote {
        return;
      }
      var tagged := Tagged(path, freshId);
      canvas.Replace(|canvas.objects| - 1, tagged);
      service.Broadcast(BroadcastEvent(Added(tagged), userId));
      history.Save();
    }

    /** `handleObjectModified` (lines 62-76): a local edit of an object with
        an id is broadcast with the object's properties and recorded; nothing
        happens while a remote event is applied or for an object without id. */
    method ObjectModified(target: Option<Obj>)
      requires Valid()
      modifies service`posted, history`entries, history`index
      ensures Valid()
      ensures sync.isProcessingRemote || target.None? || Id(target.value) == "" ==>
        service.posted == old(service.posted) && history.Value() == old(history.Value())
      ensures !sync.isProcessingRemote && target.Some? && Id(target.value) != "" ==>
        && service.posted == old(service.posted) +
             [BroadcastEvent(Modified(Id(target.value), target.value.props), userId)]
        && history.Value() == Saved(old(history.Value()), !canvas.mounted || history.isUndoing, canvas.Current())
    {
      if sync.isProcessingRemote {
        return;
      }
      if target.None? || Id(target.value) == "" {
        return;
      }
      var obj := target.value;
      service.Broadcast(BroadcastEvent(Modified(Id(obj), obj.props), userId));
      history.Save();
    }

    /** `activeObjects.forEach(obj => canvas.remove(obj))` (line 94): each
        selected object in turn leaves the canvas, and the selection with it. */
    method RemoveSelected() returns (selected: seq<Obj>)
      requires canvas.Valid()
      modifies canvas`objects, canvas`active
      ensures canvas.Valid() && canvas.active == [] && selected == old(canvas.Selected())
      ensures multiset(canvas.objects) == multiset(old(canvas.objects)) - multiset(selected)
      ensures |canvas.objects| == |old(canvas.objects)| - |selected|
    {
      selected := canvas.Selected();
      ghost var start := canvas.objects;
      var i := 0;
      while i < |selected|
        invariant 0 <= i <= |selected|
        invariant canvas.Valid() && canvas.Selected() == selected[i..]
        invariant multiset(canvas.objects) == multiset(start) - multiset(selected[..i])
        invariant |canvas.objects| == |start| - i
      {
        ghost var objs, ps := canvas.objects, canvas.active;
        ShiftFirst(objs, ps);
        assert objs[ps[0]] == selected[i];
        assert selected[i..][1..] == selected[i + 1..];
        TakeOneMore(start, selected, i);
        canvas.RemoveAt(canvas.active[0]);
        assert canvas.objects == objs[..ps[0]] + objs[ps[0] + 1..] && canvas.active == Shift(ps, ps[0]);
        assert canvas.Selected() == selected[i + 1..];
        assert multiset(canvas.objects) == multiset(start) - multiset(selected[..i + 1]);
        i := i + 1;
      }
      assert selected[..i] == selected;
      assert |canvas.active| == |canvas.Selected()| == 0;
    }

    /** The broadcast loop of `handleKeyDown` (lines 99-105): one
        OBJECT_REMOVED per deleted object, in order. */
    method BroadcastRemovals(selected: seq<Obj>)
      modifies service`posted
      ensures service.posted == old(service.posted) + RemovedEvents(selected, userId)
    {
      var i := 0;
      while i < |selected|
        invariant 0 <= i <= |selected|
        invariant service.posted == old(service.posted) + RemovedEvents(selected[..i], userId)
      {
        assert selected[..i + 1][..i] == selected[..i];
        service.Broadcast(BroadcastEvent(Removed(Id(selected[i])), userId));
        i := i + 1;
      }
      assert selected[..i] == selected;
    }

    /** `handleKeyDown` (lines 90-108): Delete or Backspace with a non-empty
        selection removes every selected object (the objects themselves, not
        others equal to them), clears the selection, records the scene once,
        then broadcasts one removal per object. */
    method KeyDown(key: string)
      requires Valid()
      modifies canvas`objects, canvas`active, service`posted, history`entries, history`index
      ensures Valid()
      ensures !IsDeleteKey(key) || old(canvas.active) == [] ==>
        && canvas.objects == old(canvas.objects) && canvas.active == old(canvas.active)
        && service.posted == old(service.posted) && history.Value() == old(history.Value())
      ensures IsDeleteKey(key) && old(canvas.active) != [] ==>
        && multiset(canvas.objects) == multiset(old(canvas.objects)) - multiset(old(canvas.Selected()))
        && |canvas.objects| == |old(canvas.objects)| - |old(canvas.active)|
        && canvas.active == []
        && service.posted == old(service.posted) + RemovedEvents(old(canvas.Selected()), userId)
        && history.Value() == Saved(old(history.Value()), !canvas.mounted || history.isUndoing, canvas.Current())
    {
      if !IsDeleteKey(key) {
        return;
      }
      if canvas.active == [] {
        return;
      }
      var selected := RemoveSelected();
      canvas.DiscardActive();
      history.Save();
      BroadcastRemovals(selected);
    }

    /** The clear trigger (lines 126-139): once the counter is positive and
        the canvas exists, the canvas is emptied with the standard
        background, CLEAR is broadcast, and the empty scene is recorded so
        that the clear can be undone. */
    method ClearTriggered(trigger: int)
      requires Valid()
      modifies canvas`objects, canvas`background, canvas`active, service`posted
      modifies history`entries, history`index
      ensures Valid()
      ensures trigger <= 0 || !canvas.mounted ==>
        && canvas.Current() == old(canvas.Current()) && canvas.active == old(canvas.active)
        && service.posted == old(service.posted) && history.Value() == old(history.Value())
      ensures trigger > 0 && canvas.mounted ==>
        && canvas.objects == [] && canvas.background == BACKGROUND && canvas.active == []
        && service.posted == old(service.posted) + [BroadcastEvent(Cleared, userId)]
        && history.Value() == Saved(old(history.Value()), history.isUndoing, Scene([], BACKGROUND))
    {
      if trigger > 0 && canvas.mounted {
        canvas.Clear();
        canvas.SetBackground(BACKGROUND);
        service.Broadcast(BroadcastEvent(Cleared, userId));
        history.Save();
      }
    }

    /** The undo trigger (lines 141-152): a positive counter runs `undo` and
        broadcasts the snapshot it starts loading, if any. */
    method UndoTriggered(trigger: int)
      requires Valid()
      modifies history`index, history`isUndoing, canvas`loading, service`posted
      ensures Valid() && history.entries == old(history.entries)
      ensures trigger <= 0 || !canvas.mounted ==>
        && history.Value() == old(history.Value()) && history.isUndoing == old(history.isUndoing)
        && canvas.loading == old(canvas.loading) && service.posted == old(service.posted)
      ensures trigger > 0 && canvas.mounted ==>
        var (r, st) := UndoStep(old(history.Value()));
        && history.Value() == st
        && service.posted == old(service.posted) + RestoreEvents(r, userId)
        && (r.Some? ==> history.isUndoing && canvas.loading == r)
        && (r.None? ==> history.isUndoing == old(history.isUndoing) && canvas.loading == old(canvas.loading))
    {
      if trigger > 0 {
        var state := history.Undo();
        if state.Some? {
          service.Broadcast(BroadcastEvent(Restore(state.value), userId));
        }
      }
    }

    /** The redo trigger (lines 154-165): the mirror image of the undo
        trigger. */
    method RedoTriggered(trigger: int)
      requires Valid()
      modifies history`index, history`isUndoing, canvas`loading, service`posted
      ensures Valid() && history.entries == old(history.entries)
      ensures trigger <= 0 || !canvas.mounted ==>
        && history.Value() == old(history.Value()) && history.isUndoing == old(history.isUndoing)
        && canvas.loading == old(canvas.loading) && service.posted == old(service.posted)
      ensures trigger > 0 && canvas.mounted ==>
        var (r, st) := RedoStep(old(history.Value()));
        && history.Value() == st
        && service.posted == old(service.posted) + RestoreEvents(r, userId)
        && (r.Some? ==> history.isUndoing && canvas.loading == r)
        && (r.None? ==> history.isUndoing == old(history.isUndoing) && canvas.loading == old(canvas.loading))
    {
      if trigger > 0 {
        var state := history.Redo();
        if state.Some? {
          service.Broadcast(BroadcastEvent(Restore(state.value), userId));
        }
      }
    }

    /** The tail shared by SVG injection (lines 211-221) and image drops
        (lines 268-277): the placed object is added (the `object:added`
        listener records it unless it is a path or a gate is held), becomes
        the only selected object, is broadcast and recorded. */
    method Place(placed: Obj)
      requires Valid() && canvas.mounted
      modifies canvas`objects, canvas`active, service`posted, history`entries, history`index
      ensures Valid()
      ensures canvas.objects == old(canvas.objects) + [placed]
      ensures canvas.active == [|canvas.objects| - 1] && canvas.Selected() == [placed]
      ensures service.posted == old(service.posted) + [BroadcastEvent(Added(placed), userId)]
      ensures history.Value() == Saved(Saved(old(history.Value()),
        sync.isProcessingRemote || history.isUndoing || placed.kind == PathShape, canvas.Current()),
        history.isUndoing, canvas.Current())
    {
      canvas.Add(placed);
      ObjectAdded(placed);
      canvas.SetActive(|canvas.objects| - 1);
      service.Broadcast(BroadcastEvent(Added(placed), userId));
      history.Save();
    }

    /** SVG injection (lines 184-228) with the parsed `elements`: nothing for
        an empty string or before the canvas exists; otherwise `done` reports
        that `onSvgInjected` is called, and when the SVG had any element the
        grouped result is centred, given `freshId`, added, selected,
        broadcast and recorded. */
    method InjectSvg(svg: string, elements: seq<Obj>, freshId: string) returns (done: bool)
      requires Valid()
      modifies canvas`objects, canvas`active, service`posted, history`entries, history`index
      ensures Valid()
      ensures done <==> svg != "" && canvas.mounted
      ensures !done || elements == [] ==>
        && canvas.objects == old(canvas.objects) && canvas.active == old(canvas.active)
        && service.posted == old(service.posted) && history.Value() == old(history.Value())
      ensures done && elements != [] ==>
        var placed := Placed(GroupSvgElements(elements), OrDefault(canvas.width, 800.0) / 2.0,
                             OrDefault(canvas.height, 600.0) / 2.0, freshId);
        && canvas.objects == old(canvas.objects) + [placed]
        && canvas.active == [|canvas.objects| - 1] && canvas.Selected() == [placed]
        && service.posted == old(service.posted) + [BroadcastEvent(Added(placed), userId)]
        && history.Value() == Saved(Saved(old(history.Value()),
             sync.isProcessingRemote || history.isUndoing || placed.kind == PathShape, canvas.Current()),
             history.isUndoing, canvas.Current())
    {
      if svg == "" || !canvas.mounted {
        return false;
      }
      if |elements| == 0 {
        return true;
      }
      var obj := GroupSvgElements(elements);
      var placed := Placed(obj, OrDefault(canvas.width, 800.0) / 2.0, OrDefault(canvas.height, 600.0) / 2.0, freshId);
      Place(placed);
      done := true;
    }

    /** The drop handler (lines 237-246): a drop is read only when the canvas
        exists and the first dropped file has an `image/` MIME type. */
    method Drop(fileTypes: seq<string>) returns (accepted: bool)
      ensures accepted <==> canvas.mounted && |fileTypes| > 0 && StartsWith(fileTypes[0], "image/")
    {
      if !canvas.mounted || |fileTypes| == 0 {
        return false;
      }
      accepted := StartsWith(fileTypes[0], "image/");
    }

    /** The image callback of an accepted drop (lines 250-278): a loaded
        image is placed at the drop point with `freshId`, added, selected,
        broadcast and recorded; a failed load does nothing. */
    method ImageLoaded(img: Option<Obj>, x: real, y: real, freshId: string)
      requires Valid()
      modifies canvas`objects, canvas`active, service`posted, history`entries, history`index
      ensures Valid()
      ensures img.None? || !canvas.mounted ==>
        && canvas.objects == old(canvas.objects) && canvas.active == old(canvas.active)
        && service.posted == old(service.posted) && history.Value() == old(history.Value())
      ensures img.Some? && canvas.mounted ==>
        var placed := Placed(img.value, x, y, freshId);
        && canvas.objects == old(canvas.objects) + [placed]
        && canvas.active == [|canvas.objects| - 1] && canvas.Selected() == [placed]
        && service.posted == old(service.posted) + [BroadcastEvent(Added(placed), userId)]
        && history.Value() == Saved(Saved(old(history.Value()),
             sync.isProcessingRemote || history.isUndoing || placed.kind == PathShape, canvas.Current()),
             history.isUndoing, canvas.Current())
    {
      if img.None? || !canvas.mounted {
        return;
      }
      var placed := Placed(img.value, x, y, freshId);
      Place(placed);
    }
  }
}
