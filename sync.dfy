/** Applying other clients' events to the local canvas
    (components/hooks/useSync.ts). While an event is being applied the
    `isProcessingRemote` gate is held, so that the canvas listeners do not
    echo the change back or record it a second time. */
module Sync {
  import opened Types
  import opened Fabric
  import opened History

  /** OBJECT_MODIFIED: the first object carrying `id` takes the sent
      properties, except `objects` (which is deleted from them first);
      without such an object nothing changes. */
  function ApplyModified(objs: seq<Obj>, id: string, data: Props): seq<Obj> {
    match FindIndex(objs, id)
    case None => objs
    case Some(i) => objs[i := WithProps(objs[i], data - {"objects"})]
  }

  /** OBJECT_REMOVED: the first object carrying `id` leaves the canvas. */
  function ApplyRemoved(objs: seq<Obj>, id: string): seq<Obj> {
    match FindIndex(objs, id)
    case None => objs
    case Some(i) => objs[..i] + objs[i + 1..]
  }

  /** The body of the OBJECT_ADDED `forEach`: add the object unless one with
      the same id is already on the canvas. */
  function AddOne(objs: seq<Obj>, o: Obj): seq<Obj> {
    if HasId(objs, Id(o)) then objs else objs + [o]
  }

  /** The whole `forEach` over the enlivened objects, in order. */
  function AddMissing(objs: seq<Obj>, batch: seq<Obj>): seq<Obj>
    decreases |batch|
  {
    if batch == [] then objs else AddMissing(AddOne(objs, batch[0]), batch[1..])
  }

  /** A modification touches only the first object with the id, keeps the
      number of objects, and gives that object every sent property except
      `objects`: its kind, its own `objects` property and every property not
      sent stay, and it gains no other key. Without such an object it is a
      no-op. */
  lemma ModifiedTouchesOne(objs: seq<Obj>, id: string, data: Props)
    ensures |ApplyModified(objs, id, data)| == |objs|
    ensures !HasId(objs, id) ==> ApplyModified(objs, id, data) == objs
    ensures HasId(objs, id) ==>
      var i := FindIndex(objs, id).value;
      var r := ApplyModified(objs, id, data);
      && Id(objs[i]) == id
      && (forall j :: 0 <= j < |objs| && j != i ==> r[j] == objs[j])
      && r[i].kind == objs[i].kind
      && r[i].props.Keys == objs[i].props.Keys + (data.Keys - {"objects"})
      && (forall k :: k in data && k != "objects" ==> HasProp(r[i], k, data[k]))
      && (forall k :: k in objs[i].props && (k !in data || k == "objects") ==> HasProp(r[i], k, objs[i].props[k]))
  {
    if HasId(objs, id) {
      var i := FindIndex(objs, id).value;
      var r := ApplyModified(objs, id, data);
      assert r == objs[i := WithProps(objs[i], data - {"objects"})];
      SetWithoutObjects(objs[i], data);
    }
  }

  /** `set(data)` after `delete data.objects`, on one object. */
  lemma SetWithoutObjects(o: Obj, data: Props)
    ensures var n := WithProps(o, data - {"objects"});
      && n.kind == o.kind
      && n.props.Keys == o.props.Keys + (data.Keys - {"objects"})
      && (forall k :: k in data && k != "objects" ==> HasProp(n, k, data[k]))
      && (forall k :: k in o.props && (k !in data || k == "objects") ==> HasProp(n, k, o.props[k]))
  {
    var d := data - {"objects"};
    assert d.Keys == data.Keys - {"objects"};
  }

  /** Receiving the same modification twice has the effect of receiving it
      once, as long as it does not move the object to another id. */
  lemma ModifiedIdempotent(objs: seq<Obj>, id: string, data: Props)
    requires "id" in data ==> data["id"] == Str(id)
    ensures ApplyModified(ApplyModified(objs, id, data), id, data) == ApplyModified(objs, id, data)
  {
    var r := ApplyModified(objs, id, data);
    if HasId(objs, id) {
      var i := FindIndex(objs, id).value;
      var d := data - {"objects"};
      assert Id(r[i]) == id;
      assert forall j :: 0 <= j < i ==> r[j] == objs[j];
      assert FindIndex(r, id) == Some(i);
      assert WithProps(r[i], d) == r[i];
    }
  }

  /** A removal takes away exactly one object carrying the id, if there is
      one, and leaves the others in order. */
  lemma RemovedTakesOne(objs: seq<Obj>, id: string)
    ensures !HasId(objs, id) ==> ApplyRemoved(objs, id) == objs
    ensures HasId(objs, id) ==>
      var i := FindIndex(objs, id).value;
      && |ApplyRemoved(objs, id)| == |objs| - 1
      && multiset(ApplyRemoved(objs, id)) == multiset(objs) - multiset{objs[i]}
      && Id(objs[i]) == id
  {
    if HasId(objs, id) {
      var i := FindIndex(objs, id).value;
      assert objs == objs[..i] + [objs[i]] + objs[i + 1..];
    }
  }

  /** Whatever was on the canvas stays, in place, in front of what an
      addition appends. */
  lemma {:induction false} AddMissingKeeps(objs: seq<Obj>, batch: seq<Obj>)
    ensures |objs| <= |AddMissing(objs, batch)| <= |objs| + |batch|
    ensures AddMissing(objs, batch)[..|objs|] == objs
    decreases |batch|
  {
    if batch != [] {
      var next := AddOne(objs, batch[0]);
      AddMissingKeeps(next, batch[1..]);
      assert next[..|objs|] == objs;
    }
  }

  /** After an addition every id of the batch is on the canvas. */
  lemma {:induction false} AddMissingCovers(objs: seq<Obj>, batch: seq<Obj>)
    ensures forall o :: o in batch ==> HasId(AddMissing(objs, batch), Id(o))
    decreases |batch|
  {
    if batch != [] {
      var next := AddOne(objs, batch[0]);
      AddMissingCovers(next, batch[1..]);
      AddMissingKeeps(next, batch[1..]);
      var r := AddMissing(objs, batch);
      if !HasId(objs, Id(batch[0])) {
        assert next[|objs|] == batch[0];
      }
      assert HasId(next, Id(batch[0]));
      var j :| 0 <= j < |next| && Id(next[j]) == Id(batch[0]);
      assert r[j] == next[j];
    }
  }

  /** An addition whose ids are all on the canvas already changes nothing. */
  lemma {:induction false} AddMissingPresent(objs: seq<Obj>, batch: seq<Obj>)
    requires forall o :: o in batch ==> HasId(objs, Id(o))
    ensures AddMissing(objs, batch) == objs
    decreases |batch|
  {
    if batch != [] {
      assert batch[0] in batch;
      AddMissingPresent(objs, batch[1..]);
    }
  }

  /** Receiving the same OBJECT_ADDED twice adds the object once. */
  lemma AddMissingIdempotent(objs: seq<Obj>, batch: seq<Obj>)
    ensures AddMissing(AddMissing(objs, batch), batch) == AddMissing(objs, batch)
  {
    AddMissingCovers(objs, batch);
    AddMissingPresent(AddMissing(objs, batch), batch);
  }

  /** An added object whose id was new is taken away again by a removal of
      that id: the canvas is back where it was. */
  lemma AddThenRemove(objs: seq<Obj>, o: Obj)
    requires !HasId(objs, Id(o))
    ensures ApplyRemoved(AddMissing(objs, [o]), Id(o)) == objs
  {
    var r := AddMissing(objs, [o]);
    assert r == objs + [o];
    assert r[|objs|] == o;
    assert forall j :: 0 <= j < |objs| ==> r[j] == objs[j];
    assert FindIndex(r, Id(o)) == Some(|objs|);
    assert r[..|objs|] == objs;
  }

  /** Events are applied in arrival order with no tombstones: a removal that
      arrives before the addition of the same object does not stop the
      object from appearing. */
  lemma RemoveThenAddKeeps(objs: seq<Obj>, o: Obj)
    ensures HasId(AddMissing(ApplyRemoved(objs, Id(o)), [o]), Id(o))
  {
    AddMissingCovers(ApplyRemoved(objs, Id(o)), [o]);
  }

  class SyncEngine {
    const canvas: Canvas
    const history: HistoryStack
    /** This client's id; its own events are ignored. */
    const userId: string
    /** `isProcessingRemoteRef`. */
    var isProcessingRemote: bool
    /** Objects whose `enlivenObjects` call has not called back yet. */
    var pendingAdds: seq<Obj>

    ghost predicate Valid()
      reads this, history, canvas`objects, canvas`active
    {
      history.canvas == canvas && history.Valid() && canvas.Valid()
    }

    constructor (canvas: Canvas, history: HistoryStack, userId: string)
      requires history.canvas == canvas && history.Valid() && canvas.Valid()
      ensures this.canvas == canvas && this.history == history && this.userId == userId
      ensures Valid() && !isProcessingRemote && pendingAdds == []
    {
      this.canvas, this.history, this.userId := canvas, history, userId;
      isProcessingRemote, pendingAdds := false, [];
    }

    /** The subscriber (lines 14-74): ignores its own events, events before
        the canvas exists and cursor moves; applies the others. OBJECT_ADDED
        and RESTORE_STATE only start their asynchronous step here, with the
        gate held until it completes. */
    method Handle(e: BroadcastEvent)
      requires Valid()
      modifies this`isProcessingRemote, this`pendingAdds
      modifies canvas`objects, canvas`background, canvas`active, canvas`loading
      modifies history`entries, history`index, history`isUndoing
      ensures Valid()
      ensures e.userId == userId || !canvas.mounted || e.Type() == CursorMove ==>
        && isProcessingRemote == old(isProcessingRemote) && pendingAdds == old(pendingAdds)
        && canvas.Current() == old(canvas.Current()) && canvas.loading == old(canvas.loading)
        && canvas.active == old(canvas.active)
        && history.Value() == old(history.Value()) && history.isUndoing == old(history.isUndoing)
      ensures e.userId != userId && canvas.mounted ==>
        match e.payload
        case Cursor(_, _, _, _) => true
        case Cleared =>
          && canvas.objects == [] && canvas.background == BACKGROUND && canvas.active == []
          && pendingAdds == old(pendingAdds) && canvas.loading == old(canvas.loading)
          && !isProcessingRemote && history.isUndoing == old(history.isUndoing)
          && history.Value() == Saved(old(history.Value()), history.isUndoing, canvas.Current())
        case Restore(s) =>
          && isProcessingRemote && history.isUndoing && canvas.loading == Some(s)
          && pendingAdds == old(pendingAdds) && canvas.active == old(canvas.active)
          && canvas.Current() == old(canvas.Current()) && history.Value() == old(history.Value())
        case Added(o) =>
          && isProcessingRemote && pendingAdds == old(pendingAdds) + [o]
          && canvas.loading == old(canvas.loading) && canvas.active == old(canvas.active)
          && history.isUndoing == old(history.isUndoing)
          && canvas.Current() == old(canvas.Current()) && history.Value() == old(history.Value())
        case Modified(id, data) =>
          && canvas.objects == ApplyModified(old(canvas.objects), id, data)
          && canvas.background == old(canvas.background) && canvas.active == old(canvas.active)
          && pendingAdds == old(pendingAdds) && canvas.loading == old(canvas.loading)
          && !isProcessingRemote && history.isUndoing == old(history.isUndoing)
          && history.Value() == Saved(old(history.Value()), history.isUndoing, canvas.Current())
        case Removed(id) =>
          && canvas.objects == ApplyRemoved(old(canvas.objects), id)
          && canvas.background == old(canvas.background)
          && canvas.active == (match FindIndex(old(canvas.objects), id)
                               case None => old(canvas.active)
                               case Some(i) => Shift(old(canvas.active), i))
          && pendingAdds == old(pendingAdds) && canvas.loading == old(canvas.loading)
          && !isProcessingRemote && history.isUndoing == old(history.isUndoing)
          && history.Value() == Saved(old(history.Value()), history.isUndoing, canvas.Current())
    {
      if e.userId == userId || !canvas.mounted {
        return;
      }
      match e.payload
      case Cursor(_, _, _, _) =>
      case Cleared =>
        isProcessingRemote := true;
        canvas.Clear();
        canvas.SetBackground(BACKGROUND);
        history.Save();
        isProcessingRemote := false;
      case Restore(s) =>
        isProcessingRemote := true;
        history.isUndoing := true;
        canvas.BeginLoad(s);
      case Added(o) =>
        isProcessingRemote := true;
        pendingAdds := pendingAdds + [o];
      case Modified(id, data) =>
        HandleModified(id, data);
      case Removed(id) =>
        HandleRemoved(id);
    }

    /** The OBJECT_MODIFIED branch (lines 50-61): under the gate the first
        object with the id takes the sent properties; then the gate opens
        and the scene is recorded. The object stays selected if it was. */
    method HandleModified(id: string, data: Props)
      requires Valid() && canvas.mounted
      modifies this`isProcessingRemote, canvas`objects, history`entries, history`index
      ensures Valid()
      ensures canvas.objects == ApplyModified(old(canvas.objects), id, data)
      ensures !isProcessingRemote
      ensures history.Value() == Saved(old(history.Value()), history.isUndoing, canvas.Current())
    {
      isProcessingRemote := true;
      var found := FindIndex(canvas.objects, id);
      if found.Some? {
        var existing := canvas.objects[found.value];
        canvas.Replace(found.value, WithProps(existing, data - {"objects"}));
      }
      isProcessingRemote := false;
      history.Save();
    }

    /** The OBJECT_REMOVED branch (lines 63-72): under the gate the first
        object with the id leaves the canvas and the selection; then the
        gate opens and the scene is recorded. */
    method HandleRemoved(id: string)
      requires Valid() && canvas.mounted
      modifies this`isProcessingRemote, canvas`objects, canvas`active, history`entries, history`index
      ensures Valid()
      ensures canvas.objects == ApplyRemoved(old(canvas.objects), id)
      ensures canvas.active == match FindIndex(old(canvas.objects), id)
                               case None => old(canvas.active)
                               case Some(i) => Shift(old(canvas.active), i)
      ensures !isProcessingRemote
      ensures history.Value() == Saved(old(history.Value()), history.isUndoing, canvas.Current())
    {
      isProcessingRemote := true;
      var found := FindIndex(canvas.objects, id);
      if found.Some? {
        canvas.RemoveAt(found.value);
      }
      ghost var objs, sel := canvas.objects, canvas.active;
      isProcessingRemote := false;
      history.Save();
      assert canvas.objects == objs && canvas.active == sel;
    }

    /** The `loadFromJSON` callback of RESTORE_STATE (lines 30-36): the loaded
        scene gets the standard background, both gates are released, and the
        result is recorded. */
    method CompleteRestore()
      requires Valid() && canvas.loading.Some?
      modifies this`isProcessingRemote
      modifies canvas`objects, canvas`background, canvas`active, canvas`loading
      modifies history`entries, history`index, history`isUndoing
      ensures Valid()
      ensures canvas.Current() == Deserialize(old(canvas.loading).value).(background := BACKGROUND)
      ensures canvas.loading == None && canvas.active == [] && !isProcessingRemote && !history.isUndoing
      ensures history.Value() == Saved(old(history.Value()), !canvas.mounted, canvas.Current())
    {
      canvas.FinishLoad();
      canvas.SetBackground(BACKGROUND);
      isProcessingRemote := false;
      history.isUndoing := false;
      history.Save();
    }

    /** The `enlivenObjects` callback of OBJECT_ADDED (lines 40-48) for the
        `k`-th pending object: it is added unless its id is already present,
        the gate is released and the result recorded. The callback runs later,
        and another remote event may have released the gate in between
        (lines 50-72). Then `canvas.add` fires the board's `object:added`
        listener (components/CanvasBoard.tsx:78-82), which records the scene
        as well when the object is not a path. */
    method CompleteAdded(k: nat)
      requires Valid() && k < |pendingAdds|
      modifies this`isProcessingRemote, this`pendingAdds, canvas`objects
      modifies history`entries, history`index
      ensures Valid()
      ensures canvas.objects == AddMissing(old(canvas.objects), [old(pendingAdds)[k]])
      ensures pendingAdds == old(pendingAdds)[..k] + old(pendingAdds)[k + 1..]
      ensures !isProcessingRemote
      ensures var blocked := !canvas.mounted || history.isUndoing;
        var listened := !HasId(old(canvas.objects), Id(old(pendingAdds)[k]))
                        && !old(isProcessingRemote) && old(pendingAdds)[k].kind != PathShape;
        history.Value() ==
          Saved(if listened then Saved(old(history.Value()), blocked, canvas.Current()) else old(history.Value()),
                blocked, canvas.Current())
    {
      var objs := [pendingAdds[k]];
      pendingAdds := pendingAdds[..k] + pendingAdds[k + 1..];
      ghost var listened := !HasId(canvas.objects, Id(objs[0])) && !isProcessingRemote && objs[0].kind != PathShape;
      ghost var start := canvas.objects;
      var i := 0;
      while i < |objs|
        invariant 0 <= i <= |objs|
        invariant AddMissing(canvas.objects, objs[i..]) == AddMissing(start, objs)
        invariant Valid() && isProcessingRemote == old(isProcessingRemote)
        invariant pendingAdds == old(pendingAdds)[..k] + old(pendingAdds)[k + 1..]
        invariant i == 0 ==> canvas.objects == start && history.Value() == old(history.Value())
        invariant i == 1 ==>
          history.Value() == (if listened then Saved(old(history.Value()), !canvas.mounted || history.isUndoing,
                                                     canvas.Current())
                              else old(history.Value()))
      {
        assert objs[i..][1..] == objs[i + 1..];
        var existing := FindIndex(canvas.objects, Id(objs[i]));
        if existing.None? {
          canvas.Add(objs[i]);
          // the board's `object:added` listener, with the remote gate as it is now
          if !isProcessingRemote && objs[i].kind != PathShape {
            history.Save();
          }
        }
        i := i + 1;
      }
      assert objs[i..] == [];
      isProcessingRemote := false;
      history.Save();
    }
  }
}
