/** The canvas engine at its boundary: the state of one fabric canvas that the
    whiteboard reads and writes, and the engine calls it makes (`add`,
    `remove`, `clear`, `loadFromJSON`, the active selection). Rendering,
    hit-testing, geometry and the JSON text are not modelled. */
module Fabric {
  import opened Types

  /** The free-drawing brush: colour and width. */
  datatype Brush = Brush(color: string, width: real)

  /** `getObjects().find(o => o.id === id)`: the position of the first
      object carrying `id`, if any. */
  function FindIndex(objs: seq<Obj>, id: string): (r: Option<nat>)
    ensures r.Some? ==> r.value < |objs| && Id(objs[r.value]) == id
    ensures r.Some? ==> forall j :: 0 <= j < r.value ==> Id(objs[j]) != id
    ensures r.None? <==> forall j :: 0 <= j < |objs| ==> Id(objs[j]) != id
  {
    if objs == [] then None
    else if Id(objs[0]) == id then Some(0)
    else match FindIndex(objs[1..], id)
      case None => None
      case Some(k) => Some(k + 1)
  }

  /** Some object on the canvas carries `id`. */
  predicate HasId(objs: seq<Obj>, id: string) {
    exists j :: 0 <= j < |objs| && Id(objs[j]) == id
  }

  /** No position occurs twice. */
  predicate Distinct(ps: seq<nat>) {
    ps == [] || (ps[0] !in ps[1..] && Distinct(ps[1..]))
  }

  /** A selection on a canvas of `n` objects: distinct positions below `n`. */
  predicate Positions(ps: seq<nat>, n: nat) {
    (forall k :: 0 <= k < |ps| ==> ps[k] < n) && Distinct(ps)
  }

  /** The objects at the positions `ps`, in the order of `ps`. */
  function Pick(objs: seq<Obj>, ps: seq<nat>): (r: seq<Obj>)
    requires forall k :: 0 <= k < |ps| ==> ps[k] < |objs|
    ensures |r| == |ps|
    ensures forall k :: 0 <= k < |ps| ==> r[k] == objs[ps[k]]
  {
    seq(|ps|, k requires 0 <= k < |ps| => objs[ps[k]])
  }

  /** Where the object at position `q` ends up once the object at position
      `p` (not `q`) has been cut out. */
  function Down(q: nat, p: nat): nat {
    if q > p then q - 1 else q
  }

  /** The selection once the object at position `p` has left the canvas:
      `p` drops out and every later position moves down by one, so each
      remaining entry still designates the same object. */
  function Shift(ps: seq<nat>, p: nat): (r: seq<nat>)
    ensures |r| <= |ps|
    ensures p !in ps ==> |r| == |ps| && forall k :: 0 <= k < |ps| ==> r[k] == Down(ps[k], p)
  {
    if ps == [] then []
    else if ps[0] == p then Shift(ps[1..], p)
    else
      assert p !in ps ==> p !in ps[1..];
      [Down(ps[0], p)] + Shift(ps[1..], p)
  }

  /** The shifted selection holds exactly the moved-down positions of the
      other selected objects. */
  lemma {:induction false} ShiftMembers(ps: seq<nat>, p: nat)
    ensures forall x :: x in Shift(ps, p) <==> exists y :: y in ps && y != p && x == Down(y, p)
  {
    if ps != [] {
      ShiftMembers(ps[1..], p);
      assert forall y :: y in ps <==> y == ps[0] || y in ps[1..];
    }
  }

  /** Cutting out the object at a valid position keeps a valid selection
      valid on the shorter canvas: positions stay distinct and in range. */
  lemma {:induction false} ShiftPositions(ps: seq<nat>, p: nat, n: nat)
    requires Positions(ps, n) && p < n
    ensures Positions(Shift(ps, p), n - 1)
  {
    if ps != [] {
      var tail := ps[1..];
      assert Positions(tail, n);
      ShiftPositions(tail, p, n);
      if ps[0] != p {
        var rest := Shift(tail, p);
        ShiftMembers(tail, p);
        assert Down(ps[0], p) !in rest;
        var r := [Down(ps[0], p)] + rest;
        assert Shift(ps, p) == r && r[1..] == rest;
      }
    }
  }

  /** Deleting the first selected object: the rest of the selection still
      picks the rest of the selected objects. */
  lemma {:induction false} ShiftFirst(objs: seq<Obj>, ps: seq<nat>)
    requires Positions(ps, |objs|) && |ps| > 0
    ensures var p := ps[0];
      Positions(Shift(ps, p), |objs| - 1)
      && Pick(objs[..p] + objs[p + 1..], Shift(ps, p)) == Pick(objs, ps)[1..]
  {
    var p := ps[0];
    ShiftPositions(ps, p, |objs|);
    var tail := ps[1..];
    var r := Shift(tail, p);
    assert Shift(ps, p) == r;
    var cut := objs[..p] + objs[p + 1..];
    forall k | 0 <= k < |r|
      ensures cut[r[k]] == objs[ps[k + 1]]
    {
      var q := tail[k];
      assert r[k] == Down(q, p) && q == ps[k + 1] && q < |objs|;
      if q > p {
        assert cut[q - 1] == objs[q];
      } else {
        assert cut[q] == objs[q];
      }
    }
    assert Pick(cut, r) == Pick(objs, ps)[1..];
  }

  class Canvas {
    /** Whether `fabricRef.current` holds this canvas (it is null before the
        canvas is created and after it is disposed). */
    var mounted: bool
    var objects: seq<Obj>
    var background: string
    /** The active selection (`getActiveObjects()`), as the positions in
        `objects` of the selected objects: fabric selects the objects
        themselves, not copies of them. */
    var active: seq<nat>
    /** The snapshot a `loadFromJSON` call is loading, until its callback runs. */
    var loading: Option<Snapshot>
    var isDrawingMode: bool
    /** Rubber-band selection (`canvas.selection`). */
    var selection: bool
    var brush: Option<Brush>
    var isDragging: bool
    var lastPosX: real
    var lastPosY: real
    /** The element size, which follows the window. */
    var width: real
    var height: real

    /** Every selected position designates an object on the canvas, once. */
    predicate Valid()
      reads this`objects, this`active
    {
      Positions(active, |objects|)
    }

    /** The selected objects themselves, in selection order. */
    function Selected(): seq<Obj>
      reads this`objects, this`active
      requires Valid()
    {
      Pick(objects, active)
    }

    /** The canvas as created on mount (components/hooks/useCanvas.ts), sized
        to the window. */
    constructor (width: real, height: real)
      ensures mounted && objects == [] && background == BACKGROUND && active == [] && Valid()
      ensures loading == None && selection && !isDrawingMode && brush == None && !isDragging
      ensures this.width == width && this.height == height
    {
      mounted, objects, background, active := true, [], BACKGROUND, [];
      loading, isDrawingMode, selection, brush := None, false, true, None;
      isDragging, lastPosX, lastPosY := false, 0.0, 0.0;
      this.width, this.height := width, height;
    }

    /** What `toJSON` serializes: the objects and the background. */
    function Current(): Scene
      reads this
    {
      Scene(objects, background)
    }

    /** `add(o)`: on top of the others; the selection still designates the
        same objects. */
    method Add(o: Obj)
      requires Valid()
      modifies this`objects
      ensures Valid()
      ensures objects == old(objects) + [o]
      ensures Selected() == old(Selected())
    {
      objects := objects + [o];
    }

    /** `remove(o)` for the object `o` at position `i`: it leaves the canvas,
        and the selection if it was selected. */
    method RemoveAt(i: nat)
      requires Valid() && i < |objects|
      modifies this`objects, this`active
      ensures Valid()
      ensures objects == old(objects)[..i] + old(objects)[i + 1..]
      ensures active == Shift(old(active), i)
      ensures multiset(objects) == multiset(old(objects)) - multiset{old(objects)[i]}
    {
      ShiftPositions(active, i, |objects|);
      assert objects == objects[..i] + [objects[i]] + objects[i + 1..];
      objects, active := objects[..i] + objects[i + 1..], Shift(active, i);
    }

    /** `obj.set(...)` on the object at position `i`: it changes in place,
        so a selection holding it sees the change. */
    method Replace(i: nat, o: Obj)
      requires Valid() && i < |objects|
      modifies this`objects
      ensures Valid()
      ensures objects == old(objects)[i := o]
    {
      objects := objects[i := o];
    }

    /** `clear()`: no objects, no background, no selection. */
    method Clear()
      modifies this`objects, this`background, this`active
      ensures objects == [] && background == "" && active == [] && Valid()
    {
      objects, background, active := [], "", [];
    }

    method SetBackground(color: string)
      modifies this`background
      ensures background == color
    {
      background := color;
    }

    /** `setActiveObject` on the object at position `i`. */
    method SetActive(i: nat)
      requires i < |objects|
      modifies this`active
      ensures active == [i] && Valid() && Selected() == [objects[i]]
    {
      active := [i];
    }

    method DiscardActive()
      modifies this`active
      ensures active == [] && Valid()
    {
      active := [];
    }

    /** `loadFromJSON(s, callback)`: the load is under way; the scene changes
        only when it finishes. */
    method BeginLoad(s: Snapshot)
      modifies this`loading
      ensures loading == Some(s)
    {
      loading := Some(s);
    }

    /** The load finishes: the scene is replaced by the deserialized snapshot,
        just before the caller's callback runs. */
    method FinishLoad()
      requires loading.Some?
      modifies this`objects, this`background, this`active, this`loading
      ensures Current() == Deserialize(old(loading).value) && active == [] && loading == None && Valid()
    {
      var scene := Deserialize(loading.value);
      objects, background, active, loading := scene.objects, scene.background, [], None;
    }
  }
}
