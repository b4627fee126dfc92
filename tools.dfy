/** The tool layer (components/hooks/useTools.ts): how the active tool
    configures the canvas, and what a mouse press does with it — panning,
    inserting a shape or text, or the two-click line and arrow machine. */
module Tools {
  import opened Types
  import opened Fabric
  import opened History
  import opened Sync
  import opened Broadcasting
  import opened CanvasBoard

  /** A canvas point (`canvas.getPointer`). */
  datatype Point = Point(x: real, y: real)

  /** Free drawing is on for the pen and the eraser. */
  predicate DrawingMode(tool: Option<Tool>) {
    tool == Some(Pen) || tool == Some(Eraser)
  }

  /** Rubber-band selection is on for the select and move tools. */
  predicate SelectionOn(tool: Option<Tool>) {
    tool == Some(Select) || tool == Some(Move)
  }

  /** Objects can be selected with the select and move tools. */
  predicate Selectable(tool: Option<Tool>) {
    tool == Some(Select) || tool == Some(Move)
  }

  /** Objects receive mouse events with the select, move and eraser tools. */
  predicate Evented(tool: Option<Tool>) {
    tool == Some(Select) || tool == Some(Move) || tool == Some(Eraser)
  }

  /** The two properties every object gets when a tool is chosen. */
  function ToolFlags(tool: Option<Tool>): Props {
    map["selectable" := Flag(Selectable(tool)), "evented" := Flag(Evented(tool))]
  }

  /** How the tool flags fit together: free drawing and rubber-band
      selection are never both on; whatever is selectable is evented; the
      eraser is the only drawing tool whose strokes can hit objects; with no
      tool chosen everything is off. */
  lemma ToolModes(tool: Option<Tool>)
    ensures !(DrawingMode(tool) && SelectionOn(tool))
    ensures Selectable(tool) <==> SelectionOn(tool)
    ensures Selectable(tool) ==> Evented(tool)
    ensures DrawingMode(tool) && Evented(tool) <==> tool == Some(Eraser)
    ensures Evented(tool) && !Selectable(tool) <==> tool == Some(Eraser)
    ensures tool.None? ==> !DrawingMode(tool) && !SelectionOn(tool) && !Evented(tool)
  {
  }

  /** The brush a tool installs: the pen draws in the chosen colour and
      width, the eraser paints the background colour ten times as wide;
      other tools keep the current brush. */
  function BrushFor(tool: Option<Tool>, color: string, strokeWidth: real, current: Option<Brush>): (r: Option<Brush>)
    ensures tool == Some(Eraser) ==> r == Some(Brush(BACKGROUND, strokeWidth * 10.0))
    ensures tool == Some(Pen) ==> r == Some(Brush(color, strokeWidth))
    ensures !DrawingMode(tool) ==> r == current
  {
    match tool
    case Some(Pen) => Some(Brush(color, strokeWidth))
    case Some(Eraser) => Some(Brush(BACKGROUND, strokeWidth * 10.0))
    case _ => current
  }

  /** A mouse press pans instead of drawing with the move tool, or with Alt
      held for any tool but text. */
  predicate Pans(tool: Option<Tool>, alt: bool) {
    tool == Some(Move) || (alt && tool != Some(Text))
  }

  /** The object a rectangle, circle or text click inserts at (x, y). */
  function ShapeFor(tool: Tool, color: string, x: real, y: real, id: string): (r: Option<Obj>)
    ensures r.Some? <==> tool == Rectangle || tool == Circle || tool == Text
    ensures r.Some? ==> Id(r.value) == id && r.value.kind != PathShape
  {
    var at := map["left" := Num(x), "top" := Num(y), "fill" := Str(color), "id" := Str(id)];
    match tool
    case Rectangle => Some(Obj(RectShape, at + map["width" := Num(100.0), "height" := Num(100.0)]))
    case Circle => Some(Obj(CircleShape, at + map["radius" := Num(50.0)]))
    case Text => Some(Obj(TextShape, at + map["text" := Str("Type text"), "fontSize" := Num(20.0),
                                          "fontFamily" := Str("Inter")]))
    case _ => None
  }

  /** The shape each tool inserts: its class, its size or text, and its
      position and fill. */
  lemma ShapeGeometry(tool: Tool, color: string, x: real, y: real, id: string)
    ensures var r := ShapeFor(tool, color, x, y, id);
      && (tool == Rectangle ==>
            && r.Some? && r.value.kind == RectShape
            && HasProp(r.value, "width", Num(100.0)) && HasProp(r.value, "height", Num(100.0)))
      && (tool == Circle ==>
            r.Some? && r.value.kind == CircleShape && HasProp(r.value, "radius", Num(50.0)))
      && (tool == Text ==>
            && r.Some? && r.value.kind == TextShape
            && HasProp(r.value, "text", Str("Type text")) && HasProp(r.value, "fontSize", Num(20.0))
            && HasProp(r.value, "fontFamily", Str("Inter")))
      && (r.Some? ==>
            && HasProp(r.value, "left", Num(x)) && HasProp(r.value, "top", Num(y))
            && HasProp(r.value, "fill", Str(color)))
  {
  }

  /** The object the second line or arrow click inserts: a line from the
      start to the end point, or for the arrow a group of that line and its
      head (the group's members and the head's angle are not modelled). */
  function Segment(arrow: bool, start: Point, end: Point, color: string, strokeWidth: real, id: string): (r: Obj)
    ensures Id(r) == id && r.kind != PathShape
    ensures HasProp(r, "selectable", Flag(true))
    ensures arrow <==> r.kind == GroupShape
  {
    if arrow then Obj(GroupShape, map["id" := Str(id), "selectable" := Flag(true)])
    else Obj(LineShape, map["x1" := Num(start.x), "y1" := Num(start.y), "x2" := Num(end.x), "y2" := Num(end.y),
                            "stroke" := Str(color), "strokeWidth" := Num(strokeWidth),
                            "selectable" := Flag(true), "id" := Str(id)])
  }

  /** A plain line runs from the start to the end point in the stroke colour
      and width. */
  lemma SegmentGeometry(start: Point, end: Point, color: string, strokeWidth: real, id: string)
    ensures var r := Segment(false, start, end, color, strokeWidth, id);
      && r.kind == LineShape
      && HasProp(r, "x1", Num(start.x)) && HasProp(r, "y1", Num(start.y))
      && HasProp(r, "x2", Num(end.x)) && HasProp(r, "y2", Num(end.y))
      && HasProp(r, "stroke", Str(color)) && HasProp(r, "strokeWidth", Num(strokeWidth))
  {
  }

  /** The hint shown between the two clicks of a line or arrow. */
  const LINE_HINT := "Click to set end point"

  class ToolController {
    const board: Board
    /** `isDrawingLineRef`: the first click of a line or arrow was made. */
    var isDrawingLine: bool
    /** `lineStartRef`. */
    var lineStart: Option<Point>
    /** The hint shown to the user, if any. */
    var lineMessage: Option<string>

    ghost predicate Valid()
      reads this, board, board.history, board.sync, board.canvas`objects, board.canvas`active
    {
      && board.Valid()
      && (isDrawingLine <==> lineStart.Some?)
      && (isDrawingLine <==> lineMessage == Some(LINE_HINT))
      && (!isDrawingLine ==> lineMessage == None)
    }

    constructor (board: Board)
      requires board.Valid()
      ensures this.board == board && Valid() && !isDrawingLine
    {
      this.board := board;
      isDrawingLine, lineStart, lineMessage := false, None, None;
    }

    /** `canvas.forEachObject` (lines 69-72): every object gets the tool's
        `selectable` and `evented` flags and keeps everything else,
        including its id and its place; the selection still designates the
        same, now flagged, objects. */
    method MarkObjects(tool: Option<Tool>)
      requires board.canvas.Valid()
      modifies board.canvas`objects
      ensures board.canvas.Valid()
      ensures |board.canvas.objects| == |old(board.canvas.objects)|
      ensures forall i :: 0 <= i < |board.canvas.objects| ==>
        board.canvas.objects[i] == WithProps(old(board.canvas.objects)[i], ToolFlags(tool))
      ensures forall i :: 0 <= i < |board.canvas.objects| ==>
        Id(board.canvas.objects[i]) == Id(old(board.canvas.objects)[i])
        && board.canvas.objects[i].kind == old(board.canvas.objects)[i].kind
    {
      var canvas := board.canvas;
      var i := 0;
      while i < |canvas.objects|
        invariant 0 <= i <= |canvas.objects| == |old(canvas.objects)|
        invariant canvas.Valid()
        invariant forall j :: 0 <= j < i ==> canvas.objects[j] == WithProps(old(canvas.objects)[j], ToolFlags(tool))
        invariant forall j :: i <= j < |canvas.objects| ==> canvas.objects[j] == old(canvas.objects)[j]
      {
        canvas.Replace(i, WithProps(canvas.objects[i], ToolFlags(tool)));
        i := i + 1;
      }
      forall i | 0 <= i < |canvas.objects|
        ensures Id(canvas.objects[i]) == Id(old(canvas.objects)[i])
      {
        assert "id" !in ToolFlags(tool);
      }
    }

    /** The tool effect (lines 20-75): once the canvas exists, sets free
        drawing and rubber-band selection from the tool, installs the pen or
        eraser brush, abandons a half-drawn line for any tool but line and
        arrow, and flags every object. */
    method ApplyTool(tool: Option<Tool>, color: string, strokeWidth: real)
      requires Valid()
      modifies board.canvas`isDrawingMode, board.canvas`selection, board.canvas`brush, board.canvas`objects
      modifies this`isDrawingLine, this`lineStart, this`lineMessage
      ensures Valid()
      ensures !board.canvas.mounted ==>
        && board.canvas.objects == old(board.canvas.objects)
        && isDrawingLine == old(isDrawingLine) && lineStart == old(lineStart)
        && lineMessage == old(lineMessage)
        && board.canvas.isDrawingMode == old(board.canvas.isDrawingMode)
        && board.canvas.selection == old(board.canvas.selection)
        && board.canvas.brush == old(board.canvas.brush)
      ensures board.canvas.mounted ==>
        && board.canvas.isDrawingMode == DrawingMode(tool)
        && board.canvas.selection == SelectionOn(tool)
        && board.canvas.brush == BrushFor(tool, color, strokeWidth, old(board.canvas.brush))
        && (tool != Some(Line) && tool != Some(Arrow) ==> !isDrawingLine && lineStart == None && lineMessage == None)
        && (tool == Some(Line) || tool == Some(Arrow) ==> isDrawingLine == old(isDrawingLine) && lineStart == old(lineStart))
        && |board.canvas.objects| == |old(board.canvas.objects)|
        && (forall i :: 0 <= i < |board.canvas.objects| ==>
              board.canvas.objects[i] == WithProps(old(board.canvas.objects)[i], ToolFlags(tool)))
    {
      var canvas := board.canvas;
      if !canvas.mounted {
        return;
      }
      canvas.isDrawingMode := DrawingMode(tool);
      canvas.selection := SelectionOn(tool);
      if tool == Some(Pen) {
        canvas.brush := Some(Brush(color, strokeWidth));
      } else if tool == Some(Eraser) {
        canvas.brush := Some(Brush(BACKGROUND, strokeWidth * 10.0));
      }
      if tool != Some(Line) && tool != Some(Arrow) {
        isDrawingLine := false;
        lineStart := None;
        lineMessage := None;
      }
      MarkObjects(tool);
    }

    /** `broadcastAndSave` (lines 221-228): one OBJECT_ADDED carrying the
        object, then one recording. */
    method BroadcastAndSave(o: Obj)
      requires board.Valid()
      modifies board.service`posted, board.history`entries, board.history`index
      ensures board.Valid()
      ensures board.service.posted == old(board.service.posted) + [BroadcastEvent(Added(o), board.userId)]
      ensures board.history.Value() ==
        Saved(old(board.history.Value()), !board.canvas.mounted || board.history.isUndoing, board.canvas.Current())
    {
      board.service.Broadcast(BroadcastEvent(Added(o), board.userId));
      board.history.Save();
    }

    /** Inserting a tool-made object: fabric adds it (firing `object:added`,
        which records the scene), the clicked shape is selected, then
        `broadcastAndSave` broadcasts it and records once more. */
    method Insert(o: Obj, select: bool)
      requires board.Valid() && o.kind != PathShape && !board.sync.isProcessingRemote
      modifies board.canvas`objects, board.canvas`active
      modifies board.service`posted, board.history`entries, board.history`index
      ensures board.Valid()
      ensures board.canvas.objects == old(board.canvas.objects) + [o]
      ensures board.canvas.active == if select then [|board.canvas.objects| - 1] else old(board.canvas.active)
      ensures select ==> board.canvas.Selected() == [o]
      ensures board.service.posted == old(board.service.posted) + [BroadcastEvent(Added(o), board.userId)]
      ensures board.history.Value() == RecordedTwice(old(board.history.Value()),
        !board.canvas.mounted || board.history.isUndoing, board.canvas.Current())
    {
      var canvas := board.canvas;
      canvas.Add(o);
      board.ObjectAdded(o);
      if select {
        canvas.SetActive(|canvas.objects| - 1);
      }
      ghost var placed, chosen := canvas.objects, canvas.active;
      BroadcastAndSave(o);
      assert canvas.objects == placed && canvas.active == chosen;
    }

    /** A line or arrow click (lines 135-185): the first click records the
        start and shows the hint; the second inserts the segment from the
        start to `p` and returns to idle. */
    method LineClick(arrow: bool, p: Point, color: string, strokeWidth: real, freshId: string)
      requires Valid() && !board.sync.isProcessingRemote
      modifies board.canvas`objects, board.canvas`active, this`isDrawingLine, this`lineStart, this`lineMessage
      modifies board.service`posted, board.history`entries, board.history`index
      ensures Valid()
      ensures !old(isDrawingLine) ==>
        && isDrawingLine && lineStart == Some(p) && lineMessage == Some(LINE_HINT)
        && board.canvas.objects == old(board.canvas.objects) && board.canvas.active == old(board.canvas.active)
        && board.service.posted == old(board.service.posted)
        && board.history.Value() == old(board.history.Value())
      ensures old(isDrawingLine) ==>
        var o := Segment(arrow, old(lineStart).value, p, color, strokeWidth, freshId);
        && !isDrawingLine && lineStart == None && lineMessage == None
        && board.canvas.objects == old(board.canvas.objects) + [o]
        && board.canvas.active == old(board.canvas.active)
        && board.service.posted == old(board.service.posted) + [BroadcastEvent(Added(o), board.userId)]
        && board.history.Value() == RecordedTwice(old(board.history.Value()),
             !board.canvas.mounted || board.history.isUndoing, board.canvas.Current())
    {
      if !isDrawingLine {
        lineStart := Some(p);
        isDrawingLine := true;
        lineMessage := Some(LINE_HINT);
      } else if lineStart.Some? {
        var o := Segment(arrow, lineStart.value, p, color, strokeWidth, freshId);
        Insert(o, false);
        isDrawingLine := false;
        lineStart := None;
        lineMessage := None;
      }
    }

    /** A rectangle, circle or text click (lines 96-134): the shape is
        inserted at the pointer and becomes the only selected object. */
    method ShapeClick(tool: Tool, color: string, p: Point, freshId: string)
      requires Valid() && !board.sync.isProcessingRemote && ShapeFor(tool, color, p.x, p.y, freshId).Some?
      modifies board.canvas`objects, board.canvas`active
      modifies board.service`posted, board.history`entries, board.history`index
      ensures Valid()
      ensures var o := ShapeFor(tool, color, p.x, p.y, freshId).value;
        && board.canvas.objects == old(board.canvas.objects) + [o]
        && board.canvas.active == [|board.canvas.objects| - 1] && board.canvas.Selected() == [o]
        && board.service.posted == old(board.service.posted) + [BroadcastEvent(Added(o), board.userId)]
        && board.history.Value() == RecordedTwice(old(board.history.Value()),
             !board.canvas.mounted || board.history.isUndoing, board.canvas.Current())
    {
      var o := ShapeFor(tool, color, p.x, p.y, freshId).value;
      Insert(o, true);
    }

    /** The tool part of `handleMouseDown` (lines 96-185), once neither a
        remote event nor a pan is in the way: rectangle, circle and text
        insert one object with `freshId` and select it; line and arrow run
        the two-click machine; the other tools do nothing. */
    method Click(tool: Option<Tool>, color: string, strokeWidth: real, p: Point, freshId: string)
      requires Valid() && !board.sync.isProcessingRemote
      modifies board.canvas`objects, board.canvas`active
      modifies this`isDrawingLine, this`lineStart, this`lineMessage
      modifies board.service`posted, board.history`entries, board.history`index
      ensures Valid()
      ensures tool.Some? && ShapeFor(tool.value, color, p.x, p.y, freshId).Some? ==>
        var o := ShapeFor(tool.value, color, p.x, p.y, freshId).value;
        && board.canvas.objects == old(board.canvas.objects) + [o]
        && board.canvas.active == [|board.canvas.objects| - 1] && board.canvas.Selected() == [o]
        && isDrawingLine == old(isDrawingLine) && lineStart == old(lineStart) && lineMessage == old(lineMessage)
        && board.service.posted == old(board.service.posted) + [BroadcastEvent(Added(o), board.userId)]
        && board.history.Value() == RecordedTwice(old(board.history.Value()),
             !board.canvas.mounted || board.history.isUndoing, board.canvas.Current())
      ensures tool == Some(Line) || tool == Some(Arrow) ==>
        if !old(isDrawingLine) then
          && isDrawingLine && lineStart == Some(p)
          && board.canvas.objects == old(board.canvas.objects) && board.canvas.active == old(board.canvas.active)
          && board.service.posted == old(board.service.posted)
          && board.history.Value() == old(board.history.Value())
        else
          var o := Segment(tool == Some(Arrow), old(lineStart).value, p, color, strokeWidth, freshId);
          && !isDrawingLine && lineStart == None
          && board.canvas.objects == old(board.canvas.objects) + [o] && board.canvas.active == old(board.canvas.active)
          && board.service.posted == old(board.service.posted) + [BroadcastEvent(Added(o), board.userId)]
          && board.history.Value() == RecordedTwice(old(board.history.Value()),
               !board.canvas.mounted || board.history.isUndoing, board.canvas.Current())
      ensures tool != Some(Rectangle) && tool != Some(Circle) && tool != Some(Text)
              && tool != Some(Line) && tool != Some(Arrow) ==>
        && board.canvas.objects == old(board.canvas.objects) && board.canvas.active == old(board.canvas.active)
        && board.service.posted == old(board.service.posted)
        && board.history.Value() == old(board.history.Value())
        && isDrawingLine == old(isDrawingLine) && lineStart == old(lineStart)
    {
      if tool == Some(Rectangle) || tool == Some(Circle) || tool == Some(Text) {
        ShapeClick(tool.value, color, p, freshId);
      } else if tool == Some(Line) || tool == Some(Arrow) {
        LineClick(tool == Some(Arrow), p, color, strokeWidth, freshId);
      }
    }

    /** `handleMouseDown` (lines 82-187) with the pointer at `p`, the raw
        client position `client` and the Alt key state. Nothing happens while
        a remote event is applied; panning starts for the move tool or Alt;
        rectangle, circle and text insert one object with `freshId`, select
        it, broadcast it and record; line and arrow run the two-click
        machine; the other tools do nothing. */
    method MouseDown(tool: Option<Tool>, color: string, strokeWidth: real, p: Point, client: Point,
                     alt: bool, freshId: string)
      requires Valid()
      modifies board.canvas`objects, board.canvas`active, board.canvas`isDragging, board.canvas`selection
      modifies board.canvas`lastPosX, board.canvas`lastPosY
      modifies this`isDrawingLine, this`lineStart, this`lineMessage
      modifies board.service`posted, board.history`entries, board.history`index
      ensures Valid()
      ensures board.sync.isProcessingRemote || Pans(tool, alt) ==>
        && board.canvas.objects == old(board.canvas.objects) && board.canvas.active == old(board.canvas.active)
        && board.service.posted == old(board.service.posted)
        && board.history.Value() == old(board.history.Value())
        && isDrawingLine == old(isDrawingLine) && lineStart == old(lineStart)
      ensures board.sync.isProcessingRemote || !Pans(tool, alt) ==>
        && board.canvas.isDragging == old(board.canvas.isDragging)
        && board.canvas.selection == old(board.canvas.selection)
        && board.canvas.lastPosX == old(board.canvas.lastPosX) && board.canvas.lastPosY == old(board.canvas.lastPosY)
      ensures !board.sync.isProcessingRemote && Pans(tool, alt) ==>
        && board.canvas.isDragging && !board.canvas.selection
        && board.canvas.lastPosX == client.x && board.canvas.lastPosY == client.y
      ensures !board.sync.isProcessingRemote && !Pans(tool, alt) && tool.Some?
              && ShapeFor(tool.value, color, p.x, p.y, freshId).Some? ==>
        var o := ShapeFor(tool.value, color, p.x, p.y, freshId).value;
        && board.canvas.objects == old(board.canvas.objects) + [o]
        && board.canvas.active == [|board.canvas.objects| - 1] && board.canvas.Selected() == [o]
        && isDrawingLine == old(isDrawingLine) && lineStart == old(lineStart) && lineMessage == old(lineMessage)
        && board.service.posted == old(board.service.posted) + [BroadcastEvent(Added(o), board.userId)]
        && board.history.Value() == RecordedTwice(old(board.history.Value()),
             !board.canvas.mounted || board.history.isUndoing, board.canvas.Current())
      ensures !board.sync.isProcessingRemote && !Pans(tool, alt) && (tool == Some(Line) || tool == Some(Arrow)) ==>
        if !old(isDrawingLine) then
          && isDrawingLine && lineStart == Some(p)
          && board.canvas.objects == old(board.canvas.objects) && board.canvas.active == old(board.canvas.active)
          && board.service.posted == old(board.service.posted)
          && board.history.Value() == old(board.history.Value())
        else
          var o := Segment(tool == Some(Arrow), old(lineStart).value, p, color, strokeWidth, freshId);
          && !isDrawingLine && lineStart == None
          && board.canvas.objects == old(board.canvas.objects) + [o] && board.canvas.active == old(board.canvas.active)
          && board.service.posted == old(board.service.posted) + [BroadcastEvent(Added(o), board.userId)]
          && board.history.Value() == RecordedTwice(old(board.history.Value()),
               !board.canvas.mounted || board.history.isUndoing, board.canvas.Current())
      ensures !board.sync.isProcessingRemote && !Pans(tool, alt)
              && tool != Some(Rectangle) && tool != Some(Circle) && tool != Some(Text)
              && tool != Some(Line) && tool != Some(Arrow) ==>
        && board.canvas.objects == old(board.canvas.objects) && board.canvas.active == old(board.canvas.active)
        && board.service.posted == old(board.service.posted)
        && board.history.Value() == old(board.history.Value())
        && isDrawingLine == old(isDrawingLine) && lineStart == old(lineStart)
    {
      var canvas := board.canvas;
      if board.sync.isProcessingRemote {
        return;
      }
      if Pans(tool, alt) {
        canvas.isDragging := true;
        canvas.selection := false;
        canvas.lastPosX := client.x;
        canvas.lastPosY := client.y;
        return;
      }
      Click(tool, color, strokeWidth, p, freshId);
    }

    /** `handleMouseMove` while panning (lines 189-198): the last pointer
        position follows the mouse; the viewport shift itself is not
        modelled. */
    method MouseMove(client: Point)
      modifies board.canvas`lastPosX, board.canvas`lastPosY
      ensures board.canvas.isDragging ==> board.canvas.lastPosX == client.x && board.canvas.lastPosY == client.y
      ensures !board.canvas.isDragging ==>
        board.canvas.lastPosX == old(board.canvas.lastPosX) && board.canvas.lastPosY == old(board.canvas.lastPosY)
    {
      if board.canvas.isDragging {
        board.canvas.lastPosX := client.x;
        board.canvas.lastPosY := client.y;
      }
    }

    /** `handleMouseUp` (lines 200-206): a pan ends and rubber-band
        selection is switched on, whatever the tool. */
    method MouseUp()
      modifies board.canvas`isDragging, board.canvas`selection
      ensures old(board.canvas.isDragging) ==> !board.canvas.isDragging && board.canvas.selection
      ensures !old(board.canvas.isDragging) ==>
        !board.canvas.isDragging && board.canvas.selection == old(board.canvas.selection)
    {
      if board.canvas.isDragging {
        board.canvas.isDragging := false;
        board.canvas.selection := true;
      }
    }
  }
}
