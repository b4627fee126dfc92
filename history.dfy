/** The per-client undo/redo history (components/hooks/useHistory.ts): a
    bounded list of whole-scene snapshots with a cursor, and the flag that
    blocks recording while a snapshot is being loaded. */
module History {
  import opened Types
  import opened Fabric

  /** The history's value: `historyRef` and `historyIndexRef`. */
  datatype Stack = Stack(entries: seq<Snapshot>, index: int)

  /** What every operation keeps, starting from the empty history. */
  predicate Inv(st: Stack) {
    && -1 <= st.index < |st.entries| <= HISTORY_LIMIT
    && (st.index == -1 <==> st.entries == [])
  }

  /** The history as first created: no entries, cursor at -1. */
  const Empty := Stack([], -1)

  /** `saveHistory`'s update: keep entries 0..index, append the snapshot,
      drop the oldest entry past the limit, move the cursor to the last entry. */
  function Push(st: Stack, s: Snapshot): (r: Stack)
    requires Inv(st)
    ensures Inv(r) && |r.entries| > 0 && r.index == |r.entries| - 1 && r.entries[r.index] == s
    ensures st.index + 1 < HISTORY_LIMIT ==> r.entries == st.entries[..st.index + 1] + [s]
    ensures st.index + 1 == HISTORY_LIMIT ==>
      |r.entries| == HISTORY_LIMIT && r.entries == st.entries[1..] + [s]
  {
    var kept := st.entries[..st.index + 1] + [s];
    var entries := if |kept| > HISTORY_LIMIT then kept[1..] else kept;
    Stack(entries, |entries| - 1)
  }

  /** What `saveHistory` leaves: the history unchanged when recording is
      blocked, otherwise the serialized scene pushed. */
  function Saved(st: Stack, blocked: bool, scene: Scene): (r: Stack)
    requires Inv(st)
    ensures Inv(r)
    ensures blocked ==> r == st
    ensures !blocked ==> r == Push(st, Serialize(scene)) && r.entries[r.index] == Serialize(scene)
  {
    if blocked then st else Push(st, Serialize(scene))
  }

  /** `undo`: nothing below entry 0; otherwise the cursor steps back and the
      entry it now points at is returned. The entries never change. */
  function UndoStep(st: Stack): (r: (Option<Snapshot>, Stack))
    requires Inv(st)
    ensures Inv(r.1) && r.1.entries == st.entries
    ensures st.index <= 0 ==> r == (None, st)
    ensures st.index > 0 ==> r.1.index == st.index - 1 && r.0 == Some(st.entries[st.index - 1])
  {
    if st.index <= 0 then (None, st)
    else (Some(st.entries[st.index - 1]), st.(index := st.index - 1))
  }

  /** `redo`: nothing past the last entry; otherwise the cursor steps forward
      and the entry it now points at is returned. The entries never change. */
  function RedoStep(st: Stack): (r: (Option<Snapshot>, Stack))
    requires Inv(st)
    ensures Inv(r.1) && r.1.entries == st.entries
    ensures st.index >= |st.entries| - 1 ==> r == (None, st)
    ensures st.index < |st.entries| - 1 ==>
      r.1.index == st.index + 1 && r.0 == Some(st.entries[st.index + 1])
  {
    if st.index >= |st.entries| - 1 then (None, st)
    else (Some(st.entries[st.index + 1]), st.(index := st.index + 1))
  }

  /** Right after a push there is nothing to redo. */
  lemma RedoAfterPush(st: Stack, s: Snapshot)
    requires Inv(st)
    ensures RedoStep(Push(st, s)) == (None, Push(st, s))
  {
  }

  /** `undo` then `redo` restores the cursor and hands back the snapshot that
      was current before the undo; `redo` then `undo` likewise. */
  lemma UndoThenRedo(st: Stack)
    requires Inv(st)
    ensures st.index > 0 ==> RedoStep(UndoStep(st).1) == (Some(st.entries[st.index]), st)
    ensures st.index < |st.entries| - 1 ==> UndoStep(RedoStep(st).1) == (Some(st.entries[st.index]), st)
  {
  }

  /** `n` undos in a row. */
  function Undos(st: Stack, n: nat): (r: Stack)
    requires Inv(st)
    ensures Inv(r) && r.entries == st.entries
    decreases n
  {
    if n == 0 then st else Undos(UndoStep(st).1, n - 1)
  }

  /** `n` redos in a row. */
  function Redos(st: Stack, n: nat): (r: Stack)
    requires Inv(st)
    ensures Inv(r) && r.entries == st.entries
    decreases n
  {
    if n == 0 then st else Redos(RedoStep(st).1, n - 1)
  }

  /** `n` undos step the cursor back by `n` and leave the entries alone. */
  lemma {:induction false} UndosStepBack(st: Stack, n: nat)
    requires Inv(st) && n <= st.index
    ensures Undos(st, n) == st.(index := st.index - n)
    decreases n
  {
    if n > 0 {
      UndosStepBack(UndoStep(st).1, n - 1);
    }
  }

  /** After `n` edits, `n` undos followed by `n` redos give back exactly the
      history (and so the current snapshot) the edits left. */
  lemma {:induction false} UndosThenRedos(st: Stack, n: nat)
    requires Inv(st) && n <= st.index
    ensures Redos(Undos(st, n), n) == st
  {
    UndosStepBack(st, n);
    RedosStepForward(st.(index := st.index - n), n);
  }

  /** `n` redos from `n` entries below the top step the cursor forward by `n`. */
  lemma {:induction false} RedosStepForward(st: Stack, n: nat)
    requires Inv(st) && st.index + n <= |st.entries| - 1
    ensures Redos(st, n) == st.(index := st.index + n)
    decreases n
  {
    if n > 0 {
      RedosStepForward(RedoStep(st).1, n - 1);
    }
  }

  /** The history after pushing every snapshot of `ss` in order. */
  function PushAll(st: Stack, ss: seq<Snapshot>): (r: Stack)
    requires Inv(st)
    ensures Inv(r)
    decreases |ss|
  {
    if ss == [] then st else Push(PushAll(st, ss[..|ss| - 1]), ss[|ss| - 1])
  }

  /** The last `HISTORY_LIMIT` snapshots of `ss` (all of them if fewer). */
  function LastKept(ss: seq<Snapshot>): seq<Snapshot> {
    if |ss| <= HISTORY_LIMIT then ss else ss[|ss| - HISTORY_LIMIT..]
  }

  /** Pushing any sequence of snapshots onto the empty history leaves exactly
      the most recent `HISTORY_LIMIT` of them, in order, with the cursor on
      the newest. */
  lemma {:induction false} PushAllKeepsNewest(ss: seq<Snapshot>)
    ensures PushAll(Empty, ss) == Stack(LastKept(ss), |LastKept(ss)| - 1)
    decreases |ss|
  {
    if ss != [] {
      var front := ss[..|ss| - 1];
      PushAllKeepsNewest(front);
      var before := PushAll(Empty, front);
      if |front| < HISTORY_LIMIT {
        assert before.entries[..before.index + 1] == front;
        assert front + [ss[|ss| - 1]] == ss;
      } else {
        assert before.entries == front[|front| - HISTORY_LIMIT..];
        assert before.entries[1..] + [ss[|ss| - 1]] == ss[|ss| - HISTORY_LIMIT..];
      }
    }
  }

  /** Sixty pushes from empty keep the last fifty, with the cursor at 49. */
  lemma SixtyPushes(ss: seq<Snapshot>)
    requires |ss| == 60
    ensures PushAll(Empty, ss) == Stack(ss[10..], 49)
  {
    PushAllKeepsNewest(ss);
  }

  class HistoryStack {
    const canvas: Canvas
    var entries: seq<Snapshot>
    var index: int
    /** `isUndoingRef`: set while a snapshot is being loaded. */
    var isUndoing: bool

    function Value(): Stack
      reads this
    {
      Stack(entries, index)
    }

    ghost predicate Valid()
      reads this
    {
      Inv(Value())
    }

    constructor (canvas: Canvas)
      ensures this.canvas == canvas && Value() == Empty && !isUndoing && Valid()
    {
      this.canvas := canvas;
      entries, index, isUndoing := [], -1, false;
    }

    /** `saveHistory` (lines 8-26): records the serialized canvas unless no
        canvas exists or a snapshot is being loaded. */
    method Save()
      requires Valid()
      modifies this`entries, this`index
      ensures Valid()
      ensures Value() == Saved(old(Value()), !canvas.mounted || isUndoing, canvas.Current())
    {
      if !canvas.mounted || isUndoing {
        return;
      }
      var json := Serialize(canvas.Current());
      var newHistory := entries[..index + 1];
      newHistory := newHistory + [json];
      if |newHistory| > HISTORY_LIMIT {
        newHistory := newHistory[1..];
      }
      entries := newHistory;
      index := |newHistory| - 1;
    }

    /** `undo` (lines 28-42): steps the cursor back, starts loading the entry
        it reaches with recording blocked, and returns that entry for broadcast. */
    method Undo() returns (r: Option<Snapshot>)
      requires Valid()
      modifies this`index, this`isUndoing, canvas`loading
      ensures Valid() && entries == old(entries)
      ensures !canvas.mounted ==> r == None && index == old(index)
      ensures canvas.mounted ==> (r, Value()) == UndoStep(old(Value()))
      ensures r.Some? ==> isUndoing && canvas.loading == r
      ensures r.None? ==> isUndoing == old(isUndoing) && canvas.loading == old(canvas.loading)
    {
      if !canvas.mounted || index <= 0 {
        return None;
      }
      var newIndex := index - 1;
      var prevState := entries[newIndex];
      index := newIndex;
      isUndoing := true;
      canvas.BeginLoad(prevState);
      r := Some(prevState);
    }

    /** `redo` (lines 44-58): the mirror image of `undo`. */
    method Redo() returns (r: Option<Snapshot>)
      requires Valid()
      modifies this`index, this`isUndoing, canvas`loading
      ensures Valid() && entries == old(entries)
      ensures !canvas.mounted ==> r == None && index == old(index)
      ensures canvas.mounted ==> (r, Value()) == RedoStep(old(Value()))
      ensures r.Some? ==> isUndoing && canvas.loading == r
      ensures r.None? ==> isUndoing == old(isUndoing) && canvas.loading == old(canvas.loading)
    {
      if !canvas.mounted || index >= |entries| - 1 {
        return None;
      }
      var newIndex := index + 1;
      var nextState := entries[newIndex];
      index := newIndex;
      isUndoing := true;
      canvas.BeginLoad(nextState);
      r := Some(nextState);
    }

    /** The load callback of `undo` and `redo` (lines 36-40, 52-56): the loaded
        scene gets the standard background and recording is allowed again. */
    method CompleteLoad()
      requires canvas.loading.Some?
      modifies canvas`objects, canvas`background, canvas`active, canvas`loading, this`isUndoing
      ensures canvas.Current() == Deserialize(old(canvas.loading).value).(background := BACKGROUND)
      ensures canvas.loading == None && !isUndoing
      ensures canvas.active == [] && canvas.Valid()
    {
      canvas.FinishLoad();
      canvas.SetBackground(BACKGROUND);
      isUndoing := false;
    }

    /** `clearHistory` (lines 60-65): one entry holding the current canvas,
        cursor 0. */
    method Clear()
      requires Valid()
      modifies this`entries, this`index
      ensures Valid()
      ensures Value() == if canvas.mounted then Stack([Serialize(canvas.Current())], 0) else old(Value())
    {
      if !canvas.mounted {
        return;
      }
      var emptyState := Serialize(canvas.Current());
      entries, index := [emptyState], 0;
    }
  }
}
