/**
  The drawing canvas's undo/redo history and size (src/components/Canvas.tsx), as
  state transitions only: drawing, image loading and rendering are not modelled,
  and a snapshot is the opaque data URL the canvas produced.
 */
module CanvasHistory {

  const DefaultWidth := 800
  const DefaultHeight := 600

  /** The saved snapshots and the position of the one on screen (-1 before the first). */
  datatype History = History(entries: seq<string>, index: int)

  /** The component's initial history. */
  const Initial := History([], -1)

  /** The invariant every operation keeps: -1 <= index < |entries|. */
  predicate InRange(h: History)
  {
    -1 <= h.index < |h.entries|
  }

  /** The states the operations can reach: in range, and at -1 exactly when empty. */
  predicate Reachable(h: History)
  {
    InRange(h) && (h.index == -1 <==> |h.entries| == 0)
  }

  /**
    The end of a stroke: everything after the current snapshot is discarded and the
    new snapshot is appended and becomes current.
   */
  function Pushed(h: History, snapshot: string): (r: History)
    requires InRange(h)
    ensures Reachable(r)
    ensures |r.entries| == h.index + 2
    ensures r.index == |r.entries| - 1 && r.entries[r.index] == snapshot
    ensures r.entries[..r.index] == h.entries[..h.index + 1]
  {
    var kept := h.entries[..h.index + 1];
    assert (kept + [snapshot])[..|kept|] == kept;
    History(kept + [snapshot], |kept|)
  }

  /** Clearing forgets the whole history. */
  function Cleared(h: History): (r: History)
    ensures r == Initial && Reachable(r)
  {
    Initial
  }

  /** Undo steps back one snapshot, but never below the first one. */
  function Undone(h: History): (r: History)
    ensures r.entries == h.entries
    ensures h.index <= 0 ==> r == h
    ensures h.index > 0 ==> r.index == h.index - 1
    ensures InRange(h) ==> InRange(r)
    ensures Reachable(h) ==> Reachable(r)
  {
    if h.index <= 0 then h else History(h.entries, h.index - 1)
  }

  /** Redo steps forward one snapshot, but never past the last one. */
  function Redone(h: History): (r: History)
    ensures r.entries == h.entries
    ensures h.index >= |h.entries| - 1 ==> r == h
    ensures h.index < |h.entries| - 1 ==> r.index == h.index + 1
    ensures InRange(h) ==> InRange(r)
    ensures Reachable(h) ==> Reachable(r)
  {
    if h.index >= |h.entries| - 1 then h else History(h.entries, h.index + 1)
  }

  /** An effective undo followed by a redo restores the state. */
  lemma UndoThenRedo(h: History)
    requires InRange(h) && h.index > 0
    ensures Redone(Undone(h)) == h
  {
  }

  /** An effective redo followed by an undo restores the state, for any non-initial state. */
  lemma RedoThenUndo(h: History)
    requires Reachable(h) && h.index < |h.entries| - 1
    ensures Undone(Redone(h)) == h
  {
  }

  /** After a stroke there is nothing to redo: the discarded snapshots are gone. */
  lemma StrokeDiscardsRedo(h: History, snapshot: string)
    requires InRange(h)
    ensures Redone(Pushed(h, snapshot)) == Pushed(h, snapshot)
  {
  }

  /** The user actions that change the history. */
  datatype Action = StrokeEnd(snapshot: string) | ClearAll | UndoStep | RedoStep

  function Apply(h: History, a: Action): (r: History)
    requires InRange(h)
    ensures InRange(r)
    ensures Reachable(h) ==> Reachable(r)
  {
    match a
    case StrokeEnd(snapshot) => Pushed(h, snapshot)
    case ClearAll => Cleared(h)
    case UndoStep => Undone(h)
    case RedoStep => Redone(h)
  }

  /** The history after a sequence of actions. */
  function Replay(h: History, actions: seq<Action>): History
    requires InRange(h)
    decreases |actions|
  {
    if |actions| == 0 then h
    else
      var next := Apply(h, actions[0]);
      Replay(next, actions[1..])
  }

  /**
    Every sequence of actions from the initial history keeps the invariant; in
    particular undo never brings a non-empty history back to index -1.
   */
  lemma {:induction false} ReplayKeepsReachable(h: History, actions: seq<Action>)
    requires Reachable(h)
    ensures Reachable(Replay(h, actions))
    decreases |actions|
  {
    if |actions| > 0 {
      ReplayKeepsReachable(Apply(h, actions[0]), actions[1..]);
    }
  }

  /** The two size fields of the canvas. */
  datatype Dimension = Width | Height

  datatype CanvasSize = CanvasSize(width: int, height: int)

  /** A size change sets the named dimension and leaves the other as it was. */
  function Resize(size: CanvasSize, dimension: Dimension, value: int): (r: CanvasSize)
    ensures dimension == Width ==> r.width == value && r.height == size.height
    ensures dimension == Height ==> r.height == value && r.width == size.width
  {
    match dimension
    case Width => size.(width := value)
    case Height => size.(height := value)
  }

  /**
    The component's state. `ready` stands for the 2-D context and the canvas
    element both being present; `isLoading` is true while a guess is in flight.
   */
  class Canvas {
    var history: seq<string>
    var historyIndex: int
    var isDrawing: bool
    var canvasSize: CanvasSize

    function State(): History
      reads this
    {
      History(history, historyIndex)
    }

    ghost predicate Valid()
      reads this
    {
      Reachable(State())
    }

    /** Mounting the component; the size props default to 800 by 600. */
    constructor (width: int := DefaultWidth, height: int := DefaultHeight)
      ensures Valid() && State() == Initial
      ensures !isDrawing && canvasSize == CanvasSize(width, height)
    {
      history, historyIndex := [], -1;
      isDrawing := false;
      canvasSize := CanvasSize(width, height);
    }

    /** Mouse down: a stroke begins unless the canvas is not ready or a guess is loading. */
    method StartDrawing(ready: bool, isLoading: bool)
      requires Valid()
      modifies this
      ensures Valid()
      ensures isDrawing == (if ready && !isLoading then true else old(isDrawing))
      ensures State() == old(State()) && canvasSize == old(canvasSize)
    {
      if !ready || isLoading {
        return;
      }
      isDrawing := true;
    }

    /**
      Mouse up or leave: unless not ready or loading, the stroke ends and the
      snapshot is pushed, whether or not a stroke was in progress.
     */
    method StopDrawing(ready: bool, isLoading: bool, snapshot: string)
      requires Valid()
      modifies this
      ensures Valid()
      ensures !ready || isLoading ==> State() == old(State()) && isDrawing == old(isDrawing)
      ensures ready && !isLoading ==> State() == Pushed(old(State()), snapshot) && !isDrawing
      ensures canvasSize == old(canvasSize)
    {
      if !ready || isLoading {
        return;
      }
      isDrawing := false;
      var kept := history[..historyIndex + 1];
      history := kept + [snapshot];
      historyIndex := |kept|;
    }

    /** The clear button: unless not ready, the history is emptied. */
    method ClearCanvas(ready: bool)
      requires Valid()
      modifies this
      ensures Valid()
      ensures State() == (if ready then Initial else old(State()))
      ensures isDrawing == old(isDrawing) && canvasSize == old(canvasSize)
    {
      if !ready {
        return;
      }
      history := [];
      historyIndex := -1;
    }

    /** The undo button. */
    method Undo()
      requires Valid()
      modifies this
      ensures Valid()
      ensures State() == Undone(old(State()))
      ensures isDrawing == old(isDrawing) && canvasSize == old(canvasSize)
    {
      if historyIndex <= 0 {
        return;
      }
      historyIndex := historyIndex - 1;
    }

    /** The redo button. */
    method Redo()
      requires Valid()
      modifies this
      ensures Valid()
      ensures State() == Redone(old(State()))
      ensures isDrawing == old(isDrawing) && canvasSize == old(canvasSize)
    {
      if historyIndex >= |history| - 1 {
        return;
      }
      historyIndex := historyIndex + 1;
    }

    /** A width or height input changed. */
    method HandleSizeChange(dimension: Dimension, value: int)
      requires Valid()
      modifies this
      ensures Valid()
      ensures canvasSize == Resize(old(canvasSize), dimension, value)
      ensures State() == old(State()) && isDrawing == old(isDrawing)
    {
      canvasSize := match dimension
        case Width => canvasSize.(width := value)
        case Height => canvasSize.(height := value);
    }
  }
}
