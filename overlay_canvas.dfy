/**
 * The annotation overlay drawn on top of the image (OverlayCanvas): drag
 * tools (line, arrow, rect, circle) commit one shape per press-drag-release,
 * the text tool opens an input box on click and commits its text on Enter or
 * blur, and the parent may clear the shapes or switch the tool.
 *
 * `Overlay` holds the component's state variables and applies the wired
 * event handlers in place; `Step` is the same behaviour as a function on a
 * `State` value, and the lemmas below are stated about `Step` and `Run`.
 * Points are canvas-relative (the bounding-rectangle offset is applied by
 * the browser before the handlers see them).
 */
module OverlayCanvas {
  import JsText

  datatype Point = Point(x: real, y: real)

  /** A committed shape: `{tool, start, end}` from a drag, `{tool: "text", start, text}` from the text box. */
  datatype Shape = Stroke(tool: string, start: Point, end: Point) | Label(start: Point, text: string)

  /** The state variables of the component, plus the `visible` prop. */
  datatype State = State(
    shapes: seq<Shape>,
    isDrawing: bool,
    startPoint: Point,
    currentTool: string,
    textInput: string,
    showTextInput: bool,
    textPosition: Point,
    visible: bool)

  function Initial(visible: bool): State {
    State([], false, Point(0.0, 0.0), "arrow", "", false, Point(0.0, 0.0), visible)
  }

  /**
   * What the user and the parent can do.  Mouse events reach the handlers
   * only when the tool is not "text"; the input-box events exist only while
   * the box is rendered.
   */
  datatype Event =
    | Down(p: Point)
    | Move(p: Point)
    | Up(p: Point)
    | Leave(p: Point)
    | Click(p: Point)
    | Type(value: string)
    | Key(key: string)
    | Blur
    | ClearCanvas
    | SetTool(tool: string)

  /** `saveCurrentText`: append the pending text unless it is blank, then empty and hide the box. */
  function SaveText(s: State): State {
    var shapes := if JsText.Trim(s.textInput) != [] then s.shapes + [Label(s.textPosition, s.textInput)] else s.shapes;
    s.(shapes := shapes, textInput := "", showTextInput := false)
  }

  /** `handleMouseDown`, including its text branch (which the wiring never reaches). */
  function MouseDown(s: State, p: Point): State {
    if !s.visible then s
    else if s.currentTool == "text" then
      var t := if s.showTextInput && JsText.Trim(s.textInput) != [] then SaveText(s) else s;
      t.(textPosition := p, showTextInput := true, textInput := "")
    else s.(startPoint := p, isDrawing := true)
  }

  /** `handleMouseUp`, also bound to mouse-leave. */
  function MouseUp(s: State, p: Point): State {
    if !s.isDrawing then s
    else s.(shapes := s.shapes + [Stroke(s.currentTool, s.startPoint, p)], isDrawing := false)
  }

  /** `handleCanvasClick`: flush non-blank pending text, then open a box at the click point. */
  function CanvasClick(s: State, p: Point): State {
    if !s.visible || s.currentTool != "text" then s
    else
      var t := if s.showTextInput && JsText.Trim(s.textInput) != [] then SaveText(s) else s;
      t.(textPosition := p, showTextInput := true)
  }

  function Step(s: State, e: Event): State {
    match e
    case Down(p) => if s.currentTool != "text" then MouseDown(s, p) else s
    case Move(_) => s
    case Up(p) => if s.currentTool != "text" then MouseUp(s, p) else s
    case Leave(p) => if s.currentTool != "text" then MouseUp(s, p) else s
    case Click(p) => CanvasClick(s, p)
    case Type(v) => if s.showTextInput then s.(textInput := v) else s
    case Key(k) => if s.showTextInput && k == "Enter" then SaveText(s) else s
    case Blur => if s.showTextInput then SaveText(s) else s
    case ClearCanvas => s.(shapes := [])
    case SetTool(t) => s.(currentTool := t)
  }

  function Run(s: State, es: seq<Event>): State
    decreases |es|
  {
    if es == [] then s else Run(Step(s, es[0]), es[1..])
  }

  // ---------------------------------------------------------------------
  // Rendering, captured as the list of drawing operations issued.

  datatype DrawOp =
    | ClearAll
    | Segment(from: Point, to: Point)
    | ArrowOp(from: Point, to: Point)
    | RectOp(x: real, y: real, width: real, height: real)
    | CircleOp(center: Point, through: Point)
    | TextOp(at: Point, text: string)

  /** `drawRect`: the stroked rectangle starts at `start` with signed extents towards `end`. */
  function RectFrom(start: Point, end: Point): (op: DrawOp)
    ensures op.RectOp?
    ensures op.x + op.width == end.x && op.y + op.height == end.y
    ensures op.x == start.x && op.y == start.y
  {
    RectOp(start.x, start.y, end.x - start.x, end.y - start.y)
  }

  function Min(a: real, b: real): real { if a <= b then a else b }
  function Max(a: real, b: real): real { if a <= b then b else a }

  /** The axis-aligned box a stroked rectangle covers, whatever the signs of its extents. */
  function Covered(op: DrawOp): (real, real, real, real)
    requires op.RectOp?
  {
    (Min(op.x, op.x + op.width), Min(op.y, op.y + op.height),
     Max(op.x, op.x + op.width), Max(op.y, op.y + op.height))
  }

  /** Dragging a rectangle in either direction between two corners covers the same box. */
  lemma RectSymmetric(a: Point, b: Point)
    ensures Covered(RectFrom(a, b)) == Covered(RectFrom(b, a))
    ensures Covered(RectFrom(a, b)).0 <= Covered(RectFrom(a, b)).2
  {
  }

  /** `drawShape`: the operations for one shape; an unknown tool draws nothing. */
  function DrawShape(sh: Shape): seq<DrawOp> {
    match sh
    case Label(a, t) => [TextOp(a, t)]
    case Stroke(tool, a, b) =>
      if tool == "line" then [Segment(a, b)]
      else if tool == "arrow" then [ArrowOp(a, b)]
      else if tool == "rect" then [RectFrom(a, b)]
      else if tool == "circle" then [CircleOp(a, b)]
      else if tool == "text" then [TextOp(a, "undefined")]
      else []
  }

  /** The committed shapes drawn in list order. */
  function DrawAll(shapes: seq<Shape>): seq<DrawOp>
    decreases |shapes|
  {
    if shapes == [] then [] else DrawAll(shapes[..|shapes| - 1]) + DrawShape(shapes[|shapes| - 1])
  }

  /** What `redrawAll(tempEnd)` issues: clear, every committed shape, then the preview if drawing. */
  function Frame(s: State, tempEnd: JsText.Option<Point>): seq<DrawOp> {
    [ClearAll] + DrawAll(s.shapes) +
    (if tempEnd.Some? && s.isDrawing then DrawShape(Stroke(s.currentTool, s.startPoint, tempEnd.value)) else [])
  }

  lemma {:induction false} DrawAllAppend(a: seq<Shape>, b: seq<Shape>)
    ensures DrawAll(a + b) == DrawAll(a) + DrawAll(b)
    decreases |b|
  {
    if b == [] {
      assert a + b == a;
    } else {
      var b' := b[..|b| - 1];
      assert (a + b)[..|a + b| - 1] == a + b';
      assert (a + b)[|a + b| - 1] == b[|b| - 1];
      DrawAllAppend(a, b');
    }
  }

  lemma Decompose(shapes: seq<Shape>, k: nat)
    requires k < |shapes|
    ensures shapes == (shapes[..k] + [shapes[k]]) + shapes[k + 1..]
  {
  }

  /** Every shape is drawn in order: a shape's operations sit between those of the shapes before it and after it. */
  lemma DrawOrder(shapes: seq<Shape>, k: nat)
    requires k < |shapes|
    ensures DrawAll(shapes) == DrawAll(shapes[..k]) + DrawShape(shapes[k]) + DrawAll(shapes[k + 1..])
  {
    Decompose(shapes, k);
    var pre, mid, post := shapes[..k], [shapes[k]], shapes[k + 1..];
    DrawAllAppend(pre + mid, post);
    DrawAllAppend(pre, mid);
    assert DrawAll(mid) == DrawShape(shapes[k]) by {
      assert mid[..0] == [];
    }
  }

  // ---------------------------------------------------------------------
  // Properties of the event handlers.

  /** Releasing the pointer while drawing appends exactly one shape and ends drawing. */
  lemma UpCommitsOne(s: State, p: Point)
    requires s.isDrawing && s.currentTool != "text"
    ensures Step(s, Up(p)).shapes == s.shapes + [Stroke(s.currentTool, s.startPoint, p)]
    ensures !Step(s, Up(p)).isDrawing
    ensures Step(s, Up(p)) == s.(shapes := Step(s, Up(p)).shapes, isDrawing := false)
  {
  }

  /** Pointer-up and pointer-leave act alike, and do nothing unless drawing. */
  lemma LeaveActsAsUp(s: State, p: Point)
    ensures Step(s, Leave(p)) == Step(s, Up(p))
    ensures !s.isDrawing ==> Step(s, Up(p)) == s
  {
  }

  /** Pointer-down is ignored when hidden; otherwise a drag tool records the start point and starts drawing. */
  lemma DownStartsDrawing(s: State, p: Point)
    ensures !s.visible ==> Step(s, Down(p)) == s
    ensures s.visible && s.currentTool != "text" ==> Step(s, Down(p)) == s.(startPoint := p, isDrawing := true)
  {
  }

  /** A pending text is committed, untrimmed, exactly when it is not all white space; the box is always emptied and hidden. */
  lemma {:induction false} SaveTextCommitsNonBlank(s: State)
    ensures SaveText(s).shapes == if JsText.IsBlank(s.textInput) then s.shapes else s.shapes + [Label(s.textPosition, s.textInput)]
    ensures SaveText(s).textInput == "" && !SaveText(s).showTextInput
    ensures SaveText(s).(shapes := s.shapes, textInput := s.textInput, showTextInput := s.showTextInput) == s
  {
    JsText.TrimEmptyIffBlank(s.textInput);
  }

  /** A text-tool click flushes non-blank pending text first, then opens a box at the click point. */
  lemma {:induction false} ClickFlushesThenOpens(s: State, p: Point)
    requires s.visible && s.currentTool == "text"
    ensures Step(s, Click(p)).showTextInput && Step(s, Click(p)).textPosition == p
    ensures s.showTextInput && !JsText.IsBlank(s.textInput) ==>
      Step(s, Click(p)).shapes == s.shapes + [Label(s.textPosition, s.textInput)] && Step(s, Click(p)).textInput == ""
    ensures !(s.showTextInput && !JsText.IsBlank(s.textInput)) ==>
      Step(s, Click(p)) == s.(showTextInput := true, textPosition := p)
  {
    JsText.TrimEmptyIffBlank(s.textInput);
  }

  /** `clearCanvas` empties the list; `setTool` changes only the tool and commits nothing. */
  lemma ClearAndSetTool(s: State, t: string)
    ensures Step(s, ClearCanvas).shapes == []
    ensures Step(s, SetTool(t)) == s.(currentTool := t)
  {
  }

  /** Pointer-move never changes the state; while drawing it redraws the shapes in order with the preview last. */
  lemma MoveOnlyRedraws(s: State, p: Point)
    ensures Step(s, Move(p)) == s
    ensures s.isDrawing ==> Frame(s, JsText.Some(p)) == [ClearAll] + DrawAll(s.shapes) + DrawShape(Stroke(s.currentTool, s.startPoint, p))
  {
  }

  predicate NoClear(es: seq<Event>) {
    forall i :: 0 <= i < |es| ==> !es[i].ClearCanvas?
  }

  /** One event other than `clearCanvas` keeps the old shapes as a prefix. */
  lemma StepAppends(s: State, e: Event)
    requires !e.ClearCanvas?
    ensures |Step(s, e).shapes| >= |s.shapes|
    ensures Step(s, e).shapes[..|s.shapes|] == s.shapes
  {
    var t := Step(s, e);
    if t.shapes != s.shapes {
      assert t.shapes[..|s.shapes|] == s.shapes by {
        assert t.shapes == s.shapes + [t.shapes[|t.shapes| - 1]];
      }
    }
  }

  /** Without `clearCanvas`, shapes are only ever appended: the old list is a prefix of the new one. */
  lemma {:induction false} AppendOnly(s: State, es: seq<Event>)
    requires NoClear(es)
    ensures |Run(s, es).shapes| >= |s.shapes|
    ensures Run(s, es).shapes[..|s.shapes|] == s.shapes
    decreases |es|
  {
    if es != [] {
      var t := Step(s, es[0]);
      StepAppends(s, es[0]);
      assert NoClear(es[1..]) by {
        forall i | 0 <= i < |es[1..]| ensures !es[1..][i].ClearCanvas? {
          assert es[1..][i] == es[i + 1];
        }
      }
      AppendOnly(t, es[1..]);
      assert Run(s, es) == Run(t, es[1..]);
      assert Run(s, es).shapes[..|t.shapes|][..|s.shapes|] == Run(s, es).shapes[..|s.shapes|];
    }
  }

  predicate AllMoves(es: seq<Event>) {
    forall i :: 0 <= i < |es| ==> es[i].Move?
  }

  lemma {:induction false} MovesChangeNothing(s: State, es: seq<Event>)
    requires AllMoves(es)
    ensures Run(s, es) == s
    decreases |es|
  {
    if es != [] {
      assert AllMoves(es[1..]) by {
        forall i | 0 <= i < |es[1..]| ensures es[1..][i].Move? {
          assert es[1..][i] == es[i + 1];
        }
      }
      MovesChangeNothing(s, es[1..]);
    }
  }

  lemma {:induction false} RunAppend(s: State, a: seq<Event>, b: seq<Event>)
    ensures Run(s, a + b) == Run(Run(s, a), b)
    decreases |a|
  {
    if a == [] {
      assert a + b == b;
    } else {
      assert (a + b)[0] == a[0];
      assert (a + b)[1..] == a[1..] + b;
      RunAppend(Step(s, a[0]), a[1..], b);
    }
  }

  /** A press, any number of moves and a release with a drag tool on a visible overlay commit exactly one shape. */
  lemma {:induction false} DragCommitsOneShape(s: State, a: Point, moves: seq<Event>, b: Point)
    requires s.visible && s.currentTool != "text"
    requires AllMoves(moves)
    ensures Run(s, [Down(a)] + moves + [Up(b)]).shapes == s.shapes + [Stroke(s.currentTool, a, b)]
    ensures !Run(s, [Down(a)] + moves + [Up(b)]).isDrawing
  {
    var t := Step(s, Down(a));
    assert Run(s, [Down(a)]) == t;
    RunAppend(s, [Down(a)], moves);
    MovesChangeNothing(t, moves);
    RunAppend(s, [Down(a)] + moves, [Up(b)]);
    assert Run(t, [Up(b)]) == Step(t, Up(b));
  }

  /** The box is empty whenever it is hidden, and every committed text is non-blank. */
  predicate Inv(s: State) {
    (!s.showTextInput ==> s.textInput == []) &&
    forall i :: 0 <= i < |s.shapes| ==> (s.shapes[i].Label? ==> !JsText.IsBlank(s.shapes[i].text))
  }

  lemma {:induction false} SaveTextKeepsInv(s: State)
    requires Inv(s)
    ensures Inv(SaveText(s))
  {
    SaveTextCommitsNonBlank(s);
    var t := SaveText(s);
    forall i | 0 <= i < |t.shapes| && t.shapes[i].Label?
      ensures !JsText.IsBlank(t.shapes[i].text)
    {
      if i < |s.shapes| {
        assert t.shapes[i] == s.shapes[i];
      }
    }
  }

  /** Every event keeps `Inv`. */
  lemma {:induction false} StepKeepsInv(s: State, e: Event)
    requires Inv(s)
    ensures Inv(Step(s, e))
  {
    match e
    case Down(p) =>
      if s.visible && s.currentTool == "text" && s.showTextInput && JsText.Trim(s.textInput) != [] {
        SaveTextKeepsInv(s);
      }
    case Click(p) =>
      if s.visible && s.currentTool == "text" && s.showTextInput && JsText.Trim(s.textInput) != [] {
        SaveTextKeepsInv(s);
      }
    case Key(k) =>
      if s.showTextInput && k == "Enter" { SaveTextKeepsInv(s); }
    case Blur =>
      if s.showTextInput { SaveTextKeepsInv(s); }
    case Up(p) =>
      var t := Step(s, e);
      forall i | 0 <= i < |t.shapes| && t.shapes[i].Label?
        ensures !JsText.IsBlank(t.shapes[i].text)
      {
        assert i < |s.shapes| && t.shapes[i] == s.shapes[i];
      }
    case Leave(p) =>
      var t := Step(s, e);
      forall i | 0 <= i < |t.shapes| && t.shapes[i].Label?
        ensures !JsText.IsBlank(t.shapes[i].text)
      {
        assert i < |s.shapes| && t.shapes[i] == s.shapes[i];
      }
    case _ =>
  }

  // ---------------------------------------------------------------------
  // The component, with its state variables updated in place.

  class Overlay {
    var shapes: seq<Shape>
    var isDrawing: bool
    var startPoint: Point
    var currentTool: string
    var textInput: string
    var showTextInput: bool
    var textPosition: Point
    var visible: bool

    function Snapshot(): State
      reads this
    {
      State(shapes, isDrawing, startPoint, currentTool, textInput, showTextInput, textPosition, visible)
    }

    constructor (visible: bool)
      ensures Snapshot() == Initial(visible)
    {
      shapes := [];
      isDrawing := false;
      startPoint := Point(0.0, 0.0);
      currentTool := "arrow";
      textInput := "";
      showTextInput := false;
      textPosition := Point(0.0, 0.0);
      this.visible := visible;
    }

    method SaveCurrentText()
      modifies this
      ensures Snapshot() == SaveText(old(Snapshot()))
    {
      if JsText.Trim(textInput) != [] {
        shapes := shapes + [Label(textPosition, textInput)];
      }
      textInput := "";
      showTextInput := false;
    }

    method HandleMouseDown(p: Point)
      modifies this
      ensures Snapshot() == MouseDown(old(Snapshot()), p)
    {
      if !visible {
        return;
      }
      if currentTool == "text" {
        if showTextInput && JsText.Trim(textInput) != [] {
          SaveCurrentText();
        }
        textPosition := p;
        showTextInput := true;
        textInput := "";
        return;
      }
      startPoint := p;
      isDrawing := true;
    }

    method HandleMouseUp(p: Point)
      modifies this
      ensures Snapshot() == MouseUp(old(Snapshot()), p)
    {
      if !isDrawing {
        return;
      }
      shapes := shapes + [Stroke(currentTool, startPoint, p)];
      isDrawing := false;
    }

    method HandleCanvasClick(p: Point)
      modifies this
      ensures Snapshot() == CanvasClick(old(Snapshot()), p)
    {
      if !visible || currentTool != "text" {
        return;
      }
      if showTextInput && JsText.Trim(textInput) != [] {
        SaveCurrentText();
      }
      textPosition := p;
      showTextInput := true;
    }

    /** `redrawAll(tempEnd)`: the committed shapes in order, then the preview. */
    method RedrawAll(tempEnd: JsText.Option<Point>) returns (ops: seq<DrawOp>)
      ensures ops == Frame(Snapshot(), tempEnd)
    {
      ops := [ClearAll];
      var i := 0;
      while i < |shapes|
        invariant 0 <= i <= |shapes|
        invariant ops == [ClearAll] + DrawAll(shapes[..i])
      {
        assert shapes[..i + 1][..i] == shapes[..i];
        ops := ops + DrawShape(shapes[i]);
        i := i + 1;
      }
      assert shapes[..i] == shapes;
      if tempEnd.Some? && isDrawing {
        ops := ops + DrawShape(Stroke(currentTool, startPoint, tempEnd.value));
      }
    }

    /** `handleMouseMove`: redraw with a preview while drawing, nothing otherwise; the state is untouched. */
    method HandleMouseMove(p: Point) returns (ops: seq<DrawOp>)
      ensures !isDrawing ==> ops == []
      ensures isDrawing ==> ops == [ClearAll] + DrawAll(shapes) + DrawShape(Stroke(currentTool, startPoint, p))
    {
      if !isDrawing {
        return [];
      }
      ops := RedrawAll(JsText.Some(p));
    }

    /** Dispatch of one event as wired in the component's markup. */
    method Handle(e: Event)
      modifies this
      ensures Snapshot() == Step(old(Snapshot()), e)
    {
      match e
      case Down(p) =>
        if currentTool != "text" { HandleMouseDown(p); }
      case Move(p) =>
        if currentTool != "text" { var _ := HandleMouseMove(p); }
      case Up(p) =>
        if currentTool != "text" { HandleMouseUp(p); }
      case Leave(p) =>
        if currentTool != "text" { HandleMouseUp(p); }
      case Click(p) =>
        HandleCanvasClick(p);
      case Type(v) =>
        if showTextInput { textInput := v; }
      case Key(k) =>
        if showTextInput && k == "Enter" { SaveCurrentText(); }
      case Blur =>
        if showTextInput { SaveCurrentText(); }
      case ClearCanvas =>
        shapes := [];
      case SetTool(t) =>
        currentTool := t;
    }
  }
}
