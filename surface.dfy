/**
 * The drawing surface: the fabric.js canvas the editor draws on, reduced to
 * the state the editor reads and writes — the insertion-ordered object list,
 * the background colour, the drawing-mode flag, the freehand brush, the
 * dimensions and the active (selected) object.
 */
module Surface {
  import opened Base

  /** The ink colour of pencil strokes and shape outlines. */
  const INK := "#27272a"
  /** The canvas background colour, which the eraser also paints with. */
  const WHITE := "#ffffff"
  const TRANSPARENT := "transparent"

  /** The eraser brush is this many times wider than the base brush. */
  const ERASER_FACTOR: nat := 5
  /** Side of a placed square or triangle; a circle's diameter. */
  const SHAPE_SIZE: real := 80.0
  const CIRCLE_RADIUS: real := 40.0
  const OUTLINE_WIDTH: nat := 3

  datatype Point = Point(x: real, y: real)

  /** Fill and outline of a placed shape. */
  datatype Look = Look(fill: string, stroke: string, strokeWidth: nat)

  /**
   * One object on the canvas. Shapes are positioned by their centre
   * (`originX`/`originY` are 'center'); a freehand stroke keeps the points
   * the pointer went through and the brush it was drawn with.
   */
  datatype Obj =
    | Path(points: seq<Point>, stroke: string, strokeWidth: nat)
    | Rect(center: Point, width: real, height: real, look: Look)
    | Circle(center: Point, radius: real, look: Look)
    | Triangle(center: Point, width: real, height: real, look: Look)
  {
    predicate IsShape() { !Path? }

    /** Width and height of the box the object is drawn in (shapes only). */
    function Extent(): (real, real)
      requires IsShape()
    {
      match this
      case Rect(_, w, h, _) => (w, h)
      case Circle(_, rad, _) => (2.0 * rad, 2.0 * rad)
      case Triangle(_, w, h, _) => (w, h)
    }
  }

  /** The freehand-drawing configuration: `isDrawingMode` and the brush's colour and width. */
  datatype Brush = Brush(drawing: bool, color: string, width: nat)

  /**
   * What the tool effect does to the brush when the selected tool is `tool`:
   * the pencil draws with the ink colour at the base width, the eraser draws
   * with the background colour at five times the base width, and any other
   * tool turns drawing off, resets the width and keeps the colour.
   */
  function ToolEffect(tool: string, brushSize: nat, b: Brush): (r: Brush)
    ensures r.drawing <==> tool == "pencil" || tool == "eraser"
    ensures tool == "eraser" ==> r.width == ERASER_FACTOR * brushSize
    ensures tool != "eraser" ==> r.width == brushSize
    ensures tool == "pencil" ==> r.color == INK
    ensures tool == "eraser" ==> r.color == WHITE
    ensures tool != "pencil" && tool != "eraser" ==> r.color == b.color
  {
    // the width is reset first; the eraser branch then widens it
    var reset := b.(width := brushSize);
    if tool == "pencil" then reset.(drawing := true, color := INK)
    else if tool == "eraser" then reset.(drawing := true, color := WHITE, width := brushSize * ERASER_FACTOR)
    else reset.(drawing := false)
  }

  /** Running the tool effect a second time for the same tool changes nothing. */
  lemma ToolEffectIdempotent(tool: string, brushSize: nat, b: Brush)
    ensures ToolEffect(tool, brushSize, ToolEffect(tool, brushSize, b)) == ToolEffect(tool, brushSize, b)
  {
  }

  /**
   * Only the last tool matters, except for the colour that a non-drawing tool
   * keeps from the one before it.
   */
  lemma ToolEffectLastWins(first: string, second: string, brushSize: nat, b: Brush)
    ensures second == "pencil" || second == "eraser" ==>
      ToolEffect(second, brushSize, ToolEffect(first, brushSize, b)) == ToolEffect(second, brushSize, b)
    ensures ToolEffect(second, brushSize, ToolEffect(first, brushSize, b)).drawing == ToolEffect(second, brushSize, b).drawing
    ensures ToolEffect(second, brushSize, ToolEffect(first, brushSize, b)).width == ToolEffect(second, brushSize, b).width
  {
  }

  /** The look every placed shape gets: transparent fill, ink outline of width 3. */
  const PLACED_LOOK := Look(TRANSPARENT, INK, OUTLINE_WIDTH)

  /**
   * The shape `addShape` builds for `shapeType`, centred at `center`: an
   * 80×80 square, a circle of radius 40 or an 80×80 triangle; nothing for any
   * other shape type.
   */
  function ShapeFor(shapeType: string, center: Point): (r: Option<Obj>)
    ensures r.Some? <==> shapeType == "square" || shapeType == "circle" || shapeType == "triangle"
    ensures shapeType == "square" ==> r.Some? && r.value.Rect?
    ensures shapeType == "circle" ==> r.Some? && r.value.Circle?
    ensures shapeType == "triangle" ==> r.Some? && r.value.Triangle?
    ensures r.Some? ==> r.value.IsShape() && r.value.center == center && r.value.look == PLACED_LOOK
    ensures r.Some? ==> r.value.Extent() == (SHAPE_SIZE, SHAPE_SIZE)
  {
    if shapeType == "square" then Some(Rect(center, SHAPE_SIZE, SHAPE_SIZE, PLACED_LOOK))
    else if shapeType == "circle" then Some(Circle(center, CIRCLE_RADIUS, PLACED_LOOK))
    else if shapeType == "triangle" then Some(Triangle(center, SHAPE_SIZE, SHAPE_SIZE, PLACED_LOOK))
    else None
  }

  /** The flattened picture: the objects in order, composited over a solid background. */
  datatype Raster = Raster(objects: seq<Obj>, background: string, width: real, height: real)

  /** `toDataURL({format: "png", quality: 1.0})`: a PNG data URL of a raster, kept opaque. */
  datatype DataUrl = PngDataUrl(raster: Raster)

  class Canvas {
    var objects: seq<Obj>
    var backgroundColor: string
    var isDrawingMode: bool
    var brushColor: string
    var brushWidth: nat
    var width: real
    var height: real
    /** Index into `objects` of the selected object, if any. */
    var active: Option<nat>

    ghost predicate Valid()
      reads this
    {
      active.Some? ==> active.value < |objects|
    }

    function BrushState(): Brush
      reads this
    {
      Brush(isDrawingMode, brushColor, brushWidth)
    }

    /** Everything but the brush: objects, background, selection and dimensions. */
    function Scene(): (seq<Obj>, string, Option<nat>, real, real)
      reads this
    {
      (objects, backgroundColor, active, width, height)
    }

    /** The visual centre, (width/2, height/2). */
    function Center(): Point
      reads this
    {
      Point(width / 2.0, height / 2.0)
    }

    /**
     * `new fabric.Canvas(el, {isDrawingMode: true, backgroundColor: "#ffffff"})`
     * followed by installing a pencil brush of width `brushSize` and the ink
     * colour; the element has the HTML default size of 300×150 until resized.
     */
    constructor (brushSize: nat)
      ensures Valid()
      ensures objects == [] && active == None && backgroundColor == WHITE
      ensures BrushState() == Brush(true, INK, brushSize)
      ensures width == 300.0 && height == 150.0
    {
      objects := [];
      backgroundColor := WHITE;
      isDrawingMode := true;
      brushColor := INK;
      brushWidth := brushSize;
      width, height := 300.0, 150.0;
      active := None;
    }

    /** `setDimensions`: the viewport changes, the drawing does not. */
    method SetDimensions(w: real, h: real)
      modifies this`width, this`height
      ensures width == w && height == h
    {
      width, height := w, h;
    }

    /** `add`: appends one object at the end of the list. */
    method Add(o: Obj)
      requires Valid()
      modifies this`objects
      ensures Valid()
      ensures objects == old(objects) + [o]
    {
      objects := objects + [o];
    }

    /** `setActiveObject`: selects the object at index `i`. */
    method SetActiveObject(i: nat)
      requires i < |objects|
      modifies this`active
      ensures Valid() && active == Some(i)
    {
      active := Some(i);
    }

    /**
     * A freehand stroke captured by the pencil brush: while drawing mode is
     * on, the active object is discarded as the stroke starts and a path with
     * the brush's current colour and width is appended; with drawing mode off
     * the pointer selects and moves instead, which adds nothing (what it
     * selects is not modelled).
     */
    method FreehandStroke(points: seq<Point>)
      requires Valid()
      modifies this`objects, this`active
      ensures Valid()
      ensures isDrawingMode ==> objects == old(objects) + [Path(points, brushColor, brushWidth)]
      ensures isDrawingMode ==> active == None
      ensures !isDrawingMode ==> objects == old(objects)
    {
      if isDrawingMode {
        active := None;
        objects := objects + [Path(points, brushColor, brushWidth)];
      }
    }

    /**
     * `clear`: every object is removed, and with them the selection. What it
     * does to the background colour is up to the library, so nothing is
     * promised about it.
     */
    method Clear()
      modifies this`objects, this`active, this`backgroundColor
      ensures Valid()
      ensures objects == [] && active == None
    {
      objects := [];
      active := None;
    }

    /**
     * The part of `exportSketch` that runs once a canvas exists: nothing is
     * exported from an empty canvas; otherwise the background is set to
     * white (and left so) and the objects are rasterised over it.
     */
    method ExportSketch() returns (r: Option<DataUrl>)
      modifies this`backgroundColor
      ensures objects == [] ==> r == None && backgroundColor == old(backgroundColor)
      ensures objects != [] ==> backgroundColor == WHITE
      ensures objects != [] ==> r == Some(PngDataUrl(Raster(objects, WHITE, width, height)))
    {
      if |objects| == 0 {
        return None;
      }
      backgroundColor := WHITE;
      r := Some(PngDataUrl(Raster(objects, backgroundColor, width, height)));
    }
  }
}
