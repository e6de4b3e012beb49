/**
 * The editor component: the React state of the sketch editor and the canvas
 * it holds, with the effects and handlers that change them — canvas set-up,
 * the tool effect, shape placement, freehand drawing, clearing, export and
 * the generate cycle.
 */
module App {
  import opened Base
  import opened Surface
  import opened Generation

  /** The base brush width; the editor never changes it. */
  const BRUSH_SIZE: nat := 5
  const INITIAL_STYLE := "Realistic"
  /** The alert shown when there is nothing to send. */
  const DRAW_SOMETHING := "Please draw something!"
  /** The alert shown for every failed generation. */
  const GENERATION_FAILED := "Generation failed. Check backend logs."

  /** The JSON body POSTed to the generation endpoint. */
  datatype Request = Request(prompt: string, image: DataUrl)

  class Editor {
    /** The canvas reference: null until the initialisation effect has run. */
    var canvas: Canvas?
    var tool: string
    var selectedStyle: string
    var prompt: string
    var isGenerating: bool
    var generatedImage: Option<Json>
    /** The request awaiting its response, while the generate button is disabled. */
    var inFlight: Option<Request>

    /** The canvas, once created, is well formed and configured for the selected tool. */
    ghost predicate CanvasValid()
      reads this, canvas
    {
      canvas != null ==>
        canvas.Valid() && ToolEffect(tool, BRUSH_SIZE, canvas.BrushState()) == canvas.BrushState()
    }

    /** The editor is generating exactly while a request is in flight. */
    ghost predicate SessionValid()
      reads this
    {
      isGenerating <==> inFlight.Some?
    }

    ghost predicate Valid()
      reads this, canvas
    {
      CanvasValid() && SessionValid()
    }

    /** The component's initial state: pencil tool, first style, empty prompt, idle, no result. */
    constructor ()
      ensures Valid() && canvas == null
      ensures tool == "pencil" && selectedStyle == INITIAL_STYLE && prompt == ""
      ensures !isGenerating && generatedImage == None
    {
      canvas := null;
      tool := "pencil";
      selectedStyle := INITIAL_STYLE;
      prompt := "";
      isGenerating := false;
      generatedImage := None;
      inFlight := None;
    }

    /**
     * The initialisation effect: a no-op when a canvas exists; otherwise a
     * canvas in drawing mode with a white background and a pencil brush of
     * the base width and the ink colour, sized to the container.
     */
    method InitCanvas(containerWidth: real, containerHeight: real)
      requires Valid()
      modifies this`canvas
      ensures SessionValid()
      ensures old(canvas) != null ==> canvas == old(canvas) && Valid()
      ensures old(canvas) == null ==> canvas != null && fresh(canvas) && canvas.Valid()
      ensures old(canvas) == null ==>
        canvas.objects == [] && canvas.active == None && canvas.backgroundColor == WHITE &&
        canvas.BrushState() == Brush(true, INK, BRUSH_SIZE) &&
        canvas.width == containerWidth && canvas.height == containerHeight
    {
      if canvas != null {
        return;
      }
      var c := new Canvas(BRUSH_SIZE);
      canvas := c;
      Resize(containerWidth, containerHeight);
    }

    /** The resize handler: the canvas takes the container's size and keeps its drawing. */
    method Resize(w: real, h: real)
      requires canvas != null ==> canvas.Valid()
      modifies canvas
      ensures canvas != null ==> canvas.Valid()
      ensures canvas != null ==>
        canvas.width == w && canvas.height == h &&
        canvas.objects == old(canvas.objects) && canvas.active == old(canvas.active) &&
        canvas.backgroundColor == old(canvas.backgroundColor) &&
        canvas.BrushState() == old(canvas.BrushState())
    {
      if canvas != null {
        canvas.SetDimensions(w, h);
      }
    }

    /**
     * The tool effect: the brush is reconfigured for the selected tool as
     * ToolEffect describes, and nothing else on the canvas changes.
     */
    method ApplyToolEffect()
      requires SessionValid() && (canvas != null ==> canvas.Valid())
      modifies canvas
      ensures Valid()
      ensures canvas != null ==>
        canvas.BrushState() == ToolEffect(tool, BRUSH_SIZE, old(canvas.BrushState())) &&
        canvas.Scene() == old(canvas.Scene())
    {
      if canvas == null {
        return;
      }
      canvas.brushWidth := BRUSH_SIZE;
      if tool == "pencil" {
        canvas.isDrawingMode := true;
        canvas.brushColor := INK;
      } else if tool == "eraser" {
        canvas.isDrawingMode := true;
        canvas.brushColor := WHITE;
        canvas.brushWidth := BRUSH_SIZE * ERASER_FACTOR;
      } else {
        canvas.isDrawingMode := false;
      }
      ToolEffectIdempotent(tool, BRUSH_SIZE, old(canvas.BrushState()));
    }

    /** Mounting the component runs the initialisation effect, then the tool effect. */
    method Mount(containerWidth: real, containerHeight: real)
      requires Valid()
      modifies this`canvas, canvas
      ensures Valid() && canvas != null
      ensures old(canvas) != null ==>
        canvas == old(canvas) && canvas.Scene() == old(canvas.Scene()) &&
        canvas.BrushState() == old(canvas.BrushState())
      ensures old(canvas) == null ==>
        fresh(canvas) && canvas.objects == [] && canvas.active == None &&
        canvas.backgroundColor == WHITE &&
        canvas.width == containerWidth && canvas.height == containerHeight &&
        canvas.BrushState() == ToolEffect(tool, BRUSH_SIZE, Brush(true, INK, BRUSH_SIZE))
    {
      ghost var existed := canvas != null;
      InitCanvas(containerWidth, containerHeight);
      ghost var brush := canvas.BrushState();
      ApplyToolEffect();
      // an existing canvas is already configured for the tool
      assert existed ==> canvas.BrushState() == brush;
    }

    /**
     * `setTool(t)`: React re-runs the tool effect only when the tool actually
     * changes, which leaves the brush as the effect for `t` would set it either way.
     */
    method SelectTool(t: string)
      requires Valid()
      modifies this`tool, canvas
      ensures Valid() && tool == t
      ensures canvas != null ==>
        canvas.BrushState() == ToolEffect(t, BRUSH_SIZE, old(canvas.BrushState())) &&
        canvas.Scene() == old(canvas.Scene())
    {
      if t != tool {
        tool := t;
        ApplyToolEffect();
      }
    }

    /** The prompt input's change handler. */
    method SetPrompt(p: string)
      modifies this`prompt
      ensures prompt == p
    {
      prompt := p;
    }

    /** A style button's click handler. */
    method SelectStyle(style: string)
      modifies this`selectedStyle
      ensures selectedStyle == style
    {
      selectedStyle := style;
    }

    /**
     * `addShape`: with a canvas, the tool becomes "select" (drawing off,
     * base width, colour kept) whatever the shape type; a known shape is
     * appended, centred on the canvas, and becomes the active object. Without
     * a canvas nothing happens.
     */
    method AddShape(shapeType: string)
      requires Valid()
      modifies this`tool, canvas
      ensures Valid()
      ensures canvas == null ==> tool == old(tool)
      ensures canvas != null ==>
        tool == "select" && !canvas.isDrawingMode && canvas.brushWidth == BRUSH_SIZE &&
        canvas.brushColor == old(canvas.brushColor)
      ensures canvas != null ==>
        canvas.backgroundColor == old(canvas.backgroundColor) &&
        canvas.width == old(canvas.width) && canvas.height == old(canvas.height)
      ensures canvas != null && ShapeFor(shapeType, old(canvas.Center())).Some? ==>
        canvas.objects == old(canvas.objects) + [ShapeFor(shapeType, old(canvas.Center())).value] &&
        canvas.active == Some(|old(canvas.objects)|)
      ensures canvas != null && ShapeFor(shapeType, old(canvas.Center())).None? ==>
        canvas.objects == old(canvas.objects) && canvas.active == old(canvas.active)
    {
      if canvas == null {
        return;
      }
      SelectTool("select");
      var shape := ShapeFor(shapeType, canvas.Center());
      if shape.Some? {
        canvas.Add(shape.value);
        canvas.SetActiveObject(|canvas.objects| - 1);
      }
    }

    /**
     * A freehand gesture on the canvas: the pencil adds an ink stroke of the
     * base width, the eraser a white stroke five times as wide, and any other
     * tool adds nothing. No object is ever removed. A pencil or eraser stroke
     * discards the selection.
     */
    method Draw(points: seq<Point>)
      requires Valid() && canvas != null
      modifies canvas`objects, canvas`active
      ensures Valid()
      ensures tool == "pencil" || tool == "eraser" ==> canvas.active == None
      ensures tool == "pencil" ==> canvas.objects == old(canvas.objects) + [Path(points, INK, BRUSH_SIZE)]
      ensures tool == "eraser" ==>
        canvas.objects == old(canvas.objects) + [Path(points, WHITE, ERASER_FACTOR * BRUSH_SIZE)]
      ensures tool != "pencil" && tool != "eraser" ==> canvas.objects == old(canvas.objects)
      ensures old(canvas.objects) <= canvas.objects
    {
      canvas.FreehandStroke(points);
    }

    /** The clear button: every object goes; the brush and the dimensions stay. */
    method ClearCanvas()
      requires Valid()
      modifies canvas
      ensures Valid()
      ensures canvas != null ==>
        canvas.objects == [] && canvas.active == None &&
        canvas.BrushState() == old(canvas.BrushState()) &&
        canvas.width == old(canvas.width) && canvas.height == old(canvas.height)
    {
      if canvas != null {
        canvas.Clear();
      }
    }

    /**
     * `exportSketch`: nothing, and no change, without a canvas or without
     * objects; otherwise the background becomes white for good and the result
     * is the objects rasterised over white.
     */
    method ExportSketch() returns (r: Option<DataUrl>)
      requires CanvasValid()
      modifies canvas
      ensures CanvasValid()
      ensures canvas == null ==> r == None
      ensures canvas != null ==>
        canvas.objects == old(canvas.objects) && canvas.active == old(canvas.active) &&
        canvas.width == old(canvas.width) && canvas.height == old(canvas.height) &&
        canvas.BrushState() == old(canvas.BrushState())
      ensures canvas != null && canvas.objects == [] ==>
        r == None && canvas.backgroundColor == old(canvas.backgroundColor)
      ensures canvas != null && canvas.objects != [] ==>
        canvas.backgroundColor == WHITE &&
        r == Some(PngDataUrl(Raster(canvas.objects, WHITE, canvas.width, canvas.height)))
    {
      if canvas == null {
        return None;
      }
      r := canvas.ExportSketch();
    }

    /**
     * A click on either generate button, up to the network request. While a
     * generation is running the button is disabled and the click does
     * nothing. Otherwise the sketch is exported; without one the user is
     * asked to draw and the editor is idle again; with one a request carrying
     * the composed prompt and the sketch is sent and stays in flight.
     */
    method ClickGenerate() returns (request: Option<Request>, notice: Option<string>)
      requires Valid()
      modifies this`isGenerating, this`inFlight, canvas
      ensures Valid()
      ensures old(isGenerating) ==>
        request == None && notice == None && isGenerating && inFlight == old(inFlight) &&
        (canvas != null ==> canvas.backgroundColor == old(canvas.backgroundColor))
      ensures !old(isGenerating) && (canvas == null || canvas.objects == []) ==>
        request == None && notice == Some(DRAW_SOMETHING) && !isGenerating
      ensures !old(isGenerating) && canvas != null && canvas.objects == [] ==>
        canvas.backgroundColor == old(canvas.backgroundColor)
      ensures !old(isGenerating) && canvas != null && canvas.objects != [] ==>
        request == Some(Request(ComposePrompt(prompt, selectedStyle),
                                PngDataUrl(Raster(canvas.objects, WHITE, canvas.width, canvas.height)))) &&
        inFlight == request && isGenerating && notice == None && canvas.backgroundColor == WHITE
      ensures canvas != null ==>
        canvas.objects == old(canvas.objects) && canvas.active == old(canvas.active) &&
        canvas.width == old(canvas.width) && canvas.height == old(canvas.height) &&
        canvas.BrushState() == old(canvas.BrushState())
    {
      if isGenerating {
        return None, None;
      }
      isGenerating := true;
      var sketch := ExportSketch();
      if sketch.None? {
        notice := Some(DRAW_SOMETHING);
        isGenerating := false;
        return None, notice;
      }
      var finalPrompt := ComposePrompt(prompt, selectedStyle);
      request := Some(Request(finalPrompt, sketch.value));
      inFlight := request;
      notice := None;
    }

    /**
     * The response arrives: the generated image is replaced exactly when the
     * response settles successfully; every failure is logged, alerted and
     * leaves the previous image. Either way the editor is idle again.
     */
    method FinishGenerate(response: Response) returns (logged: Option<Failure>, notice: Option<string>)
      requires Valid() && isGenerating
      modifies this`isGenerating, this`inFlight, this`generatedImage
      ensures Valid() && !isGenerating && inFlight == None
      ensures Settle(response).Success? ==>
        generatedImage == Some(Settle(response).value) && logged == None && notice == None
      ensures Settle(response).Failure? ==>
        generatedImage == old(generatedImage) && logged == Some(Settle(response).error) &&
        notice == Some(GENERATION_FAILED)
    {
      var settled := Settle(response);
      if settled.Success? {
        generatedImage := Some(settled.value);
        logged, notice := None, None;
      } else {
        logged, notice := Some(settled.error), Some(GENERATION_FAILED);
      }
      isGenerating := false;
      inFlight := None;
    }

    /**
     * `handleGenerate` from an idle editor, run to completion against one
     * response: nothing is sent for an empty canvas; otherwise the composed
     * prompt and the white-background sketch are sent and the response
     * decides the image. The editor always ends idle.
     */
    method HandleGenerate(response: Response) returns (request: Option<Request>, notice: Option<string>)
      requires Valid() && !isGenerating
      modifies this`isGenerating, this`inFlight, this`generatedImage, canvas
      ensures Valid() && !isGenerating && inFlight == None
      ensures request.None? <==> canvas == null || canvas.objects == []
      ensures request.None? ==> notice == Some(DRAW_SOMETHING) && generatedImage == old(generatedImage)
      ensures request.Some? ==>
        request.value.prompt == ComposePrompt(prompt, selectedStyle) &&
        request.value.image == PngDataUrl(Raster(canvas.objects, WHITE, canvas.width, canvas.height)) &&
        canvas.backgroundColor == WHITE
      ensures request.Some? && Settle(response).Success? ==>
        generatedImage == Some(Settle(response).value) && notice == None
      ensures request.Some? && Settle(response).Failure? ==>
        generatedImage == old(generatedImage) && notice == Some(GENERATION_FAILED)
      ensures canvas != null ==>
        canvas.objects == old(canvas.objects) && canvas.active == old(canvas.active) &&
        canvas.width == old(canvas.width) && canvas.height == old(canvas.height) &&
        canvas.BrushState() == old(canvas.BrushState())
      ensures request.None? && canvas != null ==> canvas.backgroundColor == old(canvas.backgroundColor)
    {
      request, notice := ClickGenerate();
      if request.Some? {
        var _, n := FinishGenerate(response);
        notice := n;
      }
    }
  }
}
