/**
 * Client code: the editor's behaviours, replayed through the
 * contracts of `App.Editor` alone.
 */
module Scenarios {
  import opened Base
  import opened Surface
  import opened Generation
  import opened App

  /** Nothing drawn, prompt "a castle", style "Anime": no request, the user is asked to draw. */
  method EmptyCanvasSendsNothing() {
    var e := new Editor();
    e.Mount(700.0, 700.0);
    e.SetPrompt("a castle");
    e.SelectStyle("Anime");
    var image := JString("data:image/png;base64,AAAA");
    var request, notice := e.HandleGenerate(Ok(Some(JObject(map["image" := image]))));
    assert request == None && notice == Some(DRAW_SOMETHING);
    assert !e.isGenerating && e.generatedImage == None;
  }

  /** A square is placed at the canvas centre, selected, and the tool switches to select. */
  method SquarePlacedAtCentre() {
    var e := new Editor();
    e.Mount(700.0, 500.0);
    e.AddShape("square");
    assert e.tool == "select" && e.canvas.active == Some(0);
    assert e.canvas.objects == [Rect(Point(350.0, 250.0), 80.0, 80.0, PLACED_LOOK)];
  }

  /** One stroke, empty prompt, style "Cyberpunk": the request carries the style clause alone. */
  method StrokeSendsStyleClause() {
    ComposePromptCases("", "Cyberpunk");
    ghost var expected := ComposePrompt("", "Cyberpunk");
    assert expected == "Cyberpunk" + QUALITY;
    var e := new Editor();
    e.Mount(700.0, 500.0);
    e.Draw([Point(1.0, 1.0)]);
    e.SelectStyle("Cyberpunk");
    var request, _ := e.ClickGenerate();
    assert request.value.prompt == expected;
  }

  /** One stroke, a 2xx reply with an image: that exact image is shown. */
  method StrokeThenSuccess() {
    var e := new Editor();
    e.Mount(700.0, 500.0);
    e.Draw([Point(1.0, 1.0)]);
    var request, _ := e.ClickGenerate();
    assert request.Some? && e.isGenerating;
    var image := JString("data:image/png;base64,AAAA");
    var logged, notice := e.FinishGenerate(Ok(Some(JObject(map["image" := image]))));
    assert e.generatedImage == Some(image) && logged == None && notice == None && !e.isGenerating;
  }

  /** One stroke, a 500 reply "server error": the failure carries that text and the editor is idle again. */
  method StrokeThenServerError() {
    var e := new Editor();
    e.Mount(700.0, 700.0);
    e.Draw([Point(1.0, 1.0), Point(2.0, 3.0)]);
    var request, _ := e.ClickGenerate();
    assert request.Some? && e.isGenerating;
    var logged, notice := e.FinishGenerate(NotOk("server error"));
    assert logged == Some(HttpError("server error")) && notice == Some(GENERATION_FAILED);
    assert !e.isGenerating && e.generatedImage == None;
  }

  /** One stroke, a 2xx reply `{}`: a missing-image failure, the editor idle again. */
  method StrokeThenEmptyObject() {
    var e := new Editor();
    e.Mount(700.0, 700.0);
    e.Draw([Point(1.0, 1.0)]);
    var request, _ := e.ClickGenerate();
    var logged, _ := e.FinishGenerate(Ok(Some(JObject(map[]))));
    assert logged == Some(NoImage) && !e.isGenerating;
  }

  /** A second click while a request is in flight sends nothing. */
  method SecondClickIgnored() {
    var e := new Editor();
    e.Mount(700.0, 700.0);
    e.AddShape("circle");
    var first, _ := e.ClickGenerate();
    var second, notice := e.ClickGenerate();
    assert first.Some? && second == None && notice == None;
    assert e.inFlight == first;
  }

  /** Drawing then clearing leaves nothing to export. */
  method ClearThenExport() {
    var e := new Editor();
    e.Mount(700.0, 700.0);
    e.Draw([Point(5.0, 5.0)]);
    e.AddShape("triangle");
    e.ClearCanvas();
    var r := e.ExportSketch();
    assert r == None;
  }

  /** The eraser paints a wide white stroke and removes nothing. */
  method EraserAddsWhiteStroke() {
    var e := new Editor();
    e.Mount(700.0, 700.0);
    e.Draw([Point(5.0, 5.0)]);
    e.SelectTool("eraser");
    e.Draw([Point(5.0, 5.0)]);
    assert e.canvas.objects == [Path([Point(5.0, 5.0)], INK, 5), Path([Point(5.0, 5.0)], WHITE, 25)];
  }
}
