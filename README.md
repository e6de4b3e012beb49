# GANBrush sketch editor: canvas-interaction core in Dafny

This project models the part of GANBrush that does the work: the React `App` component in
`src/App.jsx` and the fabric.js canvas it drives. The user draws on the canvas with a pencil
or an eraser, or places squares, circles and triangles. The editor exports the drawing as a
PNG data URL on a white background. It then POSTs that image with a composed prompt to an
image-generation endpoint and shows the image that comes back.

Modules:

- `Base` (`base.dfy`): `Option` and `Result`.
- `Text` (`text.dfy`): `String.prototype.trim` and ECMAScript whitespace. The editor uses it to
  decide whether the prompt is empty.
- `Surface` (`surface.dfy`): the canvas as a class. Its fields are the insertion-ordered object
  list, the background colour, the drawing-mode flag, the brush colour and width, the
  dimensions and the active object. The module also holds the tool effect as a pure function
  on brushes (`ToolEffect`), the shape built by `addShape` (`ShapeFor`), and the raster and
  data URL that export produces.
- `Generation` (`generation.dfy`): prompt composition, JSON values with JavaScript
  truthiness, the HTTP response as a value, and how a response settles into an image or a
  failure (`Settle`).
- `App` (`app.dfy`): the `Editor` class. Its fields are the component's state (`tool`,
  `selectedStyle`, `prompt`, `isGenerating`, `generatedImage`) and the canvas reference. Its
  methods are the effects and handlers. `Editor.Valid()` holds between events and says two
  things. First, the canvas brush is exactly what the tool effect makes of it for the selected
  tool (a fixpoint of `ToolEffect`). Second, the editor is generating exactly while a request
  is in flight.
- `Scenarios` (`scenarios.dfy`): client methods that replay the editor's behaviours using
  only the `Editor` contracts. These are an empty canvas, a square placed at the centre, the style clause
  alone sent for an empty prompt, a stroke followed by a successful reply, a stroke followed by a 500 reply, a reply of `{}`, a second click while generating,
  clear followed by export, and an eraser stroke.

`handleGenerate` is `async`. Its one point of interest is the `await fetch`. The model splits
it there: `ClickGenerate` runs the disabled-button guard and everything up to sending the
request, and `FinishGenerate` takes the response. `HandleGenerate` runs both against one
response. Between the two halves other handlers may run, and `Editor.Valid()` holds there.

The network, `alert` and `console.error` become values. The response is a `Response`
argument. Each handler returns the alert text it would show (`notice`), and `FinishGenerate`
also returns the failure it would log (`logged`).

Details of the code worth knowing:

- The composed prompt is `<prompt>, <style> style, ultra detailed, realistic lighting`. The
  word "style" follows the style name, and the user's prompt is sent untrimmed.
- The tool effect resets the brush width to the base size for every tool other than the
  eraser, including "select".
- Placing a shape is not a tool of its own. `addShape` sets the tool to "select" even for an
  unrecognised shape type.
- fabric's `clear()` is not promised to leave the background alone (see Left out).

## Model

| member | source | states |
|---|---|---|
| Text.TrimStart | src/App.jsx:132 | the result is a suffix of the input; it is empty or starts with a non-whitespace character |
| Text.TrimStartRemovesBlank | src/App.jsx:132 | what `TrimStart` removes from the front is whitespace only |
| Text.TrimEnd | src/App.jsx:132 | the result is a prefix of the input; it is empty or ends with a non-whitespace character |
| Text.TrimEndRemovesBlank | src/App.jsx:132 | what `TrimEnd` removes from the back is whitespace only |
| Text.Trim | src/App.jsx:132 | the trimmed prompt is no longer than the prompt; when non-empty, it starts and ends with non-whitespace |
| Text.TrimEmptyIffBlank | src/App.jsx:132 | `prompt.trim().length > 0` holds exactly when the prompt has a non-whitespace character |
| Text.TrimIsInfix | src/App.jsx:132 | the prompt is some whitespace, then the trimmed prompt, then some whitespace: trimming removes leading and trailing whitespace and nothing else |
| Generation.ComposePrompt | src/App.jsx:131-134 | the composed prompt is never empty |
| Generation.ComposePromptCases | src/App.jsx:131-134 | the composed prompt is the style clause alone for a whitespace-only prompt, and otherwise the untrimmed prompt, ", " and the style clause |
| Generation.ComposePromptInjective | src/App.jsx:133 | two non-blank prompts that compose to the same text with the same style are equal, so the user's text reaches the service unaltered |
| Generation.Settle | src/App.jsx:146-157 | success exactly when the status is 2xx and the JSON body's `image` field is present and truthy, and then the result is that value; a non-2xx status fails with the response text |
| Generation.SettleFailures | src/App.jsx:137-157 | each remaining failure is named: a rejected fetch, a 2xx body that is not JSON, a `null` body, and a parsed body without a truthy `image` ("Backend did not return an image") |
| Surface.ToolEffect | src/App.jsx:70-81 | drawing is on exactly for "pencil" and "eraser"; the width is 5 × brushSize for the eraser and brushSize otherwise; the colour is ink for the pencil, white for the eraser, and unchanged for any other tool |
| Surface.ToolEffectIdempotent | src/App.jsx:67-82 | running the tool effect again for the same tool changes nothing |
| Surface.ToolEffectLastWins | src/App.jsx:67-82 | after two tool changes, the drawing flag and width are those of the last tool, and so is the whole brush when the last tool is the pencil or the eraser |
| Surface.ShapeFor | src/App.jsx:90-95 | a shape exactly for "square", "circle" or "triangle", of the matching kind; it is centred at the given point with transparent fill, ink stroke and stroke width 3, in an 80×80 box (radius 40 for the circle) |
| Surface.Canvas.constructor | src/App.jsx:36-43 | a new canvas has no objects and no selection, a white background, drawing mode on, and the ink brush at the given width |
| Surface.Canvas.SetDimensions | src/App.jsx:50 | sets the width and height and nothing else |
| Surface.Canvas.Add | src/App.jsx:97 | appends the object at the end and leaves the earlier objects unchanged |
| Surface.Canvas.SetActiveObject | src/App.jsx:97 | the object at the given index becomes the active one |
| Surface.Canvas.FreehandStroke | src/App.jsx:41-43 | in drawing mode, discards the selection and appends one path with the brush's current colour and width; otherwise adds nothing |
| Surface.Canvas.Clear | src/App.jsx:211 | the object list becomes empty and nothing is selected |
| Surface.Canvas.ExportSketch | src/App.jsx:105-115 | nothing and no change for an empty canvas; otherwise the background becomes white and the result is the objects rasterised over white |
| App.Editor.constructor | src/App.jsx:23-28 | the initial state: pencil tool, "Realistic" style, empty prompt, not generating, no generated image, no canvas |
| App.Editor.InitCanvas | src/App.jsx:33-57 | a no-op when a canvas exists; otherwise a fresh canvas in drawing mode with a white background and the ink brush of width brushSize, sized to the container |
| App.Editor.Resize | src/App.jsx:47-53 | the canvas takes the new dimensions; objects, selection, background and brush are untouched |
| App.Editor.ApplyToolEffect | src/App.jsx:67-82 | the brush becomes `ToolEffect` of the selected tool; the rest of the canvas is unchanged; afterwards the canvas is configured for the tool |
| App.Editor.Mount | src/App.jsx:33-82 | after both effects the canvas exists and is configured for the tool; an existing canvas is left exactly as it was |
| App.Editor.SelectTool | src/App.jsx:204-205 | the tool becomes `t` and the brush becomes `ToolEffect` of `t`, whether or not React re-runs the effect |
| App.Editor.SetPrompt | src/App.jsx:229 | the prompt becomes the input's value |
| App.Editor.SelectStyle | src/App.jsx:190 | the selected style becomes the clicked one |
| App.Editor.AddShape | src/App.jsx:85-98 | with a canvas, the tool is "select" for every shape type, with drawing off, brushSize width and colour kept; a known shape is appended at the canvas centre and becomes the active object; without a canvas nothing changes |
| App.Editor.Draw | src/App.jsx:72-78 | the pencil appends an ink stroke of width brushSize; the eraser appends a white stroke of width 5 × brushSize; both discard the selection; other tools add nothing; earlier objects are always kept |
| App.Editor.ClearCanvas | src/App.jsx:211 | with a canvas, no objects remain and the brush and dimensions are kept; without one, nothing happens |
| App.Editor.ExportSketch | src/App.jsx:101-116 | nothing without a canvas or objects, and then the background is unchanged; otherwise the background becomes white (not restored), the objects are unchanged, and a raster over white is returned |
| App.Editor.ClickGenerate | src/App.jsx:119-144 | ignored while generating; on an empty canvas, alerts "Please draw something!", leaves the background as it was and ends idle with no request; otherwise sends the composed prompt and the white-background sketch and stays generating |
| App.Editor.FinishGenerate | src/App.jsx:146-163 | on success the generated image becomes exactly the returned value; on every failure it is kept and the failure is logged and alerted; the editor ends idle in both cases |
| App.Editor.HandleGenerate | src/App.jsx:119-164 | a request is sent exactly when the canvas has objects; an empty canvas leaves the image and the background unchanged; objects, selection, dimensions and brush are never changed; the response decides the image as in `Settle`; the editor always ends idle |

## Left out

- Layout, theming (`isDarkMode`, `toggleTheme`), icons, the style strip and `ToolBtn`: these are presentational only.
- The Save and Download buttons have no handlers in the source, so there is nothing to model.
- `ResizeObserver` and `getBoundingClientRect`: the container's size is a parameter of `InitCanvas` and `Resize`.
- The effect cleanup (`observer.disconnect`, `canvas.dispose`, resetting the reference). It runs only on unmount or when `brushSize` changes, and `brushSize` never changes.
- Rendering (`renderAll`) and the pixels of `toDataURL`: a data URL is an opaque value built from the objects, the background and the size.
- Surface.Canvas.Clear: the contract says nothing about the background colour after `clear()`, because fabric defines that.
- Surface.Canvas.FreehandStroke: a stroke is the list of points it went through; with drawing mode off, what a pointer gesture selects is not stated.
- App.Editor.Draw: as for `FreehandStroke`, the selection after a gesture with a non-drawing tool is not stated.
- Moving, resizing and selecting objects by pointer in select mode: the model has no move operation, so it does not capture that dragging an object changes where `toDataURL` rasterises it and so the exported image.
- `fetch`, `response.text()` and `response.json()`: they become the `Response` value. A rejection of `response.text()` is not modelled.
- `alert` and `console.error`: they become the `notice` and `logged` results.
- `async` scheduling: `handleGenerate` is split at its `await` into `ClickGenerate` and `FinishGenerate`. React's batching of state updates is not modelled.
- Canvas dimensions and JSON numbers are modelled as reals. A parsed number is never NaN, and ±Infinity (`1e400`) is truthy like any non-zero real, so `Truthy` needs no case for them.
- The server (`server.py`) and the styling configuration (`tailwind.config.js`) are not part of this model.
