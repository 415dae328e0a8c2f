# Screenshot capture, crop and save: a Dafny model

This project models the core of a small Electron screenshot tool. The tool
has two halves:

- **The renderer page** (`renderer.js`). It lists screens and lets the user
  pick one, captures a frame, and shows an interactive cropper. The cropper
  is driven by mousedown, mousemove and mouseup on a canvas, plus Apply and
  Cancel buttons. The page then sends the current image as a PNG data URL to
  be saved.
- **The main process** (`main.js`). It answers `GET_SOURCES` with each
  screen's id and name. Its `save-image` handler shows a save dialog, strips
  the data-URL header, writes the file and replies.

Images are values of `Raster.Image`: a width, a height and rows of 32-bit
RGBA pixels. The page's module-level variables (`screenshotImage`,
`isSelecting`, `startX`, `startY`, `endX`, `endY`, and what the cropper
canvas shows) are the fields of the class `Renderer.Page`. Each handler is a
method of `Page`. The method's contract ties the page's new state to a
transition function (`OnMouseDown`, `OnMouseMove`, `OnApply`, ...) of the old
state. Lemmas about sequences of events (`Step`, `Run`) use those functions.

The model's collaborators are parameters:

- the desktop capturer's source list;
- the user's clicks on the source picker;
- how the media stream for a source id settles (`grab`);
- the PNG/base64 encoder (`encode`);
- how the save dialog settles;
- the error `fs.writeFile` reports;
- the value of `Date.now()`.

In these places the code behaves as follows, and the model follows it:

- The code normalises the rectangle only in `applyCrop`, not on mouseup.
- The code never clamps the rectangle to the image. Parts of the region
  outside the image stay transparent, as the canvas leaves them.
- A dismissed save dialog produces no write and no reply. There is no
  "cancelled" outcome.
- With zero sources the code fails with the `TypeError` from reading
  `sources[0].id`. There is no dedicated error.
- The crop button does not reset the selection. Apply in a new cropper
  session reuses the previous session's rectangle until the next mousedown.
  `OnCropClick` keeps this.
- A mousedown while already selecting restarts the rectangle.

## Model

| member | source | states |
|---|---|---|
| Raster.DrawRegion | renderer.js:192-198 | the fresh canvas has the requested size and pixel (i, j) is the source pixel at (x+i, y+j), transparent outside the source |
| Raster.DrawRegionInside | renderer.js:196-198 | a region inside the source is copied pixel for pixel |
| MainProcess.GetSources | main.js:37-40 | the reply has the capturer's length and order, each entry keeping the id and name |
| MainProcess.StripDataUrlPrefix | main.js:50 | the result is a suffix of the input; with the PNG header in front, header + result is the input; otherwise the input comes back unchanged |
| MainProcess.StripAfterPrefix | main.js:50 | stripping the header from header + payload gives exactly the payload |
| MainProcess.StripRemovesOnce | main.js:50 | only one leading header is removed |
| MainProcess.Decimal | main.js:45 | the timestamp's numeral is non-empty, all digits, and has no leading zero |
| MainProcess.DecimalRoundTrip | main.js:45 | reading the numeral back gives the timestamp |
| MainProcess.SuggestedFileNamesDiffer | main.js:45 | different timestamps give different suggested names `screenshot-<now>.png` |
| MainProcess.SuggestedFileName | main.js:45 | the proposed name starts with `screenshot-`, ends with `.png`, and holds only digits in between, which read back as the timestamp `now` |
| MainProcess.SaveImage | main.js:42-65 | dialog options; a write happens exactly when the dialog resolves uncancelled, to its path, with the header-stripped payload; no reply exactly on cancel; a write error or a rejected dialog replies failure with the message; success is replied exactly when written without error |
| Renderer.CropRegion | renderer.js:183-198 | none exactly when a side is under 10; otherwise the region is the tight bounding box of start and end on both axes |
| Renderer.Crop | renderer.js:183-198 | refused exactly when too small; otherwise width is abs(endX-startX), height is abs(endY-startY), and pixel (i, j) is the source pixel at (min x + i, min y + j) |
| Renderer.CropSymmetric | renderer.js:184-198 | swapping start and end, or the opposite two corners, crops the same image |
| Renderer.CropExample | renderer.js:183-198 | (10,10)-(60,80) on a 100-by-100 image gives the 50-by-70 copy of that region |
| Renderer.PickerAnswer | renderer.js:31-40 | unanswered exactly when no click hits a button with a non-empty id; otherwise the id of the first such click |
| Renderer.ChooseSource | renderer.js:29-43 | no source exactly on an empty list; direct use of the only source exactly when there is one; a picked id is non-empty and one of the sources' ids; unanswered exactly when there are several sources and no resolving click; with several sources, the pick is the id of the first resolving click |
| Renderer.CaptureScreen | renderer.js:25-76 | zero sources fails with the TypeError message; one source grabs that source's id; with several, the first resolving click's source is grabbed, and the capture stays pending exactly when no click resolves |
| Renderer.ToDataUrl | renderer.js:13-13 | a canvas with no pixels gives exactly `data:,`; otherwise the URL starts with the PNG header and stripping it gives the encoding |
| Renderer.SaveRequest | renderer.js:6-20 | a data URL is sent exactly when there is a screenshot |
| Renderer.SavedPayloadIsEncoding | renderer.js:13-16 | for a non-empty screenshot, the main process's stripped payload is exactly the PNG encoding |
| Renderer.Step | renderer.js:98-171 | every editor event keeps the invariant that the cropper is shown only over a screenshot |
| Renderer.EditingKeepsScreenshot | renderer.js:142-181 | no sequence of crop-button, mouse or Cancel events changes the screenshot |
| Renderer.CancelRestores | renderer.js:142-145 | Cancel after any editing leaves the screenshot unchanged and the cropper hidden |
| Renderer.MovesTrackPointer | renderer.js:161-167 | while selecting, moves keep the start and leave the end at the last pointer position |
| Renderer.DragSelects | renderer.js:152-171 | mousedown at p, any moves, mouseup: not selecting, start is p, end is the last position (or p), screenshot unchanged |
| Renderer.MouseDownRestarts | renderer.js:152-159 | a mousedown's result does not depend on the previous rectangle or on being mid-drag |
| Renderer.Page.constructor | renderer.js:95-96 | the page starts with `screenshotImage` undefined (renderer.js:3), not selecting, the coordinates undefined, and no cropper shown |
| Renderer.Page.OpenCropper | renderer.js:98-149 | with a screenshot the cropper canvas shows it without an outline; otherwise nothing changes |
| Renderer.Page.StartSelection | renderer.js:152-159 | selecting, start = end = the pointer, screenshot and canvas unchanged |
| Renderer.Page.UpdateSelection | renderer.js:161-167 | while selecting, the end moves to the pointer and the canvas is redrawn; otherwise nothing changes; the screenshot never changes |
| Renderer.Page.EndSelection | renderer.js:169-171 | not selecting; all four coordinates unchanged |
| Renderer.Page.RedrawCanvas | renderer.js:173-181 | the canvas shows the screenshot with the outline from start to end; nothing else changes |
| Renderer.Page.ApplyCrop | renderer.js:183-207 | accepted exactly when both sides are at least 10; then the screenshot becomes the crop and the cropper is hidden; otherwise nothing changes |
| Renderer.Page.CancelCrop | renderer.js:142-145 | the cropper is hidden; the screenshot and the selection are unchanged |
| Renderer.Page.TakeScreenshot | renderer.js:78-92 | the screenshot is replaced only by a captured image; on failure or a pending picker nothing changes |
| Renderer.Page.SaveImage | renderer.js:6-20 | sends the screenshot's data URL, or nothing when there is no screenshot |

## Left out

- Window and app lifecycle (main.js:6-35): plumbing with no decisions.
- Media capture (renderer.js:45-71): `getUserMedia`, the video element and stopping the tracks are foreign asynchronous calls. They are the parameter `grab`, which maps a source id to a captured image, an error, or no answer.
- The desktop capturer call and its `types: ['screen']` filter: its list is an input. A rejected `GET_SOURCES` call is not modelled.
- PNG encoding, base64, and decoding a data URL back into an image: `encode` is a parameter, and decoding is assumed lossless. One case is kept: a canvas with no pixels gives `data:,` (`Renderer.ToDataUrl`).
- The file system and the save dialog: their results are parameters of `MainProcess.SaveImage`. IPC, `alert` and `console` are dropped.
- DOM and CSS set-up, the picker's HTML, and showing images once they load (the `onload` handlers). The screenshot is replaced when it is assigned.
- The two `onload` registrations in `applyCrop` (renderer.js:200-221): modelled as one atomic replacement. The Save button they insert is UI.
- Client-to-canvas coordinate conversion (`getBoundingClientRect`, CSS scaling): the pointer is an integer point in image coordinates.
- Renderer.Page.ApplyCrop: requires that a mousedown has happened. Before one, the coordinates are `undefined`, `NaN < 10` is false, and the code would draw a 0-by-0 canvas. That path is not modelled. Fractional coordinates are not modelled either.
- MainProcess.SuggestedFileName: takes `Date.now()` as a non-negative integer; a clock set before 1970 would give a negative value and a `-` in the name, which is not modelled.
- Concurrency: overlapping captures and the interleaving of asynchronous callbacks. Every handler is modelled as running to completion.
