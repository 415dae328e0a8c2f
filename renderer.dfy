/**
  The renderer page (renderer.js): taking a screenshot, the interactive crop
  selection driven by mouse events on the cropper canvas, Apply and Cancel,
  and the request the Save button sends. The page's module-level variables
  are the fields of class `Page`; the functions `On...` below say what each
  handler does to them, as a transition on the value `PageState`, and the lemmas
  at the end are about sequences of such transitions.
 */
module Renderer {

  import opened Optional
  import opened Raster
  import MainProcess

  /** A pointer position in image coordinates. */
  datatype Point = Point(x: int, y: int)

  /** The arguments of `strokeRect(x, y, w, h)`; w and h are negative when the drag went left or up. */
  datatype Outline = Outline(x: int, y: int, w: int, h: int)

  /** What the cropper canvas shows: an image, and over it the red selection outline once one was drawn. */
  datatype Overlay = Overlay(background: Image, outline: Option<Outline>)

  /**
    The page's mutable state. `screenshot` is `screenshotImage` (None while
    undefined); `coordsDefined` is false while `startX` ... `endY` are still
    undefined; `cropper` is what the cropper canvas shows while the cropper
    is displayed, None while it is hidden or emptied.
   */
  datatype PageState = PageState(
    screenshot: Option<Image>,
    isSelecting: bool,
    coordsDefined: bool,
    start: Point,
    end: Point,
    cropper: Option<Overlay>)

  /** The state when the page has loaded. */
  const Initial: PageState := PageState(None, false, false, Point(0, 0), Point(0, 0), None)

  /** The cropper is only ever shown over an existing screenshot. */
  predicate Wf(s: PageState)
  {
    s.cropper.Some? ==> s.screenshot.Some?
  }

  // ---------------------------------------------------------------------------
  // Crop geometry (applyCrop)

  /** Both sides of an accepted crop must be at least this long. */
  const MinCropSize: nat := 10

  function Abs(n: int): nat
  {
    if n < 0 then -n else n
  }

  function Min(a: int, b: int): int
  {
    if a <= b then a else b
  }

  /** The region a crop copies: its top-left corner and its size. */
  datatype Region = Region(x: int, y: int, width: nat, height: nat)

  /** `applyCrop` refuses the selection (and alerts) when either side is shorter than `MinCropSize`. */
  predicate TooSmall(start: Point, end: Point)
  {
    Abs(end.x - start.x) < MinCropSize || Abs(end.y - start.y) < MinCropSize
  }

  /** On one axis, [lo, lo + len] is exactly the span between a and b. */
  predicate Spans(lo: int, len: nat, a: int, b: int)
  {
    lo <= a <= lo + len && lo <= b <= lo + len && (lo == a || lo == b) && (lo + len == a || lo + len == b)
  }

  /**
    The region `applyCrop` copies from the selection between `start` and
    `end`, or None when the selection is too small. The region is the
    bounding box of the two corners, without clamping to the image.
   */
  function CropRegion(start: Point, end: Point): (r: Option<Region>)
    ensures r.None? <==> TooSmall(start, end)
    ensures r.Some? ==> Spans(r.value.x, r.value.width, start.x, end.x)
    ensures r.Some? ==> Spans(r.value.y, r.value.height, start.y, end.y)
  {
    var width := Abs(end.x - start.x);
    var height := Abs(end.y - start.y);
    if width < MinCropSize || height < MinCropSize then None
    else Some(Region(Min(start.x, end.x), Min(start.y, end.y), width, height))
  }

  /** The image `applyCrop` builds from `img`, or None when the selection is refused. */
  function Crop(img: Image, start: Point, end: Point): (r: Option<Image>)
    ensures r.None? <==> TooSmall(start, end)
    ensures r.Some? ==> r.value.width == Abs(end.x - start.x) >= MinCropSize
    ensures r.Some? ==> r.value.height == Abs(end.y - start.y) >= MinCropSize
    ensures r.Some? ==> forall i, j :: 0 <= i < r.value.width && 0 <= j < r.value.height ==>
      r.value.rows[j][i] == PixelAt(img, Min(start.x, end.x) + i, Min(start.y, end.y) + j)
  {
    match CropRegion(start, end)
    case None => None
    case Some(g) => Some(DrawRegion(img, g.x, g.y, g.width, g.height))
  }

  /** Dragging from either corner to the other crops the same image. */
  lemma CropSymmetric(img: Image, start: Point, end: Point)
    ensures Crop(img, start, end) == Crop(img, end, start)
    ensures Crop(img, start, end) == Crop(img, Point(start.x, end.y), Point(end.x, start.y))
  {
  }

  /** A selection from (10, 10) to (60, 80) on a 100-by-100 screenshot gives a 50-by-70 copy of that region. */
  lemma CropExample(img: Image)
    requires img.width == 100 && img.height == 100
    ensures Crop(img, Point(10, 10), Point(60, 80)).Some?
    ensures var c := Crop(img, Point(10, 10), Point(60, 80)).value;
      c.width == 50 && c.height == 70 &&
      forall i, j :: 0 <= i < 50 && 0 <= j < 70 ==> c.rows[j][i] == img.rows[10 + j][10 + i]
  {
  }

  // ---------------------------------------------------------------------------
  // The handlers, as transitions of PageState

  /** The crop button: draws the screenshot on a fresh cropper canvas, or only alerts when there is none. */
  function OnCropClick(s: PageState): (r: PageState)
  {
    if s.screenshot.Some? then s.(cropper := Some(Overlay(s.screenshot.value, None))) else s
  }

  /** `startSelection`: begins a fresh selection at p, whatever the previous one was. */
  function OnMouseDown(s: PageState, p: Point): PageState
  {
    s.(isSelecting := true, coordsDefined := true, start := p, end := p)
  }

  /** `redrawCanvas`: the screenshot, repainted, with the outline from start to end over it. */
  function Redraw(img: Image, start: Point, end: Point): Overlay
  {
    Overlay(img, Some(Outline(start.x, start.y, end.x - start.x, end.y - start.y)))
  }

  /** `updateSelection`: while selecting, moves the end point to p and redraws; otherwise does nothing. */
  function OnMouseMove(s: PageState, p: Point): PageState
    requires Wf(s) && s.cropper.Some?
  {
    if !s.isSelecting then s
    else s.(end := p, cropper := Some(Redraw(s.screenshot.value, s.start, p)))
  }

  /** `endSelection`: stops selecting and keeps the rectangle for Apply. */
  function OnMouseUp(s: PageState): PageState
  {
    s.(isSelecting := false)
  }

  /** The Cancel button: hides and empties the cropper. */
  function OnCancel(s: PageState): PageState
  {
    s.(cropper := None)
  }

  /** `applyCrop`: replaces the screenshot by the crop and hides the cropper, or changes nothing when the selection is too small. */
  function OnApply(s: PageState): PageState
    requires s.screenshot.Some? && s.coordsDefined
  {
    match Crop(s.screenshot.value, s.start, s.end)
    case None => s
    case Some(c) => s.(screenshot := Some(c), cropper := None)
  }

  // ---------------------------------------------------------------------------
  // Capturing (captureScreen and the take-screenshot handler)

  /** The thrown message when `sources[0].id` is read on an empty list. */
  const NoSourceMessage: string := "Cannot read properties of undefined (reading 'id')"

  /** How a capture settles: an image, an error with its message, or never (the picker was not answered). */
  datatype CaptureOutcome = Captured(image: Image) | Failed(message: string) | Pending

  /** How the source id is chosen. */
  datatype SourceChoice = Direct(id: string) | Picked(id: string) | NoSources | Unanswered

  /** A click on the picker resolves it when it hits a button whose `data-id` is not empty; `c` is the button's index, anything else is the picker's background. */
  predicate Resolves(sources: seq<MainProcess.SourceInfo>, c: int)
  {
    0 <= c < |sources| && sources[c].id != ""
  }

  /** The k-th click is the first that resolves the picker. */
  predicate FirstResolving(sources: seq<MainProcess.SourceInfo>, clicks: seq<int>, k: int)
  {
    0 <= k < |clicks| && Resolves(sources, clicks[k]) && forall k' :: 0 <= k' < k ==> !Resolves(sources, clicks[k'])
  }

  /** The id the source picker resolves with, given the user's clicks in order: that of the first click that resolves it. */
  function PickerAnswer(sources: seq<MainProcess.SourceInfo>, clicks: seq<int>): (r: Option<string>)
    ensures r.None? <==> forall k :: 0 <= k < |clicks| ==> !Resolves(sources, clicks[k])
    ensures r.Some? ==> exists k :: FirstResolving(sources, clicks, k) && r.value == sources[clicks[k]].id
    decreases |clicks|
  {
    if clicks == [] then None
    else if Resolves(sources, clicks[0]) then Some(sources[clicks[0]].id)
    else
      var r := PickerAnswer(sources, clicks[1..]);
      assert r.Some? ==> exists k :: FirstResolving(sources, clicks, k) && r.value == sources[clicks[k]].id by {
        if r.Some? {
          var k :| FirstResolving(sources, clicks[1..], k) && r.value == sources[clicks[1..][k]].id;
          assert FirstResolving(sources, clicks, k + 1);
        }
      }
      r
  }

  /** The source choice in `captureScreen`: several sources go to the picker, otherwise the first is taken. */
  function ChooseSource(sources: seq<MainProcess.SourceInfo>, clicks: seq<int>): (r: SourceChoice)
    ensures r.NoSources? <==> |sources| == 0
    ensures r.Direct? <==> |sources| == 1
    ensures |sources| == 1 ==> r.id == sources[0].id
    ensures r.Picked? ==> |sources| > 1 && r.id != "" && exists i :: 0 <= i < |sources| && sources[i].id == r.id
    ensures r.Unanswered? <==> |sources| > 1 && forall k :: 0 <= k < |clicks| ==> !Resolves(sources, clicks[k])
    ensures r.Picked? ==> PickerAnswer(sources, clicks) == Some(r.id)
    ensures |sources| > 1 ==> forall k :: FirstResolving(sources, clicks, k) ==> r == Picked(sources[clicks[k]].id)
  {
    if |sources| > 1 then
      match PickerAnswer(sources, clicks)
      case Some(id) => Picked(id)
      case None => Unanswered
    else if |sources| == 0 then NoSources
    else Direct(sources[0].id)
  }

  /**
    `captureScreen`: lists the sources through `GET_SOURCES`, chooses one, and
    grabs a frame of it. `grab(id)` is how the media stream for `id` and its
    first frame settle.
   */
  function CaptureScreen(desktop: seq<MainProcess.DesktopSource>, clicks: seq<int>, grab: string -> CaptureOutcome): (r: CaptureOutcome)
    ensures |desktop| == 0 ==> r == Failed(NoSourceMessage)
    ensures |desktop| == 1 ==> r == grab(desktop[0].id)
    ensures |desktop| > 1 ==> r == Pending || exists i :: 0 <= i < |desktop| && r == grab(desktop[i].id)
    ensures |desktop| > 1 && (forall k :: 0 <= k < |clicks| ==> !Resolves(MainProcess.GetSources(desktop), clicks[k])) ==>
      r == Pending
    ensures |desktop| > 1 ==> forall k :: FirstResolving(MainProcess.GetSources(desktop), clicks, k) ==>
      r == grab(desktop[clicks[k]].id)
  {
    var sources := MainProcess.GetSources(desktop);
    match ChooseSource(sources, clicks)
    case NoSources => Failed(NoSourceMessage)
    case Unanswered => Pending
    case Direct(id) => grab(id)
    case Picked(id) => grab(id)
  }

  /** The take-screenshot handler: the screenshot is replaced only by a captured image. */
  function OnScreenshot(s: PageState, outcome: CaptureOutcome): PageState
  {
    match outcome
    case Captured(img) => s.(screenshot := Some(img))
    case _ => s
  }

  // ---------------------------------------------------------------------------
  // Saving (saveImage)

  /** `canvas.toDataURL('image/png')`: a canvas with no pixels gives "data:,"; `encode` is the base64 of the PNG. */
  function ToDataUrl(img: Image, encode: Image -> string): (r: string)
    ensures r == "data:," <==> img.width == 0 || img.height == 0
    ensures img.width > 0 && img.height > 0 ==>
      MainProcess.PngDataUrlPrefix <= r && MainProcess.StripDataUrlPrefix(r) == encode(img)
  {
    if img.width == 0 || img.height == 0 then "data:," else MainProcess.PngDataUrlPrefix + encode(img)
  }

  /** The data URL `saveImage` sends to the main process, or None when there is no screenshot (it alerts instead). */
  function SaveRequest(s: PageState, encode: Image -> string): (r: Option<string>)
    ensures r.Some? <==> s.screenshot.Some?
  {
    if s.screenshot.Some? then Some(ToDataUrl(s.screenshot.value, encode)) else None
  }

  /** What the main process writes for a saved screenshot is exactly the encoded PNG. */
  lemma SavedPayloadIsEncoding(s: PageState, encode: Image -> string)
    requires s.screenshot.Some? && s.screenshot.value.width > 0 && s.screenshot.value.height > 0
    ensures MainProcess.StripDataUrlPrefix(SaveRequest(s, encode).value) == encode(s.screenshot.value)
  {
  }

  // ---------------------------------------------------------------------------
  // Sequences of editor events

  /** The user actions of a crop session; none of them is Apply. */
  datatype EditorEvent = CropClick | Down(p: Point) | Move(p: Point) | Up | CancelClick

  /** One event. Mouse events and Cancel reach the page only while the cropper is shown. */
  function Step(s: PageState, e: EditorEvent): (r: PageState)
    requires Wf(s)
    ensures Wf(r)
  {
    match e
    case CropClick => OnCropClick(s)
    case Down(p) => if s.cropper.Some? then OnMouseDown(s, p) else s
    case Move(p) => if s.cropper.Some? then OnMouseMove(s, p) else s
    case Up => if s.cropper.Some? then OnMouseUp(s) else s
    case CancelClick => if s.cropper.Some? then OnCancel(s) else s
  }

  /** A sequence of events, in order. */
  function Run(s: PageState, events: seq<EditorEvent>): (r: PageState)
    requires Wf(s)
    ensures Wf(r)
    decreases |events|
  {
    if events == [] then s else Run(Step(s, events[0]), events[1..])
  }

  lemma {:induction false} RunAppend(s: PageState, a: seq<EditorEvent>, b: seq<EditorEvent>)
    requires Wf(s)
    ensures Run(s, a + b) == Run(Run(s, a), b)
    decreases |a|
  {
    if a == [] {
      assert a + b == b;
    } else {
      assert (a + b)[1..] == a[1..] + b;
      RunAppend(Step(s, a[0]), a[1..], b);
    }
  }

  /** No sequence of pointer, crop-button or Cancel events changes the screenshot. */
  lemma {:induction false} EditingKeepsScreenshot(s: PageState, events: seq<EditorEvent>)
    requires Wf(s)
    ensures Run(s, events).screenshot == s.screenshot
    decreases |events|
  {
    if events != [] {
      EditingKeepsScreenshot(Step(s, events[0]), events[1..]);
    }
  }

  /** Cancel after any editing leaves the screenshot as it was and the cropper hidden. */
  lemma CancelRestores(s: PageState, events: seq<EditorEvent>)
    requires Wf(s)
    ensures Run(s, events + [CancelClick]).screenshot == s.screenshot
    ensures Run(s, events + [CancelClick]).cropper.None?
  {
    RunAppend(s, events, [CancelClick]);
    EditingKeepsScreenshot(s, events);
  }

  function Moves(path: seq<Point>): (r: seq<EditorEvent>)
    ensures |r| == |path|
    ensures forall i :: 0 <= i < |path| ==> r[i] == Move(path[i])
  {
    seq(|path|, i requires 0 <= i < |path| => Move(path[i]))
  }

  /** While selecting, a run of moves leaves the end at the last position and the start where it was. */
  lemma {:induction false} MovesTrackPointer(s: PageState, path: seq<Point>)
    requires Wf(s) && s.cropper.Some? && s.isSelecting
    ensures var t := Run(s, Moves(path));
      t.isSelecting && t.coordsDefined == s.coordsDefined && t.cropper.Some? && t.start == s.start &&
      t.end == (if path == [] then s.end else path[|path| - 1])
    decreases |path|
  {
    if path != [] {
      assert Moves(path)[1..] == Moves(path[1..]);
      MovesTrackPointer(Step(s, Move(path[0])), path[1..]);
    }
  }

  /**
    A drag, mousedown at p, moves along `path`, mouseup, leaves the rectangle
    from p to the last position on the path for Apply.
   */
  lemma DragSelects(s: PageState, p: Point, path: seq<Point>)
    requires Wf(s) && s.cropper.Some?
    ensures var t := Run(s, [Down(p)] + Moves(path) + [Up]);
      !t.isSelecting && t.coordsDefined && t.start == p &&
      t.end == (if path == [] then p else path[|path| - 1]) &&
      t.screenshot == s.screenshot && t.cropper.Some?
  {
    var d := Step(s, Down(p));
    RunAppend(s, [Down(p)] + Moves(path), [Up]);
    RunAppend(s, [Down(p)], Moves(path));
    MovesTrackPointer(d, path);
    EditingKeepsScreenshot(s, [Down(p)] + Moves(path) + [Up]);
  }

  /** A mousedown discards the previous selection: the result does not depend on it, even mid-drag. */
  lemma MouseDownRestarts(s: PageState, p: Point, selecting: bool, a: Point, b: Point)
    ensures OnMouseDown(s, p) == OnMouseDown(s.(isSelecting := selecting, start := a, end := b), p)
  {
  }

  // ---------------------------------------------------------------------------
  // The page

  /** The renderer page's module-level variables and its event handlers. */
  class Page {
    var screenshotImage: Option<Image>
    var isSelecting: bool
    var coordsDefined: bool
    var startX: int
    var startY: int
    var endX: int
    var endY: int
    var cropperCanvas: Option<Overlay>

    ghost function State(): PageState
      reads this
    {
      PageState(screenshotImage, isSelecting, coordsDefined, Point(startX, startY), Point(endX, endY), cropperCanvas)
    }

    ghost predicate Valid()
      reads this
    {
      Wf(State())
    }

    constructor ()
      ensures Valid() && State() == Initial
    {
      screenshotImage := None;
      isSelecting, coordsDefined := false, false;
      startX, startY, endX, endY := 0, 0, 0, 0;
      cropperCanvas := None;
    }

    /** The crop button's handler. */
    method OpenCropper()
      requires Valid()
      modifies this
      ensures Valid() && State() == OnCropClick(old(State()))
    {
      if screenshotImage.Some? {
        cropperCanvas := Some(Overlay(screenshotImage.value, None));
      }
    }

    method StartSelection(x: int, y: int)
      requires Valid() && cropperCanvas.Some?
      modifies this
      ensures Valid() && State() == OnMouseDown(old(State()), Point(x, y))
      ensures isSelecting && startX == endX == x && startY == endY == y
      ensures screenshotImage == old(screenshotImage) && cropperCanvas == old(cropperCanvas)
    {
      isSelecting := true;
      coordsDefined := true;
      startX := x;
      startY := y;
      endX := startX;
      endY := startY;
    }

    method UpdateSelection(x: int, y: int)
      requires Valid() && cropperCanvas.Some?
      modifies this
      ensures Valid() && State() == OnMouseMove(old(State()), Point(x, y))
      ensures !old(isSelecting) ==> State() == old(State())
      ensures screenshotImage == old(screenshotImage)
    {
      if !isSelecting {
        return;
      }
      endX := x;
      endY := y;
      RedrawCanvas();
    }

    method EndSelection()
      requires Valid() && cropperCanvas.Some?
      modifies this
      ensures Valid() && State() == OnMouseUp(old(State()))
      ensures !isSelecting && startX == old(startX) && startY == old(startY) && endX == old(endX) && endY == old(endY)
    {
      isSelecting := false;
    }

    /** Repaints the cropper canvas; only the canvas changes. */
    method RedrawCanvas()
      requires Valid() && cropperCanvas.Some?
      modifies this`cropperCanvas
      ensures Valid()
      ensures cropperCanvas == Some(Redraw(screenshotImage.value, Point(startX, startY), Point(endX, endY)))
    {
      cropperCanvas := Some(Redraw(screenshotImage.value, Point(startX, startY), Point(endX, endY)));
    }

    /** The Apply button's handler; `accepted` is false when it alerts that the selection is too small. */
    method ApplyCrop() returns (accepted: bool)
      requires Valid() && cropperCanvas.Some? && coordsDefined
      modifies this
      ensures Valid() && State() == OnApply(old(State()))
      ensures accepted <==> !TooSmall(old(State()).start, old(State()).end)
      ensures !accepted ==> State() == old(State())
    {
      var cropWidth := Abs(endX - startX);
      var cropHeight := Abs(endY - startY);
      if cropWidth < MinCropSize || cropHeight < MinCropSize {
        accepted := false;
        return;
      }
      var cropped := DrawRegion(screenshotImage.value, Min(startX, endX), Min(startY, endY), cropWidth, cropHeight);
      screenshotImage := Some(cropped);
      cropperCanvas := None;
      accepted := true;
    }

    /** The Cancel button's handler. */
    method CancelCrop()
      requires Valid() && cropperCanvas.Some?
      modifies this
      ensures Valid() && State() == OnCancel(old(State()))
      ensures screenshotImage == old(screenshotImage)
    {
      cropperCanvas := None;
    }

    /** The take-screenshot handler; returns how the capture settled. */
    method TakeScreenshot(desktop: seq<MainProcess.DesktopSource>, clicks: seq<int>, grab: string -> CaptureOutcome)
      returns (outcome: CaptureOutcome)
      requires Valid()
      modifies this
      ensures outcome == CaptureScreen(desktop, clicks, grab)
      ensures Valid() && State() == OnScreenshot(old(State()), outcome)
      ensures !outcome.Captured? ==> State() == old(State())
    {
      outcome := CaptureScreen(desktop, clicks, grab);
      if outcome.Captured? {
        screenshotImage := Some(outcome.image);
      }
    }

    /** The save button's handler: the data URL it sends, if any. */
    method SaveImage(encode: Image -> string) returns (sent: Option<string>)
      ensures sent == SaveRequest(State(), encode)
    {
      if screenshotImage.Some? {
        sent := Some(ToDataUrl(screenshotImage.value, encode));
      } else {
        sent := None;
      }
    }
  }

}
