/**
  The main process (main.js): the `GET_SOURCES` handler that lists screens
  for the renderer, and the `save-image` handler that asks for a destination
  and writes the PNG the renderer sent. The native dialog and the file system
  are collaborators whose answers arrive as parameters.
 */
module MainProcess {

  import opened Optional

  /** A capturable screen as the desktop capturer reports it (its thumbnail and icon are not modelled). */
  datatype DesktopSource = DesktopSource(id: string, name: string, displayId: string)

  /** What the renderer receives for each source. */
  datatype SourceInfo = SourceInfo(id: string, name: string)

  /** `GET_SOURCES`: each capturer entry reduced to its id and name, in the capturer's order. */
  function GetSources(captured: seq<DesktopSource>): (r: seq<SourceInfo>)
    ensures |r| == |captured|
    ensures forall i :: 0 <= i < |captured| ==> r[i].id == captured[i].id && r[i].name == captured[i].name
  {
    if captured == [] then []
    else [SourceInfo(captured[0].id, captured[0].name)] + GetSources(captured[1..])
  }

  /** The header `canvas.toDataURL('image/png')` puts before the base64 payload. */
  const PngDataUrlPrefix: string := "data:image/png;base64,"

  /**
    `dataURL.replace(/^data:image\/png;base64,/, "")`: the regular expression
    is anchored at the start, so at most one leading prefix is removed.
   */
  function StripDataUrlPrefix(dataUrl: string): (r: string)
    ensures |r| <= |dataUrl| && r == dataUrl[|dataUrl| - |r|..]
    ensures PngDataUrlPrefix <= dataUrl ==> PngDataUrlPrefix + r == dataUrl
    ensures !(PngDataUrlPrefix <= dataUrl) ==> r == dataUrl
  {
    if PngDataUrlPrefix <= dataUrl then dataUrl[|PngDataUrlPrefix|..] else dataUrl
  }

  /** Stripping the prefix from a data URL gives back exactly its payload. */
  lemma StripAfterPrefix(payload: string)
    ensures StripDataUrlPrefix(PngDataUrlPrefix + payload) == payload
  {
  }

  /** Only the first of two leading prefixes is removed. */
  lemma StripRemovesOnce(payload: string)
    ensures StripDataUrlPrefix(PngDataUrlPrefix + PngDataUrlPrefix + payload) == PngDataUrlPrefix + payload
  {
  }

  function DigitChar(d: nat): char
    requires d < 10
  {
    "0123456789"[d]
  }

  function DigitValue(c: char): nat
  {
    if '0' <= c <= '9' then (c - '0') as nat else 0
  }

  /** The decimal numeral a template literal produces for a non-negative integer. */
  function Decimal(n: nat): (r: string)
    ensures |r| > 0
    ensures forall k :: 0 <= k < |r| ==> '0' <= r[k] <= '9'
    ensures r[0] == '0' ==> n == 0
  {
    if n < 10 then [DigitChar(n)] else Decimal(n / 10) + [DigitChar(n % 10)]
  }

  /** The number a string of decimal digits denotes. */
  function DecimalValue(s: string): nat
  {
    if s == [] then 0 else 10 * DecimalValue(s[..|s| - 1]) + DigitValue(s[|s| - 1])
  }

  /** `Decimal` is faithful: reading its numeral back gives the number. */
  lemma {:induction false} DecimalRoundTrip(n: nat)
    ensures DecimalValue(Decimal(n)) == n
  {
    if n >= 10 {
      var s := Decimal(n / 10) + [DigitChar(n % 10)];
      assert s[..|s| - 1] == Decimal(n / 10);
      DecimalRoundTrip(n / 10);
    }
  }

  /** The file name the save dialog proposes: `screenshot-<Date.now()>.png`. */
  function SuggestedFileName(now: nat): (r: string)
    ensures |r| > 15 && "screenshot-" <= r && r[|r| - 4..] == ".png"
    ensures forall k :: 11 <= k < |r| - 4 ==> '0' <= r[k] <= '9'
    ensures DecimalValue(r[11..|r| - 4]) == now
  {
    var r := "screenshot-" + Decimal(now) + ".png";
    assert r[11..|r| - 4] == Decimal(now);
    DecimalRoundTrip(now);
    r
  }

  /** Two saves at different instants propose different file names. */
  lemma SuggestedFileNamesDiffer(now1: nat, now2: nat)
    requires now1 != now2
    ensures SuggestedFileName(now1) != SuggestedFileName(now2)
  {
  }

  /** The options passed to `dialog.showSaveDialog`. */
  datatype DialogOptions = DialogOptions(title: string, defaultPath: string, filterName: string, extensions: seq<string>)

  /** How the dialog's promise settles: resolved with `{canceled, filePath}`, or rejected with an error message. */
  datatype DialogOutcome = Resolved(canceled: bool, filePath: string) | Rejected(message: string)

  /** A call `fs.writeFile(path, base64Data, 'base64', ...)`. */
  datatype FileWrite = FileWrite(path: string, base64Data: string)

  /** The `save-image-response` message: `{success: true}` or `{success: false, error}`. */
  datatype SaveResponse = SaveResponse(success: bool, error: Option<string>)

  /**
    The `save-image` handler. `dialog` is how the save dialog settles, and
    `writeError` is the message of the error `fs.writeFile` reports, if any
    (consulted only when a write is made). Returns the dialog options, the
    write performed (if any) and the reply sent (if any).
   */
  method SaveImage(dataUrl: string, now: nat, dialog: DialogOutcome, writeError: Option<string>)
    returns (options: DialogOptions, written: Option<FileWrite>, reply: Option<SaveResponse>)
    ensures options == DialogOptions("Save screenshot", SuggestedFileName(now), "Images", ["png"])
    ensures written.Some? <==> dialog.Resolved? && !dialog.canceled
    ensures written.Some? ==> written.value == FileWrite(dialog.filePath, StripDataUrlPrefix(dataUrl))
    ensures reply.None? <==> dialog.Resolved? && dialog.canceled
    ensures dialog.Rejected? ==> reply == Some(SaveResponse(false, Some(dialog.message)))
    ensures written.Some? && writeError.Some? ==> reply == Some(SaveResponse(false, writeError))
    ensures written.Some? && writeError.None? ==> reply == Some(SaveResponse(true, None))
    ensures (reply.Some? && reply.value.success) <==> (written.Some? && writeError.None?)
  {
    options := DialogOptions("Save screenshot", SuggestedFileName(now), "Images", ["png"]);
    written, reply := None, None;
    match dialog
    case Rejected(message) =>
      reply := Some(SaveResponse(false, Some(message)));
    case Resolved(canceled, filePath) =>
      if !canceled {
        var base64Data := StripDataUrlPrefix(dataUrl);
        written := Some(FileWrite(filePath, base64Data));
        if writeError.Some? {
          reply := Some(SaveResponse(false, Some(writeError.value)));
        } else {
          reply := Some(SaveResponse(true, None));
        }
      }
  }

}
