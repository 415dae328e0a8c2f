/**
  Still images as the renderer's canvases hold them: a width, a height and
  rows of RGBA pixels. PNG encoding and decoding are treated as lossless and
  are not modelled.
 */
module Raster {

  /** One canvas pixel: red, green, blue and alpha bytes packed into 32 bits. */
  newtype Rgba = x: int | 0 <= x < 0x1_0000_0000

  /** Transparent black, the colour of every pixel of a freshly sized canvas. */
  const Transparent: Rgba := 0

  /** A raster buffer; `rows[y][x]` is the pixel in column x of row y. */
  datatype Bitmap = Bitmap(width: nat, height: nat, rows: seq<seq<Rgba>>)
  {
    predicate Wf() {
      |rows| == height && forall y :: 0 <= y < |rows| ==> |rows[y]| == width
    }
  }

  /** A well-formed raster buffer. */
  type Image = b: Bitmap | b.Wf() witness Bitmap(0, 0, [])

  /** The source pixel `drawImage` reads at (x, y); outside the image there is none, and the fresh canvas stays transparent. */
  function PixelAt(img: Image, x: int, y: int): Rgba
  {
    if 0 <= x < img.width && 0 <= y < img.height then img.rows[y][x] else Transparent
  }

  /**
    The image left on a fresh w-by-h canvas by
    `drawImage(img, x, y, w, h, 0, 0, w, h)`: a one-to-one copy of the
    w-by-h region whose top-left corner is (x, y). Parts of the region that
    lie outside `img` are clipped away and stay transparent.
   */
  function DrawRegion(img: Image, x: int, y: int, w: nat, h: nat): (r: Image)
    ensures r.width == w && r.height == h
    ensures forall i, j :: 0 <= i < w && 0 <= j < h ==> r.rows[j][i] == PixelAt(img, x + i, y + j)
  {
    var rows := seq(h, j requires 0 <= j < h => seq(w, i requires 0 <= i < w => PixelAt(img, x + i, y + j)));
    assert forall j :: 0 <= j < |rows| ==> |rows[j]| == w;
    Bitmap(w, h, rows)
  }

  /** A region that lies inside the source is copied pixel for pixel. */
  lemma DrawRegionInside(img: Image, x: int, y: int, w: nat, h: nat, i: int, j: int)
    requires 0 <= x && x + w <= img.width && 0 <= y && y + h <= img.height
    requires 0 <= i < w && 0 <= j < h
    ensures DrawRegion(img, x, y, w, h).rows[j][i] == img.rows[y + j][x + i]
  {
  }

}
