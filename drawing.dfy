/** The drawing context the generator paints on, abstracted as the ordered
    record of the drawing operations issued against it. Pixels, glyph
    rasterisation and resampling belong to the graphics library and are not
    modelled: a context is its size, its current paint and font face, and its
    command log. */
module Drawing {

  /** A raster image. Only its dimensions are modelled; a resampled image
      remembers the image it was computed from. */
  datatype Image =
    | Decoded(width: nat, height: nat)
    | Resampled(source: Image, width: nat, height: nat)

  /** The source colour of a context: unset until the first SetRGB. */
  datatype Paint = Unset | Rgb(r: real, g: real, b: real)

  const BLACK: Paint := Rgb(0.0, 0.0, 0.0)
  const WHITE: Paint := Rgb(1.0, 1.0, 1.0)

  /** The font face text is drawn with: the library's built-in face until a
      font file has been loaded at some point size. */
  datatype Face = DefaultFace | FontFace(points: int)

  /** One drawing operation, with the paint and face in force when it was issued. */
  datatype Command =
    | ImageDraw(image: Image, x: int, y: int)
    | TextDraw(text: string, x: int, y: int, ax: real, ay: real, paint: Paint, face: Face)

  /** Resampling to a fixed size: the result has exactly the requested
      dimensions, whatever the dimensions of the input. */
  function Resize(width: nat, height: nat, img: Image): (r: Image)
    ensures r.width == width && r.height == height
    ensures r.Resampled? && r.source == img
  {
    Resampled(img, width, height)
  }

  class Context {
    const width: nat
    const height: nat
    var log: seq<Command>
    var paint: Paint
    var face: Face

    /** A fresh context of the given size on which nothing has been drawn. */
    constructor (width: nat, height: nat)
      ensures this.width == width && this.height == height
      ensures log == [] && paint == Unset && face == DefaultFace
    {
      this.width := width;
      this.height := height;
      log := [];
      paint := Unset;
      face := DefaultFace;
    }

    method DrawImage(img: Image, x: int, y: int)
      modifies this
      ensures log == old(log) + [ImageDraw(img, x, y)]
      ensures paint == old(paint) && face == old(face)
    {
      log := log + [ImageDraw(img, x, y)];
    }

    method SetRGB(r: real, g: real, b: real)
      modifies this
      ensures paint == Rgb(r, g, b)
      ensures log == old(log) && face == old(face)
    {
      paint := Rgb(r, g, b);
    }

    /** Loads the font file at the given point size. Whether the file can be
        read and parsed is decided outside the model, by `fontLoads`; on
        failure the current face is kept. */
    method LoadFontFace(points: int, fontLoads: int -> bool) returns (ok: bool)
      modifies this
      ensures ok == fontLoads(points)
      ensures face == if ok then FontFace(points) else old(face)
      ensures log == old(log) && paint == old(paint)
    {
      ok := fontLoads(points);
      if ok {
        face := FontFace(points);
      }
    }

    /** Draws `text` at (x, y), placed by the anchor fractions (ax, ay) of its
        bounding box, in the current paint and face. */
    method DrawStringAnchored(text: string, x: int, y: int, ax: real, ay: real)
      modifies this
      ensures log == old(log) + [TextDraw(text, x, y, ax, ay, paint, face)]
      ensures paint == old(paint) && face == old(face)
    {
      log := log + [TextDraw(text, x, y, ax, ay, paint, face)];
    }
  }
}
