/** One run of the thumbnail generator: fetch and decode the background,
    resize it onto a fresh 1280x720 canvas, then draw the bottom, middle and
    top lines as outlined text at the fixed layout's anchors. Any failure ends
    the run with an error and no image. */
module Thumbnail {
  import opened Drawing
  import opened Renderer
  import opened Layout

  const CANVAS_WIDTH: nat := 1280
  const CANVAS_HEIGHT: nat := 720

  /** What fetching the background produced: no response at all, a response
      whose body is not a decodable image (an HTTP error page included, since
      the status code is not inspected), or a decoded image. */
  datatype Download = Unreachable | Undecodable | Fetched(image: Image)

  datatype Error = FetchError | DecodeError | FontLoadError(points: int)

  datatype Result<T> = Success(value: T) | Failure(error: Error)

  /** The finished canvas: its size and everything drawn on it, in order. */
  datatype Raster = Raster(width: nat, height: nat, commands: seq<Command>)

  /** What a run produces, as a function of the downloaded background, the
      three lines of text and which font sizes the font file loads at. */
  function Run(download: Download, topText: string, midText: string, bottomText: string, fontLoads: int -> bool)
    : Result<Raster>
  {
    match download
    case Unreachable => Failure(FetchError)
    case Undecodable => Failure(DecodeError)
    case Fetched(img) =>
      var a := StandardAnchors();
      if !fontLoads(SIZE_BOTTOM) then Failure(FontLoadError(SIZE_BOTTOM))
      else if !fontLoads(SIZE_MID) then Failure(FontLoadError(SIZE_MID))
      else if !fontLoads(SIZE_TOP) then Failure(FontLoadError(SIZE_TOP))
      else Success(Raster(CANVAS_WIDTH, CANVAS_HEIGHT,
        [ImageDraw(Resize(CANVAS_WIDTH, CANVAS_HEIGHT, img), 0, 0)]
        + OutlinedText(bottomText, MARGIN_LEFT, a.yBottom, SIZE_BOTTOM)
        + OutlinedText(midText, MARGIN_LEFT, a.yMid, SIZE_MID)
        + OutlinedText(topText, MARGIN_LEFT, a.yTop, SIZE_TOP)))
  }

  /** The generator's main sequence, drawing on a context it allocates. */
  method Generate(download: Download, topText: string, midText: string, bottomText: string, fontLoads: int -> bool)
    returns (r: Result<Raster>)
    ensures r == Run(download, topText, midText, bottomText, fontLoads)
  {
    if download.Unreachable? {
      return Failure(FetchError);
    }
    if download.Undecodable? {
      return Failure(DecodeError);
    }
    var resized := Resize(CANVAS_WIDTH, CANVAS_HEIGHT, download.image);
    var dc := new Context(CANVAS_WIDTH, CANVAS_HEIGHT);
    dc.DrawImage(resized, 0, 0);
    ghost var background := dc.log;

    var a := Place(HEIGHT, MARGIN_BOTTOM, SIZE_BOTTOM, SIZE_MID, SIZE_TOP);
    assert a == StandardAnchors();
    var ok := DrawOutlinedText(dc, bottomText, MARGIN_LEFT, a.yBottom, SIZE_BOTTOM, fontLoads);
    if !ok {
      return Failure(FontLoadError(SIZE_BOTTOM));
    }
    ghost var bottom := dc.log;
    ok := DrawOutlinedText(dc, midText, MARGIN_LEFT, a.yMid, SIZE_MID, fontLoads);
    if !ok {
      return Failure(FontLoadError(SIZE_MID));
    }
    ghost var mid := dc.log;
    ok := DrawOutlinedText(dc, topText, MARGIN_LEFT, a.yTop, SIZE_TOP, fontLoads);
    if !ok {
      return Failure(FontLoadError(SIZE_TOP));
    }
    assert background == [ImageDraw(Resize(CANVAS_WIDTH, CANVAS_HEIGHT, download.image), 0, 0)];
    assert dc.log == background
      + OutlinedText(bottomText, MARGIN_LEFT, a.yBottom, SIZE_BOTTOM)
      + OutlinedText(midText, MARGIN_LEFT, a.yMid, SIZE_MID)
      + OutlinedText(topText, MARGIN_LEFT, a.yTop, SIZE_TOP);
    r := Success(Raster(dc.width, dc.height, dc.log));
    assert r == Run(download, topText, midText, bottomText, fontLoads) by {
      assert download == Fetched(download.image);
      assert fontLoads(SIZE_BOTTOM) && fontLoads(SIZE_MID) && fontLoads(SIZE_TOP);
    }
  }

  /** A run yields an image exactly when the background arrives and decodes
      and the font loads at all three sizes; a fetch or decode failure is
      reported as such, before any font is touched. */
  lemma RunSucceedsIff(download: Download, topText: string, midText: string, bottomText: string, fontLoads: int -> bool)
    ensures Run(download, topText, midText, bottomText, fontLoads).Success?
        <==> download.Fetched? && fontLoads(SIZE_BOTTOM) && fontLoads(SIZE_MID) && fontLoads(SIZE_TOP)
    ensures Run(download, topText, midText, bottomText, fontLoads) == Failure(FetchError) <==> download.Unreachable?
    ensures Run(download, topText, midText, bottomText, fontLoads) == Failure(DecodeError) <==> download.Undecodable?
  {
  }

  /** A run whose background arrives and whose font loads at every size
      succeeds, and draws, on a 1280x720 canvas, the background resized to
      1280x720 at the origin, then the bottom, middle and top lines as three
      contiguous outlined lines of 25 draws each at the fixed anchors, all at
      the same left margin: 75 text draws after the one image draw. */
  lemma RunShape(download: Download, topText: string, midText: string, bottomText: string, fontLoads: int -> bool)
    requires download.Fetched? && fontLoads(SIZE_BOTTOM) && fontLoads(SIZE_MID) && fontLoads(SIZE_TOP)
    ensures Run(download, topText, midText, bottomText, fontLoads).Success?
    ensures Run(download, topText, midText, bottomText, fontLoads).value.commands[0]
         == ImageDraw(Resize(CANVAS_WIDTH, CANVAS_HEIGHT, download.image), 0, 0)
    ensures var raster := Run(download, topText, midText, bottomText, fontLoads).value;
      && raster.width == CANVAS_WIDTH && raster.height == CANVAS_HEIGHT && raster.height == HEIGHT
      && |raster.commands| == 76
      && raster.commands[0].ImageDraw? && raster.commands[0].x == 0 && raster.commands[0].y == 0
      && raster.commands[0].image.width == CANVAS_WIDTH && raster.commands[0].image.height == CANVAS_HEIGHT
      && IsOutlinedLine(raster.commands[1..26], bottomText, MARGIN_LEFT, 658, SIZE_BOTTOM)
      && IsOutlinedLine(raster.commands[26..51], midText, MARGIN_LEFT, 544, SIZE_MID)
      && IsOutlinedLine(raster.commands[51..76], topText, MARGIN_LEFT, 472, SIZE_TOP)
      && (forall i :: 1 <= i < 76 ==> raster.commands[i].TextDraw?)
  {
    var bg := ImageDraw(Resize(CANVAS_WIDTH, CANVAS_HEIGHT, download.image), 0, 0);
    var bottom := OutlinedText(bottomText, MARGIN_LEFT, 658, SIZE_BOTTOM);
    var mid := OutlinedText(midText, MARGIN_LEFT, 544, SIZE_MID);
    var top := OutlinedText(topText, MARGIN_LEFT, 472, SIZE_TOP);
    OutlinedTextFacts(bottomText, MARGIN_LEFT, 658, SIZE_BOTTOM);
    OutlinedTextFacts(midText, MARGIN_LEFT, 544, SIZE_MID);
    OutlinedTextFacts(topText, MARGIN_LEFT, 472, SIZE_TOP);
    assert Run(download, topText, midText, bottomText, fontLoads)
        == Success(Raster(CANVAS_WIDTH, CANVAS_HEIGHT, [bg] + bottom + mid + top));
    LogShape([bg] + bottom + mid + top, bg, bottom, mid, top, bottomText, midText, topText);
  }

  /** How a background draw followed by three outlined lines lays out in the log. */
  lemma LogShape(cmds: seq<Command>, bg: Command, bottom: seq<Command>, mid: seq<Command>, top: seq<Command>,
                 bottomText: string, midText: string, topText: string)
    requires cmds == [bg] + bottom + mid + top
    requires IsOutlinedLine(bottom, bottomText, MARGIN_LEFT, 658, SIZE_BOTTOM)
    requires IsOutlinedLine(mid, midText, MARGIN_LEFT, 544, SIZE_MID)
    requires IsOutlinedLine(top, topText, MARGIN_LEFT, 472, SIZE_TOP)
    ensures |cmds| == 76 && cmds[0] == bg
    ensures cmds[1..26] == bottom && cmds[26..51] == mid && cmds[51..76] == top
    ensures forall i :: 1 <= i < 76 ==> cmds[i].TextDraw?
  {
    assert cmds[1..26] == bottom;
    assert cmds[26..51] == mid;
    assert cmds[51..76] == top;
    forall i | 1 <= i < 76
      ensures cmds[i].TextDraw?
    {
      if i < 26 {
        assert cmds[i] == bottom[i - 1];
      } else if i < 51 {
        assert cmds[i] == mid[i - 26];
      } else {
        assert cmds[i] == top[i - 51];
      }
    }
  }

  /** A draw with its text removed: what is left is the draw's structure. */
  function WithoutText(c: Command): Command {
    if c.TextDraw? then c.(text := "") else c
  }

  function Erased(cmds: seq<Command>): seq<Command>
    decreases |cmds|
  {
    if cmds == [] then [] else [WithoutText(cmds[0])] + Erased(cmds[1..])
  }

  lemma {:induction false} ErasedConcat(s: seq<Command>, t: seq<Command>)
    ensures Erased(s + t) == Erased(s) + Erased(t)
    decreases |s|
  {
    if s == [] {
      assert s + t == t;
    } else {
      assert (s + t)[0] == s[0] && (s + t)[1..] == s[1..] + t;
      ErasedConcat(s[1..], t);
    }
  }

  lemma {:induction false} ErasedOutlinePass(text: string, x: int, y: int, size: int, offsets: seq<Offset>)
    ensures Erased(OutlinePass(text, x, y, size, offsets)) == OutlinePass("", x, y, size, offsets)
    decreases |offsets|
  {
    if offsets != [] {
      var s := OutlinePass(text, x, y, size, offsets);
      assert s[0] == OutlineDraw(text, x, y, size, offsets[0]);
      assert s[1..] == OutlinePass(text, x, y, size, offsets[1..]);
      ErasedOutlinePass(text, x, y, size, offsets[1..]);
    }
  }

  lemma ErasedOutlinedText(text: string, x: int, y: int, size: int)
    ensures Erased(OutlinedText(text, x, y, size)) == OutlinedText("", x, y, size)
  {
    ErasedOutlinePass(text, x, y, size, OutlineOffsets());
    ErasedConcat(OutlinePass(text, x, y, size, OutlineOffsets()), [FillDraw(text, x, y, size)]);
    assert Erased([FillDraw(text, x, y, size)]) == [FillDraw("", x, y, size)];
  }

  /** The text of the lines never changes what is drawn where: three empty
      lines give a run that succeeds or fails exactly as any other text does,
      and on success draws the same commands with the text left empty. */
  lemma EmptyTextsKeepStructure(download: Download, topText: string, midText: string, bottomText: string, fontLoads: int -> bool)
    ensures Run(download, "", "", "", fontLoads).Success? == Run(download, topText, midText, bottomText, fontLoads).Success?
    ensures Run(download, topText, midText, bottomText, fontLoads).Success? ==>
      Run(download, "", "", "", fontLoads).value.commands
        == Erased(Run(download, topText, midText, bottomText, fontLoads).value.commands)
  {
    if Run(download, topText, midText, bottomText, fontLoads).Success? {
      var a := StandardAnchors();
      var bg := [ImageDraw(Resize(CANVAS_WIDTH, CANVAS_HEIGHT, download.image), 0, 0)];
      var bottom := OutlinedText(bottomText, MARGIN_LEFT, a.yBottom, SIZE_BOTTOM);
      var mid := OutlinedText(midText, MARGIN_LEFT, a.yMid, SIZE_MID);
      var top := OutlinedText(topText, MARGIN_LEFT, a.yTop, SIZE_TOP);
      ErasedConcat(bg + bottom + mid, top);
      ErasedConcat(bg + bottom, mid);
      ErasedConcat(bg, bottom);
      assert Erased(bg) == bg;
      ErasedOutlinedText(bottomText, MARGIN_LEFT, a.yBottom, SIZE_BOTTOM);
      ErasedOutlinedText(midText, MARGIN_LEFT, a.yMid, SIZE_MID);
      ErasedOutlinedText(topText, MARGIN_LEFT, a.yTop, SIZE_TOP);
    }
  }
}
