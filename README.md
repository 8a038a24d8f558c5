# Thumbnail generator, modelled in Dafny

The thumbnail generator builds a 1280×720 thumbnail image. It fetches a
background image from a URL and resamples it to exactly 1280×720, ignoring the
aspect ratio. It paints the result at the origin of a fresh canvas. It then
writes three lines of text (bottom, middle, top, in that order) at the left
margin. Each line is drawn as outlined text: 24 black copies fill the 5×5
square of whole-pixel offsets around the anchor, leaving out the anchor
itself. One white copy then goes on the anchor.

The model has four modules:

- `Drawing` (`drawing.dfy`) models the drawing context as a class whose state
  is its size, its current paint, its current font face and the ordered log of
  drawing commands issued against it. Pixels are not modelled. Every
  operation the generator uses is a method that updates that state.
- `Layout` (`layout.dfy`) holds the anchor arithmetic: the margins, the three
  font sizes and the two slack constants, the general `Place` function and the
  fixed anchors (658, 544, 472) it yields for the 720-pixel canvas.
- `Renderer` (`renderer.dfy`) holds the outlined-text helper:
  - `DrawOutlinedText` is the imperative method. It loops over dx, and
    `DrawOutlineColumn` runs the inner loop over dy for each column.
  - `OutlinedText` is the specification function the method is proved
    against.
  - `IsOutlinedLine` is a declarative description of one line's 25 draws.
    The draws `OutlinedText` produces have that shape, and no other sequence
    has it.
- `Thumbnail` (`thumbnail.dfy`) holds the main sequence:
  - `Generate` is the imperative run on a fresh context.
  - `Run` is its specification as a function of the download outcome, the
    three texts and which font sizes load.
  - The lemmas cover which runs succeed, the exact shape of a successful
    run's command log, and the independence of that shape from the texts.

Coordinates and font sizes are the source's `float64` values. Every one of
them is a whole number, and the arithmetic on them (sums and differences of
small integers) is exact in `float64`, so the model uses `int`. The anchor
fractions and colour components are `real`.

Where the code and the generator's written design disagree, the model follows
the code:

- The top line's anchor is 472, not 424. Lines 93-94 tighten the spacing by
  34 and 24 pixels instead of subtracting a line spacing.
- The design says the lines are stacked strictly upwards for any font sizes
  that shrink from bottom to top. The code stacks them strictly upwards
  exactly when the middle size exceeds 34 and the top size exceeds 24.
  Neither the bottom size nor the canvas height matters. `Layout.Place`
  proves this in both directions.
- The design asks for an HTTP 404 to raise a fetch error. The code never
  inspects the status code, so a 404 error page only fails as an undecodable
  image (lines 44-47). The model's `Undecodable` download covers it.
- The design says three empty lines give an image with no text on it. That
  holds, since an empty string renders no glyphs, but the code reaches it by
  still issuing all 75 text draws, each with the empty string.
  `EmptyTextsKeepStructure` states this.
- The design treats a failed write of the PNG as fatal. The code ignores the
  error `SavePNG` returns (line 101). Saving is not modelled.

## Model

| member | source | states |
|---|---|---|
| Drawing.Resize | scripts/thumbnail-generator/main.go:49-50 | the resampled background has exactly the requested 1280×720 size whatever the input's size, and is derived from the input image |
| Drawing.Context.constructor | scripts/thumbnail-generator/main.go:52 | a fresh canvas has the requested size, an empty command log, no colour set and the default font face |
| Drawing.Context.DrawImage | scripts/thumbnail-generator/main.go:53 | drawing an image appends exactly one image draw at the given position and leaves colour and face unchanged |
| Drawing.Context.SetRGB | scripts/thumbnail-generator/main.go:70 | setting the colour changes only the current paint, never the log or the face |
| Drawing.Context.LoadFontFace | scripts/thumbnail-generator/main.go:66-68 | loading reports success exactly when the font file loads at that size; on success the face is the font at that size, on failure the face is kept; nothing is drawn |
| Drawing.Context.DrawStringAnchored | scripts/thumbnail-generator/main.go:74 | a text draw appends exactly one command carrying the text, position, anchor fractions and the paint and face in force |
| Layout.Place | scripts/thumbnail-generator/main.go:92-94 | the bottom anchor plus the bottom size equals the height plus the bottom margin; the three anchors are strictly ordered upwards if and only if the middle size exceeds 34 and the top size exceeds 24 |
| Layout.StandardAnchors | scripts/thumbnail-generator/main.go:84-94 | with height 720, margin 10 and sizes 72/148/96 the anchors are exactly 658, 544 and 472, strictly ordered upwards |
| Renderer.RowPrefixFacts | scripts/thumbnail-generator/main.go:72-76 | the inner loop up to dy visits exactly the offsets of column dx below dy except the anchor, in increasing dy, and how many it visits |
| Renderer.GridPrefixFacts | scripts/thumbnail-generator/main.go:71-77 | the outer loop up to dx visits exactly the offsets of the columns before dx except the anchor, column by column in increasing dy, and how many |
| Renderer.OutlineOffsetsFacts | scripts/thumbnail-generator/main.go:71-77 | the outline pass has 24 pairwise distinct offsets, which are exactly the 5×5 square around the anchor without its centre, in dx-outer, dy-inner order |
| Renderer.OutlinedTextFacts | scripts/thumbnail-generator/main.go:65-81 | one outlined line is 25 text draws of the same text, anchor fractions (0, 1) and font size: 24 black draws covering the ring around the anchor in loop order, then one white draw on the anchor |
| Renderer.OutlinedLineUnique | scripts/thumbnail-generator/main.go:65-81 | conversely, any command sequence of that shape is exactly what one outlined line draws |
| Renderer.OutlineAvoidsAnchor | scripts/thumbnail-generator/main.go:71-76 | no black draw lands on the anchor and no two black draws land on the same pixel |
| Renderer.DrawOutlineColumn | scripts/thumbnail-generator/main.go:72-76 | one run of the inner loop appends the draws of column dx in increasing dy, skipping the anchor, and keeps black paint and the loaded face |
| Renderer.DrawOutlinedText | scripts/thumbnail-generator/main.go:65-81 | reports success exactly when the font loads at the line's size; on success it appends exactly the outlined line's 25 draws and leaves white paint and that face; on failure nothing is drawn and nothing changes |
| Thumbnail.Generate | scripts/thumbnail-generator/main.go:36-98 | the imperative run yields exactly what the run specification gives: the fetch and decode errors, the font error of the first size that fails to load, or the canvas with its full command log |
| Thumbnail.RunSucceedsIff | scripts/thumbnail-generator/main.go:39-68 | a run yields an image if and only if the background is fetched and decoded and the font loads at all three sizes; a fetch failure is reported as such exactly for an unreachable source, and a decode failure exactly for an undecodable one |
| Thumbnail.RunShape | scripts/thumbnail-generator/main.go:49-98 | a run whose background is fetched and decoded and whose font loads at all three sizes succeeds; its canvas is 1280×720, the canvas height the layout uses, and its log is the downloaded background resized to 1280×720 drawn at the origin, then the bottom, middle and top lines as three consecutive outlined lines of 25 draws at left margin 6 and anchors 658, 544 and 472: 75 text draws in all |
| Thumbnail.EmptyTextsKeepStructure | scripts/thumbnail-generator/main.go:96-98 | three empty lines give a run that succeeds exactly when any other texts would, and draws the same commands with the text left empty |

## Left out

- Reading the URL and the three lines from standard input and trimming them (lines 17-34) is not modelled. The texts are parameters of `Run` and `Generate`.
- The HTTP request (lines 37-43) and the image decoding (line 44) become the `Download` parameter. A malformed URL makes `http.NewRequest` return an error that line 37 discards, together with a nil request; line 38 then sets a header on that nil request and the program crashes before the request is sent at line 39. The model counts this case as `Unreachable`: in both cases the run aborts before any canvas exists.
- The panics are modelled as a run ending with an error value and no image. The process exit and the deferred body close are not modelled.
- Pixels, Lanczos3 resampling, glyph rasterisation and glyph metrics are not modelled. An image is its size, and a text draw is its parameters.
- Finding the home directory and building the font path (lines 57-62) are not modelled. The panic when the home directory is missing is not modelled either. Whether the font file loads at a given size is the `fontLoads` parameter.
- Saving the PNG and the final message (lines 100-102) are not modelled.
- Coordinates and sizes are `int` rather than `float64`. Every value the source computes is a small whole number, so nothing is lost.
- The inner loop over dy (lines 72-76) is a separate method, `DrawOutlineColumn`, that the outer loop calls. It is not nested inline. The draws and their order are the same.
