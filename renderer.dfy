/** Outlined text: the text is drawn in black at each of the 24 positions
    around its anchor within a radius of 2 pixels, then once in white on the
    anchor itself. */
module Renderer {
  import opened Drawing

  /** The anchor fractions passed at every text draw. */
  const ANCHOR_X: real := 0.0
  const ANCHOR_Y: real := 1.0

  /** How far the outline reaches from the anchor, in pixels, in each direction. */
  const RADIUS: int := 2

  /** A displacement from the anchor, in whole pixels. */
  datatype Offset = Offset(dx: int, dy: int)

  /** The outline neighbourhood: the 5x5 square around the anchor without its centre. */
  predicate InRing(o: Offset) {
    -RADIUS <= o.dx <= RADIUS && -RADIUS <= o.dy <= RADIUS && o != Offset(0, 0)
  }

  /** The order of a loop over dx (outer) and dy (inner), both increasing. */
  predicate Precedes(a: Offset, b: Offset) {
    a.dx < b.dx || (a.dx == b.dx && a.dy < b.dy)
  }

  predicate Ascending(s: seq<Offset>) {
    forall i, j :: 0 <= i < j < |s| ==> Precedes(s[i], s[j])
  }

  /** The offsets the inner loop over dy issues in column dx before it reaches dy. */
  function RowPrefix(dx: int, dy: int): seq<Offset>
    requires -2 <= dy <= 3
    decreases dy + 2
  {
    if dy == -2 then []
    else RowPrefix(dx, dy - 1) + (if dx != 0 || dy - 1 != 0 then [Offset(dx, dy - 1)] else [])
  }

  /** The offsets the outer loop over dx issues before it reaches column dx. */
  function GridPrefix(dx: int): seq<Offset>
    requires -2 <= dx <= 3
    decreases dx + 2
  {
    if dx == -2 then [] else GridPrefix(dx - 1) + RowPrefix(dx - 1, 3)
  }

  /** Every offset of the outline pass, in the order the loops issue them. */
  function OutlineOffsets(): seq<Offset> {
    GridPrefix(RADIUS + 1)
  }

  function OutlineDraw(text: string, x: int, y: int, size: int, o: Offset): Command {
    TextDraw(text, x + o.dx, y + o.dy, ANCHOR_X, ANCHOR_Y, BLACK, FontFace(size))
  }

  /** The outline draws for `offsets`, one per offset, in the same order. */
  function OutlinePass(text: string, x: int, y: int, size: int, offsets: seq<Offset>): seq<Command>
    decreases |offsets|
  {
    if offsets == [] then [] else [OutlineDraw(text, x, y, size, offsets[0])] + OutlinePass(text, x, y, size, offsets[1..])
  }

  function FillDraw(text: string, x: int, y: int, size: int): Command {
    TextDraw(text, x, y, ANCHOR_X, ANCHOR_Y, WHITE, FontFace(size))
  }

  /** The commands one outlined line adds to the log: the outline pass, then the fill. */
  function OutlinedText(text: string, x: int, y: int, size: int): seq<Command> {
    OutlinePass(text, x, y, size, OutlineOffsets()) + [FillDraw(text, x, y, size)]
  }

  /** The displacement of a command's position from the anchor (x, y). */
  function Displacement(c: Command, x: int, y: int): Offset {
    Offset(c.x - x, c.y - y)
  }

  lemma AscendingAppend(s: seq<Offset>, t: seq<Offset>)
    requires Ascending(s) && Ascending(t)
    requires forall a, b :: a in s && b in t ==> Precedes(a, b)
    ensures Ascending(s + t)
  {
    forall i, j | 0 <= i < j < |s + t|
      ensures Precedes((s + t)[i], (s + t)[j])
    {
      if j < |s| {
        assert (s + t)[i] == s[i] && (s + t)[j] == s[j];
      } else if i < |s| {
        assert (s + t)[i] == s[i] && (s + t)[j] == t[j - |s|];
        assert s[i] in s && t[j - |s|] in t;
      } else {
        assert (s + t)[i] == t[i - |s|] && (s + t)[j] == t[j - |s|];
      }
    }
  }

  /** The inner loop, run from dy = -2 up to dy, visits column dx in
      increasing dy and skips only the anchor itself. */
  lemma {:induction false} RowPrefixFacts(dx: int, dy: int)
    requires -2 <= dy <= 3
    ensures forall o :: o in RowPrefix(dx, dy) <==> o.dx == dx && -2 <= o.dy < dy && o != Offset(0, 0)
    ensures Ascending(RowPrefix(dx, dy))
    ensures |RowPrefix(dx, dy)| == if dx == 0 && dy > 0 then dy + 1 else dy + 2
    decreases dy + 2
  {
    if dy > -2 {
      RowPrefixFacts(dx, dy - 1);
      var s := RowPrefix(dx, dy - 1);
      var t := if dx != 0 || dy - 1 != 0 then [Offset(dx, dy - 1)] else [];
      AscendingAppend(s, t);
      assert RowPrefix(dx, dy) == s + t;
    }
  }

  /** The outer loop, run from dx = -2 up to dx, has visited every column
      before dx in full, column by column. */
  lemma {:induction false} GridPrefixFacts(dx: int)
    requires -2 <= dx <= 3
    ensures forall o :: o in GridPrefix(dx) <==> -2 <= o.dx < dx && -2 <= o.dy <= 2 && o != Offset(0, 0)
    ensures Ascending(GridPrefix(dx))
    ensures |GridPrefix(dx)| == if dx > 0 then 5 * (dx + 2) - 1 else 5 * (dx + 2)
    decreases dx + 2
  {
    if dx > -2 {
      GridPrefixFacts(dx - 1);
      RowPrefixFacts(dx - 1, 3);
      var s := GridPrefix(dx - 1);
      var t := RowPrefix(dx - 1, 3);
      AscendingAppend(s, t);
      assert GridPrefix(dx) == s + t;
    }
  }

  /** The outline pass has 24 offsets, pairwise distinct, exactly the ring
      around the anchor, enumerated with dx outer and dy inner. */
  lemma OutlineOffsetsFacts()
    ensures |OutlineOffsets()| == 24
    ensures forall o :: o in OutlineOffsets() <==> InRing(o)
    ensures Ascending(OutlineOffsets())
    ensures forall i, j :: 0 <= i < j < |OutlineOffsets()| ==> OutlineOffsets()[i] != OutlineOffsets()[j]
  {
    GridPrefixFacts(3);
    forall i, j | 0 <= i < j < |OutlineOffsets()|
      ensures OutlineOffsets()[i] != OutlineOffsets()[j]
    {
      assert Precedes(OutlineOffsets()[i], OutlineOffsets()[j]);
    }
  }

  /** The shape of one outlined line drawn at anchor (x, y): 25 text draws
      with the line's text, anchor fractions (0, 1) and font size; first 24
      black draws, one at each position of the ring around the anchor, in the
      order of a loop over dx (outer) and dy (inner); last a white draw exactly
      on the anchor. */
  ghost predicate IsOutlinedLine(cmds: seq<Command>, text: string, x: int, y: int, size: int) {
    && |cmds| == 25
    && (forall i :: 0 <= i < 25 ==>
          cmds[i].TextDraw? && cmds[i].text == text && cmds[i].ax == 0.0 && cmds[i].ay == 1.0
          && cmds[i].face == FontFace(size))
    && (forall i :: 0 <= i < 24 ==> cmds[i].paint == BLACK && InRing(Displacement(cmds[i], x, y)))
    && (forall i, j :: 0 <= i < j < 24 ==> Precedes(Displacement(cmds[i], x, y), Displacement(cmds[j], x, y)))
    && (forall o :: InRing(o) ==> exists i :: 0 <= i < 24 && Displacement(cmds[i], x, y) == o)
    && cmds[24] == TextDraw(text, x, y, 0.0, 1.0, WHITE, FontFace(size))
  }

  lemma OutlinePassOfRing(text: string, x: int, y: int, size: int, offs: seq<Offset>)
    requires |offs| == 24 && Ascending(offs)
    requires forall o :: o in offs <==> InRing(o)
    ensures IsOutlinedLine(OutlinePass(text, x, y, size, offs) + [FillDraw(text, x, y, size)], text, x, y, size)
  {
    OutlinePassAt(text, x, y, size, offs);
    var cmds := OutlinePass(text, x, y, size, offs) + [FillDraw(text, x, y, size)];
    forall i | 0 <= i < 24
      ensures cmds[i] == OutlineDraw(text, x, y, size, offs[i])
      ensures Displacement(cmds[i], x, y) == offs[i]
    {
    }
    forall i | 0 <= i < 24
      ensures InRing(Displacement(cmds[i], x, y))
    {
      assert offs[i] in offs;
    }
    forall o | InRing(o)
      ensures exists i :: 0 <= i < 24 && Displacement(cmds[i], x, y) == o
    {
      var i :| 0 <= i < |offs| && offs[i] == o;
      assert Displacement(cmds[i], x, y) == o;
    }
  }

  /** What one outlined line draws has the shape IsOutlinedLine describes. */
  lemma OutlinedTextFacts(text: string, x: int, y: int, size: int)
    ensures IsOutlinedLine(OutlinedText(text, x, y, size), text, x, y, size)
  {
    OutlineOffsetsFacts();
    OutlinePassOfRing(text, x, y, size, OutlineOffsets());
  }

  /** No outline draw lands on the anchor, and no two outline draws land on the same position. */
  lemma OutlineAvoidsAnchor(cmds: seq<Command>, text: string, x: int, y: int, size: int)
    requires IsOutlinedLine(cmds, text, x, y, size)
    ensures forall i :: 0 <= i < 24 ==> !(cmds[i].x == x && cmds[i].y == y)
    ensures forall i, j :: 0 <= i < j < 24 ==> !(cmds[i].x == cmds[j].x && cmds[i].y == cmds[j].y)
  {
    forall i | 0 <= i < 24
      ensures !(cmds[i].x == x && cmds[i].y == y)
    {
      assert InRing(Displacement(cmds[i], x, y));
    }
    forall i, j | 0 <= i < j < 24
      ensures !(cmds[i].x == cmds[j].x && cmds[i].y == cmds[j].y)
    {
      assert Precedes(Displacement(cmds[i], x, y), Displacement(cmds[j], x, y));
    }
  }

  /** Two ascending sequences with the same elements are the same sequence. */
  lemma {:induction false} AscendingUnique(a: seq<Offset>, b: seq<Offset>)
    requires Ascending(a) && Ascending(b)
    requires forall o :: o in a <==> o in b
    ensures a == b
    decreases |a|
  {
    assert |a| > 0 ==> a[0] in b;
    assert |b| > 0 ==> b[0] in a;
    if a != [] {
      var k :| 0 <= k < |b| && b[k] == a[0];
      var m :| 0 <= m < |a| && a[m] == b[0];
      forall o
        ensures o in a[1..] <==> o in b[1..]
      {
        if o in a[1..] {
          var i :| 1 <= i < |a| && a[i] == o;
          assert Precedes(a[0], a[i]);
          assert o in b;
        }
        if o in b[1..] {
          var i :| 1 <= i < |b| && b[i] == o;
          assert Precedes(b[0], b[i]);
          assert o in a;
        }
      }
      AscendingUnique(a[1..], b[1..]);
      assert a == [a[0]] + a[1..] && b == [b[0]] + b[1..];
    }
  }

  /** In a line of that shape the outline draws sit at the outline offsets, in order. */
  lemma OutlinedLineDisplacements(cmds: seq<Command>, text: string, x: int, y: int, size: int)
    requires IsOutlinedLine(cmds, text, x, y, size)
    ensures forall i :: 0 <= i < 24 ==> Displacement(cmds[i], x, y) == OutlineOffsets()[i]
  {
    var d := seq(24, i requires 0 <= i < 24 => Displacement(cmds[i], x, y));
    assert Ascending(d);
    forall o
      ensures o in d <==> InRing(o)
    {
      if InRing(o) {
        var i :| 0 <= i < 24 && Displacement(cmds[i], x, y) == o;
        assert d[i] == o;
      }
    }
    OutlineOffsetsFacts();
    AscendingUnique(d, OutlineOffsets());
  }

  /** The shape IsOutlinedLine describes determines the line completely: the
      only command sequence with that shape is what OutlinedText draws. */
  lemma OutlinedLineUnique(cmds: seq<Command>, text: string, x: int, y: int, size: int)
    requires IsOutlinedLine(cmds, text, x, y, size)
    ensures cmds == OutlinedText(text, x, y, size)
  {
    OutlinedLineDisplacements(cmds, text, x, y, size);
    OutlineOffsetsFacts();
    OutlinePassAt(text, x, y, size, OutlineOffsets());
    var expected := OutlinedText(text, x, y, size);
    assert |expected| == 25;
    forall i | 0 <= i < 25
      ensures cmds[i] == expected[i]
    {
      if i < 24 {
        var o := OutlineOffsets()[i];
        assert expected[i] == OutlineDraw(text, x, y, size, o);
        assert cmds[i].x == x + o.dx && cmds[i].y == y + o.dy;
      }
    }
  }

  lemma AppendAssoc<T>(a: seq<T>, b: seq<T>, c: seq<T>)
    ensures (a + b) + c == a + (b + c)
  {
  }

  lemma {:induction false} OutlinePassAppend(text: string, x: int, y: int, size: int, s: seq<Offset>, o: Offset)
    ensures OutlinePass(text, x, y, size, s + [o])
         == OutlinePass(text, x, y, size, s) + [OutlineDraw(text, x, y, size, o)]
    decreases |s|
  {
    if s != [] {
      assert (s + [o])[1..] == s[1..] + [o];
      OutlinePassAppend(text, x, y, size, s[1..], o);
    }
  }

  /** The outline pass issues exactly one draw per offset, at that offset. */
  lemma {:induction false} OutlinePassAt(text: string, x: int, y: int, size: int, offsets: seq<Offset>)
    ensures |OutlinePass(text, x, y, size, offsets)| == |offsets|
    ensures forall i :: 0 <= i < |offsets| ==> OutlinePass(text, x, y, size, offsets)[i] == OutlineDraw(text, x, y, size, offsets[i])
    decreases |offsets|
  {
    if offsets != [] {
      OutlinePassAt(text, x, y, size, offsets[1..]);
    }
  }

  lemma {:induction false} OutlinePassConcat(text: string, x: int, y: int, size: int, s: seq<Offset>, t: seq<Offset>)
    ensures OutlinePass(text, x, y, size, s + t)
         == OutlinePass(text, x, y, size, s) + OutlinePass(text, x, y, size, t)
    decreases |s|
  {
    if s == [] {
      assert s + t == t;
    } else {
      assert (s + t)[0] == s[0] && (s + t)[1..] == s[1..] + t;
      OutlinePassConcat(text, x, y, size, s[1..], t);
      AppendAssoc([OutlineDraw(text, x, y, size, s[0])], OutlinePass(text, x, y, size, s[1..]), OutlinePass(text, x, y, size, t));
    }
  }

  /** The inner loop's step at (dx, dy): the log grows by the draw at that
      offset, unless it is the anchor itself. */
  lemma RowStep(start: seq<Command>, text: string, x: int, y: int, size: int, dx: int, dy: int)
    requires -2 <= dy <= 2
    ensures start + OutlinePass(text, x, y, size, RowPrefix(dx, dy + 1))
         == (start + OutlinePass(text, x, y, size, RowPrefix(dx, dy)))
            + (if dx != 0 || dy != 0 then [OutlineDraw(text, x, y, size, Offset(dx, dy))] else [])
  {
    if dx != 0 || dy != 0 {
      var o := Offset(dx, dy);
      assert RowPrefix(dx, dy + 1) == RowPrefix(dx, dy) + [o];
      OutlinePassAppend(text, x, y, size, RowPrefix(dx, dy), o);
      AppendAssoc(start, OutlinePass(text, x, y, size, RowPrefix(dx, dy)), [OutlineDraw(text, x, y, size, o)]);
    } else {
      assert RowPrefix(dx, dy + 1) == RowPrefix(dx, dy);
    }
  }

  /** The outer loop's step at dx: the log grows by the whole column dx. */
  lemma GridStep(start: seq<Command>, text: string, x: int, y: int, size: int, dx: int)
    requires -2 <= dx <= 2
    ensures start + OutlinePass(text, x, y, size, GridPrefix(dx + 1))
         == (start + OutlinePass(text, x, y, size, GridPrefix(dx))) + OutlinePass(text, x, y, size, RowPrefix(dx, 3))
  {
    assert GridPrefix(dx + 1) == GridPrefix(dx) + RowPrefix(dx, 3);
    OutlinePassConcat(text, x, y, size, GridPrefix(dx), RowPrefix(dx, 3));
    AppendAssoc(start, OutlinePass(text, x, y, size, GridPrefix(dx)), OutlinePass(text, x, y, size, RowPrefix(dx, 3)));
  }

  /** After the last column, the fill completes the outlined line. */
  lemma FillStep(start: seq<Command>, text: string, x: int, y: int, size: int, dx: int)
    requires dx == 3
    ensures start + OutlinedText(text, x, y, size)
         == (start + OutlinePass(text, x, y, size, GridPrefix(dx))) + [FillDraw(text, x, y, size)]
  {
    assert dx == RADIUS + 1;
    AppendAssoc(start, OutlinePass(text, x, y, size, OutlineOffsets()), [FillDraw(text, x, y, size)]);
  }

  /** One pass of the inner loop: column dx of the outline, dy from -2 to 2. */
  method DrawOutlineColumn(dc: Context, text: string, x: int, y: int, size: int, dx: int)
    requires -2 <= dx <= 2
    requires dc.paint == BLACK && dc.face == FontFace(size)
    modifies dc
    ensures dc.paint == BLACK && dc.face == FontFace(size)
    ensures dc.log == old(dc.log) + OutlinePass(text, x, y, size, RowPrefix(dx, 3))
  {
    ghost var start := dc.log;
    var dy := -2;
    while dy <= 2
      invariant -2 <= dy <= 3
      invariant dc.paint == BLACK && dc.face == FontFace(size)
      invariant dc.log == start + OutlinePass(text, x, y, size, RowPrefix(dx, dy))
    {
      RowStep(start, text, x, y, size, dx, dy);
      if dx != 0 || dy != 0 {
        assert OutlineDraw(text, x, y, size, Offset(dx, dy))
            == TextDraw(text, x + dx, y + dy, ANCHOR_X, ANCHOR_Y, dc.paint, dc.face);
        dc.DrawStringAnchored(text, x + dx, y + dy, ANCHOR_X, ANCHOR_Y);
      }
      dy := dy + 1;
    }
  }

  /** Draws one outlined line on `dc`: loads the font at `size`, draws the
      outline pass in black, then the fill in white. A font that does not load
      aborts the line before anything is drawn. */
  method DrawOutlinedText(dc: Context, text: string, x: int, y: int, size: int, fontLoads: int -> bool)
    returns (ok: bool)
    modifies dc
    ensures ok == fontLoads(size)
    ensures ok ==> dc.log == old(dc.log) + OutlinedText(text, x, y, size)
    ensures ok ==> dc.paint == WHITE && dc.face == FontFace(size)
    ensures !ok ==> dc.log == old(dc.log) && dc.paint == old(dc.paint) && dc.face == old(dc.face)
  {
    ok := dc.LoadFontFace(size, fontLoads);
    if !ok {
      return;
    }
    dc.SetRGB(0.0, 0.0, 0.0);
    ghost var start := dc.log;
    var dx := -2;
    while dx <= 2
      invariant -2 <= dx <= 3
      invariant dc.paint == BLACK && dc.face == FontFace(size)
      invariant dc.log == start + OutlinePass(text, x, y, size, GridPrefix(dx))
    {
      GridStep(start, text, x, y, size, dx);
      DrawOutlineColumn(dc, text, x, y, size, dx);
      dx := dx + 1;
    }
    FillStep(start, text, x, y, size, dx);
    dc.SetRGB(1.0, 1.0, 1.0);
    assert FillDraw(text, x, y, size) == TextDraw(text, x, y, ANCHOR_X, ANCHOR_Y, dc.paint, dc.face);
    dc.DrawStringAnchored(text, x, y, ANCHOR_X, ANCHOR_Y);
  }
}
