/** The drawing pass as the sketch performs it: a canvas whose pen state
    (heading and stroke) is changed in place by rotate, strokeWeight and
    stroke, saved and restored by push and pop, and whose line calls append
    segments. The recursive `DrawBranch` is proved to emit exactly the
    segments `Tree.Branch` describes. Absolute positions (translate) are
    not modelled: a segment records the heading it is drawn along. */
module Drawing {
  import opened Tree
  import opened Colour
  import opened Parameters

  /** `parseInt` applied to a control's number: the integer part, truncated
      toward zero. */
  function ParseInt(x: real): (n: int)
    ensures 0.0 <= x ==> n as real <= x < n as real + 1.0
    ensures x < 0.0 ==> n as real - 1.0 < x <= n as real
  {
    if x >= 0.0 then x.Floor else -((-x).Floor)
  }

  /** On a whole number, as every setter leaves its control, parsing
      changes nothing. */
  lemma ParseIntWhole(x: real)
    requires IsWhole(x)
    ensures ParseInt(x) as real == x
  {
    if x < 0.0 {
      assert (-x).Floor == -(x.Floor);
    }
  }

  /** The tree a redraw draws for already-parsed control values: the
      generator from level 0 with the colour converted to HSL, starting
      straight up. */
  function Sketch(depth: int, angle: int, rootLength: int, shorterChild: bool, rootWeight: int,
                  thinnerChild: bool, colour: string, multiColoured: bool): (r: seq<Segment>)
    requires IsValidColour(colour)
    ensures |r| >= 1
    ensures r[0] == Segment(0, rootLength as real, rootWeight as real, HexToHsl(colour).hue,
                            HexToHsl(colour).saturation, HexToHsl(colour).lightness, 0)
  {
    var hsl := HexToHsl(colour);
    var style := Style(depth, angle, shorterChild, thinnerChild, hsl.saturation, hsl.lightness, multiColoured);
    Generate(style, rootLength as real, rootWeight as real, hsl.hue, 0)
  }

  /** A redraw's segments: 2^depth - 1 of them (one at least), each at a
      level below `depth`, with length, weight and hue the root's scaled per
      level and the colour's own saturation and lightness. */
  lemma SketchShape(depth: int, angle: int, rootLength: int, shorterChild: bool, rootWeight: int,
                    thinnerChild: bool, colour: string, multiColoured: bool)
    requires IsValidColour(colour)
    ensures
      var r := Sketch(depth, angle, rootLength, shorterChild, rootWeight, thinnerChild, colour, multiColoured);
      var hsl := HexToHsl(colour);
      var style := Style(depth, angle, shorterChild, thinnerChild, hsl.saturation, hsl.lightness, multiColoured);
      && |r| == (if depth >= 1 then Pow2(depth) - 1 else 1)
      && 0.0 <= hsl.saturation <= 100.0 && 0.0 <= hsl.lightness <= 100.0
      && AllScaled(r, 0, style, rootLength as real, rootWeight as real, hsl.hue)
  {
    var hsl := HexToHsl(colour);
    var style := Style(depth, angle, shorterChild, thinnerChild, hsl.saturation, hsl.lightness, multiColoured);
    GenerateSize(style, rootLength as real, rootWeight as real, hsl.hue, 0);
    BranchScaling(0, style, rootLength as real, rootWeight as real, hsl.hue, 0);
  }

  /** With the controls as the setters leave them, a redraw draws
      2^depth - 1 segments for a depth between 1 and 15. */
  lemma RedrawSize(c: Controls)
    requires c.Valid()
    ensures 1 <= ParseInt(c.depth) <= 15
    ensures |Sketch(ParseInt(c.depth), ParseInt(c.angle), ParseInt(c.rootLength), c.shorterChild,
                    ParseInt(c.rootWeight), c.thinnerChild, c.rootColour, c.multiColoured)|
            == Pow2(ParseInt(c.depth)) - 1
  {
    ParseIntWhole(c.depth);
    SketchShape(ParseInt(c.depth), ParseInt(c.angle), ParseInt(c.rootLength), c.shorterChild,
                ParseInt(c.rootWeight), c.thinnerChild, c.rootColour, c.multiColoured);
  }

  lemma AppendAssoc<T>(a: seq<T>, b: seq<T>, c: seq<T>, d: seq<T>)
    ensures a + b + c + d == a + (b + c + d)
  {
  }

  /** The drawing state that push saves and pop restores. */
  datatype Pen = Pen(heading: int, weight: real, hue: real, saturation: real, lightness: real)

  class Canvas {
    /** The lines drawn since the last background. */
    var segments: seq<Segment>
    var pen: Pen
    /** The push/pop stack. */
    var saved: seq<Pen>
    var zoom: real

    /** Between redraws every push has been popped and nothing is rotated. */
    ghost predicate Valid()
      reads this
    {
      saved == [] && pen.heading == 0
    }

    constructor ()
      ensures Valid() && segments == [] && zoom == 1.0
    {
      segments := [];
      pen := Pen(0, 1.0, 0.0, 0.0, 0.0);
      saved := [];
      zoom := 1.0;
    }

    method Background()
      modifies this`segments
      ensures segments == []
    {
      segments := [];
    }

    method StrokeWeight(weight: real)
      modifies this`pen
      ensures pen == old(pen).(weight := weight)
    {
      pen := pen.(weight := weight);
    }

    method Stroke(hue: real, saturation: real, lightness: real)
      modifies this`pen
      ensures pen == old(pen).(hue := hue, saturation := saturation, lightness := lightness)
    {
      pen := pen.(hue := hue, saturation := saturation, lightness := lightness);
    }

    /** A line of `length` along the current heading, in the current stroke;
        `level` labels it with the recursion level that drew it. */
    method Line(level: int, length: real)
      modifies this`segments
      ensures segments == old(segments) + [Segment(level, length, pen.weight, pen.hue, pen.saturation, pen.lightness, pen.heading)]
    {
      segments := segments + [Segment(level, length, pen.weight, pen.hue, pen.saturation, pen.lightness, pen.heading)];
    }

    method Rotate(degrees: int)
      modifies this`pen
      ensures pen == old(pen).(heading := old(pen.heading) + degrees)
    {
      pen := pen.(heading := pen.heading + degrees);
    }

    method Push()
      modifies this`saved
      ensures saved == old(saved) + [pen]
    {
      saved := saved + [pen];
    }

    method Pop()
      requires saved != []
      modifies this`pen, this`saved
      ensures pen == old(saved[|saved| - 1]) && saved == old(saved[..|saved| - 1])
    {
      pen := saved[|saved| - 1];
      saved := saved[..|saved| - 1];
    }

    /** The recursive branch call: own line first, then, below the last
        level, the +angle child and the -angle child, each inside its own
        push/pop. It appends exactly `Branch`'s segments, hands the stack back
        as it found it, and leaves the heading where it was. */
    method DrawBranch(depth: int, style: Style, length: real, weight: real, hue: real)
      modifies this`segments, this`pen, this`saved
      ensures segments == old(segments) + Branch(depth, style, length, weight, hue, old(pen.heading))
      ensures pen == old(pen).(weight := weight, hue := hue, saturation := style.saturation, lightness := style.lightness)
      ensures saved == old(saved)
      decreases style.maxDepth - depth
    {
      StrokeWeight(weight);
      Stroke(hue, style.saturation, style.lightness);
      ghost var heading := pen.heading;
      ghost var own := Segment(depth, length, weight, hue, style.saturation, style.lightness, heading);
      Line(depth, length);
      ghost var start := segments;
      assert start == old(segments) + [own];
      if depth < style.maxDepth - 1 {
        var childLength, childWeight, childHue := length, weight, hue;
        if style.shorterChild {
          childLength := childLength * LENGTH_MULTIPLIER;
        }
        if style.thinnerChild {
          childWeight := childWeight * WEIGHT_MULTIPLIER;
        }
        if style.multiColoured {
          childHue := childHue * HUE_MULTIPLIER;
        }
        assert childLength == Shrink(style.shorterChild, LENGTH_MULTIPLIER, length);
        assert childWeight == Shrink(style.thinnerChild, WEIGHT_MULTIPLIER, weight);
        assert childHue == Shrink(style.multiColoured, HUE_MULTIPLIER, hue);
        ghost var left := Branch(depth + 1, style, childLength, childWeight, childHue, heading + style.angle);
        ghost var right := Branch(depth + 1, style, childLength, childWeight, childHue, heading - style.angle);
        ghost var parent := pen;
        Push();
        Rotate(style.angle);
        DrawBranch(depth + 1, style, childLength, childWeight, childHue);
        Pop();
        assert pen == parent;
        assert segments == start + left;
        Push();
        Rotate(-style.angle);
        assert pen.heading == heading - style.angle;
        DrawBranch(depth + 1, style, childLength, childWeight, childHue);
        Pop();
        assert segments == start + left + right;
        BranchUnfold(depth, style, length, weight, hue, heading);
        assert Branch(depth, style, length, weight, hue, heading) == [own] + left + right;
        AppendAssoc(old(segments), [own], left, right);
      } else {
        BranchLeaf(depth, style, length, weight, hue, heading);
        assert segments == old(segments) + Branch(depth, style, length, weight, hue, heading);
      }
      assert heading == old(pen.heading);
    }

    /** One redraw: clear, set the scale, parse the controls, convert the
        colour and draw the tree from level 0. The stroke left behind is the
        root's. */
    method DrawTree(c: Controls)
      requires Valid() && IsValidColour(c.rootColour)
      modifies this
      ensures Valid()
      ensures segments == Sketch(ParseInt(c.depth), ParseInt(c.angle), ParseInt(c.rootLength), c.shorterChild,
                                 ParseInt(c.rootWeight), c.thinnerChild, c.rootColour, c.multiColoured)
      ensures zoom == c.scale
      ensures pen == Pen(0, ParseInt(c.rootWeight) as real, HexToHsl(c.rootColour).hue,
                         HexToHsl(c.rootColour).saturation, HexToHsl(c.rootColour).lightness)
    {
      Background();
      zoom := c.scale;
      var maxDepth := ParseInt(c.depth);
      var angle := ParseInt(c.angle);
      var length := ParseInt(c.rootLength);
      var weight := ParseInt(c.rootWeight);
      var hsl := HexToHsl(c.rootColour);
      var style := Style(maxDepth, angle, c.shorterChild, c.thinnerChild, hsl.saturation, hsl.lightness, c.multiColoured);
      DrawBranch(0, style, length as real, weight as real, hsl.hue);
    }
  }
}
