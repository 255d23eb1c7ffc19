/** The control panel's values and the setters that normalise them after the
    user edits a control: numbers outside their range snap to the nearer
    bound, numbers inside it are rounded (all but the scale), and a colour
    that is not `#` plus six hex digits reverts to the default. */
module Parameters {
  import opened Colour

  const MIN_DEPTH: int := 1
  const MAX_DEPTH: int := 15
  const DEFAULT_DEPTH: int := 11
  const MIN_ANGLE: int := 0
  const MAX_ANGLE: int := 360
  const DEFAULT_ANGLE: int := 30
  const MIN_ROOT_LENGTH: int := 1
  const MAX_ROOT_LENGTH: int := 200
  const DEFAULT_ROOT_LENGTH: int := 170
  const DEFAULT_SHORTER_CHILD: bool := true
  const MIN_ROOT_WEIGHT: int := 1
  const MAX_ROOT_WEIGHT: int := 30
  const DEFAULT_ROOT_WEIGHT: int := 1
  const DEFAULT_THINNER_CHILD: bool := true
  const DEFAULT_MULTI_COLOURED: bool := true
  const MIN_SCALE: real := 0.1
  const MAX_SCALE: real := 2.0
  const DEFAULT_SCALE: real := 1.0

  predicate IsWhole(x: real)
  {
    x == x.Floor as real
  }

  /** Round to the nearest integer, halves upwards, as `Math.round` does. */
  function Round(x: real): (n: int)
    ensures x - 0.5 < n as real <= x + 0.5
  {
    (x + 0.5).Floor
  }

  /** The setter rule for a whole-number control: below `lo` gives `lo`,
      above `hi` gives `hi`, anything else its nearest integer. */
  function ClampRound(v: real, lo: int, hi: int): (r: real)
    requires lo <= hi
    ensures lo as real <= r <= hi as real && IsWhole(r)
    ensures v < lo as real ==> r == lo as real
    ensures v > hi as real ==> r == hi as real
    ensures lo as real <= v <= hi as real ==> v - 0.5 < r <= v + 0.5
  {
    if v < lo as real then lo as real
    else if v > hi as real then hi as real
    else
      var n := Round(v);
      assert lo - 1 < n < hi + 1 by {
        assert (lo - 1) as real < n as real < (hi + 1) as real;
      }
      assert IsWhole(n as real);
      n as real
  }

  /** A value the rule has produced is left alone by it. */
  lemma ClampRoundIdempotent(v: real, lo: int, hi: int)
    requires lo <= hi
    ensures ClampRound(ClampRound(v, lo, hi), lo, hi) == ClampRound(v, lo, hi)
  {
    var r := ClampRound(v, lo, hi);
    assert Round(r) == r.Floor;
  }

  /** The setter rule for the scale: clamped to [0.1, 2], not rounded. */
  function ClampScale(v: real): (r: real)
    ensures MIN_SCALE <= r <= MAX_SCALE
    ensures MIN_SCALE <= v <= MAX_SCALE ==> r == v
    ensures v < MIN_SCALE ==> r == MIN_SCALE
    ensures v > MAX_SCALE ==> r == MAX_SCALE
  {
    if v < MIN_SCALE then MIN_SCALE
    else if v > MAX_SCALE then MAX_SCALE
    else v
  }

  lemma ClampScaleIdempotent(v: real)
    ensures ClampScale(ClampScale(v)) == ClampScale(v)
  {
  }

  /** The colour setter rule: a valid colour is kept exactly, anything else
      becomes the default. */
  function NormalColour(s: string): (r: string)
    ensures IsValidColour(r)
    ensures IsValidColour(s) ==> r == s
    ensures !IsValidColour(s) ==> r == DEFAULT_ROOT_COLOUR
  {
    if IsValidColour(s) then s else DEFAULT_ROOT_COLOUR
  }

  lemma NormalColourIdempotent(s: string)
    ensures NormalColour(NormalColour(s)) == NormalColour(s)
  {
  }

  predicate InRange(v: real, lo: int, hi: int)
  {
    lo as real <= v <= hi as real && IsWhole(v)
  }

  /** The values the controls hold. A number field holds whatever the user
      has typed until its setter runs. */
  class Controls {
    var depth: real
    var angle: real
    var rootLength: real
    var shorterChild: bool
    var rootWeight: real
    var thinnerChild: bool
    var rootColour: string
    var multiColoured: bool
    var scale: real
    /** Whether the panel is expanded; not a generation parameter. */
    var controlsOpen: bool

    /** Every field within its range. */
    ghost predicate Valid()
      reads this
    {
      && InRange(depth, MIN_DEPTH, MAX_DEPTH)
      && InRange(angle, MIN_ANGLE, MAX_ANGLE)
      && InRange(rootLength, MIN_ROOT_LENGTH, MAX_ROOT_LENGTH)
      && InRange(rootWeight, MIN_ROOT_WEIGHT, MAX_ROOT_WEIGHT)
      && IsValidColour(rootColour)
      && MIN_SCALE <= scale <= MAX_SCALE
    }

    /** Every generation parameter at its default. */
    ghost predicate AtDefaults()
      reads this
    {
      && depth == DEFAULT_DEPTH as real
      && angle == DEFAULT_ANGLE as real
      && rootLength == DEFAULT_ROOT_LENGTH as real
      && shorterChild == DEFAULT_SHORTER_CHILD
      && rootWeight == DEFAULT_ROOT_WEIGHT as real
      && thinnerChild == DEFAULT_THINNER_CHILD
      && rootColour == DEFAULT_ROOT_COLOUR
      && multiColoured == DEFAULT_MULTI_COLOURED
      && scale == DEFAULT_SCALE
    }

    /** A panel holding every default, expanded. The page supplies the
        controls' starting values; they are taken to be these defaults. */
    constructor ()
      ensures AtDefaults() && Valid() && controlsOpen
    {
      depth := DEFAULT_DEPTH as real;
      angle := DEFAULT_ANGLE as real;
      rootLength := DEFAULT_ROOT_LENGTH as real;
      shorterChild := DEFAULT_SHORTER_CHILD;
      rootWeight := DEFAULT_ROOT_WEIGHT as real;
      thinnerChild := DEFAULT_THINNER_CHILD;
      rootColour := DEFAULT_ROOT_COLOUR;
      multiColoured := DEFAULT_MULTI_COLOURED;
      scale := DEFAULT_SCALE;
      controlsOpen := true;
    }

    method UpdateDepth()
      modifies this`depth
      ensures depth == ClampRound(old(depth), MIN_DEPTH, MAX_DEPTH)
      ensures InRange(depth, MIN_DEPTH, MAX_DEPTH)
      ensures old(Valid()) ==> Valid()
    {
      if depth < MIN_DEPTH as real {
        depth := MIN_DEPTH as real;
      } else if depth > MAX_DEPTH as real {
        depth := MAX_DEPTH as real;
      } else {
        depth := Round(depth) as real;
      }
    }

    method UpdateAngle()
      modifies this`angle
      ensures angle == ClampRound(old(angle), MIN_ANGLE, MAX_ANGLE)
      ensures InRange(angle, MIN_ANGLE, MAX_ANGLE)
      ensures old(Valid()) ==> Valid()
    {
      if angle < MIN_ANGLE as real {
        angle := MIN_ANGLE as real;
      } else if angle > MAX_ANGLE as real {
        angle := MAX_ANGLE as real;
      } else {
        angle := Round(angle) as real;
      }
    }

    method UpdateRootLength()
      modifies this`rootLength
      ensures rootLength == ClampRound(old(rootLength), MIN_ROOT_LENGTH, MAX_ROOT_LENGTH)
      ensures InRange(rootLength, MIN_ROOT_LENGTH, MAX_ROOT_LENGTH)
      ensures old(Valid()) ==> Valid()
    {
      if rootLength < MIN_ROOT_LENGTH as real {
        rootLength := MIN_ROOT_LENGTH as real;
      } else if rootLength > MAX_ROOT_LENGTH as real {
        rootLength := MAX_ROOT_LENGTH as real;
      } else {
        rootLength := Round(rootLength) as real;
      }
    }

    method UpdateRootWeight()
      modifies this`rootWeight
      ensures rootWeight == ClampRound(old(rootWeight), MIN_ROOT_WEIGHT, MAX_ROOT_WEIGHT)
      ensures InRange(rootWeight, MIN_ROOT_WEIGHT, MAX_ROOT_WEIGHT)
      ensures old(Valid()) ==> Valid()
    {
      if rootWeight < MIN_ROOT_WEIGHT as real {
        rootWeight := MIN_ROOT_WEIGHT as real;
      } else if rootWeight > MAX_ROOT_WEIGHT as real {
        rootWeight := MAX_ROOT_WEIGHT as real;
      } else {
        rootWeight := Round(rootWeight) as real;
      }
    }

    method UpdateRootColour()
      modifies this`rootColour
      ensures rootColour == NormalColour(old(rootColour))
      ensures IsValidColour(rootColour)
      ensures old(Valid()) ==> Valid()
    {
      if !IsValidColour(rootColour) {
        rootColour := DEFAULT_ROOT_COLOUR;
      }
    }

    method UpdateScale()
      modifies this`scale
      ensures scale == ClampScale(old(scale))
      ensures MIN_SCALE <= scale <= MAX_SCALE
      ensures old(Valid()) ==> Valid()
    {
      if scale < MIN_SCALE {
        scale := MIN_SCALE;
      } else if scale > MAX_SCALE {
        scale := MAX_SCALE;
      }
    }

    /** Every generation parameter back to its default, whatever came
        before; the panel stays open or closed as it was. */
    method Reset()
      modifies this`depth, this`angle, this`rootLength, this`shorterChild, this`rootWeight,
               this`thinnerChild, this`rootColour, this`multiColoured, this`scale
      ensures AtDefaults() && Valid()
      ensures controlsOpen == old(controlsOpen)
    {
      depth := DEFAULT_DEPTH as real;
      angle := DEFAULT_ANGLE as real;
      rootLength := DEFAULT_ROOT_LENGTH as real;
      shorterChild := DEFAULT_SHORTER_CHILD;
      rootWeight := DEFAULT_ROOT_WEIGHT as real;
      thinnerChild := DEFAULT_THINNER_CHILD;
      rootColour := DEFAULT_ROOT_COLOUR;
      multiColoured := DEFAULT_MULTI_COLOURED;
      scale := DEFAULT_SCALE;
    }
  }
}
