/** The recursive branch generator. One call of `Branch` draws its own
    segment and, unless it is on the last level, two child branches turned
    by +angle and -angle, in that order. The drawing calls are abstracted to
    the list of segments they emit: each segment records its recursion
    level, its length, stroke weight, colour and its accumulated heading. */
module Tree {

  /** Child length, weight and hue are these fractions of the parent's. */
  const LENGTH_MULTIPLIER: real := 0.75
  const WEIGHT_MULTIPLIER: real := 0.9
  const HUE_MULTIPLIER: real := 0.75

  /** One emitted line: `level` is the recursion depth of the call that drew
      it, `heading` the sum of the rotations in force (degrees). */
  datatype Segment = Segment(
    level: int,
    length: real,
    weight: real,
    hue: real,
    saturation: real,
    lightness: real,
    heading: int)

  /** The arguments that every recursive call passes on unchanged. */
  datatype Style = Style(
    maxDepth: int,
    angle: int,
    shorterChild: bool,
    thinnerChild: bool,
    saturation: real,
    lightness: real,
    multiColoured: bool)

  function Pow2(n: nat): (p: nat)
    ensures p >= 1
  {
    if n == 0 then 1 else 2 * Pow2(n - 1)
  }

  function Power(x: real, n: nat): real
  {
    if n == 0 then 1.0 else x * Power(x, n - 1)
  }

  /** The multiplication a child applies when its toggle is on. */
  function Shrink(on: bool, multiplier: real, x: real): real
  {
    if on then x * multiplier else x
  }

  /** The factor accumulated over `k` levels. */
  function Taper(on: bool, multiplier: real, k: nat): real
  {
    if on then Power(multiplier, k) else 1.0
  }

  /** The segments one call of the generator draws, in drawing order. */
  function Branch(depth: int, style: Style, length: real, weight: real, hue: real, heading: int): seq<Segment>
    decreases style.maxDepth - depth
  {
    [Segment(depth, length, weight, hue, style.saturation, style.lightness, heading)] +
    if depth < style.maxDepth - 1 then
      var childLength := Shrink(style.shorterChild, LENGTH_MULTIPLIER, length);
      var childWeight := Shrink(style.thinnerChild, WEIGHT_MULTIPLIER, weight);
      var childHue := Shrink(style.multiColoured, HUE_MULTIPLIER, hue);
      Branch(depth + 1, style, childLength, childWeight, childHue, heading + style.angle) +
      Branch(depth + 1, style, childLength, childWeight, childHue, heading - style.angle)
    else
      []
  }

  /** The whole tree, drawn from level 0 with the root's values; the root
      segment is drawn first. */
  function Generate(style: Style, rootLength: real, rootWeight: real, rootHue: real, heading: int): (r: seq<Segment>)
    ensures |r| >= 1 && r[0] == Segment(0, rootLength, rootWeight, rootHue, style.saturation, style.lightness, heading)
  {
    Branch(0, style, rootLength, rootWeight, rootHue, heading)
  }

  /** A call below the last level draws 2^(levels left) - 1 segments; a call
      on or past the last level still draws its own one. */
  lemma {:induction false} BranchSize(depth: int, style: Style, length: real, weight: real, hue: real, heading: int)
    ensures |Branch(depth, style, length, weight, hue, heading)| ==
            if depth < style.maxDepth then Pow2(style.maxDepth - depth) - 1 else 1
    decreases style.maxDepth - depth
  {
    if depth < style.maxDepth - 1 {
      var l := Shrink(style.shorterChild, LENGTH_MULTIPLIER, length);
      var w := Shrink(style.thinnerChild, WEIGHT_MULTIPLIER, weight);
      var h := Shrink(style.multiColoured, HUE_MULTIPLIER, hue);
      BranchSize(depth + 1, style, l, w, h, heading + style.angle);
      BranchSize(depth + 1, style, l, w, h, heading - style.angle);
    }
  }

  /** A tree of depth d >= 1 has 2^d - 1 segments, and any smaller depth
      still draws the root. */
  lemma GenerateSize(style: Style, rootLength: real, rootWeight: real, rootHue: real, heading: int)
    ensures |Generate(style, rootLength, rootWeight, rootHue, heading)| ==
            if style.maxDepth >= 1 then Pow2(style.maxDepth) - 1 else 1
  {
    BranchSize(0, style, rootLength, rootWeight, rootHue, heading);
  }

  /** Pre-order: the own segment comes first, then the whole +angle subtree,
      then the whole -angle subtree, the two of equal size. */
  lemma BranchPreOrder(depth: int, style: Style, length: real, weight: real, hue: real, heading: int)
    requires depth < style.maxDepth - 1
    ensures
      var r := Branch(depth, style, length, weight, hue, heading);
      var l := Shrink(style.shorterChild, LENGTH_MULTIPLIER, length);
      var w := Shrink(style.thinnerChild, WEIGHT_MULTIPLIER, weight);
      var h := Shrink(style.multiColoured, HUE_MULTIPLIER, hue);
      var n := Pow2(style.maxDepth - depth - 1) - 1;
      && |r| == 2 * n + 1
      && r[0] == Segment(depth, length, weight, hue, style.saturation, style.lightness, heading)
      && r[1..n + 1] == Branch(depth + 1, style, l, w, h, heading + style.angle)
      && r[n + 1..] == Branch(depth + 1, style, l, w, h, heading - style.angle)
  {
    var l := Shrink(style.shorterChild, LENGTH_MULTIPLIER, length);
    var w := Shrink(style.thinnerChild, WEIGHT_MULTIPLIER, weight);
    var h := Shrink(style.multiColoured, HUE_MULTIPLIER, hue);
    var own := Segment(depth, length, weight, hue, style.saturation, style.lightness, heading);
    var left := Branch(depth + 1, style, l, w, h, heading + style.angle);
    var right := Branch(depth + 1, style, l, w, h, heading - style.angle);
    BranchSize(depth + 1, style, l, w, h, heading + style.angle);
    BranchSize(depth + 1, style, l, w, h, heading - style.angle);
    BranchUnfold(depth, style, length, weight, hue, heading);
    var r := [own] + left + right;
    var n := Pow2(style.maxDepth - depth - 1) - 1;
    assert |left| == n && |right| == n;
    assert r[1..n + 1] == left;
    assert r[n + 1..] == right;
  }

  /** What a segment at `s.level` looks like when its subtree was started at
      `depth` with the given values: each multiplier applied once per level
      when its toggle is on, saturation and lightness passed on untouched. */
  predicate Scaled(s: Segment, depth: int, style: Style, length: real, weight: real, hue: real)
  {
    && depth <= s.level
    && s.length == length * Taper(style.shorterChild, LENGTH_MULTIPLIER, s.level - depth)
    && s.weight == weight * Taper(style.thinnerChild, WEIGHT_MULTIPLIER, s.level - depth)
    && s.hue == hue * Taper(style.multiColoured, HUE_MULTIPLIER, s.level - depth)
    && s.saturation == style.saturation
    && s.lightness == style.lightness
  }

  /** One more level of tapering: the child's start value times k-1 levels is
      the parent's value times k levels. */
  lemma TaperStep(on: bool, multiplier: real, x: real, k: nat)
    requires k >= 1
    ensures Shrink(on, multiplier, x) * Taper(on, multiplier, k - 1) == x * Taper(on, multiplier, k)
  {
    if on {
      assert Power(multiplier, k) == multiplier * Power(multiplier, k - 1);
      calc {
        Shrink(on, multiplier, x) * Taper(on, multiplier, k - 1);
        (x * multiplier) * Power(multiplier, k - 1);
        x * (multiplier * Power(multiplier, k - 1));
        x * Taper(on, multiplier, k);
      }
    }
  }

  lemma ScaledChild(s: Segment, depth: int, style: Style, length: real, weight: real, hue: real)
    requires Scaled(s, depth + 1, style,
                    Shrink(style.shorterChild, LENGTH_MULTIPLIER, length),
                    Shrink(style.thinnerChild, WEIGHT_MULTIPLIER, weight),
                    Shrink(style.multiColoured, HUE_MULTIPLIER, hue))
    ensures Scaled(s, depth, style, length, weight, hue)
  {
    var k := s.level - depth;
    TaperStep(style.shorterChild, LENGTH_MULTIPLIER, length, k);
    TaperStep(style.thinnerChild, WEIGHT_MULTIPLIER, weight, k);
    TaperStep(style.multiColoured, HUE_MULTIPLIER, hue, k);
  }

  /** The last level a call starting at `depth` reaches. */
  function LastLevel(depth: int, style: Style): int
  {
    if depth < style.maxDepth - 1 then style.maxDepth - 1 else depth
  }

  predicate AllScaled(r: seq<Segment>, depth: int, style: Style, length: real, weight: real, hue: real)
  {
    forall i :: 0 <= i < |r| ==> r[i].level <= LastLevel(depth, style) && Scaled(r[i], depth, style, length, weight, hue)
  }

  /** The per-level scaling law: every segment is at a level between the
      call's own and the last one, its length, weight and hue are the
      starting values times 0.75^k, 0.9^k, 0.75^k (k levels down, each only
      when its toggle is on), and saturation and lightness never change. */
  lemma {:induction false} BranchScaling(depth: int, style: Style, length: real, weight: real, hue: real, heading: int)
    ensures AllScaled(Branch(depth, style, length, weight, hue, heading), depth, style, length, weight, hue)
    decreases style.maxDepth - depth
  {
    var r := Branch(depth, style, length, weight, hue, heading);
    var own := Segment(depth, length, weight, hue, style.saturation, style.lightness, heading);
    if depth < style.maxDepth - 1 {
      var l := Shrink(style.shorterChild, LENGTH_MULTIPLIER, length);
      var w := Shrink(style.thinnerChild, WEIGHT_MULTIPLIER, weight);
      var h := Shrink(style.multiColoured, HUE_MULTIPLIER, hue);
      var left := Branch(depth + 1, style, l, w, h, heading + style.angle);
      var right := Branch(depth + 1, style, l, w, h, heading - style.angle);
      BranchScaling(depth + 1, style, l, w, h, heading + style.angle);
      BranchScaling(depth + 1, style, l, w, h, heading - style.angle);
      assert LastLevel(depth + 1, style) == LastLevel(depth, style);
      assert r == [own] + left + right;
      forall i | 0 <= i < |r|
        ensures r[i].level <= LastLevel(depth, style) && Scaled(r[i], depth, style, length, weight, hue)
      {
        if i == 0 {
          assert r[i] == own;
        } else if i < 1 + |left| {
          assert r[i] == left[i - 1];
          assert Scaled(left[i - 1], depth + 1, style, l, w, h);
          ScaledChild(r[i], depth, style, length, weight, hue);
        } else {
          assert r[i] == right[i - 1 - |left|];
          assert Scaled(right[i - 1 - |left|], depth + 1, style, l, w, h);
          ScaledChild(r[i], depth, style, length, weight, hue);
        }
      }
    } else {
      assert r == [own];
    }
  }

  /** Number of segments of `s` drawn at level `k`. */
  function CountAt(s: seq<Segment>, k: int): nat
  {
    if s == [] then 0 else (if s[0].level == k then 1 else 0) + CountAt(s[1..], k)
  }

  lemma {:induction false} CountAtAppend(a: seq<Segment>, b: seq<Segment>, k: int)
    ensures CountAt(a + b, k) == CountAt(a, k) + CountAt(b, k)
  {
    if a == [] {
      assert a + b == b;
    } else {
      assert (a + b)[1..] == a[1..] + b;
      CountAtAppend(a[1..], b, k);
    }
  }

  lemma CountSingle(s: Segment, k: int)
    ensures CountAt([s], k) == if s.level == k then 1 else 0
  {
    assert [s][1..] == [];
  }

  /** No segment of a call lies above the call's own level. */
  lemma BranchNoneAbove(depth: int, style: Style, length: real, weight: real, hue: real, heading: int, k: int)
    requires k < depth
    ensures CountAt(Branch(depth, style, length, weight, hue, heading), k) == 0
  {
    var r := Branch(depth, style, length, weight, hue, heading);
    BranchScaling(depth, style, length, weight, hue, heading);
    forall i | 0 <= i < |r|
      ensures r[i].level > k
    {
      assert Scaled(r[i], depth, style, length, weight, hue);
    }
    NoneAtLevel(r, k);
  }

  /** The tree is perfect: k levels below a call there are exactly 2^k
      segments as long as that level is above the last one, and none past it. */
  lemma {:induction false} BranchLevelCount(depth: int, style: Style, length: real, weight: real, hue: real, heading: int, k: nat)
    ensures CountAt(Branch(depth, style, length, weight, hue, heading), depth + k) ==
            if depth + k < style.maxDepth || k == 0 then Pow2(k) else 0
    decreases style.maxDepth - depth
  {
    var own := Segment(depth, length, weight, hue, style.saturation, style.lightness, heading);
    CountSingle(own, depth + k);
    if depth < style.maxDepth - 1 {
      var l := Shrink(style.shorterChild, LENGTH_MULTIPLIER, length);
      var w := Shrink(style.thinnerChild, WEIGHT_MULTIPLIER, weight);
      var h := Shrink(style.multiColoured, HUE_MULTIPLIER, hue);
      var left := Branch(depth + 1, style, l, w, h, heading + style.angle);
      var right := Branch(depth + 1, style, l, w, h, heading - style.angle);
      BranchUnfold(depth, style, length, weight, hue, heading);
      CountAtAppend([own] + left, right, depth + k);
      CountAtAppend([own], left, depth + k);
      if k == 0 {
        BranchNoneAbove(depth + 1, style, l, w, h, heading + style.angle, depth);
        BranchNoneAbove(depth + 1, style, l, w, h, heading - style.angle, depth);
      } else {
        BranchLevelCount(depth + 1, style, l, w, h, heading + style.angle, k - 1);
        BranchLevelCount(depth + 1, style, l, w, h, heading - style.angle, k - 1);
        assert depth + 1 + (k - 1) == depth + k;
      }
    } else {
      BranchLeaf(depth, style, length, weight, hue, heading);
    }
  }

  /** A list whose segments all lie strictly below level `k` has none at `k`. */
  lemma {:induction false} NoneAtLevel(s: seq<Segment>, k: int)
    requires forall i :: 0 <= i < |s| ==> s[i].level > k
    ensures CountAt(s, k) == 0
  {
    if s != [] {
      assert s[0].level > k;
      NoneAtLevel(s[1..], k);
    }
  }

  /** `s` with every heading turned by `delta` degrees. */
  function Turned(s: seq<Segment>, delta: int): (r: seq<Segment>)
  {
    if s == [] then [] else [s[0].(heading := s[0].heading + delta)] + Turned(s[1..], delta)
  }

  lemma {:induction false} TurnedAppend(a: seq<Segment>, b: seq<Segment>, delta: int)
    ensures Turned(a + b, delta) == Turned(a, delta) + Turned(b, delta)
  {
    if a == [] {
      assert a + b == b;
    } else {
      assert (a + b)[1..] == a[1..] + b;
      TurnedAppend(a[1..], b, delta);
    }
  }

  lemma BranchUnfold(depth: int, style: Style, length: real, weight: real, hue: real, heading: int)
    requires depth < style.maxDepth - 1
    ensures
      var l := Shrink(style.shorterChild, LENGTH_MULTIPLIER, length);
      var w := Shrink(style.thinnerChild, WEIGHT_MULTIPLIER, weight);
      var h := Shrink(style.multiColoured, HUE_MULTIPLIER, hue);
      Branch(depth, style, length, weight, hue, heading) ==
        [Segment(depth, length, weight, hue, style.saturation, style.lightness, heading)] +
        Branch(depth + 1, style, l, w, h, heading + style.angle) +
        Branch(depth + 1, style, l, w, h, heading - style.angle)
  {
  }

  lemma BranchLeaf(depth: int, style: Style, length: real, weight: real, hue: real, heading: int)
    requires depth >= style.maxDepth - 1
    ensures Branch(depth, style, length, weight, hue, heading) ==
            [Segment(depth, length, weight, hue, style.saturation, style.lightness, heading)]
  {
  }

  /** Headings are relative: starting a branch turned by `delta` draws the
      same segments, each turned by `delta`. This is what push/rotate/pop
      gives each sibling: only its parent's heading matters. */
  lemma {:induction false} BranchTurned(depth: int, style: Style, length: real, weight: real, hue: real, heading: int, delta: int)
    ensures Branch(depth, style, length, weight, hue, heading + delta) ==
            Turned(Branch(depth, style, length, weight, hue, heading), delta)
    decreases style.maxDepth - depth
  {
    var own := Segment(depth, length, weight, hue, style.saturation, style.lightness, heading);
    var ownTurned := own.(heading := heading + delta);
    assert Turned([own], delta) == [ownTurned] by {
      assert [own][1..] == [];
    }
    if depth < style.maxDepth - 1 {
      var l := Shrink(style.shorterChild, LENGTH_MULTIPLIER, length);
      var w := Shrink(style.thinnerChild, WEIGHT_MULTIPLIER, weight);
      var h := Shrink(style.multiColoured, HUE_MULTIPLIER, hue);
      var left := Branch(depth + 1, style, l, w, h, heading + style.angle);
      var right := Branch(depth + 1, style, l, w, h, heading - style.angle);
      var leftTurned := Branch(depth + 1, style, l, w, h, heading + style.angle + delta);
      var rightTurned := Branch(depth + 1, style, l, w, h, heading - style.angle + delta);
      BranchTurned(depth + 1, style, l, w, h, heading + style.angle, delta);
      BranchTurned(depth + 1, style, l, w, h, heading - style.angle, delta);
      assert leftTurned == Turned(left, delta);
      assert rightTurned == Turned(right, delta);
      BranchUnfold(depth, style, length, weight, hue, heading);
      BranchUnfold(depth, style, length, weight, hue, heading + delta);
      assert heading + delta + style.angle == heading + style.angle + delta;
      assert heading + delta - style.angle == heading - style.angle + delta;
      TurnedAppend([own] + left, right, delta);
      TurnedAppend([own], left, delta);
    } else {
      assert Branch(depth, style, length, weight, hue, heading) == [own];
      assert Branch(depth, style, length, weight, hue, heading + delta) == [ownTurned];
    }
  }

  function Abs(x: int): nat
  {
    if x < 0 then -x else x
  }

  lemma MulStep(k: int, a: int)
    ensures (k - 1) * a + a == k * a
  {
  }

  /** A child's bound, one level further from a heading one |angle| away,
      gives the parent's bound. */
  lemma ChildWithinTurn(s: Segment, depth: int, angle: int, heading: int, childHeading: int)
    requires childHeading == heading + angle || childHeading == heading - angle
    requires depth + 1 <= s.level
    requires Abs(s.heading - childHeading) <= (s.level - (depth + 1)) * Abs(angle)
    ensures Abs(s.heading - heading) <= (s.level - depth) * Abs(angle)
  {
    MulStep(s.level - depth, Abs(angle));
  }

  /** Every segment is turned from `heading` by at most |angle| per level
      below the call. */
  predicate AllWithinTurn(r: seq<Segment>, depth: int, angle: int, heading: int)
  {
    forall i :: 0 <= i < |r| ==>
      depth <= r[i].level && Abs(r[i].heading - heading) <= (r[i].level - depth) * Abs(angle)
  }

  /** The bound for a call from the bounds for its two children. */
  lemma CombineWithinTurn(own: Segment, left: seq<Segment>, right: seq<Segment>, depth: int, angle: int, heading: int)
    requires own.level == depth && own.heading == heading
    requires AllWithinTurn(left, depth + 1, angle, heading + angle)
    requires AllWithinTurn(right, depth + 1, angle, heading - angle)
    ensures AllWithinTurn([own] + left + right, depth, angle, heading)
  {
    var r := [own] + left + right;
    forall i | 0 <= i < |r|
      ensures depth <= r[i].level && Abs(r[i].heading - heading) <= (r[i].level - depth) * Abs(angle)
    {
      if i == 0 {
        assert r[i] == own;
      } else if i < 1 + |left| {
        assert r[i] == left[i - 1];
        ChildWithinTurn(r[i], depth, angle, heading, heading + angle);
      } else {
        assert r[i] == right[i - 1 - |left|];
        ChildWithinTurn(r[i], depth, angle, heading, heading - angle);
      }
    }
  }

  /** A segment k levels below the call is turned at most k * |angle| away
      from the call's heading. */
  lemma {:induction false} BranchHeadingBound(depth: int, style: Style, length: real, weight: real, hue: real, heading: int)
    ensures AllWithinTurn(Branch(depth, style, length, weight, hue, heading), depth, style.angle, heading)
    decreases style.maxDepth - depth
  {
    var own := Segment(depth, length, weight, hue, style.saturation, style.lightness, heading);
    if depth < style.maxDepth - 1 {
      var l := Shrink(style.shorterChild, LENGTH_MULTIPLIER, length);
      var w := Shrink(style.thinnerChild, WEIGHT_MULTIPLIER, weight);
      var h := Shrink(style.multiColoured, HUE_MULTIPLIER, hue);
      BranchHeadingBound(depth + 1, style, l, w, h, heading + style.angle);
      BranchHeadingBound(depth + 1, style, l, w, h, heading - style.angle);
      BranchUnfold(depth, style, length, weight, hue, heading);
      CombineWithinTurn(own, Branch(depth + 1, style, l, w, h, heading + style.angle),
                        Branch(depth + 1, style, l, w, h, heading - style.angle), depth, style.angle, heading);
    } else {
      BranchLeaf(depth, style, length, weight, hue, heading);
      assert AllWithinTurn([own], depth, style.angle, heading);
    }
  }

  /** Depth 1 draws exactly the root segment, straight along the start heading. */
  lemma SingleSegment(style: Style, rootLength: real, rootWeight: real, rootHue: real)
    requires style.maxDepth == 1
    ensures Generate(style, rootLength, rootWeight, rootHue, 0) ==
            [Segment(0, rootLength, rootWeight, rootHue, style.saturation, style.lightness, 0)]
  {
  }

  /** Depth 3 with shorter children: seven segments whose lengths, in drawing
      order, are L, 0.75L, 0.5625L, 0.5625L, 0.75L, 0.5625L, 0.5625L, at
      levels 0, 1, 2, 2, 1, 2, 2 and headings 0, a, 2a, 0, -a, 0, -2a. */
  lemma ThreeLevels(style: Style, rootLength: real, rootWeight: real, rootHue: real)
    requires style.maxDepth == 3 && style.shorterChild
    ensures
      var r := Generate(style, rootLength, rootWeight, rootHue, 0);
      var a := rootLength * 0.75;
      var b := rootLength * 0.5625;
      && |r| == 7
      && r[0].length == rootLength
      && r[1].length == a && r[2].length == b && r[3].length == b
      && r[4].length == a && r[5].length == b && r[6].length == b
      && r[0].level == 0 && r[1].level == 1 && r[2].level == 2 && r[3].level == 2
      && r[4].level == 1 && r[5].level == 2 && r[6].level == 2
      && r[0].heading == 0 && r[1].heading == style.angle && r[2].heading == 2 * style.angle
      && r[3].heading == 0 && r[4].heading == -style.angle && r[5].heading == 0
      && r[6].heading == -2 * style.angle
  {
    var w1 := Shrink(style.thinnerChild, WEIGHT_MULTIPLIER, rootWeight);
    var h1 := Shrink(style.multiColoured, HUE_MULTIPLIER, rootHue);
    var w2 := Shrink(style.thinnerChild, WEIGHT_MULTIPLIER, w1);
    var h2 := Shrink(style.multiColoured, HUE_MULTIPLIER, h1);
    var a, b := rootLength * 0.75, rootLength * 0.75 * 0.75;
    var angle := style.angle;
    var sat, light := style.saturation, style.lightness;
    assert Branch(2, style, b, w2, h2, angle + angle) == [Segment(2, b, w2, h2, sat, light, angle + angle)];
    assert Branch(2, style, b, w2, h2, angle - angle) == [Segment(2, b, w2, h2, sat, light, angle - angle)];
    assert Branch(2, style, b, w2, h2, -angle + angle) == [Segment(2, b, w2, h2, sat, light, -angle + angle)];
    assert Branch(2, style, b, w2, h2, -angle - angle) == [Segment(2, b, w2, h2, sat, light, -angle - angle)];
    var left := Branch(1, style, a, w1, h1, angle);
    var right := Branch(1, style, a, w1, h1, 0 - angle);
    assert left == [Segment(1, a, w1, h1, sat, light, angle)]
                   + [Segment(2, b, w2, h2, sat, light, angle + angle)]
                   + [Segment(2, b, w2, h2, sat, light, angle - angle)];
    assert right == [Segment(1, a, w1, h1, sat, light, 0 - angle)]
                    + [Segment(2, b, w2, h2, sat, light, -angle + angle)]
                    + [Segment(2, b, w2, h2, sat, light, -angle - angle)];
    var r := Generate(style, rootLength, rootWeight, rootHue, 0);
    assert r == [Segment(0, rootLength, rootWeight, rootHue, sat, light, 0)] + left + right;
  }
}
