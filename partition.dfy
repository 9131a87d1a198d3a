/**
 * The recursive "split in half" partition shared by every arena generator.
 *
 * A rectangle that is too small (its width plus height below a perimeter
 * threshold, or one side below its minimum) is emitted as a leaf. Otherwise it
 * is cut once, vertically (along x) or horizontally (along y), at half its
 * side plus a random variation of at most a fifth of that side, and both
 * halves are split in turn; the leaves are emitted left/upper half first.
 *
 * The generators differ only in their thresholds and in whether a very
 * elongated rectangle forces the cut direction, so the rule is a value here
 * and each generator fixes its own.
 *
 * Random draws: every call that cuts draws `Random.value` (deciding the axis)
 * and then one `Random.Range` draw (the variation). Both are given as oracles
 * indexed by the call's position in the recursion (its `Path`), so the model
 * holds for every sequence of draws the engine could produce.
 */
module Partition {
  import opened Geometry
  import opened UnityRandom

  /** Position of a call in the recursion: `false` = first half, `true` = second half. */
  type Path = seq<bool>

  /** Thresholds below which a rectangle is a leaf, and whether elongation forces the axis. */
  datatype SplitRule = SplitRule(minPerimeter: real, minWidth: real, minDepth: real, forced: bool)

  /** Positive side minima; every generator's configuration has them. */
  predicate ValidRule(rule: SplitRule)
  {
    rule.minWidth > 0.0 && rule.minDepth > 0.0
  }

  /** Every variation draw is a possible `Random.value`. */
  ghost predicate ValidDraws(vary: Path -> real)
  {
    forall p :: IsValue(vary(p))
  }

  /** The leaf test at the head of `SplitHalf`. */
  predicate IsLeaf(rule: SplitRule, r: Rect)
  {
    r.width + r.height < rule.minPerimeter || r.width < rule.minWidth || r.height < rule.minDepth
  }

  datatype Axis = Vertical | Horizontal

  /**
   * The cut direction: with forcing, a rectangle more than three times as
   * deep as wide is always cut horizontally, and failing that one more than
   * three times as wide as deep is always cut vertically; otherwise the cut
   * is vertical exactly when the draw is below 0.3.
   */
  function ChooseAxis(rule: SplitRule, r: Rect, prob: real): (axis: Axis)
    ensures rule.forced && r.height > r.width * 3.0 ==> axis == Horizontal
    ensures rule.forced && !(r.height > r.width * 3.0) && r.width > r.height * 3.0 ==> axis == Vertical
    ensures !(rule.forced && (r.height > r.width * 3.0 || r.width > r.height * 3.0)) ==>
              (axis == Vertical <==> prob < 0.3)
  {
    var forceV := rule.forced && r.width > r.height * 3.0;
    var forceH := rule.forced && r.height > r.width * 3.0;
    if (prob < 0.3 || forceV) && !forceH then Vertical else Horizontal
  }

  /** Half of side `d` plus `Random.Range(-0.2 d, 0.2 d)`: always between 30% and 70% of `d`. */
  function SplitLine(d: real, u: real): (line: real)
    requires d > 0.0 && IsValue(u)
    ensures 0.3 * d <= line <= 0.7 * d
  {
    var maxVariation := d * 0.2;
    d / 2.0 + RangeF(-maxVariation, maxVariation, u)
  }

  /** The two halves of a cut at distance `line` from the rectangle's origin. */
  function Cut(r: Rect, axis: Axis, line: real): (Rect, Rect)
  {
    match axis
    case Vertical =>
      (Rect(r.x, r.y, line, r.height), Rect(r.x + line, r.y, r.width - line, r.height))
    case Horizontal =>
      (Rect(r.x, r.y, r.width, line), Rect(r.x, r.y + line, r.width, r.height - line))
  }

  /** The side a cut along `axis` divides. */
  function CutSide(r: Rect, axis: Axis): real
  {
    if axis == Vertical then r.width else r.height
  }

  /**
   * A cut inside the 30-70% band yields two halves that lie inside the
   * parent, do not overlap, cover its area, keep the other side, and are
   * strictly positive and strictly shorter along the cut side.
   */
  lemma CutPartitions(r: Rect, axis: Axis, line: real)
    requires CutSide(r, axis) > 0.0
    requires 0.3 * CutSide(r, axis) <= line <= 0.7 * CutSide(r, axis)
    ensures var (a, b) := Cut(r, axis, line);
      Inside(a, r) && Inside(b, r) && Disjoint(a, b) &&
      a.Area() + b.Area() == r.Area() &&
      0.0 < CutSide(a, axis) < CutSide(r, axis) && 0.0 < CutSide(b, axis) < CutSide(r, axis) &&
      CutSide(a, axis) + CutSide(b, axis) == CutSide(r, axis) &&
      (axis == Vertical ==> a.height == b.height == r.height && a.y == b.y == r.y && b.x == a.Right()) &&
      (axis == Horizontal ==> a.width == b.width == r.width && a.x == b.x == r.x && b.y == a.Bottom())
  {
    var (a, b) := Cut(r, axis, line);
    if axis == Vertical {
      assert a.Area() + b.Area() == (line + (r.width - line)) * r.height;
    } else {
      assert a.Area() + b.Area() == r.width * (line + (r.height - line));
    }
  }

  // ---- termination ----

  /** How many times a side of length `len` can still lose 30% of `min`. */
  function Steps(len: real, min: real): nat
    requires min > 0.0
  {
    if len <= 0.0 then 0 else DivPositive(len, 0.3 * min); (len / (0.3 * min)).Floor
  }

  function Measure(rule: SplitRule, r: Rect): nat
    requires ValidRule(rule)
  {
    Steps(r.width, rule.minWidth) + Steps(r.height, rule.minDepth)
  }

  lemma DivPositive(a: real, k: real)
    requires a > 0.0 && k > 0.0
    ensures a / k > 0.0
  {
  }

  lemma DivGap(a: real, b: real, k: real)
    requires k > 0.0 && a - b >= k
    ensures a / k - b / k >= 1.0
  {
    assert a / k - b / k == (a - b) / k;
    assert (a - b) / k >= k / k;
  }

  lemma StepsShrink(len: real, len': real, min: real)
    requires min > 0.0 && len >= min && 0.0 < len' <= 0.7 * len
    ensures Steps(len', min) < Steps(len, min)
  {
    DivGap(len, len', 0.3 * min);
  }

  /** Both halves of a cut of a non-leaf have a smaller measure: the recursion terminates. */
  lemma CutShrinks(rule: SplitRule, r: Rect, axis: Axis, line: real)
    requires ValidRule(rule) && !IsLeaf(rule, r)
    requires 0.3 * CutSide(r, axis) <= line <= 0.7 * CutSide(r, axis)
    ensures Measure(rule, Cut(r, axis, line).0) < Measure(rule, r)
    ensures Measure(rule, Cut(r, axis, line).1) < Measure(rule, r)
  {
    var (a, b) := Cut(r, axis, line);
    CutPartitions(r, axis, line);
    if axis == Vertical {
      StepsShrink(r.width, a.width, rule.minWidth);
      StepsShrink(r.width, b.width, rule.minWidth);
    } else {
      StepsShrink(r.height, a.height, rule.minDepth);
      StepsShrink(r.height, b.height, rule.minDepth);
    }
  }

  // ---- the partition ----

  /** The axis and the cut line `SplitHalf` uses for a non-leaf at `path`. */
  function CutAt(rule: SplitRule, r: Rect, prob: Path -> real, vary: Path -> real, path: Path): (Rect, Rect)
    requires ValidRule(rule) && ValidDraws(vary) && !IsLeaf(rule, r)
  {
    var axis := ChooseAxis(rule, r, prob(path));
    Cut(r, axis, SplitLine(CutSide(r, axis), vary(path)))
  }

  lemma CutAtPartitions(rule: SplitRule, r: Rect, prob: Path -> real, vary: Path -> real, path: Path)
    requires ValidRule(rule) && ValidDraws(vary) && !IsLeaf(rule, r)
    ensures var (a, b) := CutAt(rule, r, prob, vary, path);
      Inside(a, r) && Inside(b, r) && Disjoint(a, b) && a.Area() + b.Area() == r.Area() &&
      a.width > 0.0 && a.height > 0.0 && b.width > 0.0 && b.height > 0.0 &&
      Measure(rule, a) < Measure(rule, r) && Measure(rule, b) < Measure(rule, r)
  {
    var axis := ChooseAxis(rule, r, prob(path));
    var line := SplitLine(CutSide(r, axis), vary(path));
    CutPartitions(r, axis, line);
    CutShrinks(rule, r, axis, line);
  }

  /**
   * The leaves `SplitHalf(rect, list)` appends to `list`, in order. A
   * rectangle is emitted unchanged exactly when it passes the leaf test;
   * otherwise it is cut and at least two leaves come out.
   */
  function SplitHalf(rule: SplitRule, r: Rect, prob: Path -> real, vary: Path -> real, path: Path): (leaves: seq<Rect>)
    requires ValidRule(rule) && ValidDraws(vary)
    ensures |leaves| >= 1
    decreases Measure(rule, r), 1
  {
    if IsLeaf(rule, r) then [r] else CutLeaves(rule, r, prob, vary, path)
  }

  /** A rectangle comes out unchanged exactly when it passes the leaf test; otherwise it yields at least two leaves. */
  lemma SplitHalfShape(rule: SplitRule, r: Rect, prob: Path -> real, vary: Path -> real, path: Path)
    requires ValidRule(rule) && ValidDraws(vary)
    ensures IsLeaf(rule, r) <==> SplitHalf(rule, r, prob, vary, path) == [r]
    ensures !IsLeaf(rule, r) ==> |SplitHalf(rule, r, prob, vary, path)| >= 2
  {
  }

  /** The leaves of a non-leaf: those of its first half, then those of its second half. */
  function CutLeaves(rule: SplitRule, r: Rect, prob: Path -> real, vary: Path -> real, path: Path): (leaves: seq<Rect>)
    requires ValidRule(rule) && ValidDraws(vary) && !IsLeaf(rule, r)
    ensures |leaves| >= 2
    decreases Measure(rule, r), 0
  {
    var (a, b) := CutAt(rule, r, prob, vary, path);
    CutAtPartitions(rule, r, prob, vary, path);
    SplitHalf(rule, a, prob, vary, path + [false]) + SplitHalf(rule, b, prob, vary, path + [true])
  }

  /** One step of the recursion: a non-leaf's leaves are its first half's, then its second half's. */
  lemma SplitHalfUnfold(rule: SplitRule, r: Rect, prob: Path -> real, vary: Path -> real, path: Path)
    requires ValidRule(rule) && ValidDraws(vary) && !IsLeaf(rule, r)
    ensures var (a, b) := CutAt(rule, r, prob, vary, path);
      Measure(rule, a) < Measure(rule, r) && Measure(rule, b) < Measure(rule, r) &&
      SplitHalf(rule, r, prob, vary, path) ==
        SplitHalf(rule, a, prob, vary, path + [false]) + SplitHalf(rule, b, prob, vary, path + [true])
  {
    CutAtPartitions(rule, r, prob, vary, path);
  }

  /** The halves of a vertical cut at `SplitLine(width)` both have a smaller measure. */
  lemma VerticalShrinks(rule: SplitRule, r: Rect, u: real)
    requires ValidRule(rule) && !IsLeaf(rule, r) && IsValue(u)
    ensures var line := SplitLine(r.width, u);
      Measure(rule, Rect(r.x, r.y, line, r.height)) < Measure(rule, r) &&
      Measure(rule, Rect(r.x + line, r.y, r.width - line, r.height)) < Measure(rule, r)
  {
    CutShrinks(rule, r, Vertical, SplitLine(r.width, u));
  }

  /** The halves of a horizontal cut at `SplitLine(height)` both have a smaller measure. */
  lemma HorizontalShrinks(rule: SplitRule, r: Rect, u: real)
    requires ValidRule(rule) && !IsLeaf(rule, r) && IsValue(u)
    ensures var line := SplitLine(r.height, u);
      Measure(rule, Rect(r.x, r.y, r.width, line)) < Measure(rule, r) &&
      Measure(rule, Rect(r.x, r.y + line, r.width, r.height - line)) < Measure(rule, r)
  {
    CutShrinks(rule, r, Horizontal, SplitLine(r.height, u));
  }

  /**
   * Appending the leaves of the two halves of a vertical cut of
   * `Rect(x, y, w, h)`, in order, appends the leaves of the whole rectangle.
   */
  lemma AppendVertical(rule: SplitRule, x: real, y: real, w: real, h: real,
                       prob: Path -> real, vary: Path -> real, path: Path,
                       line: real, start: seq<Rect>, mid: seq<Rect>, end: seq<Rect>)
    requires ValidRule(rule) && ValidDraws(vary) && !IsLeaf(rule, Rect(x, y, w, h))
    requires ChooseAxis(rule, Rect(x, y, w, h), prob(path)) == Vertical
    requires line == SplitLine(w, vary(path))
    requires mid == start + SplitHalf(rule, Rect(x, y, line, h), prob, vary, path + [false])
    requires end == mid + SplitHalf(rule, Rect(x + line, y, w - line, h), prob, vary, path + [true])
    ensures end == start + SplitHalf(rule, Rect(x, y, w, h), prob, vary, path)
  {
    SplitHalfUnfold(rule, Rect(x, y, w, h), prob, vary, path);
  }

  /**
   * Appending the leaves of the two halves of a horizontal cut of
   * `Rect(x, y, w, h)`, in order, appends the leaves of the whole rectangle.
   */
  lemma AppendHorizontal(rule: SplitRule, x: real, y: real, w: real, h: real,
                         prob: Path -> real, vary: Path -> real, path: Path,
                         line: real, start: seq<Rect>, mid: seq<Rect>, end: seq<Rect>)
    requires ValidRule(rule) && ValidDraws(vary) && !IsLeaf(rule, Rect(x, y, w, h))
    requires ChooseAxis(rule, Rect(x, y, w, h), prob(path)) == Horizontal
    requires line == SplitLine(h, vary(path))
    requires mid == start + SplitHalf(rule, Rect(x, y, w, line), prob, vary, path + [false])
    requires end == mid + SplitHalf(rule, Rect(x, y + line, w, h - line), prob, vary, path + [true])
    ensures end == start + SplitHalf(rule, Rect(x, y, w, h), prob, vary, path)
  {
    SplitHalfUnfold(rule, Rect(x, y, w, h), prob, vary, path);
  }

  /** Every rectangle of `leaves` passes the leaf test. */
  predicate AllLeaves(rule: SplitRule, leaves: seq<Rect>)
  {
    forall i :: 0 <= i < |leaves| ==> IsLeaf(rule, leaves[i])
  }

  /** Every emitted rectangle passed the leaf test. */
  lemma {:induction false} LeavesAreSmall(rule: SplitRule, r: Rect, prob: Path -> real, vary: Path -> real, path: Path)
    requires ValidRule(rule) && ValidDraws(vary)
    ensures AllLeaves(rule, SplitHalf(rule, r, prob, vary, path))
    decreases Measure(rule, r)
  {
    if !IsLeaf(rule, r) {
      var (a, b) := CutAt(rule, r, prob, vary, path);
      CutAtPartitions(rule, r, prob, vary, path);
      var la := SplitHalf(rule, a, prob, vary, path + [false]);
      var lb := SplitHalf(rule, b, prob, vary, path + [true]);
      LeavesAreSmall(rule, a, prob, vary, path + [false]);
      LeavesAreSmall(rule, b, prob, vary, path + [true]);
      var leaves := la + lb;
      forall i | 0 <= i < |leaves|
        ensures IsLeaf(rule, leaves[i])
      {
        if i < |la| { assert leaves[i] == la[i]; } else { assert leaves[i] == lb[i - |la|]; }
      }
    }
  }

  /** The leaves tile the input: each lies inside it, no two overlap, and their areas add up to its area. */
  lemma {:induction false} Tiling(rule: SplitRule, r: Rect, prob: Path -> real, vary: Path -> real, path: Path)
    requires ValidRule(rule) && ValidDraws(vary)
    ensures var leaves := SplitHalf(rule, r, prob, vary, path);
      (forall i :: 0 <= i < |leaves| ==> Inside(leaves[i], r)) &&
      (forall i, j :: 0 <= i < j < |leaves| ==> Disjoint(leaves[i], leaves[j])) &&
      TotalArea(leaves) == r.Area()
    decreases Measure(rule, r)
  {
    if !IsLeaf(rule, r) {
      var (a, b) := CutAt(rule, r, prob, vary, path);
      CutAtPartitions(rule, r, prob, vary, path);
      var la := SplitHalf(rule, a, prob, vary, path + [false]);
      var lb := SplitHalf(rule, b, prob, vary, path + [true]);
      Tiling(rule, a, prob, vary, path + [false]);
      Tiling(rule, b, prob, vary, path + [true]);
      TotalAreaAppend(la, lb);
      var leaves := la + lb;
      forall i, j | 0 <= i < j < |leaves|
        ensures Disjoint(leaves[i], leaves[j])
      {
        if j < |la| {
          assert leaves[i] == la[i] && leaves[j] == la[j];
        } else if i >= |la| {
          assert leaves[i] == lb[i - |la|] && leaves[j] == lb[j - |la|];
        } else {
          SeparatedHalves(la[i], lb[j - |la|], a, b);
        }
      }
      forall i | 0 <= i < |leaves|
        ensures Inside(leaves[i], r)
      {
        if i < |la| { assert Inside(la[i], a); } else { assert Inside(lb[i - |la|], b); }
      }
    }
  }

  /** Rectangles inside two non-overlapping rectangles do not overlap either. */
  lemma SeparatedHalves(p: Rect, q: Rect, a: Rect, b: Rect)
    requires Inside(p, a) && Inside(q, b) && Disjoint(a, b)
    ensures Disjoint(p, q)
  {
  }

  /** Every rectangle of `rs` has positive width and height. */
  predicate AllPositive(rs: seq<Rect>)
  {
    forall i :: 0 <= i < |rs| ==> rs[i].width > 0.0 && rs[i].height > 0.0
  }

  /** Starting from a rectangle with positive sides, every leaf has positive sides. */
  lemma {:induction false} LeavesArePositive(rule: SplitRule, r: Rect, prob: Path -> real, vary: Path -> real, path: Path)
    requires ValidRule(rule) && ValidDraws(vary)
    requires r.width > 0.0 && r.height > 0.0
    ensures AllPositive(SplitHalf(rule, r, prob, vary, path))
    decreases Measure(rule, r)
  {
    if !IsLeaf(rule, r) {
      var (a, b) := CutAt(rule, r, prob, vary, path);
      CutAtPartitions(rule, r, prob, vary, path);
      var la := SplitHalf(rule, a, prob, vary, path + [false]);
      var lb := SplitHalf(rule, b, prob, vary, path + [true]);
      LeavesArePositive(rule, a, prob, vary, path + [false]);
      LeavesArePositive(rule, b, prob, vary, path + [true]);
      var leaves := la + lb;
      forall i | 0 <= i < |leaves|
        ensures leaves[i].width > 0.0 && leaves[i].height > 0.0
      {
        if i < |la| { assert leaves[i] == la[i]; } else { assert leaves[i] == lb[i - |la|]; }
      }
    }
  }
}
