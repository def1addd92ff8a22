/**
  The fitting engine shared by the command-line resizer and the GUI: given the
  natural size of a source image and a target frame, compute the scaled size
  and either the paste offsets on a filled canvas ("contain") or the centred
  crop box ("cover").

  The source compares two floating-point ratios and truncates a floating-point
  quotient; here both are exact integer arithmetic:
    img_ratio > target_ratio   is   sw * th > tw * sh
    int(tw / img_ratio)        is   (tw * sh) / sw
    int(th * img_ratio)        is   (th * sw) / sh
  Python's `//` with a positive divisor is floor division, which on a positive
  divisor is what Dafny's `/` computes.
*/
module Geometry {

  /** Pixel dimensions of an image or of the target frame. */
  datatype Size = Size(width: nat, height: nat)

  /** A fill colour for the padded canvas. */
  datatype Rgb = Rgb(red: nat, green: nat, blue: nat)

  const BLACK := Rgb(0, 0, 0)
  const WHITE := Rgb(255, 255, 255)
  const GRAY := Rgb(128, 128, 128)

  /** How one image is fitted: letterboxed on a fill colour, or cropped. */
  datatype Fitting = ContainOn(fill: Rgb) | CoverCrop

  /** The geometry handed to the image library for one file. */
  datatype FitPlan =
    | Letterbox(scaled: Size, pasteX: nat, pasteY: nat, fill: Rgb)
    | Crop(scaled: Size, left: nat, top: nat, right: nat, bottom: nat)

  predicate Positive(s: Size) {
    s.width > 0 && s.height > 0
  }

  /** The source is relatively wider than the target: `img_ratio > target_ratio`. */
  predicate WiderThan(source: Size, target: Size) {
    source.width * target.height > target.width * source.height
  }

  /** `n` is the floor of `num / den`, stated without division. */
  predicate IsFloorOf(n: nat, num: nat, den: nat) {
    n * den <= num < (n + 1) * den
  }

  /**
    `scaled` keeps the aspect ratio of `source` up to truncation: one of its
    sides is the floor of the exact proportional value given the other side.
  */
  predicate ScaledFrom(scaled: Size, source: Size) {
    || IsFloorOf(scaled.height, scaled.width * source.height, source.width)
    || IsFloorOf(scaled.width, scaled.height * source.width, source.height)
  }

  // ---------------------------------------------------------------------
  // Arithmetic helpers

  lemma FloorOfDiv(num: nat, den: nat)
    requires den > 0
    ensures IsFloorOf(num / den, num, den)
  {
  }

  lemma MulMonotone(a: nat, b: nat, c: nat)
    requires a <= b
    ensures a * c <= b * c
  {
  }

  /** A floor quotient is unique, so it equals what `/` computes. */
  lemma FloorIsDiv(n: nat, num: nat, den: nat)
    requires den > 0 && IsFloorOf(n, num, den)
    ensures num / den == n
  {
    var q := num / den;
    FloorOfDiv(num, den);
    if q < n {
      MulMonotone(q + 1, n, den);
    } else if n < q {
      MulMonotone(n + 1, q, den);
    }
  }

  lemma CancelLess(a: nat, b: nat, c: nat)
    requires a * c < b * c
    ensures a < b
  {
    if b <= a {
      MulMonotone(b, a, c);
    }
  }

  lemma CancelLessEq(a: nat, b: nat, c: nat)
    requires c > 0 && a * c <= b * c
    ensures a <= b
  {
    if b < a {
      MulMonotone(b + 1, a, c);
    }
  }

  /** The floor of `num / den` when `num` is at most `bound` times `den`. */
  lemma FloorBelow(num: nat, den: nat, bound: nat)
    requires den > 0 && num <= den * bound
    ensures IsFloorOf(num / den, num, den) && num / den <= bound
  {
    FloorOfDiv(num, den);
    CancelLessEq(num / den, bound, den);
  }

  /** The floor of `num / den` when `num` is at least `bound` times `den`. */
  lemma FloorAbove(num: nat, den: nat, bound: nat)
    requires den > 0 && den * bound <= num
    ensures IsFloorOf(num / den, num, den) && bound <= num / den
  {
    FloorOfDiv(num, den);
    CancelLess(bound, num / den + 1, den);
  }

  // ---------------------------------------------------------------------
  // Centring

  /**
    The offset that centres `inner` pixels in `outer` pixels, `(outer - inner) // 2`:
    the inner run stays inside and the two margins differ by at most one pixel,
    the larger one being the far (right or bottom) margin.
  */
  function Centre(outer: nat, inner: nat): (offset: nat)
    requires inner <= outer
    ensures offset + inner <= outer
    ensures var far := outer - inner - offset; far == offset || far == offset + 1
  {
    (outer - inner) / 2
  }

  // ---------------------------------------------------------------------
  // Contain: the whole source inside the frame

  /**
    The size the source is resized to in contain mode. The side on which the
    source is relatively larger binds at the target's size; the other side is
    the truncated proportional value, so the result fits inside the frame.
  */
  function ContainScale(source: Size, target: Size): (r: Size)
    requires Positive(source) && Positive(target)
    ensures r.width <= target.width && r.height <= target.height
    ensures WiderThan(source, target) ==>
      r.width == target.width && IsFloorOf(r.height, target.width * source.height, source.width)
    ensures !WiderThan(source, target) ==>
      r.height == target.height && IsFloorOf(r.width, target.height * source.width, source.height)
    ensures ScaledFrom(r, source)
  {
    if WiderThan(source, target) then
      FloorBelow(target.width * source.height, source.width, target.height);
      Size(target.width, target.width * source.height / source.width)
    else
      FloorBelow(target.height * source.width, source.height, target.width);
      Size(target.height * source.width / source.height, target.height)
  }

  /** The centred paste offsets of a letterbox plan are inside and balanced. */
  predicate LetterboxFits(plan: FitPlan, target: Size)
    requires plan.Letterbox?
  {
    && plan.scaled.width <= target.width && plan.scaled.height <= target.height
    && (plan.scaled.width == target.width || plan.scaled.height == target.height)
    && plan.pasteX + plan.scaled.width <= target.width
    && plan.pasteY + plan.scaled.height <= target.height
    && Balanced(target.width - plan.scaled.width - plan.pasteX, plan.pasteX)
    && Balanced(target.height - plan.scaled.height - plan.pasteY, plan.pasteY)
  }

  /** A far margin equal to the near one or one pixel larger. */
  predicate Balanced(far: int, near: int) {
    far == near || far == near + 1
  }

  function ContainPlan(source: Size, target: Size, fill: Rgb): (plan: FitPlan)
    requires Positive(source) && Positive(target)
    ensures plan.Letterbox? && plan.fill == fill
    ensures LetterboxFits(plan, target) && ScaledFrom(plan.scaled, source)
  {
    var s := ContainScale(source, target);
    Letterbox(s, Centre(target.width, s.width), Centre(target.height, s.height), fill)
  }

  // ---------------------------------------------------------------------
  // Cover: the frame filled, the excess cropped

  /**
    The size the source is resized to in cover mode: the opposite side binds,
    so the truncated proportional side still reaches the target's size.
  */
  function CoverScale(source: Size, target: Size): (r: Size)
    requires Positive(source) && Positive(target)
    ensures r.width >= target.width && r.height >= target.height
    ensures WiderThan(source, target) ==>
      r.height == target.height && IsFloorOf(r.width, target.height * source.width, source.height)
    ensures !WiderThan(source, target) ==>
      r.width == target.width && IsFloorOf(r.height, target.width * source.height, source.width)
    ensures ScaledFrom(r, source)
  {
    if WiderThan(source, target) then
      FloorAbove(target.height * source.width, source.height, target.width);
      Size(target.height * source.width / source.height, target.height)
    else
      FloorAbove(target.width * source.height, source.width, target.height);
      Size(target.width, target.width * source.height / source.width)
  }

  /** The crop box of a crop plan is exactly the target's size, centred inside the scaled image. */
  predicate CropFits(plan: FitPlan, target: Size)
    requires plan.Crop?
  {
    && plan.scaled.width >= target.width && plan.scaled.height >= target.height
    && (plan.scaled.width == target.width || plan.scaled.height == target.height)
    && plan.right - plan.left == target.width
    && plan.bottom - plan.top == target.height
    && plan.right <= plan.scaled.width && plan.bottom <= plan.scaled.height
    && Balanced(plan.scaled.width - plan.right, plan.left)
    && Balanced(plan.scaled.height - plan.bottom, plan.top)
  }

  function CoverPlan(source: Size, target: Size): (plan: FitPlan)
    requires Positive(source) && Positive(target)
    ensures plan.Crop? && CropFits(plan, target) && ScaledFrom(plan.scaled, source)
  {
    var s := CoverScale(source, target);
    var left := Centre(s.width, target.width);
    var top := Centre(s.height, target.height);
    Crop(s, left, top, left + target.width, top + target.height)
  }

  // ---------------------------------------------------------------------
  // The plan for one file

  /** Whether `plan` is a valid plan of the requested kind for `target`. */
  predicate PlanFits(plan: FitPlan, target: Size, fitting: Fitting) {
    match fitting
    case ContainOn(fill) => plan.Letterbox? && plan.fill == fill && LetterboxFits(plan, target)
    case CoverCrop => plan.Crop? && CropFits(plan, target)
  }

  function Plan(source: Size, target: Size, fitting: Fitting): (plan: FitPlan)
    requires Positive(source) && Positive(target)
    ensures PlanFits(plan, target, fitting) && ScaledFrom(plan.scaled, source)
  {
    match fitting
    case ContainOn(fill) => ContainPlan(source, target, fill)
    case CoverCrop => CoverPlan(source, target)
  }

  // ---------------------------------------------------------------------
  // Properties relating several calls

  /**
    A source with exactly the target's aspect ratio is resized to the target
    itself in both modes: no padding and no cropping.
  */
  lemma ProportionalSourceIsExact(source: Size, target: Size, fill: Rgb)
    requires Positive(source) && Positive(target)
    requires source.width * target.height == target.width * source.height
    ensures ContainPlan(source, target, fill) == Letterbox(target, 0, 0, fill)
    ensures CoverPlan(source, target) == Crop(target, 0, 0, target.width, target.height)
  {
    assert !WiderThan(source, target);
    FloorIsDiv(target.width, target.height * source.width, source.height);
    FloorIsDiv(target.height, target.width * source.height, source.width);
  }

  lemma ScaleBoth(n: nat, num: nat, den: nat, k: nat)
    requires k > 0 && IsFloorOf(n, num, den)
    ensures IsFloorOf(n, num * k, den * k)
  {
    MulMonotone(n * den, num, k);
    assert n * (den * k) == n * den * k;
    assert num * k < (n + 1) * den * k by {
      MulMonotone(num + 1, (n + 1) * den, k);
    }
    assert (n + 1) * (den * k) == (n + 1) * den * k;
  }

  /** The relative-width test does not change when the source is scaled by k. */
  lemma WiderThanScaleInvariant(source: Size, k: nat, target: Size)
    requires k > 0
    ensures WiderThan(Size(k * source.width, k * source.height), target) <==> WiderThan(source, target)
  {
    var a := source.width * target.height;
    var b := target.width * source.height;
    assert k * source.width * target.height == a * k;
    assert target.width * (k * source.height) == b * k;
    if b < a {
      MulMonotone(b + 1, a, k);
    } else {
      MulMonotone(a, b, k);
    }
  }

  /** A truncated quotient is unchanged when numerator and denominator are both scaled by k. */
  lemma FloorScaleInvariant(num: nat, den: nat, k: nat)
    requires den > 0 && k > 0
    ensures (num * k) / (den * k) == num / den
  {
    FloorOfDiv(num, den);
    ScaleBoth(num / den, num, den, k);
    FloorIsDiv(num / den, num * k, den * k);
  }

  /**
    The plan depends on the source only through its aspect ratio: a source
    scaled by any factor k gets the same plan.
  */
  lemma PlanScaleInvariant(source: Size, k: nat, target: Size, fitting: Fitting)
    requires Positive(source) && Positive(target) && k > 0
    ensures Plan(Size(k * source.width, k * source.height), target, fitting) == Plan(source, target, fitting)
  {
    var big := Size(k * source.width, k * source.height);
    WiderThanScaleInvariant(source, k, target);
    FloorScaleInvariant(target.width * source.height, source.width, k);
    assert target.width * big.height == target.width * source.height * k;
    assert big.width == source.width * k;
    FloorScaleInvariant(target.height * source.width, source.height, k);
    assert target.height * big.width == target.height * source.width * k;
    assert big.height == source.height * k;
    assert ContainScale(big, target) == ContainScale(source, target);
    assert CoverScale(big, target) == CoverScale(source, target);
  }

  /**
    Contain mode yields an empty side exactly when the source is so elongated
    that the proportional value of its short side is below one pixel; cover
    mode never does.
  */
  lemma ContainNonEmptyIff(source: Size, target: Size)
    requires Positive(source) && Positive(target)
    ensures Positive(ContainScale(source, target)) <==>
      if WiderThan(source, target) then target.width * source.height >= source.width
      else target.height * source.width >= source.height
    ensures Positive(CoverScale(source, target))
  {
    var r := ContainScale(source, target);
    if WiderThan(source, target) {
      if r.height > 0 {
        MulMonotone(1, r.height, source.width);
      }
    } else {
      if r.width > 0 {
        MulMonotone(1, r.width, source.height);
      }
    }
  }

  /** The contain example: a square source in a 1280x720 frame is pillarboxed. */
  lemma SquareContainExample()
    ensures ContainPlan(Size(1000, 1000), Size(1280, 720), BLACK) == Letterbox(Size(720, 720), 280, 0, BLACK)
  {
    FloorIsDiv(720, 720 * 1000, 1000);
  }

  /** The cover example: a square source cropped to the middle 1280x720 band. */
  lemma SquareCoverExample()
    ensures CoverPlan(Size(1000, 1000), Size(1280, 720)) == Crop(Size(1280, 1280), 0, 280, 1280, 1000)
  {
    SquareCoverScale();
    assert Centre(1280, 1280) == 0;
    assert Centre(1280, 720) == 280;
  }

  lemma SquareCoverScale()
    ensures CoverScale(Size(1000, 1000), Size(1280, 720)) == Size(1280, 1280)
  {
    FloorIsDiv(1280, 1280 * 1000, 1000);
  }

  /** A 16:9 source into a 16:9 frame is resized without padding. */
  lemma WidescreenContainExample()
    ensures ContainPlan(Size(1920, 1080), Size(1280, 720), WHITE) == Letterbox(Size(1280, 720), 0, 0, WHITE)
  {
    ProportionalSourceIsExact(Size(1920, 1080), Size(1280, 720), WHITE);
  }
}
