/**
 * The responsive style resolver (`getPositionByStyle`): the viewport's aspect ratio picks one of
 * four layout styles, the dimension the element is fitted to, and the element's position rule.
 */
module PositionByStyle {
  import opened Common

  /** A strictly positive real: reference sizes and heights the source divides by. */
  type Positive = r: real | r > 0.0 witness 1.0

  datatype Orientation = Landscape | Portrait

  /** Train and Rectangle are landscape styles, Square and Sword portrait styles. */
  datatype Style = Train | Rectangle | Square | Sword

  /** The orientation under which a style's rule is filed in the position table. */
  function OrientationOf(s: Style): Orientation {
    match s
    case Train | Rectangle => Landscape
    case Square | Sword => Portrait
  }

  /** `app.screen`: the current size of the rendering surface. */
  datatype Viewport = Viewport(width: real, height: Positive)

  /** The part of the shared `commonData.content` the resolver reads. */
  datatype CommonData = CommonData(
    aspectRatioThreshold: real,
    landscapeAspectWidth: real,
    landscapeAspectHeight: Positive)

  /**
   * One entry `position[orientation][style]` of an element's config. Besides the fields every
   * entry has, an entry may carry `style` or `dividend` keys, which the spread lets win.
   */
  datatype Rule = Rule(
    x: real,
    y: real,
    divisor: Positive,
    visible: bool,
    style: Option<Style>,
    dividend: Option<real>)

  datatype LandscapeRules = LandscapeRules(train: Rule, rectangle: Rule)
  datatype PortraitRules = PortraitRules(square: Rule, sword: Rule)

  /** `layoutConfig.position`, keyed first by orientation, then by style. */
  datatype PositionTable = PositionTable(landscape: LandscapeRules, portrait: PortraitRules)

  /** The object the resolver returns: `{style, dividend, ...rule}`. */
  datatype Resolved = Resolved(
    style: Style,
    dividend: real,
    x: real,
    y: real,
    divisor: Positive,
    visible: bool)

  /** The fixed portrait game ratio 9/16. */
  const TargetAspectRatio: real := 9.0 / 16.0

  function ScreenAspectRatio(v: Viewport): real {
    v.width / v.height
  }

  function LandscapeTargetAspectRatio(c: CommonData): real {
    c.landscapeAspectWidth / c.landscapeAspectHeight
  }

  // The four regions of the aspect-ratio line, written flat.

  predicate IsSwordRegion(v: Viewport) {
    ScreenAspectRatio(v) <= TargetAspectRatio
  }

  predicate IsSquareRegion(v: Viewport, c: CommonData) {
    TargetAspectRatio < ScreenAspectRatio(v) <= c.aspectRatioThreshold
  }

  predicate IsTrainRegion(v: Viewport, c: CommonData) {
    && ScreenAspectRatio(v) > TargetAspectRatio
    && ScreenAspectRatio(v) > c.aspectRatioThreshold
    && ScreenAspectRatio(v) > LandscapeTargetAspectRatio(c)
  }

  predicate IsRectangleRegion(v: Viewport, c: CommonData) {
    && ScreenAspectRatio(v) > TargetAspectRatio
    && ScreenAspectRatio(v) > c.aspectRatioThreshold
    && ScreenAspectRatio(v) <= LandscapeTargetAspectRatio(c)
  }

  /** The object spread `{style, dividend, ...rule}`: keys of the rule come last and win. */
  function Spread(style: Style, dividend: real, rule: Rule): Resolved {
    Resolved(
      rule.style.GetOr(style),
      rule.dividend.GetOr(dividend),
      rule.x, rule.y, rule.divisor, rule.visible)
  }

  /**
   * getPositionByStyle. Ties go to the narrower branch: a ratio equal to 9/16 is Sword, one equal
   * to the threshold is Square, one equal to the landscape ratio is Rectangle.
   */
  function Resolve(t: PositionTable, v: Viewport, c: CommonData): (r: Resolved)
    ensures IsSwordRegion(v) ==> r == Spread(Sword, v.width, t.portrait.sword)
    ensures IsSquareRegion(v, c) ==> r == Spread(Square, v.height, t.portrait.square)
    ensures IsTrainRegion(v, c) ==> r == Spread(Train, v.height, t.landscape.train)
    ensures IsRectangleRegion(v, c) ==> r == Spread(Rectangle, v.width, t.landscape.rectangle)
  {
    var screenAspectRatio := ScreenAspectRatio(v);
    if screenAspectRatio > TargetAspectRatio then
      if screenAspectRatio > c.aspectRatioThreshold then
        if screenAspectRatio > LandscapeTargetAspectRatio(c) then
          Spread(Train, v.height, t.landscape.train)
        else
          Spread(Rectangle, v.width, t.landscape.rectangle)
      else
        Spread(Square, v.height, t.portrait.square)
    else
      Spread(Sword, v.width, t.portrait.sword)
  }

  /** The four regions cover every viewport and never overlap: exactly one branch is taken. */
  lemma RegionsPartition(v: Viewport, c: CommonData)
    ensures IsSwordRegion(v) || IsSquareRegion(v, c) || IsTrainRegion(v, c) || IsRectangleRegion(v, c)
    ensures IsSwordRegion(v) ==> !IsSquareRegion(v, c) && !IsTrainRegion(v, c) && !IsRectangleRegion(v, c)
    ensures IsSquareRegion(v, c) ==> !IsTrainRegion(v, c) && !IsRectangleRegion(v, c)
    ensures IsTrainRegion(v, c) ==> !IsRectangleRegion(v, c)
  {
  }

  /** The rule a style is read from: `position[OrientationOf(s)][s]`. */
  function RuleFor(t: PositionTable, s: Style): Rule {
    match s
    case Train => t.landscape.train
    case Rectangle => t.landscape.rectangle
    case Square => t.portrait.square
    case Sword => t.portrait.sword
  }

  /** Train and Square fit the height, Rectangle and Sword fit the width. */
  function FitDimension(s: Style, v: Viewport): real {
    match s
    case Train | Square => v.height
    case Rectangle | Sword => v.width
  }

  /**
   * A division-free classification, comparing cross-multiplied sizes instead of ratios
   * (both heights are positive), checked in the opposite order from the resolver.
   */
  function CrossMultipliedStyle(v: Viewport, c: CommonData): Style {
    if 16.0 * v.width <= 9.0 * v.height then Sword
    else if v.width <= c.aspectRatioThreshold * v.height then Square
    else if v.width * c.landscapeAspectHeight <= c.landscapeAspectWidth * v.height then Rectangle
    else Train
  }

  /** Comparing a ratio with a bound is comparing the numerator with the scaled bound. */
  lemma RatioAtMost(a: real, b: Positive, k: real)
    ensures a / b <= k <==> a <= k * b
  {
    assert (a / b) * b == a;
    if a / b <= k {
      assert (a / b) * b <= k * b;
    } else {
      assert (a / b) * b > k * b;
    }
  }

  /** The resolver agrees with the division-free classification, fit dimension and rule. */
  lemma {:induction false} ResolveMatchesCrossMultiplied(t: PositionTable, v: Viewport, c: CommonData)
    ensures var s := CrossMultipliedStyle(v, c);
      Resolve(t, v, c) == Spread(s, FitDimension(s, v), RuleFor(t, s))
  {
    RatioAtMost(v.width, v.height, TargetAspectRatio);
    RatioAtMost(v.width, v.height, c.aspectRatioThreshold);
    RatioAtMost(v.width, v.height, LandscapeTargetAspectRatio(c));
    RatioAtMost(c.landscapeAspectWidth, c.landscapeAspectHeight, v.width / v.height);
    var lw, lh := c.landscapeAspectWidth, c.landscapeAspectHeight;
    assert (lw / lh) * v.height * lh == lw * v.height;
  }

  /**
   * For every window, the resolved position takes `x`, `y`, `divisor` and `visible` from the rule
   * of the window's region, and a `style` or `dividend` key in that rule wins over the region's
   * style and fitted dimension.
   */
  lemma {:induction false} RuleKeysOverride(t: PositionTable, v: Viewport, c: CommonData)
    ensures var s := CrossMultipliedStyle(v, c);
      var rule := RuleFor(t, s);
      var r := Resolve(t, v, c);
      && r.x == rule.x && r.y == rule.y && r.divisor == rule.divisor && r.visible == rule.visible
      && (rule.style.Some? ==> r.style == rule.style.value)
      && (rule.style.None? ==> r.style == s)
      && (rule.dividend.Some? ==> r.dividend == rule.dividend.value)
      && (rule.dividend.None? ==> r.dividend == FitDimension(s, v))
  {
    ResolveMatchesCrossMultiplied(t, v, c);
  }

  /** Where an element lands: its scale and the coordinates of its anchor. */
  datatype Placement = Placement(scale: real, x: real, y: real)

  /** The formula every positioned element applies: scale = dividend/divisor, offset from the centre. */
  function Place(v: Viewport, r: Resolved): Placement {
    var scale := r.dividend / r.divisor;
    Placement(scale, v.width / 2.0 + r.x * scale, v.height / 2.0 + r.y * scale)
  }

  /**
   * Unless the rule overrides the dividend, the element's reference size scaled by the placement
   * equals the fitted viewport dimension exactly, and the rule's offset is measured in
   * reference units from the viewport's centre.
   */
  lemma {:induction false} PlaceFitsViewport(t: PositionTable, v: Viewport, c: CommonData)
    ensures var s := CrossMultipliedStyle(v, c);
      var r := Resolve(t, v, c);
      var p := Place(v, r);
      && (RuleFor(t, s).dividend.None? ==> p.scale * r.divisor == FitDimension(s, v))
      && (p.x - v.width / 2.0) * r.divisor == r.x * r.dividend
      && (p.y - v.height / 2.0) * r.divisor == r.y * r.dividend
  {
    ResolveMatchesCrossMultiplied(t, v, c);
    var r := Resolve(t, v, c);
    var scale := r.dividend / r.divisor;
    assert scale * r.divisor == r.dividend;
    assert r.x * scale * r.divisor == r.x * r.dividend;
    assert r.y * scale * r.divisor == r.y * r.dividend;
  }

  /** A desktop window, 1920x1080 with threshold 1.4 and a 16:10 landscape art ratio, is Train. */
  lemma DesktopIsTrain(t: PositionTable)
    ensures Resolve(t, Viewport(1920.0, 1080.0), CommonData(1.4, 16.0, 10.0)).style
      == t.landscape.train.style.GetOr(Train)
  {
  }

  /** A phone held upright, 1080x1920, is Sword. */
  lemma PhoneIsSword(t: PositionTable, c: CommonData)
    ensures Resolve(t, Viewport(1080.0, 1920.0), c).style == t.portrait.sword.style.GetOr(Sword)
  {
  }

  /** A 4:3 tablet, 1024x768, below the 1.4 threshold, is Square. */
  lemma TabletIsSquare(t: PositionTable)
    ensures Resolve(t, Viewport(1024.0, 768.0), CommonData(1.4, 16.0, 10.0)).style
      == t.portrait.square.style.GetOr(Square)
  {
  }
}
