/** The style of one card in a navigation card stack.
    Each profile maps the navigation state, the scene and the layout to an opacity and a
    translation. A style field is either a number fixed when the style is built, or a mapping of
    the live animated position given by its breakpoints: the value that
    `position.interpolate({inputRange, outputRange})` stands for. */
module CardStackStyleInterpolator {

  datatype Option<T> = None | Some(value: T)

  /** One style field: a fixed number, or piecewise-linear breakpoints over the position. */
  datatype StyleValue = Static(value: real) | Interp(inputs: seq<real>, outputs: seq<real>)

  /** `{opacity, transform: [{translateX}, {translateY}]}` */
  datatype Style = Style(opacity: StyleValue, translateX: StyleValue, translateY: StyleValue)

  datatype NavigationState = NavigationState(index: real)
  datatype Scene = Scene(index: real)
  datatype Layout = Layout(isMeasured: bool, initWidth: real, initHeight: real)
  datatype Props = Props(navigationState: NavigationState, scene: Scene, layout: Layout)

  /** How far an unfocused scene is moved away before the layout is measured. */
  const OffscreenOffset: real := 1000000.0
  /** Extra width so that the card's shadow leaves the screen with the card. */
  const ShadowMargin: real := 30.0
  /** The fixed rise of the Android fade-in. */
  const FadeRise: real := 50.0

  predicate StrictlyIncreasing(s: seq<real>) {
    forall j, k :: 0 <= j < k < |s| ==> s[j] < s[k]
  }

  predicate IsStaticStyle(s: Style) {
    s.opacity.Static? && s.translateX.Static? && s.translateY.Static?
  }

  /** An animated field of a measured profile: breakpoints at the scene's input range, one
      output per input. */
  predicate AnimatedOver(v: StyleValue, index: real) {
    v.Interp? ==> v.inputs == InputRange(index) && |v.outputs| == |v.inputs|
  }

  predicate MeasuredShape(s: Style, index: real) {
    s.opacity.Interp? && AnimatedOver(s.opacity, index)
    && AnimatedOver(s.translateX, index) && AnimatedOver(s.translateY, index)
  }

  predicate Focused(p: Props) {
    p.navigationState.index == p.scene.index
  }

  /** The breakpoints of every measured profile: one scene before, at, just after and one scene
      after the scene's own index. */
  function InputRange(index: real): (r: seq<real>)
    ensures |r| == 4 && StrictlyIncreasing(r)
    ensures r[0] == index - 1.0 && r[1] == index && r[2] == index + 0.99 && r[3] == index + 1.0
  {
    [index - 1.0, index, index + 0.99, index + 1.0]
  }

  /** The style used while the layout is not measured: a hard cutover on focus. */
  function ForInitial(p: Props): (s: Style)
    ensures IsStaticStyle(s)
    ensures s.opacity.value == 1.0 <==> Focused(p)
    ensures s.opacity.value == 0.0 <==> !Focused(p)
    ensures s.translateX == s.translateY
    ensures Focused(p) ==> s.translateX.value == 0.0
    ensures !Focused(p) ==> s.translateX.value == OffscreenOffset
  {
    var focused := Focused(p);
    var opacity := if focused then 1.0 else 0.0;
    var translate := if focused then 0.0 else OffscreenOffset;
    Style(Static(opacity), Static(translate), Static(translate))
  }

  /** The horizontal slide's translateX outputs for an off-screen width. */
  function HorizontalOutputs(width: real, isRTL: bool): seq<real> {
    if isRTL then [-width, 0.0, 10.0, 10.0] else [width, 0.0, -10.0, -10.0]
  }

  /** iOS-style slide in from the side; `isRTL` is the layout direction read at call time. */
  function ForHorizontal(p: Props, isRTL: bool): (s: Style)
    ensures !p.layout.isMeasured ==> s == ForInitial(p)
    ensures p.layout.isMeasured ==>
      MeasuredShape(s, p.scene.index) && s.translateX.Interp? && s.translateY == Static(0.0)
  {
    if !p.layout.isMeasured then ForInitial(p)
    else
      var inputRange := InputRange(p.scene.index);
      var width := p.layout.initWidth + ShadowMargin;
      var outputRange := HorizontalOutputs(width, isRTL);
      var opacity := Interp(inputRange, [1.0, 1.0, 0.3, 0.0]);
      var translateY := Static(0.0);
      var translateX := Interp(inputRange, outputRange);
      Style(opacity, translateX, translateY)
  }

  /** iOS-style slide in from the bottom (used for modals). */
  function ForVertical(p: Props): (s: Style)
    ensures !p.layout.isMeasured ==> s == ForInitial(p)
    ensures p.layout.isMeasured ==>
      MeasuredShape(s, p.scene.index) && s.translateX == Static(0.0) && s.translateY.Interp?
  {
    if !p.layout.isMeasured then ForInitial(p)
    else
      var inputRange := InputRange(p.scene.index);
      var height := p.layout.initHeight;
      var opacity := Interp(inputRange, [1.0, 1.0, 0.3, 0.0]);
      var translateX := Static(0.0);
      var translateY := Interp(inputRange, [height, 0.0, 0.0, 0.0]);
      Style(opacity, translateX, translateY)
  }

  /** Android-style fade in from the bottom. */
  function ForFadeFromBottomAndroid(p: Props): (s: Style)
    ensures !p.layout.isMeasured ==> s == ForInitial(p)
    ensures p.layout.isMeasured ==>
      MeasuredShape(s, p.scene.index) && s.translateX == Static(0.0) && s.translateY.Interp?
  {
    if !p.layout.isMeasured then ForInitial(p)
    else
      var inputRange := InputRange(p.scene.index);
      var opacity := Interp(inputRange, [0.0, 1.0, 1.0, 0.0]);
      var translateX := Static(0.0);
      var translateY := Interp(inputRange, [FadeRise, 0.0, 0.0, 0.0]);
      Style(opacity, translateX, translateY)
  }

  /** Opacity, translateX and translateY can all be driven natively, whatever the direction. */
  function CanUseNativeDriver(isVertical: bool): (r: bool)
    ensures r
  {
    true
  }

  // ---------------------------------------------------------------------------------------
  // Reading a style at a position
  // ---------------------------------------------------------------------------------------

  /** The straight line through (x0, y0) and (x1, y1), at v: it passes through both points. */
  function Lerp(x0: real, x1: real, y0: real, y1: real, v: real): (r: real)
    requires x0 < x1
    ensures v == x0 ==> r == y0
    ensures v == x1 ==> r == y1
  {
    var t := (v - x0) / (x1 - x0);
    assert v == x1 ==> t == 1.0 by { UnitRatio(x1 - x0); }
    y0 + (y1 - y0) * t
  }

  lemma UnitRatio(d: real)
    requires d > 0.0
    ensures d / d == 1.0
  {
  }

  /** The piecewise-linear value of breakpoints at `v`, for `v` from the first to the last
      input. Outside that span the host library's extrapolation applies, which is left open. */
  function Evaluate(inputs: seq<real>, outputs: seq<real>, v: real): (r: Option<real>)
    requires |inputs| == |outputs| && StrictlyIncreasing(inputs)
    ensures r.Some? <==> |inputs| > 0 && inputs[0] <= v <= inputs[|inputs| - 1]
    decreases |inputs|
  {
    if |inputs| == 0 then None
    else if |inputs| == 1 then (if v == inputs[0] then Some(outputs[0]) else None)
    else if inputs[0] <= v <= inputs[1] then
      Some(Lerp(inputs[0], inputs[1], outputs[0], outputs[1], v))
    else Evaluate(inputs[1..], outputs[1..], v)
  }

  /** The value of a style field when the position is `pos`. */
  function ValueAt(f: StyleValue, pos: real): Option<real> {
    match f
    case Static(c) => Some(c)
    case Interp(xs, ys) =>
      if |xs| == |ys| && StrictlyIncreasing(xs) then Evaluate(xs, ys, pos) else None
  }

  /** Breakpoints are hit exactly: at its k-th input a mapping takes its k-th output. */
  lemma {:induction false} EvaluateAtBreakpoint(inputs: seq<real>, outputs: seq<real>, k: nat)
    requires |inputs| == |outputs| && StrictlyIncreasing(inputs) && k < |inputs|
    ensures Evaluate(inputs, outputs, inputs[k]) == Some(outputs[k])
  {
    if |inputs| == 1 || k == 0 {
    } else if k == 1 {
      assert inputs[0] < inputs[1];
    } else {
      assert inputs[1] < inputs[k];
      EvaluateAtBreakpoint(inputs[1..], outputs[1..], k - 1);
    }
  }

  /** A field animated over `index` takes its k-th output when the position is at its k-th
      breakpoint. */
  lemma AnimatedAt(index: real, outputs: seq<real>, k: nat)
    requires |outputs| == 4 && k < 4
    ensures ValueAt(Interp(InputRange(index), outputs), InputRange(index)[k]) == Some(outputs[k])
  {
    EvaluateAtBreakpoint(InputRange(index), outputs, k);
  }

  // ---------------------------------------------------------------------------------------
  // Properties of the profiles
  // ---------------------------------------------------------------------------------------

  /** Before the layout is measured every profile is the initial style. */
  lemma UnmeasuredIsInitial(p: Props, isRTL: bool)
    requires !p.layout.isMeasured
    ensures ForHorizontal(p, isRTL) == ForInitial(p)
    ensures ForVertical(p) == ForInitial(p)
    ensures ForFadeFromBottomAndroid(p) == ForInitial(p)
  {
  }

  /** The output ranges of the measured profiles. */
  lemma MeasuredOutputRanges(p: Props, isRTL: bool)
    requires p.layout.isMeasured
    ensures ForHorizontal(p, isRTL).opacity.outputs == [1.0, 1.0, 0.3, 0.0]
    ensures ForVertical(p).opacity.outputs == [1.0, 1.0, 0.3, 0.0]
    ensures ForFadeFromBottomAndroid(p).opacity.outputs == [0.0, 1.0, 1.0, 0.0]
    ensures ForVertical(p).translateY.outputs == [p.layout.initHeight, 0.0, 0.0, 0.0]
    ensures ForFadeFromBottomAndroid(p).translateY.outputs == [FadeRise, 0.0, 0.0, 0.0]
  {
  }

  /** Right-to-left mirrors the horizontal slide: its translateX outputs are the elementwise
      negation of the left-to-right ones, which start at the widened width. */
  lemma HorizontalMirrorsRTL(p: Props)
    requires p.layout.isMeasured
    ensures var ltr := ForHorizontal(p, false).translateX.outputs;
            var rtl := ForHorizontal(p, true).translateX.outputs;
            ltr == [p.layout.initWidth + ShadowMargin, 0.0, -10.0, -10.0]
            && |rtl| == 4 && forall k :: 0 <= k < 4 ==> rtl[k] == -ltr[k]
    ensures ForHorizontal(p, true).opacity == ForHorizontal(p, false).opacity
    ensures ForHorizontal(p, true).translateY == ForHorizontal(p, false).translateY
  {
  }

  /** A focused scene is fully in place: opacity 1 and no translation. For a measured layout
      this holds when the position is at the scene's index; before the layout is measured it
      holds whenever the navigation state focuses the scene. */
  lemma FocusedSceneInPlace(p: Props, isRTL: bool)
    requires p.layout.isMeasured || Focused(p)
    ensures var i := p.scene.index;
            var s := ForHorizontal(p, isRTL);
            ValueAt(s.opacity, i) == Some(1.0) && ValueAt(s.translateX, i) == Some(0.0)
            && ValueAt(s.translateY, i) == Some(0.0)
    ensures var i := p.scene.index;
            var s := ForVertical(p);
            ValueAt(s.opacity, i) == Some(1.0) && ValueAt(s.translateX, i) == Some(0.0)
            && ValueAt(s.translateY, i) == Some(0.0)
    ensures var i := p.scene.index;
            var s := ForFadeFromBottomAndroid(p);
            ValueAt(s.opacity, i) == Some(1.0) && ValueAt(s.translateX, i) == Some(0.0)
            && ValueAt(s.translateY, i) == Some(0.0)
  {
    if p.layout.isMeasured {
      var i := p.scene.index;
      var w := p.layout.initWidth + ShadowMargin;
      AnimatedAt(i, [1.0, 1.0, 0.3, 0.0], 1);
      AnimatedAt(i, HorizontalOutputs(w, isRTL), 1);
      AnimatedAt(i, [p.layout.initHeight, 0.0, 0.0, 0.0], 1);
      AnimatedAt(i, [0.0, 1.0, 1.0, 0.0], 1);
      AnimatedAt(i, [FadeRise, 0.0, 0.0, 0.0], 1);
    }
  }

  /** One scene before its own index (the scene is about to come in): the slides are opaque
      and fully off to the side or below, the fade is transparent and lowered by the fixed
      rise. */
  lemma ApproachingScene(p: Props, isRTL: bool)
    requires p.layout.isMeasured
    ensures var pos := p.scene.index - 1.0;
            var w := p.layout.initWidth + ShadowMargin;
            var h := ForHorizontal(p, isRTL);
            ValueAt(h.opacity, pos) == Some(1.0)
            && ValueAt(h.translateX, pos) == Some(if isRTL then -w else w)
    ensures var pos := p.scene.index - 1.0;
            var v := ForVertical(p);
            ValueAt(v.opacity, pos) == Some(1.0)
            && ValueAt(v.translateY, pos) == Some(p.layout.initHeight)
    ensures var pos := p.scene.index - 1.0;
            var f := ForFadeFromBottomAndroid(p);
            ValueAt(f.opacity, pos) == Some(0.0) && ValueAt(f.translateY, pos) == Some(FadeRise)
  {
    var i := p.scene.index;
    var w := p.layout.initWidth + ShadowMargin;
    AnimatedAt(i, [1.0, 1.0, 0.3, 0.0], 0);
    AnimatedAt(i, HorizontalOutputs(w, isRTL), 0);
    AnimatedAt(i, [p.layout.initHeight, 0.0, 0.0, 0.0], 0);
    AnimatedAt(i, [0.0, 1.0, 1.0, 0.0], 0);
    AnimatedAt(i, [FadeRise, 0.0, 0.0, 0.0], 0);
  }

  /** Just before the scene is fully covered (0.99 of a scene past its index): both slides
      have faded to 0.3, the horizontal card has moved back by 10 against its entry direction
      and the vertical card stays in place; the fade is still fully opaque and in place. */
  lemma LeavingScene(p: Props, isRTL: bool)
    requires p.layout.isMeasured
    ensures var pos := p.scene.index + 0.99;
            var h := ForHorizontal(p, isRTL);
            ValueAt(h.opacity, pos) == Some(0.3)
            && ValueAt(h.translateX, pos) == Some(if isRTL then 10.0 else -10.0)
    ensures var pos := p.scene.index + 0.99;
            var v := ForVertical(p);
            ValueAt(v.opacity, pos) == Some(0.3) && ValueAt(v.translateY, pos) == Some(0.0)
    ensures var pos := p.scene.index + 0.99;
            var f := ForFadeFromBottomAndroid(p);
            ValueAt(f.opacity, pos) == Some(1.0) && ValueAt(f.translateY, pos) == Some(0.0)
  {
    var i := p.scene.index;
    var w := p.layout.initWidth + ShadowMargin;
    AnimatedAt(i, [1.0, 1.0, 0.3, 0.0], 2);
    AnimatedAt(i, HorizontalOutputs(w, isRTL), 2);
    AnimatedAt(i, [p.layout.initHeight, 0.0, 0.0, 0.0], 2);
    AnimatedAt(i, [0.0, 1.0, 1.0, 0.0], 2);
    AnimatedAt(i, [FadeRise, 0.0, 0.0, 0.0], 2);
  }

  /** One scene past its own index (the scene has been covered): every profile is transparent,
      and the horizontal slide has moved back by 10 against its entry direction. */
  lemma DepartedScene(p: Props, isRTL: bool)
    requires p.layout.isMeasured
    ensures var pos := p.scene.index + 1.0;
            var h := ForHorizontal(p, isRTL);
            ValueAt(h.opacity, pos) == Some(0.0)
            && ValueAt(h.translateX, pos) == Some(if isRTL then 10.0 else -10.0)
    ensures ValueAt(ForVertical(p).opacity, p.scene.index + 1.0) == Some(0.0)
    ensures ValueAt(ForFadeFromBottomAndroid(p).opacity, p.scene.index + 1.0) == Some(0.0)
  {
    var i := p.scene.index;
    var w := p.layout.initWidth + ShadowMargin;
    AnimatedAt(i, [1.0, 1.0, 0.3, 0.0], 3);
    AnimatedAt(i, HorizontalOutputs(w, isRTL), 3);
    AnimatedAt(i, [0.0, 1.0, 1.0, 0.0], 3);
  }
}
