/**
 * The state transitions of the viewer's GUI panel that are bookkeeping rather
 * than float math: the light Off/On buttons with their shadow copies, the
 * normal-map toggle, the spotlight "both" cutoff slider, the default camera
 * computed from the scene bounds and the camera-controller switch.
 */
module Ui {
  import opened Options
  import opened Linear

  // ---------------------------------------------------------------------------
  // Light Off/On

  /** Number of point lights, each drawn as a cube. */
  const NB_CUBE: nat := 4

  /**
   * Every light intensity and colour the Off/On buttons touch, with its "prec"
   * shadow copy: the directional light, the spotlight, and per cube its
   * intensity and colour.
   */
  datatype LightState = LightState(
    light: Vec3, preLight: Vec3, spot: Vec3, preSpot: Vec3,
    cubeIntensity: seq<Vec3>, preCubeIntensity: seq<Vec3>, cubeColor: seq<Vec3>, preCubeColor: seq<Vec3>)

  /** The values the lights currently show, without the shadows. */
  datatype Lighting = Lighting(light: Vec3, spot: Vec3, cubeIntensity: seq<Vec3>, cubeColor: seq<Vec3>)

  ghost predicate Shaped(s: LightState) {
    |s.cubeIntensity| == |s.preCubeIntensity| == |s.cubeColor| == |s.preCubeColor| == NB_CUBE
  }

  function Current(s: LightState): Lighting {
    Lighting(s.light, s.spot, s.cubeIntensity, s.cubeColor)
  }

  ghost predicate Dark(l: Lighting) {
    l.light == Zero3 && l.spot == Zero3 &&
    (forall i :: 0 <= i < |l.cubeIntensity| ==> l.cubeIntensity[i] == Zero3) &&
    (forall i :: 0 <= i < |l.cubeColor| ==> l.cubeColor[i] == Zero3)
  }

  function Darkness(): (r: seq<Vec3>)
    ensures |r| == NB_CUBE && forall i :: 0 <= i < |r| ==> r[i] == Zero3
  {
    [Zero3, Zero3, Zero3, Zero3]
  }

  /** Off: save every current value in its shadow, then zero it. */
  function Off(s: LightState): (r: LightState)
    requires Shaped(s)
    ensures Shaped(r) && Dark(Current(r))
    ensures (r.preLight, r.preSpot, r.preCubeIntensity, r.preCubeColor) == (s.light, s.spot, s.cubeIntensity, s.cubeColor)
  {
    LightState(Zero3, s.light, Zero3, s.spot, Darkness(), s.cubeIntensity, Darkness(), s.cubeColor)
  }

  /** On: copy every shadow back; the shadows stay as they are. */
  function On(s: LightState): (r: LightState)
    requires Shaped(s)
    ensures Shaped(r)
    ensures Current(r) == Lighting(s.preLight, s.preSpot, s.preCubeIntensity, s.preCubeColor)
    ensures (r.preLight, r.preSpot, r.preCubeIntensity, r.preCubeColor) == (s.preLight, s.preSpot, s.preCubeIntensity, s.preCubeColor)
  {
    LightState(s.preLight, s.preLight, s.preSpot, s.preSpot, s.preCubeIntensity, s.preCubeIntensity, s.preCubeColor, s.preCubeColor)
  }

  /** One frame's buttons; Off is checked first, so it wins when both were pressed. */
  function Buttons(s: LightState, buttonOff: bool, buttonOn: bool): (r: LightState)
    requires Shaped(s)
    ensures Shaped(r)
    ensures buttonOff ==> r == Off(s)
    ensures !buttonOff && buttonOn ==> r == On(s)
    ensures !buttonOff && !buttonOn ==> r == s
  {
    if buttonOff then Off(s) else if buttonOn then On(s) else s
  }

  /**
   * Off then On (in later frames) brings back exactly the lighting shown before
   * Off, provided no other light control is used in between (see the edits below).
   */
  lemma OnAfterOffRestores(s: LightState)
    requires Shaped(s)
    ensures Current(On(Off(s))) == Current(s)
  {
  }

  /** A second Off overwrites the shadows with zeros, so On afterwards stays dark. */
  lemma OffTwiceForgets(s: LightState)
    requires Shaped(s)
    ensures Dark(Current(On(Off(Off(s)))))
  {
  }

  /** The values set up before the first frame. */
  const InitialLights: LightState := LightState(
    Vec3(1.0, 1.0, 1.0), Vec3(1.0, 1.0, 1.0), Vec3(1.0, 0.91, 0.0), Vec3(1.0, 0.91, 0.0),
    [Vec3(1.0, 1.0, 1.0), Vec3(1.0, 0.0, 0.0), Vec3(1.0, 0.5, 0.0), Vec3(0.5, 0.9, 0.3)],
    [Vec3(1.0, 1.0, 1.0), Vec3(1.0, 0.0, 0.0), Vec3(1.0, 0.5, 0.0), Vec3(0.5, 0.9, 0.3)],
    [Vec3(1.0, 1.0, 1.0), Vec3(1.0, 0.0, 0.0), Vec3(1.0, 0.5, 0.0), Vec3(0.5, 0.9, 0.3)],
    [Vec3(1.0, 1.0, 1.0), Vec3(1.0, 0.0, 0.0), Vec3(1.0, 0.5, 0.0), Vec3(0.5, 0.9, 0.3)])

  /** Every shadow starts equal to its value, so On before any Off changes nothing. */
  lemma OnAtStartIsNoOp()
    ensures Shaped(InitialLights) && On(InitialLights) == InitialLights
  {
  }

  // The light controls of the panel that also touch these values. The new
  // colours and slider values are parameters.

  /** The slider maximum for every light intensity. */
  const MAX_INTENSITY: real := 100.0

  /**
   * The directional light's colour edit: the intensity becomes colour times the
   * intensity factor; its shadow is not updated.
   */
  function EditLightColour(s: LightState, colour: Vec3, factor: real): (r: LightState)
    requires Shaped(s)
    ensures Shaped(r)
    ensures r.light == Scale(factor, colour) && r.(light := s.light) == s
  {
    s.(light := Scale(factor, colour))
  }

  /** The directional light's intensity slider: the intensity and its shadow become colour times factor. */
  function EditLightIntensity(s: LightState, colour: Vec3, factor: real): (r: LightState)
    requires Shaped(s)
    ensures Shaped(r)
    ensures r.light == r.preLight == Scale(factor, colour) && r.(light := s.light, preLight := s.preLight) == s
  {
    s.(light := Scale(factor, colour), preLight := Scale(factor, colour))
  }

  /** The spotlight's colour edit or intensity slider: the intensity and its shadow become colour times factor. */
  function EditSpot(s: LightState, colour: Vec3, factor: real): (r: LightState)
    requires Shaped(s)
    ensures Shaped(r)
    ensures r.spot == r.preSpot == Scale(factor, colour) && r.(spot := s.spot, preSpot := s.preSpot) == s
  {
    s.(spot := Scale(factor, colour), preSpot := Scale(factor, colour))
  }

  /** The shown colour of a cube: its colour scaled by its intensity over a share of the maximum. */
  function CubeShownColour(colour: Vec3, level: real, fromSlider: bool): Vec3 {
    Scale(level / (MAX_INTENSITY * (if fromSlider then 0.2 else 0.5)), colour)
  }

  /**
   * The colour edit (fromSlider false) or intensity slider (fromSlider true) of
   * cube i: its intensity, its colour and both shadows are set.
   */
  function EditCube(s: LightState, i: nat, colour: Vec3, level: real, fromSlider: bool): (r: LightState)
    requires Shaped(s) && i < NB_CUBE
    ensures Shaped(r)
    ensures r.cubeIntensity[i] == r.preCubeIntensity[i] == Scale(level, colour)
    ensures r.cubeColor[i] == r.preCubeColor[i] == CubeShownColour(colour, level, fromSlider)
    ensures forall j :: 0 <= j < NB_CUBE && j != i ==>
      && r.cubeIntensity[j] == s.cubeIntensity[j] && r.preCubeIntensity[j] == s.preCubeIntensity[j]
      && r.cubeColor[j] == s.cubeColor[j] && r.preCubeColor[j] == s.preCubeColor[j]
    ensures (r.light, r.preLight, r.spot, r.preSpot) == (s.light, s.preLight, s.spot, s.preSpot)
  {
    var intensity := Scale(level, colour);
    var shown := CubeShownColour(colour, level, fromSlider);
    s.(cubeIntensity := s.cubeIntensity[i := intensity], preCubeIntensity := s.preCubeIntensity[i := intensity],
       cubeColor := s.cubeColor[i := shown], preCubeColor := s.preCubeColor[i := shown])
  }

  /** A colour edit of the directional light is undone by the next On. */
  lemma OnRevertsLightColourEdit(s: LightState, colour: Vec3, factor: real)
    requires Shaped(s)
    ensures Current(On(EditLightColour(s, colour, factor))) == Current(On(s))
  {
  }

  /** Made while the lights are off, a colour edit is lost: On brings back the lighting from before Off. */
  lemma LightColourEditWhileOffIsLost(s: LightState, colour: Vec3, factor: real)
    requires Shaped(s)
    ensures Current(On(EditLightColour(Off(s), colour, factor))) == Current(s)
  {
  }

  /** Made while the lights are off, the edits that keep their shadows are what On shows. */
  lemma ShadowedEditsWhileOffShow(s: LightState, colour: Vec3, factor: real, i: nat, level: real, fromSlider: bool)
    requires Shaped(s) && i < NB_CUBE
    ensures On(EditLightIntensity(Off(s), colour, factor)).light == Scale(factor, colour)
    ensures On(EditSpot(Off(s), colour, factor)).spot == Scale(factor, colour)
    ensures var r := On(EditCube(Off(s), i, colour, level, fromSlider));
      r.cubeIntensity[i] == Scale(level, colour) && r.cubeColor[i] == CubeShownColour(colour, level, fromSlider)
  {
  }

  /** The light variables of run(): fixed-size arrays for the per-cube values. */
  class LightRig {
    var lightIntensity: Vec3
    var prelightIntensity: Vec3
    var spotlightIntensity: Vec3
    var precSpotlightIntensity: Vec3
    var cubeIntensity: array<Vec3>
    var precCubeIntensity: array<Vec3>
    var cubeColor: array<Vec3>
    var preCubeColor: array<Vec3>

    ghost predicate Valid()
      reads this
    {
      && cubeIntensity.Length == precCubeIntensity.Length == cubeColor.Length == preCubeColor.Length == NB_CUBE
      && cubeIntensity != precCubeIntensity && cubeIntensity != cubeColor && cubeIntensity != preCubeColor
      && precCubeIntensity != cubeColor && precCubeIntensity != preCubeColor && cubeColor != preCubeColor
    }

    function State(): (s: LightState)
      reads this, cubeIntensity, precCubeIntensity, cubeColor, preCubeColor
      requires Valid()
      ensures Shaped(s)
    {
      LightState(lightIntensity, prelightIntensity, spotlightIntensity, precSpotlightIntensity,
                 cubeIntensity[..], precCubeIntensity[..], cubeColor[..], preCubeColor[..])
    }

    constructor ()
      ensures Valid() && State() == InitialLights
    {
      lightIntensity := Vec3(1.0, 1.0, 1.0);
      prelightIntensity := lightIntensity;
      spotlightIntensity := Vec3(1.0, 0.91, 0.0);
      precSpotlightIntensity := spotlightIntensity;
      var initial := InitialLights.cubeIntensity;
      cubeIntensity := new Vec3[NB_CUBE](i requires 0 <= i < NB_CUBE => initial[i]);
      precCubeIntensity := new Vec3[NB_CUBE](i requires 0 <= i < NB_CUBE => initial[i]);
      cubeColor := new Vec3[NB_CUBE](i requires 0 <= i < NB_CUBE => initial[i]);
      preCubeColor := new Vec3[NB_CUBE](i requires 0 <= i < NB_CUBE => initial[i]);
      new;
      assert cubeIntensity[..] == initial;
      assert precCubeIntensity[..] == initial;
      assert cubeColor[..] == initial;
      assert preCubeColor[..] == initial;
    }

    /** The "Off" branch. */
    method SwitchOff()
      requires Valid()
      modifies this, cubeIntensity, precCubeIntensity, cubeColor, preCubeColor
      ensures Valid() && unchanged(this`cubeIntensity, this`precCubeIntensity, this`cubeColor, this`preCubeColor)
      ensures State() == Off(old(State()))
    {
      ghost var s := State();
      var off := Zero3;
      precSpotlightIntensity := spotlightIntensity;
      spotlightIntensity := off;
      var i := 0;
      while i < NB_CUBE
        invariant 0 <= i <= NB_CUBE
        invariant Valid() && unchanged(this`cubeIntensity, this`precCubeIntensity, this`cubeColor, this`preCubeColor)
        invariant lightIntensity == s.light && spotlightIntensity == off && precSpotlightIntensity == s.spot
        invariant forall j :: 0 <= j < i ==> precCubeIntensity[j] == s.cubeIntensity[j] && cubeIntensity[j] == off
        invariant forall j :: 0 <= j < i ==> preCubeColor[j] == s.cubeColor[j] && cubeColor[j] == off
        invariant forall j :: i <= j < NB_CUBE ==> cubeIntensity[j] == s.cubeIntensity[j] && cubeColor[j] == s.cubeColor[j]
      {
        precCubeIntensity[i] := cubeIntensity[i];
        preCubeColor[i] := cubeColor[i];
        cubeIntensity[i] := off;
        cubeColor[i] := off;
        i := i + 1;
      }
      prelightIntensity := lightIntensity;
      lightIntensity := off;
      assert cubeIntensity[..] == Darkness() && cubeColor[..] == Darkness();
      assert precCubeIntensity[..] == s.cubeIntensity && preCubeColor[..] == s.cubeColor;
    }

    /** The "On" branch. */
    method SwitchOn()
      requires Valid()
      modifies this, cubeIntensity, cubeColor
      ensures Valid() && unchanged(this`cubeIntensity, this`precCubeIntensity, this`cubeColor, this`preCubeColor)
      ensures State() == On(old(State()))
    {
      ghost var s := State();
      var i := 0;
      while i < NB_CUBE
        invariant 0 <= i <= NB_CUBE
        invariant Valid() && unchanged(this`cubeIntensity, this`precCubeIntensity, this`cubeColor, this`preCubeColor)
        invariant unchanged(this) && precCubeIntensity[..] == s.preCubeIntensity && preCubeColor[..] == s.preCubeColor
        invariant forall j :: 0 <= j < i ==> cubeIntensity[j] == s.preCubeIntensity[j] && cubeColor[j] == s.preCubeColor[j]
      {
        cubeIntensity[i] := precCubeIntensity[i];
        cubeColor[i] := preCubeColor[i];
        i := i + 1;
      }
      spotlightIntensity := precSpotlightIntensity;
      lightIntensity := prelightIntensity;
      assert cubeIntensity[..] == s.preCubeIntensity && cubeColor[..] == s.preCubeColor;
    }

    /** The Off/On buttons of one frame. */
    method Switch(buttonOff: bool, buttonOn: bool)
      requires Valid()
      modifies this, cubeIntensity, precCubeIntensity, cubeColor, preCubeColor
      ensures Valid() && unchanged(this`cubeIntensity, this`precCubeIntensity, this`cubeColor, this`preCubeColor)
      ensures State() == Buttons(old(State()), buttonOff, buttonOn)
    {
      if buttonOff {
        SwitchOff();
      } else if buttonOn {
        SwitchOn();
      }
    }

    /** The directional light's colour edit. */
    method LightColourEdited(colour: Vec3, factor: real)
      requires Valid()
      modifies this
      ensures Valid() && unchanged(this`cubeIntensity, this`precCubeIntensity, this`cubeColor, this`preCubeColor)
      ensures State() == EditLightColour(old(State()), colour, factor)
    {
      lightIntensity := Scale(factor, colour);
    }

    /** The directional light's intensity slider. */
    method LightIntensityEdited(colour: Vec3, factor: real)
      requires Valid()
      modifies this
      ensures Valid() && unchanged(this`cubeIntensity, this`precCubeIntensity, this`cubeColor, this`preCubeColor)
      ensures State() == EditLightIntensity(old(State()), colour, factor)
    {
      lightIntensity := Scale(factor, colour);
      prelightIntensity := lightIntensity;
    }

    /** The spotlight's colour edit or intensity slider. */
    method SpotEdited(colour: Vec3, factor: real)
      requires Valid()
      modifies this
      ensures Valid() && unchanged(this`cubeIntensity, this`precCubeIntensity, this`cubeColor, this`preCubeColor)
      ensures State() == EditSpot(old(State()), colour, factor)
    {
      spotlightIntensity := Scale(factor, colour);
      precSpotlightIntensity := spotlightIntensity;
    }

    /** The colour edit or intensity slider of cube i. */
    method CubeEdited(i: nat, colour: Vec3, level: real, fromSlider: bool)
      requires Valid() && i < NB_CUBE
      modifies cubeIntensity, precCubeIntensity, cubeColor, preCubeColor
      ensures Valid() && State() == EditCube(old(State()), i, colour, level, fromSlider)
    {
      cubeIntensity[i] := Scale(level, colour);
      cubeColor[i] := CubeShownColour(colour, level, fromSlider);
      precCubeIntensity[i] := cubeIntensity[i];
      preCubeColor[i] := cubeColor[i];
    }
  }

  // ---------------------------------------------------------------------------
  // Normal-map toggle

  /**
   * ActiveNormalMap after one frame's panel: the _Off_/_On_ buttons are shown,
   * Off first, only while normaltexturecheck still holds.
   */
  function NormalMapToggle(normalTextureCheck: bool, activeNormalMap: real, normalOff: bool, normalOn: bool): (r: real)
    ensures !normalTextureCheck ==> r == activeNormalMap
    ensures normalTextureCheck && normalOff ==> r == 0.0
    ensures normalTextureCheck && !normalOff && normalOn ==> r == 1.0
    ensures !normalOff && !normalOn ==> r == activeNormalMap
  {
    if normalTextureCheck then
      if normalOff then 0.0 else if normalOn then 1.0 else activeNormalMap
    else activeNormalMap
  }

  /** ActiveNormalMap starts at 1 and only ever holds 0 or 1. */
  lemma NormalMapToggleIsBinary(normalTextureCheck: bool, activeNormalMap: real, normalOff: bool, normalOn: bool)
    requires activeNormalMap == 0.0 || activeNormalMap == 1.0
    ensures var r := NormalMapToggle(normalTextureCheck, activeNormalMap, normalOff, normalOn);
      r == 0.0 || r == 1.0
  {
  }

  // ---------------------------------------------------------------------------
  // Spotlight cutoffs

  /** The two cutoff angles (degrees) and the values their own sliders show. */
  datatype SpotCutoffs = SpotCutoffs(cutOff: real, outerCutOff: real, sliderCutOff: real, sliderOuterCutOff: real)

  /** The "Both CuteOff & Outer" slider: the cutoff takes the value and the outer cutoff 1.1 times it. */
  function BothCutoffs(s: SpotCutoffs, both: real): (r: SpotCutoffs)
    ensures r.cutOff == both && r.outerCutOff == both * 11.0 / 10.0
    ensures r.sliderCutOff == r.cutOff && r.sliderOuterCutOff == r.outerCutOff
  {
    SpotCutoffs(both, both * 11.0 / 10.0, both, both * 11.0 / 10.0)
  }

  /**
   * Right after the linked slider, on its range [0, 180], the soft edge is not
   * inverted: cutoff <= outer cutoff, strictly past 0. The individual sliders
   * below can invert it again.
   */
  lemma BothCutoffsOrdered(s: SpotCutoffs, both: real)
    requires 0.0 <= both <= 180.0
    ensures var r := BothCutoffs(s, both);
      r.cutOff <= r.outerCutOff && (both > 0.0 ==> r.cutOff < r.outerCutOff) && r.outerCutOff <= 198.0
  {
  }

  /** The "Dist CuteOff" slider: the cutoff takes the slider's value; the outer cutoff is left alone. */
  function CutoffSlider(s: SpotCutoffs, v: real): (r: SpotCutoffs)
    ensures r.cutOff == r.sliderCutOff == v
    ensures r.outerCutOff == s.outerCutOff && r.sliderOuterCutOff == s.sliderOuterCutOff
  {
    s.(cutOff := v, sliderCutOff := v)
  }

  /** The "Dist OuterCuteOff" slider: the outer cutoff takes the slider's value; the cutoff is left alone. */
  function OuterCutoffSlider(s: SpotCutoffs, v: real): (r: SpotCutoffs)
    ensures r.outerCutOff == r.sliderOuterCutOff == v
    ensures r.cutOff == s.cutOff && r.sliderCutOff == s.sliderCutOff
  {
    s.(outerCutOff := v, sliderOuterCutOff := v)
  }

  /** The three cutoff sliders of one frame, in panel order; None is a slider left untouched. */
  function CutoffPanel(s: SpotCutoffs, cut: Option<real>, outer: Option<real>, both: Option<real>): (r: SpotCutoffs)
    ensures both.Some? ==> r == BothCutoffs(s, both.value)
    ensures both.None? && outer.Some? ==> r.outerCutOff == outer.value
    ensures both.None? && cut.Some? ==> r.cutOff == cut.value
    ensures cut.None? && outer.None? && both.None? ==> r == s
  {
    var s1 := if cut.Some? then CutoffSlider(s, cut.value) else s;
    var s2 := if outer.Some? then OuterCutoffSlider(s1, outer.value) else s1;
    if both.Some? then BothCutoffs(s2, both.value) else s2
  }

  /** A frame that moves the linked slider ends with the soft edge in order, whatever else moved. */
  lemma CutoffPanelOrderedAfterBoth(s: SpotCutoffs, cut: Option<real>, outer: Option<real>, both: real)
    requires 0.0 <= both <= 180.0
    ensures var r := CutoffPanel(s, cut, outer, Some(both));
      r.cutOff <= r.outerCutOff && r.outerCutOff <= 198.0
  {
    BothCutoffsOrdered(CutoffPanel(s, cut, outer, None), both);
  }

  /** The individual sliders can invert the soft edge: outer cutoff 10 after the linked slider at 100. */
  lemma OuterCutoffSliderInverts(s: SpotCutoffs)
    ensures var r := OuterCutoffSlider(BothCutoffs(s, 100.0), 10.0);
      r.cutOff == 100.0 && r.outerCutOff == 10.0 && r.cutOff > r.outerCutOff
  {
  }

  // ---------------------------------------------------------------------------
  // Cameras

  datatype Camera = Camera(eye: Vec3, center: Vec3, up: Vec3)

  const Up: Vec3 := Vec3(0.0, 1.0, 0.0)

  /**
   * The default camera for scene bounds [bboxMin, bboxMax]: look at the box
   * centre from centre + diagonal when the diagonal points towards +z, and
   * otherwise from the side, along twice diagonal x up.
   */
  function DefaultCamera(bboxMin: Vec3, bboxMax: Vec3): (c: Camera)
    ensures c.center == Scale(0.5, Add(bboxMax, bboxMin)) && c.up == Up
    ensures var diag := Sub(bboxMax, bboxMin);
      c.eye == if diag.z > 0.0 then Add(c.center, diag) else Add(c.center, Scale(2.0, Cross(diag, Up)))
  {
    var center := Scale(0.5, Add(bboxMax, bboxMin));
    var diag := Sub(bboxMax, bboxMin);
    Camera(if diag.z > 0.0 then Add(center, diag) else Add(center, Scale(2.0, Cross(diag, Up))), center, Up)
  }

  /**
   * The side view lies level with the centre, at right angles to the diagonal,
   * and coincides with the centre (a degenerate view) exactly when the box is
   * flat in both x and z.
   */
  lemma DefaultCameraSideView(bboxMin: Vec3, bboxMax: Vec3)
    requires bboxMax.z - bboxMin.z <= 0.0
    ensures Sub(DefaultCamera(bboxMin, bboxMax).eye, DefaultCamera(bboxMin, bboxMax).center).y == 0.0
    ensures Dot(Sub(DefaultCamera(bboxMin, bboxMax).eye, DefaultCamera(bboxMin, bboxMax).center), Sub(bboxMax, bboxMin)) == 0.0
    ensures DefaultCamera(bboxMin, bboxMax).eye == DefaultCamera(bboxMin, bboxMax).center <==>
      bboxMax.x == bboxMin.x && bboxMax.z == bboxMin.z
  {
    var c := DefaultCamera(bboxMin, bboxMax);
    var diag := Sub(bboxMax, bboxMin);
    var offset := Vec3(-2.0 * diag.z, 0.0, 2.0 * diag.x);
    SideViewOffset(bboxMin, bboxMax);
    AddOffsetMoves(c.center, offset);
    assert Dot(offset, diag) == (-2.0 * diag.z) * diag.x + 0.0 * diag.y + (2.0 * diag.x) * diag.z;
  }

  lemma SideViewOffset(bboxMin: Vec3, bboxMax: Vec3)
    requires bboxMax.z - bboxMin.z <= 0.0
    ensures var diag := Sub(bboxMax, bboxMin);
      DefaultCamera(bboxMin, bboxMax).eye == Add(DefaultCamera(bboxMin, bboxMax).center, Vec3(-2.0 * diag.z, 0.0, 2.0 * diag.x))
  {
    var diag := Sub(bboxMax, bboxMin);
    assert Cross(diag, Up) == Vec3(-diag.z, 0.0, diag.x);
  }

  lemma AddOffsetMoves(p: Vec3, v: Vec3)
    ensures Sub(Add(p, v), p) == v
    ensures Add(p, v) == p <==> v == Zero3
  {
  }

  /** The front view: the eye differs from the centre by the diagonal, so never coincides with it. */
  lemma DefaultCameraFrontView(bboxMin: Vec3, bboxMax: Vec3)
    requires bboxMax.z - bboxMin.z > 0.0
    ensures var c := DefaultCamera(bboxMin, bboxMax);
      Sub(c.eye, c.center) == Sub(bboxMax, bboxMin) && c.eye != c.center
  {
  }

  datatype ControllerKind = Trackball | FirstPerson

  /** The camera controller in use, the camera it holds and the `currentcam` label index. */
  datatype CameraUi = CameraUi(controller: ControllerKind, camera: Camera, currentCam: int)

  /**
   * A click on the controller radio buttons (0 Trackball, 1 First Person): a
   * new Trackball starts from the default camera, a new First Person controller
   * takes over the current camera.
   */
  function SwitchController(s: CameraUi, selected: int, bboxMin: Vec3, bboxMax: Vec3): (r: CameraUi)
    ensures selected == 0 ==> r == CameraUi(Trackball, DefaultCamera(bboxMin, bboxMax), 0)
    ensures selected != 0 ==> r == CameraUi(FirstPerson, s.camera, 1)
  {
    if selected == 0 then CameraUi(Trackball, DefaultCamera(bboxMin, bboxMax), 0)
    else CameraUi(FirstPerson, s.camera, 1)
  }

  /** The label always names the controller in use. */
  lemma SwitchControllerLabel(s: CameraUi, selected: int, bboxMin: Vec3, bboxMax: Vec3)
    ensures var r := SwitchController(s, selected, bboxMin, bboxMax);
      (r.currentCam == 0 <==> r.controller == Trackball) && (r.currentCam == 1 <==> r.controller == FirstPerson)
  {
  }

  /** Trackball to First Person and back lands on the default camera, whatever the pose was. */
  lemma SwitchRoundTripResetsPose(s: CameraUi, bboxMin: Vec3, bboxMax: Vec3)
    ensures SwitchController(SwitchController(s, 1, bboxMin, bboxMax), 0, bboxMin, bboxMax).camera ==
            DefaultCamera(bboxMin, bboxMax)
    ensures SwitchController(s, 1, bboxMin, bboxMax).camera == s.camera
  {
  }
}
