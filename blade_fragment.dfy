/** The arithmetic of the grass fragment shader: a green gradient up the blade, blended
    toward a dry gradient by the major height noise, then faded to white by distance
    fog. The distance length(vPos) is taken as an input: the view transform and the
    square root behind it are not modelled. */
module BladeFragment {
  import opened Glsl

  /** A colour given in 0..255 channel units, as the shader writes vec3(r, g, b) / 255. */
  function Rgb255(r: real, g: real, b: real): (c: Vec3)
    ensures 0.0 <= r <= 255.0 ==> 0.0 <= c.x <= 1.0
    ensures 0.0 <= g <= 255.0 ==> 0.0 <= c.y <= 1.0
    ensures 0.0 <= b <= 255.0 ==> 0.0 <= c.z <= 1.0
  {
    Vec3(r / 255.0, g / 255.0, b / 255.0)
  }

  /** The ends of the two gradients: c runs from LushRoot to LushTip, c2 from DryRoot to DryTip. */
  const LushRoot: Vec3 := Rgb255(40.0, 80.0, 5.0)
  const LushTip: Vec3 := Rgb255(65.0, 152.0, 10.0)
  const DryRoot: Vec3 := Rgb255(90.0, 100.0, 2.0)
  const DryTip: Vec3 := Rgb255(216.0, 242.0, 100.0)
  const White: Vec3 := Vec3(1.0, 1.0, 1.0)

  /** The weight of the dry gradient: hDiff * 1.5. It is 0 at hDiff = 0, reaches 1 at
      hDiff = 2/3 and 1.5 at hDiff = 1, so an hDiff in [0, 1] weighs up to 1.5. */
  function DryWeight(hDiff: real): (w: real)
    ensures hDiff == 0.0 ==> w == 0.0
    ensures hDiff == 2.0 / 3.0 ==> w == 1.0
    ensures 0.0 <= hDiff <= 1.0 ==> 0.0 <= w <= 1.5
    ensures 0.0 <= w <= 1.0 <==> 0.0 <= hDiff <= 2.0 / 3.0
  {
    hDiff * 1.5
  }

  /** The four gradient ends are valid colours, and each gradient brightens from root
      to tip in every channel. */
  lemma GradientEnds()
    ensures var ends := [LushRoot, LushTip, DryRoot, DryTip];
            forall k :: 0 <= k < |ends| ==>
              0.0 <= ends[k].x <= 1.0 && 0.0 <= ends[k].y <= 1.0 && 0.0 <= ends[k].z <= 1.0
    ensures LushRoot.x < LushTip.x && LushRoot.y < LushTip.y && LushRoot.z < LushTip.z
    ensures DryRoot.x < DryTip.x && DryRoot.y < DryTip.y && DryRoot.z < DryTip.z
  {
  }

  /** fog = smoothstep(-5.0, 25.0, dist): none up to distance -5, full from distance 25. */
  function Fog(dist: real): (f: real)
    ensures 0.0 <= f <= 1.0
    ensures dist <= -5.0 ==> f == 0.0
    ensures 25.0 <= dist ==> f == 1.0
  {
    Smoothstep(-5.0, 25.0, dist)
  }

  /** wcp: the blade's colour before fog, c = mix(LushRoot, LushTip, h) blended toward
      c2 = mix(DryRoot, DryTip, h) by hDiff * 1.5. */
  function BaseColour(h: real, hDiff: real): (c: Vec3)
    ensures hDiff == 0.0 ==> c == Mix3(LushRoot, LushTip, h)
    ensures DryWeight(hDiff) == 1.0 ==> c == Mix3(DryRoot, DryTip, h)
    ensures h == 0.0 ==> c == Mix3(LushRoot, DryRoot, DryWeight(hDiff))
    ensures h == 1.0 ==> c == Mix3(LushTip, DryTip, DryWeight(hDiff))
  {
    Mix3(Mix3(LushRoot, LushTip, h), Mix3(DryRoot, DryTip, h), DryWeight(hDiff))
  }

  /** The fragment shader's main: the fogged colour, fully opaque. */
  function FragmentMain(h: real, hDiff: real, dist: real): (colour: Vec4)
    ensures colour.w == 1.0
    ensures 25.0 <= dist ==> colour == Vec4(1.0, 1.0, 1.0, 1.0)
    ensures dist <= -5.0 ==> colour.Xyz() == BaseColour(h, hDiff)
  {
    var wc := Mix3(BaseColour(h, hDiff), White, Fog(dist));
    Vec4(wc.x, wc.y, wc.z, 1.0)
  }

  /** Fog only ever thickens with distance. */
  lemma FogMonotone(d1: real, d2: real)
    requires d1 <= d2
    ensures Fog(d1) <= Fog(d2)
  {
    SmoothstepMonotone(-5.0, 25.0, d1, d2);
  }

  /** At distance 0 the fog is already 2/27, and a length is never negative: no
      fragment is drawn unfogged. */
  lemma {:induction false} FogFloor(dist: real)
    requires 0.0 <= dist
    ensures 2.0 / 27.0 <= Fog(dist)
  {
    assert Clamp((0.0 - -5.0) / (25.0 - -5.0), 0.0, 1.0) == 1.0 / 6.0;
    assert Fog(0.0) == 2.0 / 27.0;
    FogMonotone(0.0, dist);
  }

  /** vPos = modelViewMatrix * vec4(pos, 1.0), and an affine model-view matrix keeps
      its w component at 1, so dist = length(vPos) is at least 1 and the fog at least
      13/125. */
  lemma {:induction false} FogFloorAffine(dist: real)
    requires 1.0 <= dist
    ensures 13.0 / 125.0 <= Fog(dist)
  {
    assert Clamp((1.0 - -5.0) / (25.0 - -5.0), 0.0, 1.0) == 1.0 / 5.0;
    assert Fog(1.0) == 13.0 / 125.0;
    FogMonotone(1.0, dist);
  }

  /** Fog pulls every channel toward white and never past it: a channel of the base
      colour at most 1 ends between its base value and 1. */
  lemma FogTowardWhite(h: real, hDiff: real, dist: real)
    ensures var base := BaseColour(h, hDiff);
            var colour := FragmentMain(h, hDiff, dist);
            (base.x <= 1.0 ==> base.x <= colour.x <= 1.0) &&
            (base.y <= 1.0 ==> base.y <= colour.y <= 1.0) &&
            (base.z <= 1.0 ==> base.z <= colour.z <= 1.0)
  {
  }

  /** The base colour is the blend, by h, of its values at the root and at the tip:
      blending the gradients by h and then by hDiff is blending by hDiff and then by h. */
  lemma {:induction false} BaseColourBlendsRootToTip(h: real, hDiff: real)
    ensures BaseColour(h, hDiff) == Mix3(BaseColour(0.0, hDiff), BaseColour(1.0, hDiff), h)
  {
    var a := DryWeight(hDiff);
    MixCommutes(LushRoot.x, LushTip.x, DryRoot.x, DryTip.x, h, a);
    MixCommutes(LushRoot.y, LushTip.y, DryRoot.y, DryTip.y, h, a);
    MixCommutes(LushRoot.z, LushTip.z, DryRoot.z, DryTip.z, h, a);
  }

  /** Within the blade (h in [0, 1]) and with the dry weight in [0, 1] every channel of
      the base colour is a valid intensity. */
  lemma {:induction false} BaseColourInUnitCube(h: real, hDiff: real)
    requires 0.0 <= h <= 1.0 && 0.0 <= DryWeight(hDiff) <= 1.0
    ensures var c := BaseColour(h, hDiff);
            0.0 <= c.x <= 1.0 && 0.0 <= c.y <= 1.0 && 0.0 <= c.z <= 1.0
  {
    var lush, dry := Mix3(LushRoot, LushTip, h), Mix3(DryRoot, DryTip, h);
    UnitBlend(lush.x, dry.x, DryWeight(hDiff));
    UnitBlend(lush.y, dry.y, DryWeight(hDiff));
    UnitBlend(lush.z, dry.z, DryWeight(hDiff));
  }

  /** hDiff runs up to 1, so the dry weight runs up to 1.5 and the blend extrapolates
      past the dry gradient: at the tip with hDiff = 1 the green channel is 287/255,
      above full intensity, before the GPU clamps it. */
  lemma TipGreenOverflows()
    ensures BaseColour(1.0, 1.0).y == 287.0 / 255.0
  {
  }

  lemma UnitBlend(x: real, y: real, a: real)
    requires 0.0 <= x <= 1.0 && 0.0 <= y <= 1.0 && 0.0 <= a <= 1.0
    ensures 0.0 <= Mix(x, y, a) <= 1.0
  {
  }
}
