/**
 * The two moons of the sky: the phase → integer mapping scripts read, the
 * phase → texture-file name the moon quad shows, and the `Moon` object whose
 * phase, textures, transparency and colours the sky manager updates.
 */
module Moons {
  import opened Options

  /** `MoonState::Phase`, with the `Unspecified` value a moon starts from. */
  datatype Phase = Full | WaningGibbous | ThirdQuarter | WaningCrescent | New
                 | WaxingCrescent | FirstQuarter | WaxingGibbous | Unspecified

  datatype MoonType = Masser | Secunda

  /** An RGBA colour (`osg::Vec4f`), components as reals. */
  datatype Colour = Colour(r: real, g: real, b: real, a: real)

  const White := Colour(1.0, 1.0, 1.0, 1.0)

  /** The state the weather code computes for a moon each frame. */
  datatype MoonState = MoonState(rotationFromHorizon: real, rotationFromNorth: real, phase: Phase,
                                 shadowBlend: real, moonAlpha: real)

  /**
   * `getPhaseInt`: quarters of the disc lit, 0 (new) .. 4 (full), the same
   * for the waxing and the waning half; a phase outside the eight gives 0.
   */
  function PhaseInt(p: Phase): (n: nat)
    ensures n <= 4
    ensures n == 0 <==> p == New || p == Unspecified
    ensures n == 4 <==> p == Full
  {
    match p
    case New => 0
    case WaxingCrescent => 1
    case WaningCrescent => 1
    case FirstQuarter => 2
    case ThirdQuarter => 2
    case WaxingGibbous => 3
    case WaningGibbous => 3
    case Full => 4
    case Unspecified => 0
  }

  predicate Waxing(p: Phase) {
    p == WaxingCrescent || p == FirstQuarter || p == WaxingGibbous
  }

  predicate Waning(p: Phase) {
    p == WaningCrescent || p == ThirdQuarter || p == WaningGibbous
  }

  /** The waning phase with as much of the disc lit as a waxing one, and back. */
  function Mirror(p: Phase): Phase {
    match p
    case WaxingCrescent => WaningCrescent
    case FirstQuarter => ThirdQuarter
    case WaxingGibbous => WaningGibbous
    case WaningCrescent => WaxingCrescent
    case ThirdQuarter => FirstQuarter
    case WaningGibbous => WaxingGibbous
    case _ => p
  }

  /** The integer does not tell waxing from waning, and nothing else is confused. */
  lemma PhaseIntIgnoresDirection(p: Phase, q: Phase)
    requires p != Unspecified && q != Unspecified
    ensures PhaseInt(p) == PhaseInt(q) <==> q == p || q == Mirror(p)
  {
  }

  /** The name part of a moon's textures. */
  function MoonName(t: MoonType): string {
    if t == Secunda then "secunda_" else "masser_"
  }

  /** The phase part of the phase texture's name; nothing for an unspecified phase. */
  function PhaseSuffix(p: Phase): string {
    if p == New then "new"
    else if p == WaxingCrescent then "one_wax"
    else if p == FirstQuarter then "half_wax"
    else if p == WaxingGibbous then "three_wax"
    else if p == WaningCrescent then "one_wan"
    else if p == ThirdQuarter then "half_wan"
    else if p == WaningGibbous then "three_wan"
    else if p == Full then "full"
    else ""
  }

  const TexturePrefix := "textures/tx_"
  const TextureExtension := ".dds"

  /** The phase texture `setPhase` loads. */
  function PhaseTextureName(t: MoonType, p: Phase): string {
    TexturePrefix + (MoonName(t) + PhaseSuffix(p)) + TextureExtension
  }

  /** The circle (shadow) texture: the Secunda one for Secunda, the Masser one otherwise. */
  function CircleTextureName(t: MoonType): string {
    if t == Secunda then "textures/tx_mooncircle_full_s.dds" else "textures/tx_mooncircle_full_m.dds"
  }

  /** The number word a texture name uses for 1, 2 and 3 lit quarters. */
  function CountWord(n: nat): string {
    if n == 1 then "one" else if n == 2 then "half" else "three"
  }

  /**
   * The texture name spells out `getPhaseInt`: a crescent, quarter or
   * gibbous phase is named by its number of lit quarters and its direction.
   */
  lemma SuffixSpellsPhaseInt(p: Phase)
    ensures p == New ==> PhaseSuffix(p) == "new" && PhaseInt(p) == 0
    ensures p == Full ==> PhaseSuffix(p) == "full" && PhaseInt(p) == 4
    ensures Waxing(p) ==> PhaseSuffix(p) == CountWord(PhaseInt(p)) + "_wax"
    ensures Waning(p) ==> PhaseSuffix(p) == CountWord(PhaseInt(p)) + "_wan"
  {
  }

  /** The phase a texture suffix names. */
  function ParseSuffix(s: string): Option<Phase> {
    if s == "new" then Some(New)
    else if s == "one_wax" then Some(WaxingCrescent)
    else if s == "half_wax" then Some(FirstQuarter)
    else if s == "three_wax" then Some(WaxingGibbous)
    else if s == "one_wan" then Some(WaningCrescent)
    else if s == "half_wan" then Some(ThirdQuarter)
    else if s == "three_wan" then Some(WaningGibbous)
    else if s == "full" then Some(Full)
    else if s == "" then Some(Unspecified)
    else None
  }

  /** The moon whose name a texture body starts with, if any. */
  function MoonPrefixOf(body: string): (r: Option<MoonType>)
    ensures r.Some? ==> |MoonName(r.value)| <= |body| && body[..|MoonName(r.value)|] == MoonName(r.value)
  {
    if |body| >= 8 && body[..8] == "secunda_" then Some(Secunda)
    else if |body| >= 7 && body[..7] == "masser_" then Some(Masser)
    else None
  }

  /** The moon and phase a texture body (the name without prefix and extension) stands for. */
  function ParseBody(body: string): Option<(MoonType, Phase)> {
    match MoonPrefixOf(body)
    case None => None
    case Some(t) =>
      match ParseSuffix(body[|MoonName(t)|..])
      case Some(p) => Some((t, p))
      case None => None
  }

  /** The moon and phase a phase-texture name stands for, if it is one. */
  function ParsePhaseTexture(name: string): Option<(MoonType, Phase)> {
    if |name| < |TexturePrefix| + |TextureExtension|
      || name[..|TexturePrefix|] != TexturePrefix
      || name[|name| - |TextureExtension|..] != TextureExtension
    then None
    else ParseBody(name[|TexturePrefix|..|name| - |TextureExtension|])
  }

  /** Every phase suffix reads back as its phase. */
  lemma ParseSuffixRoundTrip(p: Phase)
    ensures ParseSuffix(PhaseSuffix(p)) == Some(p)
  {
  }

  /** A name cut into prefix, body and extension gives each back. */
  lemma SplitName(pre: string, body: string, ext: string)
    ensures var n := pre + body + ext;
      |n| >= |pre| + |ext| && n[..|pre|] == pre && n[|n| - |ext|..] == ext && n[|pre|..|n| - |ext|] == body
  {
  }

  /** The moon part of a texture body is recognised, and what follows it is the suffix. */
  lemma MoonOf(t: MoonType, suffix: string)
    ensures MoonPrefixOf(MoonName(t) + suffix) == Some(t)
    ensures (MoonName(t) + suffix)[|MoonName(t)|..] == suffix
  {
    var body := MoonName(t) + suffix;
    assert body[..|MoonName(t)|] == MoonName(t);
    if t == Masser {
      assert body[..7] == "masser_";
      assert body[0] == 'm';
    } else {
      assert body[..8] == "secunda_";
    }
  }

  /** A texture body built from a moon and a phase reads back as that moon and phase. */
  lemma ParseBodyRoundTrip(t: MoonType, p: Phase)
    ensures ParseBody(MoonName(t) + PhaseSuffix(p)) == Some((t, p))
  {
    MoonOf(t, PhaseSuffix(p));
    ParseSuffixRoundTrip(p);
  }

  /** Every phase texture name can be read back: the moon and the phase are recoverable. */
  lemma PhaseTextureRoundTrip(t: MoonType, p: Phase)
    ensures ParsePhaseTexture(PhaseTextureName(t, p)) == Some((t, p))
  {
    SplitName(TexturePrefix, MoonName(t) + PhaseSuffix(p), TextureExtension);
    ParseBodyRoundTrip(t, p);
  }

  /** Different moons or phases never share a phase texture. */
  lemma PhaseTextureInjective(t1: MoonType, p1: Phase, t2: MoonType, p2: Phase)
    requires PhaseTextureName(t1, p1) == PhaseTextureName(t2, p2)
    ensures t1 == t2 && p1 == p2
  {
    PhaseTextureRoundTrip(t1, p1);
    PhaseTextureRoundTrip(t2, p2);
  }

  /** `x` scaled by `ratio` (a product of two floats). */
  function Scaled(x: real, ratio: real): real {
    x * ratio
  }

  /** The fields of a `Moon` as a value: the moon's kind, phase, textures, updater values and visibility. */
  datatype MoonFields = MoonFields(moonType: MoonType, phase: Phase, phaseTexture: string, circleTexture: string,
                                   transparency: real, shadowBlend: real, atmosphereColour: Colour,
                                   moonColour: Colour, visible: bool)

  /** The textures match the moon and its current phase. */
  predicate FieldsValid(f: MoonFields) {
    f.phaseTexture == PhaseTextureName(f.moonType, f.phase) && f.circleTexture == CircleTextureName(f.moonType)
  }

  /** A moon as its constructor leaves it: set to full, shown, opaque, unshadowed and white. */
  function NewMoon(t: MoonType): (f: MoonFields)
    ensures FieldsValid(f) && f.moonType == t && PhaseInt(f.phase) == 4 && f.visible
  {
    MoonFields(t, Full, PhaseTextureName(t, Full), CircleTextureName(t), 1.0, 1.0, White, White, true)
  }

  /**
   * `setState` on a consistent moon: the state's phase with its textures, the
   * state's alpha and shadow blend; the colours and the visibility are kept.
   */
  function StateApplied(f: MoonFields, s: MoonState): (r: MoonFields)
    ensures FieldsValid(r) && r.moonType == f.moonType
    ensures r.phase == s.phase && r.transparency == s.moonAlpha && r.shadowBlend == s.shadowBlend
    ensures r.atmosphereColour == f.atmosphereColour && r.moonColour == f.moonColour && r.visible == f.visible
  {
    f.(phase := s.phase, phaseTexture := PhaseTextureName(f.moonType, s.phase),
       circleTexture := CircleTextureName(f.moonType), transparency := s.moonAlpha, shadowBlend := s.shadowBlend)
  }

  class Moon {
    const moonType: MoonType
    /** `mPhase`. */
    var phase: Phase
    /** The phase and circle textures held by the moon's state updater. */
    var phaseTexture: string
    var circleTexture: string
    var transparency: real
    var shadowBlend: real
    var atmosphereColour: Colour
    var moonColour: Colour
    /** Whether the moon's transform node is shown (node mask ~0 rather than 0). */
    var visible: bool

    /** The fields as a value. */
    function Fields(): MoonFields
      reads this
    {
      MoonFields(moonType, phase, phaseTexture, circleTexture, transparency, shadowBlend,
                 atmosphereColour, moonColour, visible)
    }

    /** The textures always match the moon and its current phase. */
    ghost predicate Valid()
      reads this
    {
      FieldsValid(Fields())
    }

    /** A new moon object starts unspecified, is set to full and shown. */
    constructor (t: MoonType)
      ensures Valid()
      ensures Fields() == NewMoon(t)
    {
      moonType := t;
      phase := Unspecified;
      phaseTexture := "";
      circleTexture := "";
      transparency := 1.0;
      shadowBlend := 1.0;
      atmosphereColour := White;
      moonColour := White;
      visible := true;
      new;
      SetPhase(Full);
      SetVisible(true);
    }

    /**
     * `setPhase`: nothing happens when the phase is unchanged; otherwise the
     * phase is recorded and both textures are chosen for it.
     */
    method SetPhase(p: Phase)
      modifies this
      ensures phase == p
      ensures old(phase) == p ==> unchanged(this)
      ensures old(phase) != p ==> Valid()
      ensures old(phase) != p ==> Fields() == old(Fields()).(phase := p, phaseTexture := PhaseTextureName(moonType, p),
                                                           circleTexture := CircleTextureName(moonType))
    {
      if phase == p {
        return;
      }
      phase := p;
      var name := TexturePrefix + MoonName(moonType);
      name := name + PhaseSuffix(p);
      name := name + TextureExtension;
      phaseTexture := name;
      circleTexture := CircleTextureName(moonType);
    }

    /** `setVisible`. */
    method SetVisible(v: bool)
      modifies this
      ensures Fields() == old(Fields()).(visible := v)
    {
      visible := v;
    }

    /** `setState`: the phase (through `setPhase`), the transparency and the shadow blend. */
    method SetState(s: MoonState)
      requires Valid()
      modifies this
      ensures Valid()
      ensures Fields() == StateApplied(old(Fields()), s)
    {
      SetPhase(s.phase);
      transparency := s.moonAlpha;
      shadowBlend := s.shadowBlend;
    }

    /** `adjustTransparency`: scale the transparency by `ratio`. */
    method AdjustTransparency(ratio: real)
      modifies this
      ensures Fields() == old(Fields()).(transparency := Scaled(old(transparency), ratio))
    {
      transparency := Scaled(transparency, ratio);
    }

    /** `setColor`. */
    method SetColour(c: Colour)
      modifies this
      ensures Fields() == old(Fields()).(moonColour := c)
    {
      moonColour := c;
    }

    /** `setAtmosphereColor`. */
    method SetAtmosphereColour(c: Colour)
      modifies this
      ensures Fields() == old(Fields()).(atmosphereColour := c)
    {
      atmosphereColour := c;
    }
  }
}
