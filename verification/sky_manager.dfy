/**
 * The sky manager's discrete state: whether the sky has been created and is
 * enabled, which weather effects (rain, particles) have scene objects, which
 * cloud textures and opacities the two cloud layers use, which colours the
 * updaters hold, and whether the night sky is shown. The state is grouped
 * into small records — rain, particles, clouds, atmosphere, night — and for
 * each one a function says what `setWeather` does to it; the class
 * `SkyManager` holds the records together with the sun's flags and the two
 * `Moon` objects, and its methods are proved against those functions.
 */
module Sky {
  import opened Options
  import opened Moons

  datatype Vec3 = Vec3(x: real, y: real, z: real)

  /** `osg::Vec4f()`: every component zero. */
  const Zero := Colour(0.0, 0.0, 0.0, 0.0)

  /** What the weather code hands the sky each frame (`WeatherResult`); the sun's disc colour is not modelled. */
  datatype WeatherResult = WeatherResult(
    rainEffect: string, rainFrequency: real, rainSpeed: real, windSpeed: real, isStorm: bool,
    particleEffect: string, cloudTexture: string, nextCloudTexture: string, cloudBlendFactor: real,
    fogColour: Colour, skyColour: Colour, cloudSpeed: real, glareView: real,
    nightFade: real, night: bool, effectFade: real)

  // ---------------------------------------------------------------------
  // Rain

  /**
   * The rain: the current rain effect, whether the rain node, particle
   * system and shooter exist, the rain fader (`None` when there is none,
   * else its alpha) and the rain parameters.
   */
  datatype Rain = Rain(effect: string, node: bool, particleSystem: bool, shooter: bool, fader: Option<real>,
                       frequency: real, speed: real, windSpeed: real, isStorm: bool)

  /** The rain objects exist together, and exactly while there is a rain effect. */
  predicate RainValid(r: Rain) {
    && r.particleSystem == r.node && r.shooter == r.node && r.fader.Some? == r.node
    && (r.node <==> r.effect != "")
  }

  /** Before any weather: no effect, no objects, frequency 1. */
  const NoRain := Rain("", false, false, false, None, 1.0, 0.0, 0.0, false)

  /** `createRain`: builds the node, particle system, shooter and a fader at alpha 1, unless the node exists. */
  function RainCreated(r: Rain): Rain {
    if r.node then r
    else r.(node := true, particleSystem := true, shooter := true, fader := Some(1.0))
  }

  /** `destroyRain`: drops the node and its objects, if there is a node. */
  function RainDestroyed(r: Rain): Rain {
    if !r.node then r
    else r.(node := false, particleSystem := false, shooter := false, fader := None)
  }

  /** The rain block of `setWeather`: objects follow a change of effect, the parameters are copied. */
  function RainApplied(r: Rain, w: WeatherResult): Rain {
    var r1 := if r.effect != w.rainEffect then
                var e := r.(effect := w.rainEffect);
                if w.rainEffect != "" then RainCreated(e) else RainDestroyed(e)
              else r;
    r1.(frequency := w.rainFrequency, speed := w.rainSpeed, windSpeed := w.windSpeed, isStorm := w.isStorm)
  }

  /** The end of `setWeather`: a rain fader takes 0.6 times the effect fade. */
  function RainFaded(r: Rain, w: WeatherResult): Rain {
    if r.fader.Some? then r.(fader := Some(w.effectFade * 0.6)) else r
  }

  /** The rain as `setWeather` leaves it. */
  function RainWeathered(r: Rain, w: WeatherResult): Rain {
    RainFaded(RainApplied(r, w), w)
  }

  /** The effect name and the rain parameters of two rains agree. */
  predicate SameRainParameters(a: Rain, b: Rain) {
    a.effect == b.effect && a.frequency == b.frequency && a.speed == b.speed
    && a.windSpeed == b.windSpeed && a.isStorm == b.isStorm
  }

  /**
   * Creating does nothing when a rain node exists and destroying does nothing
   * when none does; creating is idempotent and destroying removes every rain object; both keep the invariant's object part. */
  lemma RainLifecycle(r: Rain)
    requires r.particleSystem == r.node && r.shooter == r.node && r.fader.Some? == r.node
    ensures RainCreated(RainCreated(r)) == RainCreated(r)
    ensures RainDestroyed(RainDestroyed(r)) == RainDestroyed(r)
    ensures var c := RainCreated(r); c.node && c.particleSystem && c.shooter && c.fader.Some?
    ensures var d := RainDestroyed(r); !d.node && !d.particleSystem && !d.shooter && d.fader == None
    ensures !r.node ==> RainCreated(r).fader == Some(1.0)
    ensures r.node ==> RainCreated(r) == r
    ensures !r.node ==> RainDestroyed(r) == r
    ensures SameRainParameters(RainCreated(r), r) && SameRainParameters(RainDestroyed(r), r)
  {
  }

  /**
   * After `setWeather` the rain effect is the weather's, the rain objects
   * exist iff it is non-empty, the parameters are the weather's, and a fader
   * has 0.6 times the effect fade.
   */
  lemma RainWeatheredEffect(r: Rain, w: WeatherResult)
    requires RainValid(r)
    ensures var n := RainWeathered(r, w);
      && RainValid(n) && n.effect == w.rainEffect && (n.node <==> w.rainEffect != "")
      && n.frequency == w.rainFrequency && n.speed == w.rainSpeed && n.windSpeed == w.windSpeed
      && n.isStorm == w.isStorm
      && (n.fader.Some? ==> n.fader.value == w.effectFade * 0.6)
  {
  }

  // ---------------------------------------------------------------------
  // Weather particles

  /**
   * The particle effect: its name, whether the particle node and the effect
   * instance exist, and the alphas of the effect's faders.
   */
  datatype Particles = Particles(current: string, node: bool, effect: bool, faders: seq<real>)

  /** Node and effect exist exactly while an effect is named; without an effect there are no faders. */
  predicate ParticlesValid(p: Particles) {
    && (p.node <==> p.current != "")
    && (p.effect <==> p.current != "")
    && (!p.effect ==> p.faders == [])
  }

  const NoParticles := Particles("", false, false, [])

  /**
   * The particles as `setWeather` leaves them: on a change of effect the old
   * instance and its faders go; an empty name also drops the node, any other
   * name keeps or builds the node and instantiates the effect with
   * `faderCount` new faders at alpha 1; finally every fader takes the effect
   * fade.
   */
  function ParticlesWeathered(p: Particles, w: WeatherResult, faderCount: nat): Particles {
    ParticlesFaded(ParticlesApplied(p, w, faderCount), w)
  }

  /** The particle block of `setWeather`. */
  function ParticlesApplied(p: Particles, w: WeatherResult, faderCount: nat): Particles {
    if p.current == w.particleEffect then p
    else
      var a := p.(current := w.particleEffect);
      var b := if a.effect then a.(effect := false, faders := []) else a;
      if w.particleEffect == "" then
        if b.node then b.(node := false) else b
      else
        b.(node := true, effect := true, faders := seq(faderCount, _ => 1.0))
  }

  /** The end of `setWeather`: every particle fader takes the effect fade. */
  function ParticlesFaded(p: Particles, w: WeatherResult): Particles {
    p.(faders := seq(|p.faders|, _ => w.effectFade))
  }

  /**
   * After `setWeather` the effect is the weather's, node and instance exist
   * iff it is non-empty, a new effect has `faderCount` faders and an
   * unchanged one keeps its faders, and every fader has the effect fade.
   */
  lemma ParticlesWeatheredEffect(p: Particles, w: WeatherResult, faderCount: nat)
    requires ParticlesValid(p)
    ensures var n := ParticlesWeathered(p, w, faderCount);
      && ParticlesValid(n) && n.current == w.particleEffect
      && (n.node <==> w.particleEffect != "") && (n.effect <==> w.particleEffect != "")
      && (p.current != w.particleEffect && w.particleEffect != "" ==> |n.faders| == faderCount)
      && (p.current == w.particleEffect ==> |n.faders| == |p.faders|)
      && (forall i :: 0 <= i < |n.faders| ==> n.faders[i] == w.effectFade)
  {
  }

  // ---------------------------------------------------------------------
  // Clouds

  /**
   * The clouds: the current and next cloud texture names, the textures the
   * two cloud updaters hold ("" for none), the blend factor, the two
   * opacities, whether the second cloud mesh is shown, the last fog colour
   * the clouds were tinted for, the updaters' emission colour and the speed.
   */
  datatype Clouds = Clouds(clouds: string, nextClouds: string, texture: string, nextTexture: string,
                           blend: real, opacity: real, nextOpacity: real, nextVisible: bool,
                           colour: Colour, emission: Colour, speed: real)

  /** Nothing has been applied to the clouds yet. */
  predicate CloudsUnapplied(c: Clouds) {
    c.clouds == "" && c.nextClouds == "" && c.blend == 0.0
  }

  /** The layers' opacities and the second layer's visibility follow the blend factor; the updaters show the textures. */
  predicate CloudsValid(c: Clouds) {
    && c.opacity == 1.0 - c.blend && c.nextOpacity == c.blend && c.nextVisible == (c.blend > 0.0)
    && c.texture == c.clouds
    && (c.nextClouds != "" ==> c.nextTexture == c.nextClouds)
  }

  const NoClouds := Clouds("", "", "", "", 0.0, 0.0, 0.0, false, Zero, Zero, 0.0)

  /** `create`: fresh updaters (no texture, no emission), the first opaque, the second transparent and hidden. */
  function CloudsCreated(c: Clouds): Clouds {
    c.(texture := "", nextTexture := "", opacity := 1.0, nextOpacity := 0.0, nextVisible := false, emission := Zero)
  }

  /** The cloud fog tint: the fog colour brightened by 0.13 in each colour channel. */
  function Brightened(c: Colour): Colour {
    Colour(c.r + 0.13, c.g + 0.13, c.b + 0.13, c.a)
  }

  /**
   * The clouds as `setWeather` leaves them: textures follow a change of name
   * (the second layer's only when the new name is non-empty), opacities and
   * the second layer's visibility follow a change of blend factor, the
   * emission follows a change of fog colour, and the speed is copied.
   */
  function CloudsWeathered(c: Clouds, w: WeatherResult): Clouds {
    var c1 := if c.clouds != w.cloudTexture then c.(clouds := w.cloudTexture, texture := w.cloudTexture) else c;
    var c2 := if c1.nextClouds != w.nextCloudTexture then
                var n := c1.(nextClouds := w.nextCloudTexture);
                if w.nextCloudTexture != "" then n.(nextTexture := w.nextCloudTexture) else n
              else c1;
    var b := w.cloudBlendFactor;
    var c3 := if c2.blend != b then
                c2.(blend := b, opacity := 1.0 - b, nextOpacity := b, nextVisible := b > 0.0)
              else c2;
    var c4 := if c3.colour != w.fogColour then c3.(emission := Brightened(w.fogColour), colour := w.fogColour) else c3;
    c4.(speed := w.cloudSpeed)
  }

  lemma CloudsCreatedValid(c: Clouds)
    requires CloudsUnapplied(c)
    ensures CloudsValid(CloudsCreated(c))
  {
  }

  /**
   * After `setWeather` the first layer shows the weather's texture with
   * opacity 1 - b and the second has opacity b and is shown iff b > 0, for
   * the weather's blend factor b; a non-empty next texture is on the second
   * layer; the emission is the brightened fog colour once the fog colour has
   * been seen.
   */
  lemma CloudsWeatheredEffect(c: Clouds, w: WeatherResult)
    requires CloudsValid(c)
    ensures var n := CloudsWeathered(c, w);
      && CloudsValid(n)
      && n.clouds == w.cloudTexture && n.texture == w.cloudTexture && n.nextClouds == w.nextCloudTexture
      && n.blend == w.cloudBlendFactor
      && n.opacity == 1.0 - w.cloudBlendFactor && n.nextOpacity == w.cloudBlendFactor
      && n.nextVisible == (w.cloudBlendFactor > 0.0)
      && (w.nextCloudTexture != "" ==> n.nextTexture == w.nextCloudTexture)
      && n.colour == w.fogColour
      && (c.colour != w.fogColour ==> n.emission == Brightened(w.fogColour))
      && (c.colour == w.fogColour ==> n.emission == c.emission)
      && n.speed == w.cloudSpeed
  {
  }

  // ---------------------------------------------------------------------
  // Atmosphere colours

  /** The sky colour, the day atmosphere's emission colour, and the fog colour. */
  datatype Atmosphere = Atmosphere(skyColour: Colour, emission: Colour, fogColour: Colour)

  const NoAtmosphere := Atmosphere(Zero, Zero, Zero)

  /** The colours as `setWeather` leaves them: the emission follows a change of sky colour. */
  function AtmosphereWeathered(a: Atmosphere, w: WeatherResult): Atmosphere {
    var a1 := if a.skyColour != w.skyColour then a.(skyColour := w.skyColour, emission := w.skyColour) else a;
    if a1.fogColour != w.fogColour then a1.(fogColour := w.fogColour) else a1
  }

  /** After `setWeather` sky and fog colour are the weather's; the emission is the sky colour unless that was already current. */
  lemma AtmosphereWeatheredEffect(a: Atmosphere, w: WeatherResult)
    ensures var n := AtmosphereWeathered(a, w);
      && n.skyColour == w.skyColour && n.fogColour == w.fogColour
      && n.emission == (if a.skyColour != w.skyColour then w.skyColour else a.emission)
  {
  }

  // ---------------------------------------------------------------------
  // Night sky

  /** The stars' opacity, the fade the night updater holds, and whether the night sky node is shown. */
  datatype Night = Night(starsOpacity: real, starsFade: real, visible: bool)

  const NoNight := Night(0.0, 0.0, false)

  /** The night updater's fade is the stars' opacity. */
  predicate NightValid(n: Night) {
    n.starsFade == n.starsOpacity
  }

  /** `create`: a fresh night updater (fade 0) and a hidden night node. */
  function NightCreated(n: Night): Night {
    n.(starsFade := 0.0, visible := false)
  }

  /**
   * The night sky as `setWeather` leaves it: at night the stars take the
   * night fade times the glare view when that differs; the night node is
   * shown exactly at night.
   */
  function NightWeathered(n: Night, w: WeatherResult): Night {
    var next := Scaled(w.nightFade, w.glareView);
    var n1 := if w.night && n.starsOpacity != next then n.(starsOpacity := next, starsFade := next) else n;
    n1.(visible := w.night)
  }

  /** At night the stars' opacity is the night fade times the glare view; by day it is kept. */
  lemma NightWeatheredEffect(n: Night, w: WeatherResult)
    requires NightValid(n)
    ensures var m := NightWeathered(n, w);
      && NightValid(m) && m.visible == w.night
      && (w.night ==> m.starsOpacity == Scaled(w.nightFade, w.glareView))
      && (!w.night ==> m.starsOpacity == n.starsOpacity)
  {
  }

  // ---------------------------------------------------------------------
  // The moons under the weather

  /** The colour block of `setWeather` for one moon: a changed sky colour becomes its atmosphere colour. */
  function MoonTinted(m: MoonFields, sky: Colour, w: WeatherResult): (r: MoonFields)
    ensures r.atmosphereColour == if sky != w.skyColour then w.skyColour else m.atmosphereColour
    ensures r == m.(atmosphereColour := r.atmosphereColour)
  {
    if sky != w.skyColour then m.(atmosphereColour := w.skyColour) else m
  }

  /**
   * What `setWeather` does to one moon, given the sky colour before it: the
   * atmosphere colour follows a changed sky colour and the transparency is
   * scaled by the glare view; the phase, textures, moon colour, shadow blend
   * and visibility stay.
   */
  function MoonWeathered(m: MoonFields, sky: Colour, w: WeatherResult): (r: MoonFields)
    ensures r.transparency == Scaled(m.transparency, w.glareView)
    ensures r.atmosphereColour == if sky != w.skyColour then w.skyColour else m.atmosphereColour
    ensures r == m.(transparency := r.transparency, atmosphereColour := r.atmosphereColour)
    ensures FieldsValid(m) ==> FieldsValid(r)
  {
    var t := MoonTinted(m, sky, w);
    t.(transparency := Scaled(t.transparency, w.glareView))
  }

  // ---------------------------------------------------------------------
  // The whole state

  /**
   * The sky manager's state as a value. `sunVisible` and `sunDirection`
   * stand for the sun's node mask and position.
   */
  datatype SkyState = SkyState(
    created: bool, enabled: bool, rootVisible: bool, sunVisible: bool, sunDirection: Vec3,
    moonScriptColour: Colour, rain: Rain, particles: Particles, clouds: Clouds,
    atmosphere: Atmosphere, night: Night)

  /**
   * The sky manager's invariant: rain and particles are consistent; before
   * creation no weather has been applied (no rain, no particles, no cloud
   * texture, blend factor and stars' opacity 0); after it the cloud layers
   * and the night updater follow their state.
   */
  predicate ValidState(s: SkyState) {
    && RainValid(s.rain) && ParticlesValid(s.particles)
    && (!s.created ==>
          s.rain.effect == "" && s.particles.current == "" && CloudsUnapplied(s.clouds) && s.night.starsOpacity == 0.0)
    && (s.created ==> CloudsValid(s.clouds) && NightValid(s.night))
  }

  /** The state the constructor leaves: nothing created, the sky enabled and its root shown. */
  function InitialState(): (s: SkyState)
    ensures ValidState(s) && !s.created && s.enabled && s.rootVisible
  {
    SkyState(false, true, true, false, Vec3(0.0, 0.0, 0.0), Zero, NoRain, NoParticles, NoClouds, NoAtmosphere, NoNight)
  }

  /**
   * `create`: the sun is built and shown, the cloud layers and the night
   * updater start fresh, the atmosphere updater holds no colour, and the
   * script colour for Secunda is read from the settings.
   */
  function CreatedState(s: SkyState, scriptColour: Colour): SkyState {
    s.(created := true, sunVisible := true, moonScriptColour := scriptColour,
       clouds := CloudsCreated(s.clouds), atmosphere := s.atmosphere.(emission := Zero),
       night := NightCreated(s.night))
  }

  /** `setEnabled`: creates the sky the first time it is enabled; shows or hides the root. */
  function EnabledState(s: SkyState, enabled: bool, scriptColour: Colour): SkyState {
    var c := if enabled && !s.created then CreatedState(s, scriptColour) else s;
    c.(rootVisible := enabled, enabled := enabled)
  }

  /** `setWeather`: nothing before creation, then every part of the state as above. */
  function Weathered(s: SkyState, w: WeatherResult, faderCount: nat): SkyState {
    if !s.created then s
    else s.(rain := RainWeathered(s.rain, w), particles := ParticlesWeathered(s.particles, w, faderCount),
            clouds := CloudsWeathered(s.clouds, w), atmosphere := AtmosphereWeathered(s.atmosphere, w),
            night := NightWeathered(s.night, w))
  }

  /** Creation establishes the invariant. */
  lemma CreatedValid(s: SkyState, scriptColour: Colour)
    requires ValidState(s) && !s.created
    ensures ValidState(CreatedState(s, scriptColour))
  {
    CloudsCreatedValid(s.clouds);
  }

  /**
   * Enabling keeps the invariant, creates the sky exactly when it was not
   * yet created, never undoes creation, and makes the root follow the flag;
   * on a created sky only the two flags change.
   */
  lemma EnabledProperties(s: SkyState, enabled: bool, scriptColour: Colour)
    requires ValidState(s)
    ensures var e := EnabledState(s, enabled, scriptColour);
      && ValidState(e)
      && e.created == (s.created || enabled)
      && e.rootVisible == enabled && e.enabled == enabled
      && (s.created ==> e == s.(rootVisible := enabled, enabled := enabled))
      && (!s.created && enabled ==> e.sunVisible && e.moonScriptColour == scriptColour)
  {
    if enabled && !s.created {
      CreatedValid(s, scriptColour);
    }
  }

  /** `setWeather` keeps the invariant and does nothing before creation. */
  lemma WeatheredValid(s: SkyState, w: WeatherResult, faderCount: nat)
    requires ValidState(s)
    ensures ValidState(Weathered(s, w, faderCount))
    ensures !s.created ==> Weathered(s, w, faderCount) == s
  {
    if s.created {
      RainWeatheredEffect(s.rain, w);
      ParticlesWeatheredEffect(s.particles, w, faderCount);
      CloudsWeatheredEffect(s.clouds, w);
      NightWeatheredEffect(s.night, w);
    }
  }

  /**
   * Applying the same weather twice leaves the sky as applying it once (the
   * moons, whose transparency is scaled by every call, are not part of this
   * state).
   */
  lemma {:induction false} WeatheredIdempotent(s: SkyState, w: WeatherResult, faderCount: nat)
    requires ValidState(s)
    ensures Weathered(Weathered(s, w, faderCount), w, faderCount) == Weathered(s, w, faderCount)
  {
    if s.created {
      var once := Weathered(s, w, faderCount);
      RainWeatheredEffect(s.rain, w);
      ParticlesWeatheredEffect(s.particles, w, faderCount);
      CloudsWeatheredEffect(s.clouds, w);
      NightWeatheredEffect(s.night, w);
      AtmosphereWeatheredEffect(s.atmosphere, w);
      assert RainWeathered(once.rain, w) == once.rain;
      var p := ParticlesWeathered(once.particles, w, faderCount);
      assert p.faders == once.particles.faders;
      assert CloudsWeathered(once.clouds, w) == once.clouds;
      assert NightWeathered(once.night, w) == once.night;
    }
  }

  // ---------------------------------------------------------------------
  // The object

  class SkyManager {
    var created: bool
    var enabled: bool
    /** The root node's mask is the sky mask rather than 0. */
    var rootVisible: bool
    var masser: Moon?
    var secunda: Moon?
    var sunVisible: bool
    var sunDirection: Vec3
    var moonScriptColour: Colour
    var rain: Rain
    var particles: Particles
    var clouds: Clouds
    var atmosphere: Atmosphere
    var night: Night

    /** The fields as a value. */
    function State(): SkyState
      reads this
    {
      SkyState(created, enabled, rootVisible, sunVisible, sunDirection, moonScriptColour,
               rain, particles, clouds, atmosphere, night)
    }

    /** Two distinct moons of the right kinds, each consistent. */
    ghost predicate MoonsValid()
      reads this, masser, secunda
    {
      && masser != null && secunda != null && masser != secunda
      && masser.moonType == Masser && secunda.moonType == Secunda
      && masser.Valid() && secunda.Valid()
    }

    /** The state invariant, and once created the moons. */
    ghost predicate Valid()
      reads this, masser, secunda
    {
      ValidState(State()) && (created ==> MoonsValid())
    }

    constructor ()
      ensures Valid() && State() == InitialState()
      ensures masser == null && secunda == null
    {
      created := false;
      enabled := true;
      rootVisible := true;
      masser := null;
      secunda := null;
      sunVisible := false;
      sunDirection := Vec3(0.0, 0.0, 0.0);
      moonScriptColour := Zero;
      rain := NoRain;
      particles := NoParticles;
      clouds := NoClouds;
      atmosphere := NoAtmosphere;
      night := NoNight;
    }

    /** `create`: may run only once; builds the sun and both moons (each shown at full). */
    method Create(scriptColour: Colour)
      requires Valid() && !created
      modifies this
      ensures Valid()
      ensures created && sunVisible && moonScriptColour == scriptColour
      ensures clouds == CloudsCreated(old(clouds)) && night == NightCreated(old(night))
      ensures atmosphere == old(atmosphere).(emission := Zero)
      ensures unchanged(this`enabled, this`rootVisible, this`sunDirection, this`rain, this`particles)
      ensures fresh(masser) && fresh(secunda)
      ensures masser.Fields() == NewMoon(Masser) && secunda.Fields() == NewMoon(Secunda)
    {
      CreateMoons();
      night := night.(visible := false, starsFade := 0.0);
      atmosphere := atmosphere.(emission := Zero);
      sunVisible := true;
      clouds := clouds.(texture := "", nextTexture := "", opacity := 1.0, nextOpacity := 0.0,
                        nextVisible := false, emission := Zero);
      moonScriptColour := scriptColour;
      created := true;
      CloudsCreatedValid(old(clouds));
    }

    /** The moon part of `create`: a Masser and a Secunda, each shown at full. */
    method CreateMoons()
      modifies this`masser, this`secunda
      ensures MoonsValid() && fresh(masser) && fresh(secunda)
      ensures masser.Fields() == NewMoon(Masser) && secunda.Fields() == NewMoon(Secunda)
    {
      masser := new Moon(Masser);
      secunda := new Moon(Secunda);
    }

    /** `setEnabled`. */
    method SetEnabled(e: bool, scriptColour: Colour)
      requires Valid()
      modifies this
      ensures Valid()
      ensures State() == EnabledState(old(State()), e, scriptColour)
      ensures old(created) ==> masser == old(masser) && secunda == old(secunda)
      ensures !old(created) && e ==> fresh(masser) && fresh(secunda)
      ensures !old(created) && e ==> masser.Fields() == NewMoon(Masser) && secunda.Fields() == NewMoon(Secunda)
    {
      if e && !created {
        Create(scriptColour);
      }
      rootVisible := e;
      enabled := e;
    }

    /** `createRain`. */
    method CreateRain()
      modifies this`rain
      ensures rain == RainCreated(old(rain))
    {
      if rain.node {
        return;
      }
      rain := rain.(node := true, particleSystem := true, shooter := true);
      rain := rain.(fader := Some(1.0));
    }

    /** `destroyRain`. */
    method DestroyRain()
      modifies this`rain
      ensures rain == RainDestroyed(old(rain))
    {
      if !rain.node {
        return;
      }
      rain := rain.(node := false, particleSystem := false, shooter := false, fader := None);
    }

    /** The rain block of `setWeather`. */
    method UpdateRain(w: WeatherResult)
      modifies this`rain
      ensures rain == RainApplied(old(rain), w)
    {
      if rain.effect != w.rainEffect {
        rain := rain.(effect := w.rainEffect);
        if rain.effect != "" {
          CreateRain();
        } else {
          DestroyRain();
        }
      }
      rain := rain.(frequency := w.rainFrequency, speed := w.rainSpeed, windSpeed := w.windSpeed);
      rain := rain.(isStorm := w.isStorm);
    }

    /** The particle block of `setWeather`; `faderCount` faders are found in a new effect. */
    method UpdateParticles(w: WeatherResult, faderCount: nat)
      modifies this`particles
      ensures particles == ParticlesApplied(old(particles), w, faderCount)
    {
      if particles.current != w.particleEffect {
        particles := particles.(current := w.particleEffect);
        if particles.effect {
          particles := particles.(effect := false, faders := []);
        }
        if particles.current == "" {
          if particles.node {
            particles := particles.(node := false);
          }
        } else {
          if !particles.node {
            particles := particles.(node := true);
          }
          particles := particles.(effect := true, faders := seq(faderCount, _ => 1.0));
        }
      }
    }

    /** The cloud block of `setWeather`: textures, blend factor, fog tint and speed. */
    method UpdateClouds(w: WeatherResult)
      modifies this`clouds
      ensures clouds == CloudsWeathered(old(clouds), w)
    {
      if clouds.clouds != w.cloudTexture {
        clouds := clouds.(clouds := w.cloudTexture, texture := w.cloudTexture);
      }
      if clouds.nextClouds != w.nextCloudTexture {
        clouds := clouds.(nextClouds := w.nextCloudTexture);
        if clouds.nextClouds != "" {
          clouds := clouds.(nextTexture := w.nextCloudTexture);
        }
      }
      if clouds.blend != w.cloudBlendFactor {
        var b := w.cloudBlendFactor;
        clouds := clouds.(blend := b, opacity := 1.0 - b, nextOpacity := b, nextVisible := b > 0.0);
      }
      if clouds.colour != w.fogColour {
        clouds := clouds.(emission := Brightened(w.fogColour), colour := w.fogColour);
      }
      clouds := clouds.(speed := w.cloudSpeed);
    }

    /** The colour block of `setWeather`: sky colour (also the moons' atmosphere colour) and fog colour. */
    method UpdateColours(w: WeatherResult)
      requires created && MoonsValid()
      modifies this`atmosphere, masser, secunda
      ensures atmosphere == AtmosphereWeathered(old(atmosphere), w)
      ensures MoonsValid()
      ensures masser.Fields() == MoonTinted(old(masser.Fields()), old(atmosphere.skyColour), w)
      ensures secunda.Fields() == MoonTinted(old(secunda.Fields()), old(atmosphere.skyColour), w)
    {
      if atmosphere.skyColour != w.skyColour {
        atmosphere := atmosphere.(skyColour := w.skyColour, emission := w.skyColour);
        masser.SetAtmosphereColour(w.skyColour);
        secunda.SetAtmosphereColour(w.skyColour);
      }
      if atmosphere.fogColour != w.fogColour {
        atmosphere := atmosphere.(fogColour := w.fogColour);
      }
    }

    /** The stars, night node and fader block of `setWeather`. */
    method UpdateNight(w: WeatherResult)
      modifies this`night, this`rain, this`particles
      ensures night == NightWeathered(old(night), w)
      ensures rain == RainFaded(old(rain), w)
      ensures particles == ParticlesFaded(old(particles), w)
    {
      var nextStarsOpacity := Scaled(w.nightFade, w.glareView);
      if w.night && night.starsOpacity != nextStarsOpacity {
        night := night.(starsOpacity := nextStarsOpacity, starsFade := nextStarsOpacity);
      }
      night := night.(visible := w.night);
      if rain.fader.Some? {
        rain := rain.(fader := Some(w.effectFade * 0.6));
      }
      var faders := particles.faders;
      var i := 0;
      while i < |faders|
        invariant 0 <= i <= |faders| == |particles.faders|
        invariant forall k :: 0 <= k < i ==> faders[k] == w.effectFade
      {
        faders := faders[i := w.effectFade];
        i := i + 1;
      }
      assert faders == seq(|faders|, _ => w.effectFade);
      particles := particles.(faders := faders);
    }

    /**
     * `setWeather`. `faderCount` is the number of alpha faders the scene of a
     * newly loaded particle effect yields. Before `create` nothing changes;
     * afterwards every part of the sky and each moon takes its weathered
     * value.
     */
    method SetWeather(w: WeatherResult, faderCount: nat)
      requires Valid()
      modifies this`rain, this`particles, this`clouds, this`atmosphere, this`night, masser, secunda
      ensures Valid()
      ensures !old(created) ==> unchanged(this)
      ensures !old(created) && masser != null ==> unchanged(masser)
      ensures !old(created) && secunda != null ==> unchanged(secunda)
      ensures old(created) ==> rain == RainWeathered(old(rain), w)
      ensures old(created) ==> particles == ParticlesWeathered(old(particles), w, faderCount)
      ensures old(created) ==> clouds == CloudsWeathered(old(clouds), w)
      ensures old(created) ==> atmosphere == AtmosphereWeathered(old(atmosphere), w)
      ensures old(created) ==> night == NightWeathered(old(night), w)
      ensures old(created) ==> masser.Fields() == MoonWeathered(old(masser.Fields()), old(atmosphere.skyColour), w)
      ensures old(created) ==> secunda.Fields() == MoonWeathered(old(secunda.Fields()), old(atmosphere.skyColour), w)
    {
      if created {
        ApplyWeather(w, faderCount);
      }
    }

    /** The body of `setWeather` once the sky exists. */
    method ApplyWeather(w: WeatherResult, faderCount: nat)
      requires Valid() && created
      modifies this`rain, this`particles, this`clouds, this`atmosphere, this`night, masser, secunda
      ensures Valid()
      ensures rain == RainWeathered(old(rain), w)
      ensures particles == ParticlesWeathered(old(particles), w, faderCount)
      ensures clouds == CloudsWeathered(old(clouds), w)
      ensures atmosphere == AtmosphereWeathered(old(atmosphere), w)
      ensures night == NightWeathered(old(night), w)
      ensures masser.Fields() == MoonWeathered(old(masser.Fields()), old(atmosphere.skyColour), w)
      ensures secunda.Fields() == MoonWeathered(old(secunda.Fields()), old(atmosphere.skyColour), w)
    {
      RainWeatheredEffect(rain, w);
      ParticlesWeatheredEffect(particles, w, faderCount);
      CloudsWeatheredEffect(clouds, w);
      NightWeatheredEffect(night, w);
      UpdateEffects(w, faderCount);
      UpdateSky(w);
      UpdateNight(w);
    }

    /** The rain and particle-effect blocks of `setWeather`. */
    method UpdateEffects(w: WeatherResult, faderCount: nat)
      modifies this`rain, this`particles
      ensures rain == RainApplied(old(rain), w)
      ensures particles == ParticlesApplied(old(particles), w, faderCount)
    {
      UpdateRain(w);
      UpdateParticles(w, faderCount);
    }

    /** The cloud, colour and moon-transparency blocks of `setWeather`. */
    method UpdateSky(w: WeatherResult)
      requires created && MoonsValid()
      modifies this`clouds, this`atmosphere, masser, secunda
      ensures clouds == CloudsWeathered(old(clouds), w)
      ensures atmosphere == AtmosphereWeathered(old(atmosphere), w)
      ensures MoonsValid()
      ensures masser.Fields() == MoonWeathered(old(masser.Fields()), old(atmosphere.skyColour), w)
      ensures secunda.Fields() == MoonWeathered(old(secunda.Fields()), old(atmosphere.skyColour), w)
    {
      UpdateClouds(w);
      UpdateMoons(w);
    }

    /** The colour block and the moons' transparency scaling of `setWeather`. */
    method UpdateMoons(w: WeatherResult)
      requires created && MoonsValid()
      modifies this`atmosphere, masser, secunda
      ensures atmosphere == AtmosphereWeathered(old(atmosphere), w)
      ensures MoonsValid()
      ensures masser.Fields() == MoonWeathered(old(masser.Fields()), old(atmosphere.skyColour), w)
      ensures secunda.Fields() == MoonWeathered(old(secunda.Fields()), old(atmosphere.skyColour), w)
    {
      UpdateColours(w);
      masser.AdjustTransparency(w.glareView);
      secunda.AdjustTransparency(w.glareView);
    }

    /** `getMasserPhase`: 0 before creation, Masser's phase integer after. */
    method GetMasserPhase() returns (n: int)
      requires Valid()
      ensures n == if created then PhaseInt(masser.phase) else 0
      ensures 0 <= n <= 4
    {
      if !created {
        return 0;
      }
      n := PhaseInt(masser.phase);
    }

    /** `getSecundaPhase`: 0 before creation, Secunda's phase integer after. */
    method GetSecundaPhase() returns (n: int)
      requires Valid()
      ensures n == if created then PhaseInt(secunda.phase) else 0
      ensures 0 <= n <= 4
    {
      if !created {
        return 0;
      }
      n := PhaseInt(secunda.phase);
    }

    /** `setMoonColour`: Secunda takes the script colour when red, white otherwise. */
    method SetMoonColour(red: bool)
      requires Valid()
      modifies secunda
      ensures Valid()
      ensures created ==> secunda.Fields() == old(secunda.Fields()).(moonColour := if red then moonScriptColour else White)
      ensures !created && secunda != null ==> unchanged(secunda)
    {
      if !created {
        return;
      }
      secunda.SetColour(if red then moonScriptColour else White);
    }

    /** `sunEnable`. */
    method SunEnable()
      requires Valid()
      modifies this
      ensures Valid()
      ensures State() == if created then old(State()).(sunVisible := true) else old(State())
      ensures masser == old(masser) && secunda == old(secunda)
    {
      if !created {
        return;
      }
      sunVisible := true;
    }

    /** `sunDisable`. */
    method SunDisable()
      requires Valid()
      modifies this
      ensures Valid()
      ensures State() == if created then old(State()).(sunVisible := false) else old(State())
      ensures masser == old(masser) && secunda == old(secunda)
    {
      if !created {
        return;
      }
      sunVisible := false;
    }

    /** `setSunDirection`. */
    method SetSunDirection(d: Vec3)
      requires Valid()
      modifies this
      ensures Valid()
      ensures State() == if created then old(State()).(sunDirection := d) else old(State())
      ensures masser == old(masser) && secunda == old(secunda)
    {
      if !created {
        return;
      }
      sunDirection := d;
    }

    /** `setMasserState`. */
    method SetMasserState(ms: MoonState)
      requires Valid()
      modifies masser
      ensures Valid()
      ensures created ==> masser.Fields() == StateApplied(old(masser.Fields()), ms)
      ensures !created && masser != null ==> unchanged(masser)
    {
      if !created {
        return;
      }
      masser.SetState(ms);
    }

    /** `setSecundaState`. */
    method SetSecundaState(ms: MoonState)
      requires Valid()
      modifies secunda
      ensures Valid()
      ensures created ==> secunda.Fields() == StateApplied(old(secunda.Fields()), ms)
      ensures !created && secunda != null ==> unchanged(secunda)
    {
      if !created {
        return;
      }
      secunda.SetState(ms);
    }
  }
}
