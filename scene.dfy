/** The sensor scene (ChScene): a growable list of point lights, background
    and fog settings, and the dirty flags that tell the renderer what changed. */
module Scene {
  import opened Common

  /** `ChColor`: red, green and blue components. */
  datatype Color = Color(r: real, g: real, b: real)

  /** The device-side `PointLight` record. */
  datatype PointLight = PointLight(pos: Vec3, color: Vec3, maxRange: real)

  datatype BackgroundMode = SolidColor | Gradient | EnvironmentMap

  datatype Background = Background(mode: BackgroundMode, colorZenith: Vec3, colorHorizon: Vec3, envTex: string)

  /** `ChClamp(value, lo, hi)`: lo below the range, hi above it, value otherwise. */
  function Clamp(value: real, lo: real, hi: real): (r: real)
    ensures lo <= hi ==> lo <= r <= hi
    ensures lo <= value <= hi ==> r == value
    ensures value < lo ==> r == lo
    ensures lo <= hi < value ==> r == hi
  {
    if value < lo then lo else if value > hi then hi else value
  }

  predicate InUnitCube(v: Vec3) {
    0.0 <= v.x <= 1.0 && 0.0 <= v.y <= 1.0 && 0.0 <= v.z <= 1.0
  }

  /** `ChVector`'s `operator<`: every component of `a` below that of `b`. */
  predicate AllLess(a: Vec3, b: Vec3) {
    a.x < b.x && a.y < b.y && a.z < b.z
  }

  /** Component-wise `lo <= v <= hi`. */
  predicate Between(v: Vec3, lo: Vec3, hi: Vec3) {
    lo.x <= v.x <= hi.x && lo.y <= v.y <= hi.y && lo.z <= v.z <= hi.z
  }

  /** The single-type `ChClamp` template instantiated at `ChVector`: its two
      comparisons hold only when all three components compare that way. */
  function ClampVecAsWritten(v: Vec3, lo: Vec3, hi: Vec3): (r: Vec3)
    ensures Between(v, lo, hi) ==> r == v
    ensures AllLess(v, lo) ==> r == lo
    ensures !AllLess(v, lo) && AllLess(hi, v) ==> r == hi
    ensures !AllLess(v, lo) && !AllLess(hi, v) ==> r == v
  {
    if AllLess(v, lo) then lo else if AllLess(hi, v) then hi else v
  }

  /** A colour with only one component out of range passes the as-written
      clamp unchanged and stays outside the unit cube; the component-wise
      clamp brings it inside. */
  lemma AsWrittenFogClampKeepsMixedColour()
    ensures ClampVecAsWritten(Vec3(-0.5, 0.5, 0.5), Vec3(0.0, 0.0, 0.0), Vec3(1.0, 1.0, 1.0)) == Vec3(-0.5, 0.5, 0.5)
    ensures !InUnitCube(ClampVecAsWritten(Vec3(-0.5, 0.5, 0.5), Vec3(0.0, 0.0, 0.0), Vec3(1.0, 1.0, 1.0)))
    ensures ClampUnit(Vec3(-0.5, 0.5, 0.5)) == Vec3(0.0, 0.5, 0.5)
  {
  }

  /** On colours whose components are all below, all above or all inside the
      range, the as-written clamp and the component-wise clamp agree. */
  lemma ClampsAgreeOnUniformColours(v: Vec3)
    requires AllLess(v, Vec3(0.0, 0.0, 0.0)) || AllLess(Vec3(1.0, 1.0, 1.0), v) || InUnitCube(v)
    ensures ClampVecAsWritten(v, Vec3(0.0, 0.0, 0.0), Vec3(1.0, 1.0, 1.0)) == ClampUnit(v)
  {
  }

  /** The fog colour clamp, taken component by component. */
  function ClampUnit(v: Vec3): (r: Vec3)
    ensures InUnitCube(r)
    ensures InUnitCube(v) ==> r == v
  {
    Vec3(Clamp(v.x, 0.0, 1.0), Clamp(v.y, 0.0, 1.0), Clamp(v.z, 0.0, 1.0))
  }

  /** `d.Length() > t`, decided exactly on the squared length: a length is
      never negative, and for t >= 0 only a non-zero vector can exceed it. */
  function LongerThan(d: Vec3, t: real): (b: bool)
    ensures t < 0.0 ==> b
    ensures t >= 0.0 && d == Vec3(0.0, 0.0, 0.0) ==> !b
  {
    t < 0.0 || Dot(d, d) > t * t
  }

  /** The squared-length test is exactly `Length() > t`, where the length is
      the non-negative L with L * L == d . d. */
  lemma LongerThanIsLength(d: Vec3, t: real, len: real)
    requires len >= 0.0 && len * len == Dot(d, d)
    ensures LongerThan(d, t) <==> len > t
  {
    if t >= 0.0 {
      assert len * len - t * t == (len - t) * (len + t);
      if len > t {
        assert len - t > 0.0 && len + t > 0.0;
        assert (len - t) * (len + t) > 0.0;
      } else {
        assert len - t <= 0.0 && len + t >= 0.0;
        assert (len - t) * (len + t) <= 0.0;
      }
    }
  }

  /** What an indexed write into the light list does. */
  datatype LightWrite = Unchanged | Written(lights: seq<PointLight>) | OutOfBoundsWrite

  /** The modify step as ChScene.cpp writes it: its guard `id <= size` lets
      `id == size` through to an element access one past the end. */
  function ModifyAsWritten(lights: seq<PointLight>, id: uint32, p: PointLight): (w: LightWrite)
    ensures w == OutOfBoundsWrite <==> id as int == |lights|
    ensures w.Written? <==> id as int < |lights|
    ensures w.Written? ==> id as int < |lights| && w.lights == lights[id as int := p]
  {
    if id as int <= |lights| then
      if id as int < |lights| then Written(lights[id as int := p]) else OutOfBoundsWrite
    else Unchanged
  }

  /** The modify step with the bounds guard `id < size`. */
  function ModifyGuarded(lights: seq<PointLight>, id: uint32, p: PointLight): (w: LightWrite)
    ensures w != OutOfBoundsWrite
    ensures w.Written? <==> id as int < |lights|
    ensures w.Written? ==> |w.lights| == |lights| && w.lights[id as int] == p
    ensures w.Written? ==> forall k :: 0 <= k < |lights| && k != id as int ==> w.lights[k] == lights[k]
  {
    if id as int < |lights| then Written(lights[id as int := p]) else Unchanged
  }

  /** The as-written guard overruns the list exactly at the index the next
      AddPointLight would return. */
  lemma AsWrittenOverrunsAtNextIndex(lights: seq<PointLight>, p: PointLight)
    requires |lights| < 0x1_0000_0000
    ensures ModifyAsWritten(lights, |lights| as uint32, p) == OutOfBoundsWrite
    ensures ModifyGuarded(lights, |lights| as uint32, p) == Unchanged
  {
  }

  /** Everywhere except that one index the guarded step agrees with ChScene.cpp's guard `id <= size`. */
  lemma GuardedAgreesOffTheEnd(lights: seq<PointLight>, id: uint32, p: PointLight)
    requires id as int != |lights|
    ensures ModifyGuarded(lights, id, p) == ModifyAsWritten(lights, id, p)
  {
  }

  /** The index returned by adding a light addresses that light: modifying it
      replaces just the new light. */
  lemma ModifyAddedLight(lights: seq<PointLight>, p: PointLight, q: PointLight)
    requires |lights| < 0x1_0000_0000
    ensures ModifyGuarded(lights + [p], ToUInt32(|lights + [p]| - 1), q) == Written(lights + [q])
  {
  }

  class Scene {
    var background: Background
    var ambientLight: Vec3
    var pointLights: seq<PointLight>
    var lightsChanged: bool
    var backgroundChanged: bool
    var fogColor: Vec3
    var fogScattering: real
    var sceneEpsilon: real
    var dynamicOriginThreshold: real
    var dynamicOriginOffset: bool
    var originOffset: Vec3
    var originChanged: bool

    /** A gradient background, no lights, both dirty flags raised, white fog
        with no scattering, and the dynamic origin offset disabled. The origin
        offset and its flag are not set here. */
    constructor ()
      ensures background == Background(Gradient, Vec3(0.4, 0.5, 0.6), Vec3(0.7, 0.8, 0.9), "")
      ensures ambientLight == Vec3(0.2, 0.2, 0.2)
      ensures pointLights == []
      ensures lightsChanged && backgroundChanged
      ensures fogColor == Vec3(1.0, 1.0, 1.0) && InUnitCube(fogColor) && fogScattering == 0.0
      ensures sceneEpsilon == 0.001
      ensures dynamicOriginThreshold == 100.0 && !dynamicOriginOffset
    {
      background := Background(Gradient, Vec3(0.4, 0.5, 0.6), Vec3(0.7, 0.8, 0.9), "");
      ambientLight := Vec3(0.2, 0.2, 0.2);
      pointLights := [];
      lightsChanged := true;
      backgroundChanged := true;
      fogColor := Vec3(1.0, 1.0, 1.0);
      fogScattering := 0.0;
      sceneEpsilon := 0.001;
      dynamicOriginThreshold := 100.0;
      dynamicOriginOffset := false;
    }

    /** Appends a light built from a position, a colour and a range; returns its index. */
    method AddPointLight(pos: Vec3, color: Color, maxRange: real) returns (id: uint32)
      modifies this`pointLights, this`lightsChanged
      ensures pointLights == old(pointLights) + [PointLight(pos, Vec3(color.r, color.g, color.b), maxRange)]
      ensures lightsChanged
      ensures id == ToUInt32(|pointLights| - 1)
      ensures |old(pointLights)| < 0x1_0000_0000 ==> id as int == |old(pointLights)|
    {
      var p := PointLight(Vec3(pos.x, pos.y, pos.z), Vec3(color.r, color.g, color.b), maxRange);
      pointLights := pointLights + [p];
      lightsChanged := true;
      id := ToUInt32(|pointLights| - 1);
    }

    /** Appends the given light; returns its index. */
    method AddPointLightRecord(p: PointLight) returns (id: uint32)
      modifies this`pointLights, this`lightsChanged
      ensures pointLights == old(pointLights) + [p]
      ensures lightsChanged
      ensures id == ToUInt32(|pointLights| - 1)
      ensures |old(pointLights)| < 0x1_0000_0000 ==> id as int == |old(pointLights)|
    {
      pointLights := pointLights + [p];
      lightsChanged := true;
      id := ToUInt32(|pointLights| - 1);
    }

    /** Replaces light `id` when it exists; any other id leaves the scene alone. */
    method ModifyPointLight(id: uint32, p: PointLight)
      modifies this`pointLights, this`lightsChanged
      ensures id as int < |old(pointLights)| ==>
        pointLights == old(pointLights)[id as int := p] && lightsChanged
      ensures id as int >= |old(pointLights)| ==>
        pointLights == old(pointLights) && lightsChanged == old(lightsChanged)
      ensures pointLights == match ModifyGuarded(old(pointLights), id, p)
                               case Written(lights) => lights
                               case _ => old(pointLights)
    {
      if id as int < |pointLights| {
        pointLights := pointLights[id as int := p];
        lightsChanged := true;
      }
    }

    method SetBackground(b: Background)
      modifies this`background, this`backgroundChanged
      ensures background == b && backgroundChanged
    {
      background := b;
      backgroundChanged := true;
    }

    method SetSceneEpsilon(e: real)
      modifies this`sceneEpsilon, this`backgroundChanged
      ensures sceneEpsilon == e && backgroundChanged
    {
      sceneEpsilon := e;
      backgroundChanged := true;
    }

    /** Stores the colour clamped component by component into the unit cube
        (the intended clamp; the clamp ChScene.cpp:80 applies is ClampVecAsWritten). */
    method SetFogColor(color: Vec3)
      modifies this`fogColor, this`backgroundChanged
      ensures fogColor == ClampUnit(color) && backgroundChanged
      ensures InUnitCube(fogColor)
    {
      fogColor := ClampUnit(color);
      backgroundChanged := true;
    }

    /** Stores the coefficient clamped into [0, 1]. */
    method SetFogScattering(coefficient: real)
      modifies this`fogScattering, this`backgroundChanged
      ensures fogScattering == Clamp(coefficient, 0.0, 1.0) && backgroundChanged
      ensures 0.0 <= fogScattering <= 1.0
    {
      fogScattering := Clamp(coefficient, 0.0, 1.0);
      backgroundChanged := true;
    }

    /** Scattering such that the fog reaches 1/256 transmission at `distance`;
        `ln256` stands for the natural logarithm of 256. */
    method SetFogScatteringFromDistance(distance: real, ln256: real)
      modifies this`fogScattering, this`backgroundChanged
      ensures fogScattering * Clamp(distance, 0.001, 1e16) == ln256 && backgroundChanged
    {
      var d := Clamp(distance, 0.001, 1e16);
      fogScattering := ln256 / d;
      backgroundChanged := true;
    }

    /** Moves the origin offset to the sensor when forced, or when dynamic
        offsetting is on and the sensor drifted beyond the threshold. */
    method UpdateOriginOffset(sensorPos: Vec3, force: bool)
      modifies this`originOffset, this`originChanged
      ensures force || (dynamicOriginOffset && LongerThan(Sub(sensorPos, old(originOffset)), dynamicOriginThreshold))
        ==> originOffset == sensorPos && originChanged
      ensures !force && !(dynamicOriginOffset && LongerThan(Sub(sensorPos, old(originOffset)), dynamicOriginThreshold))
        ==> originOffset == old(originOffset) && originChanged == old(originChanged)
      ensures !force && !dynamicOriginOffset ==> originOffset == old(originOffset) && originChanged == old(originChanged)
    {
      if force || (dynamicOriginOffset && LongerThan(Sub(sensorPos, originOffset), dynamicOriginThreshold)) {
        originOffset := sensorPos;
        originChanged := true;
      }
    }
  }
}
