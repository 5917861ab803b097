/**
 * What each render stage of the ip override operation does to the property
 * store, as functions from the settings and the store before the stage to the
 * store after it. The stage methods of `IpOverrides` are proved to perform
 * exactly these updates; the lemmas here state what the updates promise.
 */
module Stages {
  import opened Wrappers
  import opened Scaling
  import opened IpArgs
  import opened Properties

  /** One guarded `setProperty`: stores `v` under `key` when `cond` holds. */
  function SetIf(props: map<string, Value>, cond: bool, key: string, v: Value): map<string, Value>
  {
    if cond then props[key := v] else props
  }

  /** The value `getProperty` returns for `key`, or None. */
  function StoredValue(props: map<string, Value>, key: string): Option<Value>
  {
    if key in props then Some(props[key]) else None
  }

  // ---------------------------------------------------------------------------
  // Camera stage
  // ---------------------------------------------------------------------------

  /**
   * What the camera stage needs of the store: a list of integers under each
   * key it rescales. The stage iterates over those values, so anything else
   * there makes it fail.
   */
  predicate CameraReady(o: Overrides, props: map<string, Value>)
  {
    (o.resScale.Some? ==> ResolutionKey in props && props[ResolutionKey].IntListValue?) &&
    (o.sampleScale.Some? ==> SamplesKey in props && props[SamplesKey].IntListValue?)
  }

  /** `filterCamera`: rescale the resolution and samples, then switch off blur, deep output and the tile callback. */
  function CameraUpdate(o: Overrides, props: map<string, Value>): map<string, Value>
    requires CameraReady(o, props)
  {
    var p1 := if o.resScale.Some?
      then props[ResolutionKey := IntListValue(ScaleResolutions(props[ResolutionKey].items, o.resScale.value))]
      else props;
    var p2 := if o.sampleScale.Some?
      then p1[SamplesKey := IntListValue(ScaleSampleValues(p1[SamplesKey].items, o.sampleScale.value))]
      else p1;
    var p3 := SetIf(p2, o.disableBlur, BlurQualityKey, IntValue(0));
    var p4 := SetIf(p3, o.disableBlur, RayBlurQualityKey, IntValue(0));
    var p5 := SetIf(p4, o.disableDeep, DeepResolverKey, EmptyList);
    SetIf(p5, o.disableTilecallback, TileCallbackKey, StringValue(""))
  }

  /** The properties the camera stage may write. */
  predicate IsCameraKey(key: string)
  {
    key == ResolutionKey || key == SamplesKey || key == BlurQualityKey ||
    key == RayBlurQualityKey || key == DeepResolverKey || key == TileCallbackKey
  }

  /** The camera stage leaves every other property as it was. */
  lemma CameraFrame(o: Overrides, props: map<string, Value>, key: string)
    requires CameraReady(o, props) && !IsCameraKey(key)
    ensures Agree(CameraUpdate(o, props), props, key)
  {
  }

  /** The resolution is rescaled element by element, keeping its length, exactly when a resolution scale is set. */
  lemma CameraResolution(o: Overrides, props: map<string, Value>)
    requires CameraReady(o, props)
    ensures var r := CameraUpdate(o, props);
      if o.resScale.Some? then
        var before := props[ResolutionKey].items;
        ResolutionKey in r && r[ResolutionKey].IntListValue? &&
        |r[ResolutionKey].items| == |before| &&
        forall i :: 0 <= i < |before| ==> r[ResolutionKey].items[i] == ScaleResolution(before[i], o.resScale.value)
      else Agree(r, props, ResolutionKey)
  {
  }

  /** The sample counts are rescaled element by element, never below 1, exactly when a sample scale is set. */
  lemma CameraSamples(o: Overrides, props: map<string, Value>)
    requires CameraReady(o, props)
    ensures var r := CameraUpdate(o, props);
      if o.sampleScale.Some? then
        var before := props[SamplesKey].items;
        SamplesKey in r && r[SamplesKey].IntListValue? &&
        |r[SamplesKey].items| == |before| &&
        forall i :: 0 <= i < |before| ==>
          r[SamplesKey].items[i] == ScaleSampleValue(before[i], o.sampleScale.value) && r[SamplesKey].items[i] >= 1
      else Agree(r, props, SamplesKey)
  {
  }

  /** Disabling blur sets both blur qualities to 0; otherwise both are left alone. */
  lemma CameraBlur(o: Overrides, props: map<string, Value>)
    requires CameraReady(o, props)
    ensures var r := CameraUpdate(o, props);
      if o.disableBlur then
        BlurQualityKey in r && r[BlurQualityKey] == IntValue(0) &&
        RayBlurQualityKey in r && r[RayBlurQualityKey] == IntValue(0)
      else Agree(r, props, BlurQualityKey) && Agree(r, props, RayBlurQualityKey)
  {
  }

  /** Disabling deep output empties the deep resolver; disabling the tile callback empties it. */
  lemma CameraDeepAndTileCallback(o: Overrides, props: map<string, Value>)
    requires CameraReady(o, props)
    ensures var r := CameraUpdate(o, props);
      (if o.disableDeep then DeepResolverKey in r && r[DeepResolverKey] == EmptyList
       else Agree(r, props, DeepResolverKey)) &&
      (if o.disableTilecallback then TileCallbackKey in r && r[TileCallbackKey] == StringValue("")
       else Agree(r, props, TileCallbackKey))
  {
  }

  /** With no scale set and no camera switch on, the camera stage changes nothing. */
  lemma CameraIdle(o: Overrides, props: map<string, Value>)
    requires o.resScale.None? && o.sampleScale.None?
    requires !o.disableBlur && !o.disableDeep && !o.disableTilecallback
    ensures CameraUpdate(o, props) == props
  {
  }

  // ---------------------------------------------------------------------------
  // Instance and material stages
  // ---------------------------------------------------------------------------

  /** `filterInstance`: clear the displacement shader and switch off subdivision, as requested. */
  function InstanceUpdate(o: Overrides, props: map<string, Value>): map<string, Value>
  {
    SetIf(SetIf(props, o.disableDisplacement, DisplaceKey, EmptyList), o.disableSubd, RenderSubdKey, IntValue(0))
  }

  /** The instance stage writes only the displacement and subdivision properties, each only when asked to. */
  lemma InstanceEffect(o: Overrides, props: map<string, Value>, key: string)
    ensures var r := InstanceUpdate(o, props);
      if key == DisplaceKey && o.disableDisplacement then key in r && r[key] == EmptyList
      else if key == RenderSubdKey && o.disableSubd then key in r && r[key] == IntValue(0)
      else Agree(r, props, key)
  {
  }

  /** Running the instance stage a second time changes nothing more. */
  lemma InstanceIdempotent(o: Overrides, props: map<string, Value>)
    ensures InstanceUpdate(o, InstanceUpdate(o, props)) == InstanceUpdate(o, props)
  {
  }

  /** `filterMaterial`: clear the displacement shader when displacement is disabled. */
  function MaterialUpdate(o: Overrides, props: map<string, Value>): map<string, Value>
  {
    SetIf(props, o.disableDisplacement, DisplaceKey, EmptyList)
  }

  /** The material stage writes only the displacement property, and only when displacement is disabled. */
  lemma MaterialEffect(o: Overrides, props: map<string, Value>, key: string)
    ensures var r := MaterialUpdate(o, props);
      if key == DisplaceKey && o.disableDisplacement then key in r && r[key] == EmptyList
      else Agree(r, props, key)
  {
  }

  /** The material stage does to the displacement property what the instance stage does. */
  lemma MaterialMatchesInstance(o: Overrides, props: map<string, Value>)
    ensures Agree(MaterialUpdate(o, props), InstanceUpdate(o, props), DisplaceKey)
  {
  }

  // ---------------------------------------------------------------------------
  // Plane stage
  // ---------------------------------------------------------------------------

  /** The variable of the beauty plane, which must never be disabled. */
  const BeautyVariable: Value := StringValue("Cf+Af")

  /** `filterPlane`: disable every plane except the beauty plane when extra planes are disabled. */
  function PlaneUpdate(o: Overrides, props: map<string, Value>): map<string, Value>
  {
    SetIf(props, o.disableAovs && StoredValue(props, PlaneVariableKey) != Some(BeautyVariable), PlaneDisableKey, IntValue(1))
  }

  /** A plane is disabled exactly when extra planes are disabled and it is not the beauty plane; nothing else changes. */
  lemma PlaneEffect(o: Overrides, props: map<string, Value>, key: string)
    ensures var r := PlaneUpdate(o, props);
      var disables := o.disableAovs && !(PlaneVariableKey in props && props[PlaneVariableKey] == BeautyVariable);
      if key == PlaneDisableKey && disables then key in r && r[key] == IntValue(1)
      else Agree(r, props, key)
  {
  }

  /** The beauty plane is never disabled, whatever the settings. */
  lemma BeautyPlaneNeverDisabled(o: Overrides, props: map<string, Value>)
    requires PlaneVariableKey in props && props[PlaneVariableKey] == BeautyVariable
    ensures PlaneUpdate(o, props) == props
  {
  }

  /** Running the plane stage a second time changes nothing more. */
  lemma PlaneIdempotent(o: Overrides, props: map<string, Value>)
    ensures PlaneUpdate(o, PlaneUpdate(o, props)) == PlaneUpdate(o, props)
  {
  }

  // ---------------------------------------------------------------------------
  // Defaults
  // ---------------------------------------------------------------------------

  /** With the default settings no stage changes the store. */
  lemma DefaultsChangeNothing(props: map<string, Value>)
    ensures CameraUpdate(Defaults, props) == props
    ensures InstanceUpdate(Defaults, props) == props
    ensures MaterialUpdate(Defaults, props) == props
    ensures PlaneUpdate(Defaults, props) == props
  {
    CameraIdle(Defaults, props);
  }
}
