/**
 * The `IpOverrides` operation object: the eight settings and the `enabled`
 * flag it keeps in fields, `processParsedArgs`, which fills them from the
 * parsed command line, `shouldRun`, and the four stage filters, which update
 * the renderer's property store in place.
 */
module IpOverridesOperation {
  import opened Wrappers
  import opened Text
  import opened Scaling
  import opened IpArgs
  import opened Properties
  import opened Stages

  /**
   * What `processParsedArgs` makes of the current settings and the parsed
   * ones: a scale is taken over only when it was given, a switch always.
   */
  function Merge(current: Overrides, parsed: Overrides): Overrides
  {
    parsed.(
      resScale := if parsed.resScale.Some? then parsed.resScale else current.resScale,
      sampleScale := if parsed.sampleScale.Some? then parsed.sampleScale else current.sampleScale)
  }

  /** Setting by setting: an absent scale keeps its previous value; everything else is overwritten. */
  lemma MergeSettings(current: Overrides, parsed: Overrides, d: Dest)
    ensures Get(Merge(current, parsed), d) ==
      if TakesValue(d) && !IsSet(Get(parsed, d)) then Get(current, d) else Get(parsed, d)
  {
  }

  /** Processing the same parsed arguments twice changes nothing the first time did not. */
  lemma MergeIdempotent(current: Overrides, parsed: Overrides)
    ensures Merge(Merge(current, parsed), parsed) == Merge(current, parsed)
  {
  }

  /** From the initial state, processing parsed arguments yields exactly those arguments. */
  lemma MergeFromDefaults(parsed: Overrides)
    ensures Merge(Defaults, parsed) == parsed
  {
  }

  /**
   * End to end: parsing the argument string built for `o` succeeds, and
   * processing the result in a new operation leaves it holding exactly `o`.
   */
  lemma ArgStringConfiguresOperation(o: Overrides, fmt: real -> string, parse: string -> Option<real>)
    requires FormatsWords(fmt)
    requires ScalesRoundTrip(o, fmt, parse)
    ensures var parsed := ParseArgs(Words(Join(ArgWords(o, fmt))), IpArgSpecs, parse);
      parsed.Some? && Merge(Defaults, parsed.value) == o
  {
    ArgStringRoundTrip(o, fmt, parse);
    MergeFromDefaults(o);
  }

  /** The render target name the operation applies to. */
  const IpTarget: Value := StringValue("ip")

  class IpOverrides {
    var resScale: Option<real>
    var sampleScale: Option<real>
    var disableBlur: bool
    var disableAovs: bool
    var disableDeep: bool
    var disableDisplacement: bool
    var disableSubd: bool
    var disableTilecallback: bool
    var enabled: bool

    /** A new operation: nothing set and not enabled. */
    constructor()
      ensures Current() == Defaults && !enabled
    {
      disableAovs := false;
      disableBlur := false;
      disableDeep := false;
      disableDisplacement := false;
      disableSubd := false;
      disableTilecallback := false;
      enabled := false;
      resScale := None;
      sampleScale := None;
    }

    /** The eight settings as a record. */
    function Current(): Overrides
      reads this`resScale, this`sampleScale, this`disableBlur, this`disableAovs, this`disableDeep,
        this`disableDisplacement, this`disableSubd, this`disableTilecallback
    {
      Overrides(resScale, sampleScale, disableBlur, disableAovs, disableDeep,
                disableDisplacement, disableSubd, disableTilecallback)
    }

    method SetDisableAovs(v: bool)
      modifies this
      ensures Current() == old(Current()).(disableAovs := v) && enabled == old(enabled)
    {
      disableAovs := v;
    }

    method SetDisableBlur(v: bool)
      modifies this
      ensures Current() == old(Current()).(disableBlur := v) && enabled == old(enabled)
    {
      disableBlur := v;
    }

    method SetDisableDeep(v: bool)
      modifies this
      ensures Current() == old(Current()).(disableDeep := v) && enabled == old(enabled)
    {
      disableDeep := v;
    }

    method SetDisableDisplacement(v: bool)
      modifies this
      ensures Current() == old(Current()).(disableDisplacement := v) && enabled == old(enabled)
    {
      disableDisplacement := v;
    }

    method SetDisableSubd(v: bool)
      modifies this
      ensures Current() == old(Current()).(disableSubd := v) && enabled == old(enabled)
    {
      disableSubd := v;
    }

    method SetDisableTilecallback(v: bool)
      modifies this
      ensures Current() == old(Current()).(disableTilecallback := v) && enabled == old(enabled)
    {
      disableTilecallback := v;
    }

    method SetEnabled(v: bool)
      modifies this
      ensures Current() == old(Current()) && enabled == v
    {
      enabled := v;
    }

    method SetResScale(v: Option<real>)
      modifies this
      ensures Current() == old(Current()).(resScale := v) && enabled == old(enabled)
    {
      resScale := v;
    }

    method SetSampleScale(v: Option<real>)
      modifies this
      ensures Current() == old(Current()).(sampleScale := v) && enabled == old(enabled)
    {
      sampleScale := v;
    }

    /**
     * `processParsedArgs`: take over the parsed settings (a scale only when
     * given) and enable the operation exactly when some setting is truthy.
     */
    method ProcessParsedArgs(args: Overrides)
      modifies this
      ensures Current() == Merge(old(Current()), args)
      ensures enabled == IsEnabling(Current())
    {
      var res, samples := resScale, sampleScale;
      if args.resScale.Some? {
        res := args.resScale;
      }
      if args.sampleScale.Some? {
        samples := args.sampleScale;
      }
      resScale, sampleScale, disableAovs, disableBlur, disableDeep, disableDisplacement, disableSubd, disableTilecallback :=
        res, samples, args.disableAovs, args.disableBlur, args.disableDeep, args.disableDisplacement, args.disableSubd, args.disableTilecallback;
      enabled := IsEnabling(Current());
    }

    /** `shouldRun`: only when enabled and rendering to the `ip` target. */
    function ShouldRun(store: PropertyStore): (r: bool)
      reads this, store
      ensures r <==> enabled && FilenameKey in store.props && store.props[FilenameKey] == IpTarget
    {
      enabled && store.Get(FilenameKey) == Some(IpTarget)
    }

    /** `filterCamera`: performs `CameraUpdate` on the store. */
    method FilterCamera(store: PropertyStore)
      requires CameraReady(Current(), store.props)
      modifies store
      ensures store.props == CameraUpdate(Current(), old(store.props))
    {
      ghost var p0 := store.props;
      if resScale.Some? {
        var resolution := store.Get(ResolutionKey).value.items;
        store.Set(ResolutionKey, IntListValue(ScaleResolutions(resolution, resScale.value)));
      }
      ghost var p1 := store.props;
      assert SamplesKey in p1 <==> SamplesKey in p0;
      assert SamplesKey in p1 ==> p1[SamplesKey] == p0[SamplesKey];
      if sampleScale.Some? {
        var samples := store.Get(SamplesKey).value.items;
        store.Set(SamplesKey, IntListValue(ScaleSampleValues(samples, sampleScale.value)));
      }
      ghost var p2 := store.props;
      if disableBlur {
        store.Set(BlurQualityKey, IntValue(0));
        store.Set(RayBlurQualityKey, IntValue(0));
      }
      assert store.props == SetIf(SetIf(p2, disableBlur, BlurQualityKey, IntValue(0)), disableBlur, RayBlurQualityKey, IntValue(0));
      if disableDeep {
        store.Set(DeepResolverKey, EmptyList);
      }
      if disableTilecallback {
        store.Set(TileCallbackKey, StringValue(""));
      }
    }

    /** `filterInstance`: performs `InstanceUpdate` on the store. */
    method FilterInstance(store: PropertyStore)
      modifies store
      ensures store.props == InstanceUpdate(Current(), old(store.props))
    {
      if disableDisplacement {
        store.Set(DisplaceKey, EmptyList);
      }
      if disableSubd {
        store.Set(RenderSubdKey, IntValue(0));
      }
    }

    /** `filterMaterial`: performs `MaterialUpdate` on the store. */
    method FilterMaterial(store: PropertyStore)
      modifies store
      ensures store.props == MaterialUpdate(Current(), old(store.props))
    {
      if disableDisplacement {
        store.Set(DisplaceKey, EmptyList);
      }
    }

    /** `filterPlane`: performs `PlaneUpdate` on the store. */
    method FilterPlane(store: PropertyStore)
      modifies store
      ensures store.props == PlaneUpdate(Current(), old(store.props))
    {
      if disableAovs && store.Get(PlaneVariableKey) != Some(BeautyVariable) {
        store.Set(PlaneDisableKey, IntValue(1));
      }
    }
  }

  /** The operation never runs for a render target other than `ip`, nor when it is disabled. */
  lemma ShouldRunOnlyForIp(op: IpOverrides, store: PropertyStore)
    requires !op.enabled || FilenameKey !in store.props || store.props[FilenameKey] != IpTarget
    ensures !op.ShouldRun(store)
  {
  }
}
