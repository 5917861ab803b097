/**
 * The helpers that work from a Mantra output node: the argument string built
 * from the node's ip override parameters, and the labels that show the
 * adjusted pixel samples and image resolution. The node is an abstract record
 * of the parameter values those helpers evaluate.
 */
module Nodes {
  import opened Wrappers
  import opened Text
  import opened Scaling
  import opened IpArgs

  /** The resolution parameter of the node's camera. */
  datatype Camera = Camera(resX: int, resY: int)

  /** The node's own resolution fraction menu: an explicit resolution, or a scale factor. */
  datatype RopResFraction = Specific | Fraction(scale: real)

  /** The parameter values of a Mantra node that the helpers read. */
  datatype MantraNode = MantraNode(
    enableIpOverride: bool,       // enable_ip_override
    ipOverrideCamerares: bool,    // ip_override_camerares
    ipResFraction: real,          // ip_res_fraction
    ipSampleScale: real,          // ip_sample_scale
    ipDisableBlur: bool,
    ipDisableAovs: bool,
    ipDisableDeep: bool,
    ipDisableDisplacement: bool,
    ipDisableSubd: bool,
    ipDisableTilecallback: bool,
    camera: Option<Camera>,       // the node the camera parameter points at, if it exists
    overrideCamerares: bool,      // override_camerares
    resFraction: RopResFraction,  // res_fraction
    resOverride: (int, int),      // res_override
    samples: (int, int))          // vm_samples

  /** The settings `buildArgStringFromNode` passes on: the resolution scale only when its override is on, the sample scale always. */
  function NodeOverrides(node: MantraNode): Overrides
  {
    Overrides(
      if node.ipOverrideCamerares then Some(node.ipResFraction) else None,
      Some(node.ipSampleScale),
      node.ipDisableBlur, node.ipDisableAovs, node.ipDisableDeep,
      node.ipDisableDisplacement, node.ipDisableSubd, node.ipDisableTilecallback)
  }

  /** `buildArgStringFromNode`: nothing when the override is off, otherwise the argument string of the node's settings. */
  method BuildArgStringFromNode(node: MantraNode, fmt: real -> string) returns (r: string)
    ensures !node.enableIpOverride ==> r == ""
    ensures node.enableIpOverride ==> r == Join(ArgWords(NodeOverrides(node), fmt))
  {
    if !node.enableIpOverride {
      return "";
    }
    var resScale: Option<real> := None;
    if node.ipOverrideCamerares {
      resScale := Some(node.ipResFraction);
    }
    r := BuildArgString(
      Overrides(resScale, Some(node.ipSampleScale),
                node.ipDisableBlur, node.ipDisableAovs, node.ipDisableDeep,
                node.ipDisableDisplacement, node.ipDisableSubd, node.ipDisableTilecallback),
      fmt);
  }

  /**
   * The string built from an enabled node parses back to the node's settings:
   * the sample scale is always carried, the resolution scale exactly when its
   * override is on, and the switches as the node has them.
   */
  lemma NodeArgStringRoundTrip(node: MantraNode, fmt: real -> string, parse: string -> Option<real>)
    requires FormatsWords(fmt)
    requires ScalesRoundTrip(NodeOverrides(node), fmt, parse)
    ensures var parsed := ParseArgs(Words(Join(ArgWords(NodeOverrides(node), fmt))), IpArgSpecs, parse);
      parsed.Some? &&
      parsed.value.sampleScale == Some(node.ipSampleScale) &&
      (parsed.value.resScale.Some? <==> node.ipOverrideCamerares) &&
      (node.ipOverrideCamerares ==> parsed.value.resScale == Some(node.ipResFraction)) &&
      parsed.value.disableBlur == node.ipDisableBlur && parsed.value.disableAovs == node.ipDisableAovs &&
      parsed.value.disableDeep == node.ipDisableDeep &&
      parsed.value.disableDisplacement == node.ipDisableDisplacement &&
      parsed.value.disableSubd == node.ipDisableSubd &&
      parsed.value.disableTilecallback == node.ipDisableTilecallback
  {
    ArgStringRoundTrip(NodeOverrides(node), fmt, parse);
  }

  /** An enabled node always yields a non-empty string, carrying the sample scale flag exactly once. */
  lemma EnabledNodeCarriesSampleScale(node: MantraNode, fmt: real -> string)
    requires FormatsWords(fmt) && FormatsNoFlag(fmt)
    ensures Join(ArgWords(NodeOverrides(node), fmt)) != ""
    ensures Count(ArgWords(NodeOverrides(node), fmt), SampleScaleFlag) == 1
  {
    ArgStringEmptyIffDefaults(NodeOverrides(node), fmt);
    ArgWordsFlagOnce(NodeOverrides(node), fmt, 1);
  }

  /**
   * `buildPixleSampleScaleDisplay`: the node's pixel samples scaled by its
   * sample scale, as a "<x>x<y>" label.
   */
  function PixelSampleScaleDisplay(node: MantraNode): string
  {
    PairLabel(ScaleSampleValue(node.samples.0, node.ipSampleScale), ScaleSampleValue(node.samples.1, node.ipSampleScale))
  }

  /** The sample label reads back as the two scaled counts, each at least 1. */
  lemma PixelSampleLabel(node: MantraNode)
    ensures var shown := ParseLabel(PixelSampleScaleDisplay(node));
      shown.Some? && shown.value.0 >= 1 && shown.value.1 >= 1 &&
      shown.value == (ScaleSampleValue(node.samples.0, node.ipSampleScale), ScaleSampleValue(node.samples.1, node.ipSampleScale))
  {
    LabelRoundTrip(ScaleSampleValue(node.samples.0, node.ipSampleScale), ScaleSampleValue(node.samples.1, node.ipSampleScale));
  }

  /** The resolution after the node's own override, before the ip scale: the explicit one, the scaled camera one, or the camera's. */
  function RopResolution(node: MantraNode, cam: Camera): (int, int)
  {
    if node.overrideCamerares then
      match node.resFraction
      case Specific => node.resOverride
      case Fraction(s) => (ScaleResolution(cam.resX, s), ScaleResolution(cam.resY, s))
    else (cam.resX, cam.resY)
  }

  /** `buildResolutionScaleDisplay`: no label without a camera, otherwise the node's resolution scaled by the ip scale. */
  function ResolutionScaleDisplay(node: MantraNode): string
  {
    match node.camera
    case None => ""
    case Some(cam) =>
      var res := RopResolution(node, cam);
      PairLabel(ScaleResolution(res.0, node.ipResFraction), ScaleResolution(res.1, node.ipResFraction))
  }

  /**
   * The resolution label is empty exactly when there is no camera; otherwise
   * it reads back as the node's resolution scaled again by the ip scale.
   */
  lemma ResolutionLabel(node: MantraNode)
    ensures ResolutionScaleDisplay(node) == "" <==> node.camera.None?
    ensures node.camera.Some? ==>
      var res := RopResolution(node, node.camera.value);
      var s := node.ipResFraction;
      var shown := ParseLabel(ResolutionScaleDisplay(node));
      shown == Some((ScaleResolution(res.0, s), ScaleResolution(res.1, s)))
  {
    if node.camera.Some? {
      var res := RopResolution(node, node.camera.value);
      LabelRoundTrip(ScaleResolution(res.0, node.ipResFraction), ScaleResolution(res.1, node.ipResFraction));
    }
  }

  /** With an explicit resolution on the node, the camera's own resolution does not matter. */
  lemma SpecificResolutionIgnoresCamera(node: MantraNode, other: Camera)
    requires node.camera.Some? && node.overrideCamerares && node.resFraction == Specific
    ensures ResolutionScaleDisplay(node.(camera := Some(other))) == ResolutionScaleDisplay(node)
  {
  }

  /** Without any override on the node and an ip scale of 1, the label shows the camera's resolution. */
  lemma UnscaledResolutionIsCameras(node: MantraNode)
    requires node.camera.Some? && !node.overrideCamerares && node.ipResFraction == 1.0
    ensures ResolutionScaleDisplay(node) == PairLabel(node.camera.value.resX, node.camera.value.resY)
  {
    ScaleResolutionByOne(node.camera.value.resX);
    ScaleResolutionByOne(node.camera.value.resY);
  }
}
