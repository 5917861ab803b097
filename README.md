# ip overrides, modelled in Dafny

This project models the ip override operation of Houdini-Toolbox's Python
filter (PyFilter) for Mantra renders. When a render goes to the interactive
preview target `ip`, the operation makes the render cheaper. It scales the
image resolution and the pixel samples, and it switches off motion blur,
extra image planes (AOVs), deep output, displacement, subdivision and the
tile callback.

The model covers four parts:

- **Settings record.** There are eight settings: two optional scales and six
  switches. `processParsedArgs` fills them from the parsed command line and
  derives `enabled`. `shouldRun` gates the whole pass.
- **Argument string.** `buildArgString` writes the flags of the active
  settings. `registerParserArgs` declares the same eight flags.
- **Render stages.** The camera, instance, material and plane stages update
  the renderer's property store in place.
- **Scaling rules.** They cover the resolution and the pixel samples, and the
  node-level helpers that build the argument string and the display labels
  from a Mantra node.

Files:

- **`scaling.dfy`** (`Scaling`): rounding to nearest with ties to even (Python 3's
  `round`) and ceiling on exact reals. It also holds the two scaling rules and
  their element-wise maps over property lists.
- **`text.dfy`** (`Text`): joining with single spaces and splitting back into
  words. It also holds decimal integers and the `"<x>x<y>"` labels, each with
  its inverse.
- **`ipargs.dfy`** (`IpArgs`): the settings record `Overrides`, the enabling rule,
  the option table `IpArgSpecs`, and `RegisterParserArgs` over an
  `ArgumentParser` object. It also holds a stand-in parser for the declared
  options, the argument words derived from the table, and `BuildArgString`.
  `BuildArgString` spells the eight flags out literally, as the source does. It
  is proved to give exactly the table's words joined by single spaces. The
  string and the table therefore agree, and parsing the string gives the
  settings back whenever the scale parser reads back the two printed scales.
- **`properties.dfy`** (`Properties`): the property store as a class over
  `map<string, Value>`, with `getProperty` and `setProperty`.
- **`stages.dfy`** (`Stages`): what each stage does to the store, as a function.
  The lemmas state its effect key by key, what it leaves alone and when it does
  nothing.
- **`ipoverrides.dfy`** (`IpOverridesOperation`): the class `IpOverrides`.
  - Its nine fields, its property setters, `ProcessParsedArgs` and `ShouldRun`.
  - The four filters, each proved to perform its stage function on the store.
- **`nodes.dfy`** (`Nodes`): `buildArgStringFromNode`, the pixel-sample label and
  the resolution label, over a record of node-parameter values.

Scale values are exact reals. The way a float is printed into the argument
string and read back is a pair of parameters: `fmt: real -> string` and
`parse: string -> Option<real>`. The round-trip lemmas ask only that `parse`
reads back what `fmt` printed for the scales the settings actually carry
(`IpArgs.ScalesRoundTrip`). Some also ask that every printed value is one
word and is not a flag name.

Two points of the code shape the model:

- **What enables the operation.** `enabled` is Python's `any` over all eight
  settings, so it follows truthiness. A scale of `0.0` is falsy and does not
  enable the operation on its own (`IpArgs.ZeroScaleDoesNotEnable`).
- **Where the gate is checked.** The filters do not call `shouldRun`
  themselves; the host does that before running them. The filter methods are
  therefore modelled without the gate, and `ShouldRun` stands on its own.

## Model

| member | source | states |
|---|---|---|
| Scaling.Ceil | python/ht/pyfilter/operations/ipoverrides.py:295 | `math.ceil`: the least integer not below its argument |
| Scaling.RoundHalfEven | python/ht/pyfilter/operations/ipoverrides.py:290 | `round`: within one half of its argument, and even on a tie |
| Scaling.RoundIsNearest | python/ht/pyfilter/operations/ipoverrides.py:290 | any integer strictly within one half of `x` is `round(x)` |
| Scaling.RoundOfInteger | python/ht/pyfilter/operations/ipoverrides.py:290 | rounding a whole number gives it back |
| Scaling.ScaleResolution | python/ht/pyfilter/operations/ipoverrides.py:288-290 | `_scaleResolution` is within half a pixel of `resolution * scale` |
| Scaling.ScaleResolutionNonNegative | python/ht/pyfilter/operations/ipoverrides.py:288-290 | a non-negative resolution and scale give a non-negative result |
| Scaling.ScaleResolutionByOne | python/ht/pyfilter/operations/ipoverrides.py:288-290 | a scale of 1 leaves the resolution unchanged |
| Scaling.ScaleSampleValue | python/ht/pyfilter/operations/ipoverrides.py:293-295 | `_scaleSampleValue` is at least 1 and at least `sample * scale`; it is the least such integer unless it is 1 |
| Scaling.ScaleSampleValueIsCeil | python/ht/pyfilter/operations/ipoverrides.py:293-295 | it equals `ceil(sample * scale)` whenever that is at least 1 |
| Scaling.ScaleResolutions | python/ht/pyfilter/operations/ipoverrides.py:205 | the resolution list comprehension keeps the length and scales each element |
| Scaling.ScaleSampleValues | python/ht/pyfilter/operations/ipoverrides.py:212 | the samples list comprehension keeps the length and scales each element |
| Scaling.ScalingExamples | python/ht/pyfilter/operations/ipoverrides.py:288-295 | concrete values: 1920x1080 at 0.3 gives 576x324; 4 samples at 0.5 give 2, and 1 sample at 0.5 stays 1 |
| Text.Join | python/ht/pyfilter/operations/ipoverrides.py:174 | `" ".join`: the parts separated by single spaces; `Text.WordsOfJoin` and `Text.JoinOfWordsIsSpaced` state what it gives |
| Text.WordsOfJoin | python/ht/pyfilter/operations/ipoverrides.py:174 | splitting `" ".join(words)` gives the words back when each is a non-empty word without spaces |
| Text.JoinOfWordsIsSpaced | python/ht/pyfilter/operations/ipoverrides.py:174 | the joined string has no leading, trailing or doubled space, and is empty only for no words |
| Text.DecimalString | python/ht/pyfilter/operations/ipoverrides.py:333 | `"{}".format` of an integer: its decimal digits, with a `-` when negative; non-empty and free of `x` |
| Text.PairLabel | python/ht/pyfilter/operations/ipoverrides.py:368 | `"{}x{}".format(x, y)`; `Text.LabelRoundTrip` reads it back |
| Text.DecimalRoundTrip | python/ht/pyfilter/operations/ipoverrides.py:333 | an integer printed by `"{}".format` reads back as itself |
| Text.LabelRoundTrip | python/ht/pyfilter/operations/ipoverrides.py:368 | a `"{}x{}"` label reads back as its two integers |
| IpArgs.DefaultsIffNothingSet | python/ht/pyfilter/operations/ipoverrides.py:143-146 | the record equals the defaults of `buildArgString`'s parameters exactly when no setting is set |
| IpArgs.IsEnabling | python/ht/pyfilter/operations/ipoverrides.py:266-277 | the `any(...)` value of `enabled`; characterised by `IpArgs.EnablingIffSomeTruthy` |
| IpArgs.EnablingIffSomeTruthy | python/ht/pyfilter/operations/ipoverrides.py:266-277 | the `any(...)` rule holds exactly when some setting is truthy |
| IpArgs.SingleSwitchEnables | python/ht/pyfilter/operations/ipoverrides.py:266-277 | one disable switch on, with everything else default, enables the operation |
| IpArgs.DefaultsDoNotEnable | python/ht/pyfilter/operations/ipoverrides.py:266-277 | nothing set leaves the operation disabled |
| IpArgs.ZeroScaleDoesNotEnable | python/ht/pyfilter/operations/ipoverrides.py:266-277 | a scale of 0.0 alone does not enable the operation |
| IpArgs.ArgumentParser.AddArgument | python/ht/pyfilter/operations/ipoverrides.py:179 | `add_argument` appends one option declaration |
| IpArgs.RegisterParserArgs | python/ht/pyfilter/operations/ipoverrides.py:176-193 | the eight ip options are declared in order, each with its destination and kind |
| IpArgs.IpFlagsDistinct | python/ht/pyfilter/operations/ipoverrides.py:179-193 | no two declared options share a name |
| IpArgs.IpArgSpecsCover | python/ht/pyfilter/operations/ipoverrides.py:179-193 | every setting has a declared option |
| IpArgs.IpArgSpecsWellFormed | python/ht/pyfilter/operations/ipoverrides.py:179-193 | the declared names are distinct words, and they cover every setting |
| IpArgs.ScalesRoundTrip | python/ht/pyfilter/operations/ipoverrides.py:151-154 | the scale parser reads back each scale printed into the string |
| IpArgs.ParseWordsUpTo | python/ht/pyfilter/operations/ipoverrides.py:150-193 | the words of the first `n` options parse into those options' settings |
| IpArgs.ArgWordsRoundTrip | python/ht/pyfilter/operations/ipoverrides.py:150-193 | parsing the argument words against the declared options reproduces all eight settings |
| IpArgs.ArgStringRoundTrip | python/ht/pyfilter/operations/ipoverrides.py:143-193 | splitting the argument string and parsing it reproduces all eight settings |
| IpArgs.ArgWordsFlagOrder | python/ht/pyfilter/operations/ipoverrides.py:150-172 | the option names in the output are those of the set settings, in the fixed order resscale … disabletilecallback |
| IpArgs.ArgWordsFlagOnce | python/ht/pyfilter/operations/ipoverrides.py:150-172 | each option name appears exactly once if its setting is set, and never otherwise |
| IpArgs.ArgStringEmptyIffDefaults | python/ht/pyfilter/operations/ipoverrides.py:143-174 | the argument string is `""` exactly for the defaults |
| IpArgs.ArgStringIsSpaced | python/ht/pyfilter/operations/ipoverrides.py:174 | the argument string has single-space separators and no leading or trailing space |
| IpArgs.BuildArgString | python/ht/pyfilter/operations/ipoverrides.py:142-174 | `buildArgString` gives the table-derived argument words joined by single spaces |
| Properties.PropertyStore.Get | python/ht/pyfilter/operations/ipoverrides.py:203 | `getProperty` gives the stored value, or none when the key is absent |
| Properties.PropertyStore.Set | python/ht/pyfilter/operations/ipoverrides.py:207 | `setProperty` replaces one key and leaves every other key as it was |
| Stages.CameraUpdate | python/ht/pyfilter/operations/ipoverrides.py:200-226 | the store after `filterCamera`; its effects are stated by the `Stages.Camera…` lemmas |
| Stages.CameraFrame | python/ht/pyfilter/operations/ipoverrides.py:200-226 | the camera stage modifies no key other than its six |
| Stages.CameraResolution | python/ht/pyfilter/operations/ipoverrides.py:202-207 | `image:resolution` is rescaled element-wise, keeping its length, exactly when a resolution scale is set |
| Stages.CameraSamples | python/ht/pyfilter/operations/ipoverrides.py:209-214 | `image:samples` is rescaled element-wise, each value at least 1, exactly when a sample scale is set |
| Stages.CameraBlur | python/ht/pyfilter/operations/ipoverrides.py:216-219 | disabling blur sets both blur qualities to 0; otherwise both are left alone |
| Stages.CameraDeepAndTileCallback | python/ht/pyfilter/operations/ipoverrides.py:221-226 | the deep resolver becomes `[]` and the tile callback `""` exactly when asked |
| Stages.CameraIdle | python/ht/pyfilter/operations/ipoverrides.py:200-226 | with no scale and no camera switch the store is unchanged |
| Stages.InstanceUpdate | python/ht/pyfilter/operations/ipoverrides.py:229-235 | the store after `filterInstance`; stated by `Stages.InstanceEffect` |
| Stages.InstanceEffect | python/ht/pyfilter/operations/ipoverrides.py:229-235 | the instance stage writes only `object:displace := []` and `object:rendersubd := 0`, each only when its switch is on |
| Stages.InstanceIdempotent | python/ht/pyfilter/operations/ipoverrides.py:229-235 | running the instance stage twice equals running it once |
| Stages.MaterialUpdate | python/ht/pyfilter/operations/ipoverrides.py:238-241 | the store after `filterMaterial`; stated by `Stages.MaterialEffect` |
| Stages.MaterialEffect | python/ht/pyfilter/operations/ipoverrides.py:238-241 | the material stage writes only `object:displace := []`, only when displacement is disabled |
| Stages.MaterialMatchesInstance | python/ht/pyfilter/operations/ipoverrides.py:231-241 | the material and instance stages treat `object:displace` alike |
| Stages.PlaneUpdate | python/ht/pyfilter/operations/ipoverrides.py:244-248 | the store after `filterPlane`; stated by `Stages.PlaneEffect` |
| Stages.PlaneEffect | python/ht/pyfilter/operations/ipoverrides.py:244-248 | `plane:disable := 1` exactly when AOVs are disabled and `plane:variable` is not `"Cf+Af"`; nothing else changes |
| Stages.BeautyPlaneNeverDisabled | python/ht/pyfilter/operations/ipoverrides.py:246-248 | the beauty plane's store is never changed |
| Stages.PlaneIdempotent | python/ht/pyfilter/operations/ipoverrides.py:244-248 | running the plane stage twice equals running it once |
| Stages.DefaultsChangeNothing | python/ht/pyfilter/operations/ipoverrides.py:199-248 | with the default settings no stage changes the store |
| IpOverridesOperation.Merge | python/ht/pyfilter/operations/ipoverrides.py:252-263 | the settings after `processParsedArgs`; stated setting by setting by `IpOverridesOperation.MergeSettings` |
| IpOverridesOperation.MergeSettings | python/ht/pyfilter/operations/ipoverrides.py:252-263 | an absent parsed scale keeps the previous value; every other setting takes the parsed value |
| IpOverridesOperation.MergeIdempotent | python/ht/pyfilter/operations/ipoverrides.py:252-263 | processing the same arguments twice equals processing them once |
| IpOverridesOperation.MergeFromDefaults | python/ht/pyfilter/operations/ipoverrides.py:25-36 | from the initial state, processing arguments leaves exactly those arguments |
| IpOverridesOperation.ArgStringConfiguresOperation | python/ht/pyfilter/operations/ipoverrides.py:143-263 | a new operation that parses the argument string of `o` ends up holding `o` |
| IpOverridesOperation.IpOverrides.constructor | python/ht/pyfilter/operations/ipoverrides.py:25-36 | a new operation has nothing set and is not enabled |
| IpOverridesOperation.IpOverrides.SetDisableAovs | python/ht/pyfilter/operations/ipoverrides.py:47-49 | sets `disable_aovs` only |
| IpOverridesOperation.IpOverrides.SetDisableBlur | python/ht/pyfilter/operations/ipoverrides.py:58-60 | sets `disable_blur` only |
| IpOverridesOperation.IpOverrides.SetDisableDeep | python/ht/pyfilter/operations/ipoverrides.py:69-71 | sets `disable_deep` only |
| IpOverridesOperation.IpOverrides.SetDisableDisplacement | python/ht/pyfilter/operations/ipoverrides.py:80-82 | sets `disable_displacement` only |
| IpOverridesOperation.IpOverrides.SetDisableSubd | python/ht/pyfilter/operations/ipoverrides.py:91-93 | sets `disable_subd` only |
| IpOverridesOperation.IpOverrides.SetDisableTilecallback | python/ht/pyfilter/operations/ipoverrides.py:101-103 | sets `disable_tilecallback` only |
| IpOverridesOperation.IpOverrides.SetEnabled | python/ht/pyfilter/operations/ipoverrides.py:112-114 | sets `enabled` only |
| IpOverridesOperation.IpOverrides.SetResScale | python/ht/pyfilter/operations/ipoverrides.py:123-125 | sets `res_scale` only |
| IpOverridesOperation.IpOverrides.SetSampleScale | python/ht/pyfilter/operations/ipoverrides.py:134-136 | sets `sample_scale` only |
| IpOverridesOperation.IpOverrides.ProcessParsedArgs | python/ht/pyfilter/operations/ipoverrides.py:250-277 | the new settings are the merge of the old ones with the parsed arguments; `enabled` is the `any(...)` rule on them |
| IpOverridesOperation.IpOverrides.ShouldRun | python/ht/pyfilter/operations/ipoverrides.py:279-281 | true exactly when enabled and `image:filename` is exactly `"ip"` |
| IpOverridesOperation.ShouldRunOnlyForIp | python/ht/pyfilter/operations/ipoverrides.py:279-281 | false for any other render target, and false whenever disabled |
| IpOverridesOperation.IpOverrides.FilterCamera | python/ht/pyfilter/operations/ipoverrides.py:199-226 | the store after `filterCamera` is the camera stage applied to the store before it |
| IpOverridesOperation.IpOverrides.FilterInstance | python/ht/pyfilter/operations/ipoverrides.py:228-235 | the store after `filterInstance` is the instance stage applied to the store before it |
| IpOverridesOperation.IpOverrides.FilterMaterial | python/ht/pyfilter/operations/ipoverrides.py:237-241 | the store after `filterMaterial` is the material stage applied to the store before it |
| IpOverridesOperation.IpOverrides.FilterPlane | python/ht/pyfilter/operations/ipoverrides.py:243-248 | the store after `filterPlane` is the plane stage applied to the store before it |
| Nodes.NodeOverrides | python/ht/pyfilter/operations/ipoverrides.py:307-321 | the settings `buildArgStringFromNode` passes on: resolution scale only under `ip_override_camerares`, sample scale always |
| Nodes.BuildArgStringFromNode | python/ht/pyfilter/operations/ipoverrides.py:302-321 | `""` when the override is off; otherwise the argument string of the node's settings, with the resolution scale only under its own toggle |
| Nodes.NodeArgStringRoundTrip | python/ht/pyfilter/operations/ipoverrides.py:302-321 | the node's string parses back to the node's settings; the resolution scale is present exactly under its toggle |
| Nodes.EnabledNodeCarriesSampleScale | python/ht/pyfilter/operations/ipoverrides.py:312-321 | an enabled node's string is never empty and carries the sample scale flag exactly once |
| Nodes.PixelSampleScaleDisplay | python/ht/pyfilter/operations/ipoverrides.py:324-333 | the pixel-sample label; stated by `Nodes.PixelSampleLabel` |
| Nodes.PixelSampleLabel | python/ht/pyfilter/operations/ipoverrides.py:324-333 | the pixel-sample label reads back as the two scaled sample counts, each at least 1 |
| Nodes.RopResolution | python/ht/pyfilter/operations/ipoverrides.py:349-360 | the resolution after the node's own override: the explicit one for "specific", the scaled camera one, or the camera's |
| Nodes.ResolutionScaleDisplay | python/ht/pyfilter/operations/ipoverrides.py:336-368 | the resolution label; stated by `Nodes.ResolutionLabel` |
| Nodes.ResolutionLabel | python/ht/pyfilter/operations/ipoverrides.py:336-368 | the resolution label is `""` exactly without a camera; otherwise it reads back as the ROP-adjusted resolution scaled by the ip fraction |
| Nodes.SpecificResolutionIgnoresCamera | python/ht/pyfilter/operations/ipoverrides.py:351-356 | with a "specific" ROP resolution, the camera's resolution does not affect the label |
| Nodes.UnscaledResolutionIsCameras | python/ht/pyfilter/operations/ipoverrides.py:339-368 | with no ROP override and an ip fraction of 1, the label is the camera resolution |

## Left out

- `buildPyFilterCommand` and `setMantraCommand`. They depend on Houdini's `hou` module: file lookup, parameter setting and an external command string.
- The `logFilter` decorator, the `PyFilterOperation` base class and the logger. Their code is not part of this model. The filters are modelled without the logging.
- The implementations of `getProperty` and `setProperty` (`ht/pyfilter/property.py`) are not part of this model. The store is modelled as a map, and an absent key reads as none.
- Python `[]`, written to `image:deepresolver` and `object:displace`, is modelled as an empty list value.
- The argument parser. Only the eight options it declares are modelled. The stand-in parser rejects any other word, a missing value and an unreadable value. argparse's prefix matching, `--` handling and help aren't modelled.
- `IpOverridesOperation.IpOverrides.FilterCamera`: requires that a list of integers is stored under `image:resolution` (when a resolution scale is set) and under `image:samples` (when a sample scale is set). The Python code would fail on anything else.
- `Scaling.RoundHalfEven`: assumes Python 3, where `round` sends ties to the even neighbour. Under Python 2.7 ties go away from zero, so `_scaleResolution(1921, 0.5)` would be 961 there and is 960 here.
- IEEE floats. Scales are exact reals. `round` is ties-to-even on the exact product, and `math.ceil` is the exact ceiling. Binary rounding of `r * s` is not modelled.
- How a scale is printed by `"{}".format` and read by `float(...)`. Both are parameters of the model. `float(rop_res_scale)` and `float(ip_res_fraction)` take the real value a menu entry denotes.
- Node lookup and `evalParm`. The label builders and `buildArgStringFromNode` read a record of parameter values. A missing camera is `None` in that record. Toggle parameters are booleans. `ip_res_fraction` is the real its menu token denotes.
- Dynamic typing. The settings are typed as in the parser's output: optional reals and booleans. A setter called with a value of another type is not modelled.
