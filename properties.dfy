/**
 * The renderer's property store, as the ip override stages see it: a mapping
 * from property names to values, read with `getProperty` and written with
 * `setProperty`.
 */
module Properties {
  import opened Wrappers

  /** The kinds of property value the stages read or write. */
  datatype Value =
    | IntValue(i: int)
    | IntListValue(items: seq<int>)
    | StringValue(s: string)
    | StringListValue(strings: seq<string>)

  /** Python's `[]` as the stages write it: an empty list of shader arguments. */
  const EmptyList: Value := StringListValue([])

  const ResolutionKey: string := "image:resolution"
  const SamplesKey: string := "image:samples"
  const BlurQualityKey: string := "renderer:blurquality"
  const RayBlurQualityKey: string := "renderer:rayblurquality"
  const DeepResolverKey: string := "image:deepresolver"
  const TileCallbackKey: string := "render:tilecallback"
  const DisplaceKey: string := "object:displace"
  const RenderSubdKey: string := "object:rendersubd"
  const PlaneVariableKey: string := "plane:variable"
  const PlaneDisableKey: string := "plane:disable"
  const FilenameKey: string := "image:filename"

  /** Two stores hold the same thing, or nothing, under `key`. */
  predicate Agree(a: map<string, Value>, b: map<string, Value>, key: string)
  {
    (key in a <==> key in b) && (key in a ==> a[key] == b[key])
  }

  /** A store of render properties, updated in place by `Set`. */
  class PropertyStore {
    var props: map<string, Value>

    constructor(initial: map<string, Value>)
      ensures props == initial
    {
      props := initial;
    }

    /** `getProperty`: the value stored under `key`, or None when there is none. */
    function Get(key: string): (r: Option<Value>)
      reads this
      ensures r.Some? <==> key in props
      ensures r.Some? ==> r.value == props[key]
    {
      if key in props then Some(props[key]) else None
    }

    /** `setProperty`: stores `v` under `key`; every other property keeps its value. */
    method Set(key: string, v: Value)
      modifies this
      ensures props == old(props)[key := v]
    {
      props := props[key := v];
    }
  }
}
