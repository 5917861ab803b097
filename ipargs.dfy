/**
 * The eight override settings, the command-line flags that carry them, and
 * the argument string built from them.
 *
 * The flag table `IpArgSpecs` is what `registerParserArgs` declares; the
 * argument words are derived from that table, and `BuildArgString`, which
 * spells the flags out literally as the source does, is proved to produce
 * exactly those words joined by single spaces. `ParseArgs` is a stand-in for
 * the argument parser restricted to the declared flags, so that the round
 * trip from settings to string and back can be stated.
 */
module IpArgs {
  import opened Wrappers
  import opened Text

  /** The settings record: two optional scales and six disable switches. */
  datatype Overrides = Overrides(
    resScale: Option<real>,
    sampleScale: Option<real>,
    disableBlur: bool,
    disableAovs: bool,
    disableDeep: bool,
    disableDisplacement: bool,
    disableSubd: bool,
    disableTilecallback: bool)

  /** Every scale unset and every switch off: the parser defaults and the initial state. */
  const Defaults: Overrides := Overrides(None, None, false, false, false, false, false, false)

  /** Which of the eight settings a flag stores into. */
  datatype Dest =
    | ResScale | SampleScale
    | DisableBlur | DisableAovs | DisableDeep | DisableDisplacement | DisableSubd | DisableTilecallback

  /** The value of one setting: an optional scale or a switch. */
  datatype Setting = ScaleSetting(scale: Option<real>) | SwitchSetting(on: bool)

  /** The scale flags take a float value; the others are store-true switches. */
  predicate TakesValue(d: Dest)
  {
    d.ResScale? || d.SampleScale?
  }

  function Get(o: Overrides, d: Dest): (s: Setting)
    ensures s.ScaleSetting? <==> TakesValue(d)
  {
    match d
    case ResScale => ScaleSetting(o.resScale)
    case SampleScale => ScaleSetting(o.sampleScale)
    case DisableBlur => SwitchSetting(o.disableBlur)
    case DisableAovs => SwitchSetting(o.disableAovs)
    case DisableDeep => SwitchSetting(o.disableDeep)
    case DisableDisplacement => SwitchSetting(o.disableDisplacement)
    case DisableSubd => SwitchSetting(o.disableSubd)
    case DisableTilecallback => SwitchSetting(o.disableTilecallback)
  }

  /** Two settings records that agree on every setting are equal. */
  lemma GetExtensional(a: Overrides, b: Overrides)
    requires forall d :: Get(a, d) == Get(b, d)
    ensures a == b
  {
    assert Get(a, ResScale) == Get(b, ResScale);
    assert Get(a, SampleScale) == Get(b, SampleScale);
    assert Get(a, DisableBlur) == Get(b, DisableBlur);
    assert Get(a, DisableAovs) == Get(b, DisableAovs);
    assert Get(a, DisableDeep) == Get(b, DisableDeep);
    assert Get(a, DisableDisplacement) == Get(b, DisableDisplacement);
    assert Get(a, DisableSubd) == Get(b, DisableSubd);
    assert Get(a, DisableTilecallback) == Get(b, DisableTilecallback);
  }

  /** A setting is set when the scale is present (`is not None`) or the switch is on. */
  predicate IsSet(s: Setting)
  {
    match s
    case ScaleSetting(v) => v.Some?
    case SwitchSetting(b) => b
  }

  /** An unset setting holds its default. */
  lemma UnsetIsDefault(o: Overrides, d: Dest)
    requires !IsSet(Get(o, d))
    ensures Get(o, d) == Get(Defaults, d)
  {
  }

  /** The defaults are the one record with nothing set. */
  lemma DefaultsIffNothingSet(o: Overrides)
    ensures o == Defaults <==> forall d :: !IsSet(Get(o, d))
  {
    if forall d :: !IsSet(Get(o, d)) {
      forall d ensures Get(o, d) == Get(Defaults, d) {
        UnsetIsDefault(o, d);
      }
      GetExtensional(o, Defaults);
    }
  }

  /** Stores a parsed float into a scale setting; nothing else changes. */
  function StoreValue(o: Overrides, d: Dest, v: real): (r: Overrides)
    requires TakesValue(d)
    ensures Get(r, d) == ScaleSetting(Some(v))
    ensures forall e :: e != d ==> Get(r, e) == Get(o, e)
  {
    if d.ResScale? then o.(resScale := Some(v)) else o.(sampleScale := Some(v))
  }

  /** Turns a switch on; nothing else changes. */
  function StoreTrue(o: Overrides, d: Dest): (r: Overrides)
    requires !TakesValue(d)
    ensures Get(r, d) == SwitchSetting(true)
    ensures forall e :: e != d ==> Get(r, e) == Get(o, e)
  {
    if d.DisableBlur? then o.(disableBlur := true)
    else if d.DisableAovs? then o.(disableAovs := true)
    else if d.DisableDeep? then o.(disableDeep := true)
    else if d.DisableDisplacement? then o.(disableDisplacement := true)
    else if d.DisableSubd? then o.(disableSubd := true)
    else o.(disableTilecallback := true)
  }

  // ---------------------------------------------------------------------------
  // Enabling rule
  // ---------------------------------------------------------------------------

  /** Python truthiness of a setting: None and 0.0 are false, as is a false switch. */
  predicate Truthy(s: Setting)
  {
    match s
    case ScaleSetting(v) => v.Some? && v.value != 0.0
    case SwitchSetting(b) => b
  }

  /**
   * The value `processParsedArgs` gives `enabled`: Python's `any` over the
   * tuple (res_scale, sample_scale, disable_aovs, disable_blur, disable_deep,
   * disable_displacement, disable_subd, disable_tilecallback).
   */
  predicate IsEnabling(o: Overrides)
  {
    Truthy(ScaleSetting(o.resScale)) || Truthy(ScaleSetting(o.sampleScale)) ||
    o.disableAovs || o.disableBlur || o.disableDeep ||
    o.disableDisplacement || o.disableSubd || o.disableTilecallback
  }

  /** The operation is enabled exactly when some setting is truthy. */
  lemma EnablingIffSomeTruthy(o: Overrides)
    ensures IsEnabling(o) <==> exists d :: Truthy(Get(o, d))
  {
    if IsEnabling(o) {
      var d :=
        if Truthy(ScaleSetting(o.resScale)) then ResScale
        else if Truthy(ScaleSetting(o.sampleScale)) then SampleScale
        else if o.disableAovs then DisableAovs
        else if o.disableBlur then DisableBlur
        else if o.disableDeep then DisableDeep
        else if o.disableDisplacement then DisableDisplacement
        else if o.disableSubd then DisableSubd
        else DisableTilecallback;
      assert Truthy(Get(o, d));
    }
  }

  /** Any single disable switch, with everything else at its default, enables the operation. */
  lemma SingleSwitchEnables(d: Dest)
    requires !TakesValue(d)
    ensures IsEnabling(StoreTrue(Defaults, d))
  {
    EnablingIffSomeTruthy(StoreTrue(Defaults, d));
    assert Truthy(Get(StoreTrue(Defaults, d), d));
  }

  /** With nothing set the operation stays disabled. */
  lemma DefaultsDoNotEnable()
    ensures !IsEnabling(Defaults)
  {
  }

  /** A scale of zero is falsy: with nothing else set it does not enable the operation. */
  lemma ZeroScaleDoesNotEnable(d: Dest)
    requires TakesValue(d)
    ensures !IsEnabling(StoreValue(Defaults, d, 0.0))
  {
  }

  // ---------------------------------------------------------------------------
  // Flag table (registerParserArgs)
  // ---------------------------------------------------------------------------

  /** One declared command-line option and the setting it stores into. */
  datatype ArgSpec = ArgSpec(flag: string, dest: Dest)

  /** The option names, as `registerParserArgs` declares them and `buildArgString` writes them. */
  const ResScaleFlag: string := "-ip_resscale"
  const SampleScaleFlag: string := "-ip_samplescale"
  const DisableBlurFlag: string := "-ip_disableblur"
  const DisableAovsFlag: string := "-ip_disableaovs"
  const DisableDeepFlag: string := "-ip_disabledeep"
  const DisableDisplacementFlag: string := "-ip_disabledisplacement"
  const DisableSubdFlag: string := "-ip_disablesubd"
  const DisableTilecallbackFlag: string := "-ip_disabletilecallback"

  /** The options `registerParserArgs` declares, in declaration order. */
  const IpArgSpecs: seq<ArgSpec> := [
    ArgSpec(ResScaleFlag, ResScale),
    ArgSpec(SampleScaleFlag, SampleScale),
    ArgSpec(DisableBlurFlag, DisableBlur),
    ArgSpec(DisableAovsFlag, DisableAovs),
    ArgSpec(DisableDeepFlag, DisableDeep),
    ArgSpec(DisableDisplacementFlag, DisableDisplacement),
    ArgSpec(DisableSubdFlag, DisableSubd),
    ArgSpec(DisableTilecallbackFlag, DisableTilecallback)
  ]

  /** The argument parser, reduced to the list of options declared on it. */
  class ArgumentParser {
    var declared: seq<ArgSpec>

    constructor ()
      ensures declared == []
    {
      declared := [];
    }

    /** `add_argument`: declares one more option. */
    method AddArgument(flag: string, dest: Dest)
      modifies this
      ensures declared == old(declared) + [ArgSpec(flag, dest)]
    {
      declared := declared + [ArgSpec(flag, dest)];
    }
  }

  /** `registerParserArgs`: declares the eight ip options on the parser. */
  method RegisterParserArgs(parser: ArgumentParser)
    modifies parser
    ensures parser.declared == old(parser.declared) + IpArgSpecs
  {
    parser.AddArgument(ResScaleFlag, ResScale);
    parser.AddArgument(SampleScaleFlag, SampleScale);
    parser.AddArgument(DisableBlurFlag, DisableBlur);
    parser.AddArgument(DisableAovsFlag, DisableAovs);
    parser.AddArgument(DisableDeepFlag, DisableDeep);
    parser.AddArgument(DisableDisplacementFlag, DisableDisplacement);
    parser.AddArgument(DisableSubdFlag, DisableSubd);
    parser.AddArgument(DisableTilecallbackFlag, DisableTilecallback);
  }

  predicate DistinctFlags(specs: seq<ArgSpec>)
  {
    forall i, j :: 0 <= i < j < |specs| ==> specs[i].flag != specs[j].flag
  }

  /** No two ip options share a name. */
  lemma IpFlagsDistinct()
    ensures DistinctFlags(IpArgSpecs)
  {
  }

  /** The names of the first four ip options are single command-line words. */
  lemma LeadingFlagsAreWords()
    ensures IsWord(ResScaleFlag) && IsWord(SampleScaleFlag)
    ensures IsWord(DisableBlurFlag) && IsWord(DisableAovsFlag)
  {
  }

  /** The names of the last four ip options are single command-line words. */
  lemma TrailingFlagsAreWords()
    ensures IsWord(DisableDeepFlag) && IsWord(DisableDisplacementFlag)
    ensures IsWord(DisableSubdFlag) && IsWord(DisableTilecallbackFlag)
  {
  }

  /** Every ip option name is a single command-line word. */
  lemma IpFlagsAreWords()
    ensures forall i :: 0 <= i < |IpArgSpecs| ==> IsWord(IpArgSpecs[i].flag)
  {
    LeadingFlagsAreWords();
    TrailingFlagsAreWords();
  }

  /** Every setting has an option that stores into it. */
  lemma IpArgSpecsCover(d: Dest)
    ensures Covers(IpArgSpecs, |IpArgSpecs|, d)
  {
    var i := match d
      case ResScale => 0 case SampleScale => 1 case DisableBlur => 2 case DisableAovs => 3
      case DisableDeep => 4 case DisableDisplacement => 5 case DisableSubd => 6
      case DisableTilecallback => 7;
    assert IpArgSpecs[i].dest == d;
  }

  /** The ip option table is well formed: distinct single-word names covering every setting. */
  lemma IpArgSpecsWellFormed()
    ensures DistinctFlags(IpArgSpecs)
    ensures forall i :: 0 <= i < |IpArgSpecs| ==> IsWord(IpArgSpecs[i].flag)
    ensures forall d :: Covers(IpArgSpecs, |IpArgSpecs|, d)
  {
    IpFlagsDistinct();
    IpFlagsAreWords();
    forall d ensures Covers(IpArgSpecs, |IpArgSpecs|, d) {
      IpArgSpecsCover(d);
    }
  }

  /** Some option among the first `n` of the table stores into `d`. */
  ghost predicate Covers(specs: seq<ArgSpec>, n: nat, d: Dest)
  {
    exists i :: 0 <= i < n && i < |specs| && specs[i].dest == d
  }

  /** The option a command-line word names, if it names a declared one. */
  function Lookup(specs: seq<ArgSpec>, word: string): (r: Option<Dest>)
    ensures r.None? <==> forall i :: 0 <= i < |specs| ==> specs[i].flag != word
    decreases |specs|
  {
    if specs == [] then None
    else if specs[0].flag == word then Some(specs[0].dest)
    else
      var r := Lookup(specs[1..], word);
      assert forall i :: 1 <= i < |specs| ==> specs[i] == specs[1..][i - 1];
      r
  }

  /** With distinct names, each declared name looks up its own option. */
  lemma {:induction false} LookupDeclared(specs: seq<ArgSpec>, i: nat)
    requires DistinctFlags(specs) && i < |specs|
    ensures Lookup(specs, specs[i].flag) == Some(specs[i].dest)
    decreases i
  {
    if i > 0 {
      assert specs[1..][i - 1] == specs[i];
      assert DistinctFlags(specs[1..]) by {
        forall a, b | 0 <= a < b < |specs[1..]| ensures specs[1..][a].flag != specs[1..][b].flag {
          assert specs[1..][a] == specs[a + 1] && specs[1..][b] == specs[b + 1];
        }
      }
      LookupDeclared(specs[1..], i - 1);
    }
  }

  // ---------------------------------------------------------------------------
  // Parsing the argument words back
  // ---------------------------------------------------------------------------

  /**
   * Parses words against the declared options starting from `acc`: a declared
   * switch turns its setting on, a declared scale option consumes the next
   * word as its float; an undeclared word, a missing value or an unreadable
   * value is a parse error.
   */
  function ParseFrom(words: seq<string>, specs: seq<ArgSpec>, parse: string -> Option<real>, acc: Overrides)
    : Option<Overrides>
    decreases |words|
  {
    if words == [] then Some(acc)
    else match Lookup(specs, words[0])
      case None => None
      case Some(d) =>
        if TakesValue(d) then
          if |words| < 2 then None
          else match parse(words[1])
            case None => None
            case Some(v) => ParseFrom(words[2..], specs, parse, StoreValue(acc, d, v))
        else ParseFrom(words[1..], specs, parse, StoreTrue(acc, d))
  }

  /** Parses a whole argument list from the defaults. */
  function ParseArgs(words: seq<string>, specs: seq<ArgSpec>, parse: string -> Option<real>): Option<Overrides>
  {
    ParseFrom(words, specs, parse, Defaults)
  }

  /** A list that parses completely leaves the parser ready for whatever follows it. */
  lemma {:induction false} ParseConcat(a: seq<string>, b: seq<string>, specs: seq<ArgSpec>,
                                       parse: string -> Option<real>, acc: Overrides, m: Overrides)
    ensures ParseFrom(a, specs, parse, acc) == Some(m) ==> ParseFrom(a + b, specs, parse, acc) == ParseFrom(b, specs, parse, m)
    decreases |a|
  {
    if ParseFrom(a, specs, parse, acc) == Some(m) {
      if a != [] {
        assert (a + b)[0] == a[0];
        var d := Lookup(specs, a[0]).value;
        if TakesValue(d) {
          assert (a + b)[1] == a[1];
          assert (a + b)[2..] == a[2..] + b;
          ParseConcat(a[2..], b, specs, parse, StoreValue(acc, d, parse(a[1]).value), m);
        } else {
          assert (a + b)[1..] == a[1..] + b;
          ParseConcat(a[1..], b, specs, parse, StoreTrue(acc, d), m);
        }
      } else {
        assert a + b == b;
      }
    }
  }


  // ---------------------------------------------------------------------------
  // Argument words derived from the table
  // ---------------------------------------------------------------------------

  /** The words one option contributes: the flag and its formatted value, the bare flag, or nothing. */
  function SpecWords(sp: ArgSpec, o: Overrides, fmt: real -> string): seq<string>
  {
    match Get(o, sp.dest)
    case ScaleSetting(v) => if v.Some? then [sp.flag, fmt(v.value)] else []
    case SwitchSetting(b) => if b then [sp.flag] else []
  }

  /** The words of the first `n` options, in table order. */
  function WordsUpTo(specs: seq<ArgSpec>, o: Overrides, fmt: real -> string, n: nat): seq<string>
    requires n <= |specs|
  {
    if n == 0 then [] else WordsUpTo(specs, o, fmt, n - 1) + SpecWords(specs[n - 1], o, fmt)
  }

  /** The command-line words for a settings record, scale values formatted by `fmt`. */
  function ArgWords(o: Overrides, fmt: real -> string): seq<string>
  {
    WordsUpTo(IpArgSpecs, o, fmt, |IpArgSpecs|)
  }

  /** What parsing the words of the first `n` options does to the defaults. */
  function ApplyUpTo(specs: seq<ArgSpec>, o: Overrides, n: nat): Overrides
    requires n <= |specs|
  {
    if n == 0 then Defaults else ApplySpec(ApplyUpTo(specs, o, n - 1), specs[n - 1], o)
  }

  /** The effect of one option's words: store `o`'s value for that option into `acc`, if it is set. */
  function ApplySpec(acc: Overrides, sp: ArgSpec, o: Overrides): Overrides
  {
    match Get(o, sp.dest)
    case ScaleSetting(v) => if v.Some? then StoreValue(acc, sp.dest, v.value) else acc
    case SwitchSetting(b) => if b then StoreTrue(acc, sp.dest) else acc
  }

  /** The settings covered by the first `n` options are copied from `o`; the rest keep their defaults. */
  lemma {:induction false} ApplyUpToGet(specs: seq<ArgSpec>, o: Overrides, n: nat, e: Dest)
    requires n <= |specs|
    ensures Get(ApplyUpTo(specs, o, n), e) == if Covers(specs, n, e) then Get(o, e) else Get(Defaults, e)
  {
    if n > 0 {
      ApplyUpToGet(specs, o, n - 1, e);
      var d := specs[n - 1].dest;
      if d == e {
        assert Covers(specs, n, e);
        if !IsSet(Get(o, e)) {
          UnsetIsDefault(o, e);
        }
      } else {
        if Covers(specs, n, e) {
          var i :| 0 <= i < n && i < |specs| && specs[i].dest == e;
          assert i < n - 1;
        }
      }
    }
  }

  /**
   * `parse` reads back what `fmt` printed for the scales that `o` carries.
   * Only these values are asked for: no formatter into strings can be
   * inverted on every real.
   */
  ghost predicate ScalesRoundTrip(o: Overrides, fmt: real -> string, parse: string -> Option<real>)
  {
    (o.resScale.Some? ==> parse(fmt(o.resScale.value)) == o.resScale) &&
    (o.sampleScale.Some? ==> parse(fmt(o.sampleScale.value)) == o.sampleScale)
  }

  /** Parsing the words of the first `n` options reproduces their effect. */
  lemma {:induction false} ParseWordsUpTo(specs: seq<ArgSpec>, o: Overrides, fmt: real -> string,
                                          parse: string -> Option<real>, n: nat)
    requires n <= |specs| && DistinctFlags(specs)
    requires ScalesRoundTrip(o, fmt, parse)
    ensures ParseFrom(WordsUpTo(specs, o, fmt, n), specs, parse, Defaults) == Some(ApplyUpTo(specs, o, n))
  {
    if n > 0 {
      ParseWordsUpTo(specs, o, fmt, parse, n - 1);
      var acc := ApplyUpTo(specs, o, n - 1);
      ParseConcat(WordsUpTo(specs, o, fmt, n - 1), SpecWords(specs[n - 1], o, fmt), specs, parse, Defaults, acc);
      LookupDeclared(specs, n - 1);
      ParseSpecWords(specs, specs[n - 1], o, fmt, parse, acc);
    }
  }

  /** Parsing one declared option's words applies that option. */
  lemma ParseSpecWords(specs: seq<ArgSpec>, sp: ArgSpec, o: Overrides, fmt: real -> string,
                       parse: string -> Option<real>, acc: Overrides)
    requires Lookup(specs, sp.flag) == Some(sp.dest)
    requires ScalesRoundTrip(o, fmt, parse)
    ensures ParseFrom(SpecWords(sp, o, fmt), specs, parse, acc) == Some(ApplySpec(acc, sp, o))
  {
    var piece := SpecWords(sp, o, fmt);
    match Get(o, sp.dest)
    case ScaleSetting(v) =>
      if v.Some? {
        assert piece[2..] == [];
      }
    case SwitchSetting(b) =>
      if b {
        assert piece[1..] == [];
      }
  }

  /** Round trip: parsing the argument words of any settings record gives that record back. */
  lemma ArgWordsRoundTrip(o: Overrides, fmt: real -> string, parse: string -> Option<real>)
    requires ScalesRoundTrip(o, fmt, parse)
    ensures ParseArgs(ArgWords(o, fmt), IpArgSpecs, parse) == Some(o)
  {
    IpArgSpecsWellFormed();
    ParseWordsUpTo(IpArgSpecs, o, fmt, parse, |IpArgSpecs|);
    forall e ensures Get(ApplyUpTo(IpArgSpecs, o, |IpArgSpecs|), e) == Get(o, e) {
      ApplyUpToGet(IpArgSpecs, o, |IpArgSpecs|, e);
    }
    GetExtensional(ApplyUpTo(IpArgSpecs, o, |IpArgSpecs|), o);
  }

  /** Formatted scale values are single command-line words. */
  ghost predicate FormatsWords(fmt: real -> string)
  {
    forall x :: IsWord(fmt(x))
  }

  /** Every argument word is a single command-line word when the scale formatter yields words. */
  lemma {:induction false} WordsUpToAreWords(specs: seq<ArgSpec>, o: Overrides, fmt: real -> string, n: nat)
    requires n <= |specs| && FormatsWords(fmt)
    requires forall i :: 0 <= i < |specs| ==> IsWord(specs[i].flag)
    ensures forall j :: 0 <= j < |WordsUpTo(specs, o, fmt, n)| ==> IsWord(WordsUpTo(specs, o, fmt, n)[j])
  {
    if n > 0 {
      WordsUpToAreWords(specs, o, fmt, n - 1);
      var sp := specs[n - 1];
      assert IsWord(sp.flag);
      var a, b := WordsUpTo(specs, o, fmt, n - 1), SpecWords(sp, o, fmt);
      match Get(o, sp.dest)
      case ScaleSetting(v) =>
        if v.Some? {
          var x: real := v.value;
          assert IsWord(fmt(x));
          assert b == [sp.flag, fmt(x)];
        }
      case SwitchSetting(on) =>
      assert forall j :: 0 <= j < |b| ==> IsWord(b[j]);
      assert forall j :: 0 <= j < |a + b| ==> (a + b)[j] == if j < |a| then a[j] else b[j - |a|];
    }
  }

  /** Round trip through the string: splitting the argument string into words and parsing gives the record back. */
  lemma ArgStringRoundTrip(o: Overrides, fmt: real -> string, parse: string -> Option<real>)
    requires FormatsWords(fmt)
    requires ScalesRoundTrip(o, fmt, parse)
    ensures ParseArgs(Words(Join(ArgWords(o, fmt))), IpArgSpecs, parse) == Some(o)
  {
    IpArgSpecsWellFormed();
    WordsUpToAreWords(IpArgSpecs, o, fmt, |IpArgSpecs|);
    WordsOfJoin(ArgWords(o, fmt));
    ArgWordsRoundTrip(o, fmt, parse);
  }

  // ---------------------------------------------------------------------------
  // Which flags appear, how often and in which order
  // ---------------------------------------------------------------------------

  /** The names of the given options. */
  function FlagNames(specs: seq<ArgSpec>): (names: set<string>)
    ensures forall i :: 0 <= i < |specs| ==> specs[i].flag in names
  {
    set i | 0 <= i < |specs| :: specs[i].flag
  }

  /** The words of a list that are option names, in order. */
  function DeclaredFlags(words: seq<string>, names: set<string>): seq<string>
  {
    if words == [] then []
    else (if words[0] in names then [words[0]] else []) + DeclaredFlags(words[1..], names)
  }

  lemma {:induction false} DeclaredFlagsConcat(a: seq<string>, b: seq<string>, names: set<string>)
    ensures DeclaredFlags(a + b, names) == DeclaredFlags(a, names) + DeclaredFlags(b, names)
    decreases |a|
  {
    if a == [] {
      assert a + b == b;
    } else {
      assert (a + b)[1..] == a[1..] + b;
      DeclaredFlagsConcat(a[1..], b, names);
    }
  }

  /** The names of the set options among the first `n`, in table order. */
  function ActiveFlagsUpTo(specs: seq<ArgSpec>, o: Overrides, n: nat): seq<string>
    requires n <= |specs|
  {
    if n == 0 then [] else ActiveFlagsUpTo(specs, o, n - 1) + ActiveFlag(specs[n - 1], o)
  }

  /** An option's name when its setting is set, nothing otherwise. */
  function ActiveFlag(sp: ArgSpec, o: Overrides): seq<string>
  {
    if IsSet(Get(o, sp.dest)) then [sp.flag] else []
  }

  /** Formatted scale values are never among the given names. */
  ghost predicate NoFlagValues(names: set<string>, fmt: real -> string)
  {
    forall x :: fmt(x) !in names
  }

  /** Formatted scale values never read as ip option names. */
  ghost predicate FormatsNoFlag(fmt: real -> string)
  {
    NoFlagValues(FlagNames(IpArgSpecs), fmt)
  }

  /** The only name among one option's words is the option's own, present when it is set. */
  lemma PieceFlags(names: set<string>, sp: ArgSpec, o: Overrides, fmt: real -> string)
    requires sp.flag in names && NoFlagValues(names, fmt)
    ensures DeclaredFlags(SpecWords(sp, o, fmt), names) == ActiveFlag(sp, o)
  {
    var piece := SpecWords(sp, o, fmt);
    match Get(o, sp.dest)
    case ScaleSetting(v) =>
      if v.Some? {
        var x: real := v.value;
        assert piece == [sp.flag, fmt(x)];
        assert fmt(x) !in names;
        assert piece[1..] == [fmt(x)];
        assert piece[1..][1..] == [];
        assert DeclaredFlags(piece[1..], names) == [];
      }
    case SwitchSetting(b) =>
      if b {
        assert piece[1..] == [];
      }
  }

  lemma {:induction false} DeclaredFlagsOfWordsUpTo(specs: seq<ArgSpec>, o: Overrides, fmt: real -> string, n: nat)
    requires n <= |specs| && NoFlagValues(FlagNames(specs), fmt)
    ensures DeclaredFlags(WordsUpTo(specs, o, fmt, n), FlagNames(specs)) == ActiveFlagsUpTo(specs, o, n)
  {
    if n > 0 {
      var names, sp := FlagNames(specs), specs[n - 1];
      var prev, piece := WordsUpTo(specs, o, fmt, n - 1), SpecWords(sp, o, fmt);
      DeclaredFlagsOfWordsUpTo(specs, o, fmt, n - 1);
      DeclaredFlagsConcat(prev, piece, names);
      PieceFlags(names, sp, o, fmt);
      calc {
        DeclaredFlags(WordsUpTo(specs, o, fmt, n), names);
        DeclaredFlags(prev + piece, names);
        DeclaredFlags(prev, names) + DeclaredFlags(piece, names);
        ActiveFlagsUpTo(specs, o, n - 1) + ActiveFlag(sp, o);
      }
    }
  }

  /** The option names in the argument words are those of the set settings, in declaration order. */
  lemma ArgWordsFlagOrder(o: Overrides, fmt: real -> string)
    requires FormatsNoFlag(fmt)
    ensures DeclaredFlags(ArgWords(o, fmt), FlagNames(IpArgSpecs)) == ActiveFlagsUpTo(IpArgSpecs, o, |IpArgSpecs|)
  {
    DeclaredFlagsOfWordsUpTo(IpArgSpecs, o, fmt, |IpArgSpecs|);
  }

  /** Occurrences of `w` in a list of words. */
  function Count(words: seq<string>, w: string): nat
  {
    if words == [] then 0 else (if words[0] == w then 1 else 0) + Count(words[1..], w)
  }

  /** Keeping only the names does not change how often a name occurs. */
  lemma {:induction false} CountDeclaredFlags(words: seq<string>, names: set<string>, w: string)
    requires w in names
    ensures Count(DeclaredFlags(words, names), w) == Count(words, w)
    decreases |words|
  {
    if words != [] {
      CountDeclaredFlags(words[1..], names, w);
      var head := if words[0] in names then [words[0]] else [];
      CountConcat(head, DeclaredFlags(words[1..], names), w);
      if words[0] in names {
        assert head[1..] == [];
      }
    }
  }

  lemma {:induction false} CountConcat(a: seq<string>, b: seq<string>, w: string)
    ensures Count(a + b, w) == Count(a, w) + Count(b, w)
    decreases |a|
  {
    if a == [] {
      assert a + b == b;
    } else {
      assert (a + b)[1..] == a[1..] + b;
      CountConcat(a[1..], b, w);
    }
  }

  /** No option other than the `i`th has the `i`th option's name. */
  predicate FlagUniqueAt(specs: seq<ArgSpec>, i: nat)
    requires i < |specs|
  {
    forall j :: 0 <= j < |specs| && j != i ==> specs[j].flag != specs[i].flag
  }

  /** The `i`th option's name is among the active names once if it is among the first `n` and set. */
  lemma {:induction false} CountActiveFlags(specs: seq<ArgSpec>, o: Overrides, n: nat, i: nat)
    requires n <= |specs| && i < |specs| && FlagUniqueAt(specs, i)
    ensures Count(ActiveFlagsUpTo(specs, o, n), specs[i].flag)
         == if i < n && IsSet(Get(o, specs[i].dest)) then 1 else 0
  {
    if n > 0 {
      var sp, w := specs[n - 1], specs[i].flag;
      CountActiveFlags(specs, o, n - 1, i);
      CountConcat(ActiveFlagsUpTo(specs, o, n - 1), ActiveFlag(sp, o), w);
      if i == n - 1 {
        assert sp == specs[i];
      } else {
        assert sp.flag != w;
      }
    }
  }

  /** Each option name appears in the argument words exactly once if its setting is set, and never otherwise. */
  lemma ArgWordsFlagOnce(o: Overrides, fmt: real -> string, i: nat)
    requires i < |IpArgSpecs| && FormatsNoFlag(fmt)
    ensures Count(ArgWords(o, fmt), IpArgSpecs[i].flag) == if IsSet(Get(o, IpArgSpecs[i].dest)) then 1 else 0
  {
    IpArgSpecsWellFormed();
    assert FlagUniqueAt(IpArgSpecs, i);
    ArgWordsFlagOrder(o, fmt);
    CountDeclaredFlags(ArgWords(o, fmt), FlagNames(IpArgSpecs), IpArgSpecs[i].flag);
    CountActiveFlags(IpArgSpecs, o, |IpArgSpecs|, i);
  }

  lemma {:induction false} WordsUpToOfDefaults(specs: seq<ArgSpec>, fmt: real -> string, n: nat)
    requires n <= |specs|
    ensures WordsUpTo(specs, Defaults, fmt, n) == []
  {
    if n > 0 {
      WordsUpToOfDefaults(specs, fmt, n - 1);
      assert SpecWords(specs[n - 1], Defaults, fmt) == [];
    }
  }

  /** The argument string is empty exactly for the defaults. */
  lemma ArgStringEmptyIffDefaults(o: Overrides, fmt: real -> string)
    requires FormatsWords(fmt) && FormatsNoFlag(fmt)
    ensures Join(ArgWords(o, fmt)) == "" <==> o == Defaults
  {
    IpArgSpecsWellFormed();
    WordsUpToAreWords(IpArgSpecs, o, fmt, |IpArgSpecs|);
    JoinOfWordsIsSpaced(ArgWords(o, fmt));
    if o == Defaults {
      WordsUpToOfDefaults(IpArgSpecs, fmt, |IpArgSpecs|);
    } else {
      DefaultsIffNothingSet(o);
      var d :| IsSet(Get(o, d));
      assert Covers(IpArgSpecs, |IpArgSpecs|, d);
      var i :| 0 <= i < |IpArgSpecs| && i < |IpArgSpecs| && IpArgSpecs[i].dest == d;
      ArgWordsFlagOnce(o, fmt, i);
    }
  }

  /** The argument string is laid out with single spaces and no leading or trailing space. */
  lemma ArgStringIsSpaced(o: Overrides, fmt: real -> string)
    requires FormatsWords(fmt)
    ensures var s := Join(ArgWords(o, fmt));
      (s != "" ==> s[0] != ' ' && s[|s| - 1] != ' ') &&
      forall i :: 0 <= i < |s| - 1 && s[i] == ' ' ==> s[i + 1] != ' '
  {
    IpArgSpecsWellFormed();
    WordsUpToAreWords(IpArgSpecs, o, fmt, |IpArgSpecs|);
    JoinOfWordsIsSpaced(ArgWords(o, fmt));
  }

  // ---------------------------------------------------------------------------
  // buildArgString
  // ---------------------------------------------------------------------------

  /** What `buildArgString` appends for one option: its joined words when it is set, nothing otherwise. */
  function Entry(sp: ArgSpec, o: Overrides, fmt: real -> string): seq<string>
  {
    if IsSet(Get(o, sp.dest)) then [Join(SpecWords(sp, o, fmt))] else []
  }

  /** The entries `buildArgString` appends for the first `n` options. */
  function EntriesUpTo(specs: seq<ArgSpec>, o: Overrides, fmt: real -> string, n: nat): seq<string>
    requires n <= |specs|
  {
    if n == 0 then [] else EntriesUpTo(specs, o, fmt, n - 1) + Entry(specs[n - 1], o, fmt)
  }

  /** Joining the entries gives the same string as joining the words. */
  lemma {:induction false} JoinEntries(specs: seq<ArgSpec>, o: Overrides, fmt: real -> string, n: nat)
    requires n <= |specs|
    ensures Join(EntriesUpTo(specs, o, fmt, n)) == Join(WordsUpTo(specs, o, fmt, n))
    ensures EntriesUpTo(specs, o, fmt, n) == [] <==> WordsUpTo(specs, o, fmt, n) == []
  {
    if n > 0 {
      JoinEntries(specs, o, fmt, n - 1);
      var args, words := EntriesUpTo(specs, o, fmt, n - 1), WordsUpTo(specs, o, fmt, n - 1);
      var sp := specs[n - 1];
      var piece := SpecWords(sp, o, fmt);
      if IsSet(Get(o, sp.dest)) {
        assert piece != [];
        if args != [] {
          JoinConcat(args, [Join(piece)]);
          JoinConcat(words, piece);
        } else {
          assert args + [Join(piece)] == [Join(piece)];
          assert words + piece == piece;
        }
      } else {
        assert piece == [];
        assert args + [] == args;
        assert words + piece == words;
      }
    }
  }

  /** A set scale option's entry is its name, a space and the formatted value. */
  lemma ScaleEntry(sp: ArgSpec, o: Overrides, fmt: real -> string)
    requires TakesValue(sp.dest)
    ensures Entry(sp, o, fmt)
         == if Get(o, sp.dest).scale.Some? then [sp.flag + " " + fmt(Get(o, sp.dest).scale.value)] else []
  {
    if Get(o, sp.dest).scale.Some? {
      var x: real := Get(o, sp.dest).scale.value;
      assert SpecWords(sp, o, fmt) == [sp.flag, fmt(x)];
      assert [sp.flag, fmt(x)][1..] == [fmt(x)];
      assert Join([sp.flag, fmt(x)]) == sp.flag + " " + fmt(x);
    }
  }

  /** A switch's entry is its name when it is on. */
  lemma SwitchEntry(sp: ArgSpec, o: Overrides, fmt: real -> string)
    requires !TakesValue(sp.dest)
    ensures Entry(sp, o, fmt) == if Get(o, sp.dest).on then [sp.flag] else []
  {
  }

  /** The entries of the whole table, option by option. */
  lemma TableEntries(o: Overrides, fmt: real -> string)
    ensures EntriesUpTo(IpArgSpecs, o, fmt, |IpArgSpecs|)
         == [] + Entry(IpArgSpecs[0], o, fmt) + Entry(IpArgSpecs[1], o, fmt)
            + Entry(IpArgSpecs[2], o, fmt) + Entry(IpArgSpecs[3], o, fmt)
            + Entry(IpArgSpecs[4], o, fmt) + Entry(IpArgSpecs[5], o, fmt)
            + Entry(IpArgSpecs[6], o, fmt) + Entry(IpArgSpecs[7], o, fmt)
  {
    assert EntriesUpTo(IpArgSpecs, o, fmt, 1) == [] + Entry(IpArgSpecs[0], o, fmt);
    assert EntriesUpTo(IpArgSpecs, o, fmt, 2) == EntriesUpTo(IpArgSpecs, o, fmt, 1) + Entry(IpArgSpecs[1], o, fmt);
    assert EntriesUpTo(IpArgSpecs, o, fmt, 3) == EntriesUpTo(IpArgSpecs, o, fmt, 2) + Entry(IpArgSpecs[2], o, fmt);
    assert EntriesUpTo(IpArgSpecs, o, fmt, 4) == EntriesUpTo(IpArgSpecs, o, fmt, 3) + Entry(IpArgSpecs[3], o, fmt);
    assert EntriesUpTo(IpArgSpecs, o, fmt, 5) == EntriesUpTo(IpArgSpecs, o, fmt, 4) + Entry(IpArgSpecs[4], o, fmt);
    assert EntriesUpTo(IpArgSpecs, o, fmt, 6) == EntriesUpTo(IpArgSpecs, o, fmt, 5) + Entry(IpArgSpecs[5], o, fmt);
    assert EntriesUpTo(IpArgSpecs, o, fmt, 7) == EntriesUpTo(IpArgSpecs, o, fmt, 6) + Entry(IpArgSpecs[6], o, fmt);
  }

  /** The two scale options' entries, spelled with the options' names. */
  lemma ScaleSpellings(o: Overrides, fmt: real -> string)
    ensures Entry(IpArgSpecs[0], o, fmt) == if o.resScale.Some? then [ResScaleFlag + " " + fmt(o.resScale.value)] else []
    ensures Entry(IpArgSpecs[1], o, fmt) == if o.sampleScale.Some? then [SampleScaleFlag + " " + fmt(o.sampleScale.value)] else []
  {
    ScaleEntry(IpArgSpecs[0], o, fmt);
    ScaleEntry(IpArgSpecs[1], o, fmt);
  }

  /** The six switches' entries, spelled with the switches' names. */
  lemma SwitchSpellings(o: Overrides, fmt: real -> string)
    ensures Entry(IpArgSpecs[2], o, fmt) == if o.disableBlur then [DisableBlurFlag] else []
    ensures Entry(IpArgSpecs[3], o, fmt) == if o.disableAovs then [DisableAovsFlag] else []
    ensures Entry(IpArgSpecs[4], o, fmt) == if o.disableDeep then [DisableDeepFlag] else []
    ensures Entry(IpArgSpecs[5], o, fmt) == if o.disableDisplacement then [DisableDisplacementFlag] else []
    ensures Entry(IpArgSpecs[6], o, fmt) == if o.disableSubd then [DisableSubdFlag] else []
    ensures Entry(IpArgSpecs[7], o, fmt) == if o.disableTilecallback then [DisableTilecallbackFlag] else []
  {
    SwitchEntry(IpArgSpecs[2], o, fmt);
    SwitchEntry(IpArgSpecs[3], o, fmt);
    SwitchEntry(IpArgSpecs[4], o, fmt);
    SwitchEntry(IpArgSpecs[5], o, fmt);
    SwitchEntry(IpArgSpecs[6], o, fmt);
    SwitchEntry(IpArgSpecs[7], o, fmt);
  }

  /**
   * `buildArgString`: appends one entry per set setting, in the fixed order
   * resscale, samplescale, disableblur, disableaovs, disabledeep,
   * disabledisplacement, disablesubd, disabletilecallback, and joins the
   * entries with single spaces. The result is the join of the words derived
   * from the declared option table.
   */
  method BuildArgString(o: Overrides, fmt: real -> string) returns (r: string)
    ensures r == Join(ArgWords(o, fmt))
  {
    ScaleSpellings(o, fmt);
    SwitchSpellings(o, fmt);
    TableEntries(o, fmt);
    JoinEntries(IpArgSpecs, o, fmt, |IpArgSpecs|);
    var args: seq<string> := [];
    args := args + if o.resScale.Some? then [ResScaleFlag + " " + fmt(o.resScale.value)] else [];
    args := args + if o.sampleScale.Some? then [SampleScaleFlag + " " + fmt(o.sampleScale.value)] else [];
    args := args + if o.disableBlur then [DisableBlurFlag] else [];
    args := args + if o.disableAovs then [DisableAovsFlag] else [];
    args := args + if o.disableDeep then [DisableDeepFlag] else [];
    args := args + if o.disableDisplacement then [DisableDisplacementFlag] else [];
    args := args + if o.disableSubd then [DisableSubdFlag] else [];
    args := args + if o.disableTilecallback then [DisableTilecallbackFlag] else [];
    r := Join(args);
  }
}
