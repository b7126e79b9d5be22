/** Parameter metadata of the VST engine (src/synth/parameters.rs): the three
    kinds of range with their maps between plugin values and the host's
    normalized [0, 1] values, the 35 parameters with their index bijection,
    and each parameter's range and default. */
module Parameters {
  import opened Numerics
  import Oscillator

  /** ParameterRange. Linear and Logarithmic carry f64 bounds, Discrete i32 bounds. */
  datatype ParameterRange =
    | Linear(min: real, max: real)
    | Discrete(lo: int, hi: int)
    | Logarithmic(min: real, max: real)

  /** The ranges every configured parameter satisfies: a non-empty span, and
      positive bounds with distinct logarithms for a logarithmic range. The
      divisions in map_to_daw are by this span. */
  predicate ValidRange(m: Math, r: ParameterRange)
  {
    match r
    case Linear(min, max) => min < max
    case Discrete(lo, hi) => lo < hi
    case Logarithmic(min, max) => 0.0 < min < max && m.log2(min) < m.log2(max)
  }

  /** map_to_daw: the plugin value x as a position in [0, 1], clamped. */
  function MapToDaw(m: Math, r: ParameterRange, x: real): (d: real)
    requires ValidRange(m, r)
    ensures 0.0 <= d <= 1.0
  {
    var u := match r
      case Linear(min, max) => (x - min) / (max - min)
      case Logarithmic(min, max) => (m.log2(x) - m.log2(min)) / (m.log2(max) - m.log2(min))
      case Discrete(lo, hi) => (x - lo as real) / (hi - lo) as real;
    Clamp(u, 0.0, 1.0)
  }

  /** range: the inclusive interval min..=max of every variant; a configured
      range gives a non-empty interval, and a discrete one whole-number bounds. */
  function Range(r: ParameterRange): (b: (real, real))
    ensures forall m :: ValidRange(m, r) ==> b.0 < b.1
    ensures r.Discrete? ==> Round(b.0) == r.lo && Round(b.1) == r.hi
  {
    match r
    case Linear(min, max) => (min, max)
    case Logarithmic(min, max) => (min, max)
    case Discrete(lo, hi) =>
      RoundInteger(lo);
      RoundInteger(hi);
      (lo as real, hi as real)
  }

  /** The bounds of range are the ends of the normalized scale: map_to_daw
      takes them to 0 and 1, and map_to_plugin of a linear or discrete range
      takes 0 and 1 back to them. */
  lemma {:induction false} RangeEndpoints(m: Math, r: ParameterRange)
    requires ValidRange(m, r)
    ensures MapToDaw(m, r, Range(r).0) == 0.0
    ensures MapToDaw(m, r, Range(r).1) == 1.0
    ensures !r.Logarithmic? ==> MapToPlugin(m, r, 0.0) == Range(r).0
    ensures !r.Logarithmic? ==> MapToPlugin(m, r, 1.0) == Range(r).1
  {
    match r
    case Linear(min, max) =>
      UnitQuotients(min, max);
      assert Interpolate(min, max, 0.0) == min && Interpolate(min, max, 1.0) == max;
    case Logarithmic(min, max) =>
      UnitQuotients(m.log2(min), m.log2(max));
    case Discrete(lo, hi) =>
      UnitQuotients(lo as real, hi as real);
      assert (lo as real - lo as real) / (hi - lo) as real == 0.0;
      assert (hi as real - lo as real) / (hi - lo) as real == 1.0;
      assert Interpolate(lo as real, hi as real, 0.0) == lo as real;
      assert Interpolate(lo as real, hi as real, 1.0) == hi as real;
      RoundInteger(lo);
      RoundInteger(hi);
  }

  /** The relative positions of the ends of a non-empty interval are 0 and 1. */
  lemma UnitQuotients(a: real, b: real)
    requires a < b
    ensures (a - a) / (b - a) == 0.0
    ensures (b - a) / (b - a) == 1.0
  {
  }

  /** min + t (max - min), the linear interpolation of map_to_plugin. */
  function Interpolate(min: real, max: real, t: real): real
  {
    min + t * (max - min)
  }

  /** map_to_plugin: the plugin value of a normalized value t. Linear interpolates,
      Logarithmic interpolates the base-2 logarithms, Discrete rounds to a whole
      number. For t in [0, 1] a Linear or Discrete range gives a value inside it. */
  function MapToPlugin(m: Math, r: ParameterRange, t: real): (v: real)
    ensures r.Discrete? ==> v == Round(v) as real
    ensures !r.Logarithmic? && Range(r).0 < Range(r).1 && 0.0 <= t <= 1.0 ==> Range(r).0 <= v <= Range(r).1
  {
    match r
    case Linear(min, max) =>
      assert min < max && 0.0 <= t <= 1.0 ==> min <= Interpolate(min, max, t) <= max by {
        if min < max && 0.0 <= t <= 1.0 {
          InterpolateInverse(min, max, t);
        }
      }
      Interpolate(min, max, t)
    case Logarithmic(min, max) => m.exp2(Interpolate(m.log2(min), m.log2(max), t))
    case Discrete(lo, hi) =>
      var x := Interpolate(lo as real, hi as real, t);
      RoundInteger(Round(x));
      assert lo < hi && 0.0 <= t <= 1.0 ==> lo <= Round(x) <= hi by {
        if lo < hi && 0.0 <= t <= 1.0 {
          InterpolateInverse(lo as real, hi as real, t);
          RoundMonotone(lo as real, x);
          RoundMonotone(x, hi as real);
          RoundInteger(lo);
          RoundInteger(hi);
        }
      }
      Round(Interpolate(lo as real, hi as real, t)) as real
  }

  datatype Param =
    | FilterCutoff
    | FilterResonance
    | FilterEnvModGain
    | FilterKeyTrack
    | FilterVelocityMod
    | AmpEnvAttack
    | AmpEnvDecay
    | AmpEnvSustain
    | AmpEnvRelease
    | FilterEnvAttack
    | FilterEnvDecay
    | FilterEnvSustain
    | FilterEnvRelease
    | Osc1Level
    | Osc1Octave
    | Osc1Detune
    | Osc1WaveForm
    | Osc1PulseWidth
    | Osc2Level
    | Osc2Octave
    | Osc2Detune
    | Osc2WaveForm
    | Osc2PulseWidth
    | LfoHostSync
    | LfoKeyTrig
    | LfoFreq
    | LfoWaveform
    | LfoFilterModDepth
    | LfoOsc1DetuneDepth
    | MasterGain
    | UnisonVoices
    | UnisonDetune
    | UnisonStereoSpread
    | PolyMode
    | Portamento

  /** index: the declaration position of the variant. */
  function Index(p: Param): (i: nat)
    ensures i < 35
  {
    match p
    case FilterCutoff => 0
    case FilterResonance => 1
    case FilterEnvModGain => 2
    case FilterKeyTrack => 3
    case FilterVelocityMod => 4
    case AmpEnvAttack => 5
    case AmpEnvDecay => 6
    case AmpEnvSustain => 7
    case AmpEnvRelease => 8
    case FilterEnvAttack => 9
    case FilterEnvDecay => 10
    case FilterEnvSustain => 11
    case FilterEnvRelease => 12
    case Osc1Level => 13
    case Osc1Octave => 14
    case Osc1Detune => 15
    case Osc1WaveForm => 16
    case Osc1PulseWidth => 17
    case Osc2Level => 18
    case Osc2Octave => 19
    case Osc2Detune => 20
    case Osc2WaveForm => 21
    case Osc2PulseWidth => 22
    case LfoHostSync => 23
    case LfoKeyTrig => 24
    case LfoFreq => 25
    case LfoWaveform => 26
    case LfoFilterModDepth => 27
    case LfoOsc1DetuneDepth => 28
    case MasterGain => 29
    case UnisonVoices => 30
    case UnisonDetune => 31
    case UnisonStereoSpread => 32
    case PolyMode => 33
    case Portamento => 34
  }

  /** from_index: the variant at position i; any i >= 35 panics (None). */
  function FromIndex(i: nat): (r: Option<Param>)
    ensures r.Some? <==> i < 35
  {
    match i
    case 0 => Some(FilterCutoff)
    case 1 => Some(FilterResonance)
    case 2 => Some(FilterEnvModGain)
    case 3 => Some(FilterKeyTrack)
    case 4 => Some(FilterVelocityMod)
    case 5 => Some(AmpEnvAttack)
    case 6 => Some(AmpEnvDecay)
    case 7 => Some(AmpEnvSustain)
    case 8 => Some(AmpEnvRelease)
    case 9 => Some(FilterEnvAttack)
    case 10 => Some(FilterEnvDecay)
    case 11 => Some(FilterEnvSustain)
    case 12 => Some(FilterEnvRelease)
    case 13 => Some(Osc1Level)
    case 14 => Some(Osc1Octave)
    case 15 => Some(Osc1Detune)
    case 16 => Some(Osc1WaveForm)
    case 17 => Some(Osc1PulseWidth)
    case 18 => Some(Osc2Level)
    case 19 => Some(Osc2Octave)
    case 20 => Some(Osc2Detune)
    case 21 => Some(Osc2WaveForm)
    case 22 => Some(Osc2PulseWidth)
    case 23 => Some(LfoHostSync)
    case 24 => Some(LfoKeyTrig)
    case 25 => Some(LfoFreq)
    case 26 => Some(LfoWaveform)
    case 27 => Some(LfoFilterModDepth)
    case 28 => Some(LfoOsc1DetuneDepth)
    case 29 => Some(MasterGain)
    case 30 => Some(UnisonVoices)
    case 31 => Some(UnisonDetune)
    case 32 => Some(UnisonStereoSpread)
    case 33 => Some(PolyMode)
    case 34 => Some(Portamento)
    case _ => None
  }

  /** PARAMS: every variant, in declaration order. */
  const Params: seq<Param> := [
    FilterCutoff, FilterResonance, FilterEnvModGain, FilterKeyTrack,
    FilterVelocityMod, AmpEnvAttack, AmpEnvDecay, AmpEnvSustain, AmpEnvRelease,
    FilterEnvAttack, FilterEnvDecay, FilterEnvSustain, FilterEnvRelease, Osc1Level,
    Osc1Octave, Osc1Detune, Osc1WaveForm, Osc1PulseWidth, Osc2Level, Osc2Octave,
    Osc2Detune, Osc2WaveForm, Osc2PulseWidth, LfoHostSync, LfoKeyTrig, LfoFreq,
    LfoWaveform, LfoFilterModDepth, LfoOsc1DetuneDepth, MasterGain, UnisonVoices,
    UnisonDetune, UnisonStereoSpread, PolyMode, Portamento
  ]

  /** Display (the Debug name): the variant's identifier. */
  function Name(p: Param): (s: string)
    ensures 7 <= |s| <= 18
  {
    match p
    case FilterCutoff => "FilterCutoff"
    case FilterResonance => "FilterResonance"
    case FilterEnvModGain => "FilterEnvModGain"
    case FilterKeyTrack => "FilterKeyTrack"
    case FilterVelocityMod => "FilterVelocityMod"
    case AmpEnvAttack => "AmpEnvAttack"
    case AmpEnvDecay => "AmpEnvDecay"
    case AmpEnvSustain => "AmpEnvSustain"
    case AmpEnvRelease => "AmpEnvRelease"
    case FilterEnvAttack => "FilterEnvAttack"
    case FilterEnvDecay => "FilterEnvDecay"
    case FilterEnvSustain => "FilterEnvSustain"
    case FilterEnvRelease => "FilterEnvRelease"
    case Osc1Level => "Osc1Level"
    case Osc1Octave => "Osc1Octave"
    case Osc1Detune => "Osc1Detune"
    case Osc1WaveForm => "Osc1WaveForm"
    case Osc1PulseWidth => "Osc1PulseWidth"
    case Osc2Level => "Osc2Level"
    case Osc2Octave => "Osc2Octave"
    case Osc2Detune => "Osc2Detune"
    case Osc2WaveForm => "Osc2WaveForm"
    case Osc2PulseWidth => "Osc2PulseWidth"
    case LfoHostSync => "LfoHostSync"
    case LfoKeyTrig => "LfoKeyTrig"
    case LfoFreq => "LfoFreq"
    case LfoWaveform => "LfoWaveform"
    case LfoFilterModDepth => "LfoFilterModDepth"
    case LfoOsc1DetuneDepth => "LfoOsc1DetuneDepth"
    case MasterGain => "MasterGain"
    case UnisonVoices => "UnisonVoices"
    case UnisonDetune => "UnisonDetune"
    case UnisonStereoSpread => "UnisonStereoSpread"
    case PolyMode => "PolyMode"
    case Portamento => "Portamento"
  }

  /** Param::from_str (EnumString): the variant with exactly this name, if any.
      The names are compared in groups of equal length. */
  function FromName(s: string): (r: Option<Param>)
    ensures r.Some? ==> Name(r.value) == s
  {
    match |s|
    case 7 => FromNameOfLength7(s)
    case 8 => FromNameOfLength8(s)
    case 9 => FromNameOfLength9(s)
    case 10 => FromNameOfLength10(s)
    case 11 => FromNameOfLength11(s)
    case 12 => FromNameOfLength12(s)
    case 13 => FromNameOfLength13(s)
    case 14 => FromNameOfLength14(s)
    case 15 => FromNameOfLength15(s)
    case 16 => FromNameOfLength16(s)
    case 17 => FromNameOfLength17(s)
    case 18 => FromNameOfLength18(s)
    case _ => None
  }

  function FromNameOfLength7(s: string): (r: Option<Param>)
    ensures r.Some? ==> Name(r.value) == s
  {
    if s == "LfoFreq" then assert Name(LfoFreq) == s; Some(LfoFreq)
    else None
  }

  function FromNameOfLength8(s: string): (r: Option<Param>)
    ensures r.Some? ==> Name(r.value) == s
  {
    if s == "PolyMode" then assert Name(PolyMode) == s; Some(PolyMode)
    else None
  }

  function FromNameOfLength9(s: string): (r: Option<Param>)
    ensures r.Some? ==> Name(r.value) == s
  {
    if s == "Osc1Level" then assert Name(Osc1Level) == s; Some(Osc1Level)
    else if s == "Osc2Level" then assert Name(Osc2Level) == s; Some(Osc2Level)
    else None
  }

  function FromNameOfLength10(s: string): (r: Option<Param>)
    ensures r.Some? ==> Name(r.value) == s
  {
    if s == "Osc1Octave" then assert Name(Osc1Octave) == s; Some(Osc1Octave)
    else if s == "Osc1Detune" then assert Name(Osc1Detune) == s; Some(Osc1Detune)
    else if s == "Osc2Octave" then assert Name(Osc2Octave) == s; Some(Osc2Octave)
    else if s == "Osc2Detune" then assert Name(Osc2Detune) == s; Some(Osc2Detune)
    else if s == "LfoKeyTrig" then assert Name(LfoKeyTrig) == s; Some(LfoKeyTrig)
    else if s == "MasterGain" then assert Name(MasterGain) == s; Some(MasterGain)
    else if s == "Portamento" then assert Name(Portamento) == s; Some(Portamento)
    else None
  }

  function FromNameOfLength11(s: string): (r: Option<Param>)
    ensures r.Some? ==> Name(r.value) == s
  {
    if s == "AmpEnvDecay" then assert Name(AmpEnvDecay) == s; Some(AmpEnvDecay)
    else if s == "LfoHostSync" then assert Name(LfoHostSync) == s; Some(LfoHostSync)
    else if s == "LfoWaveform" then assert Name(LfoWaveform) == s; Some(LfoWaveform)
    else None
  }

  function FromNameOfLength12(s: string): (r: Option<Param>)
    ensures r.Some? ==> Name(r.value) == s
  {
    if s == "FilterCutoff" then assert Name(FilterCutoff) == s; Some(FilterCutoff)
    else if s == "AmpEnvAttack" then assert Name(AmpEnvAttack) == s; Some(AmpEnvAttack)
    else if s == "Osc1WaveForm" then assert Name(Osc1WaveForm) == s; Some(Osc1WaveForm)
    else if s == "Osc2WaveForm" then assert Name(Osc2WaveForm) == s; Some(Osc2WaveForm)
    else if s == "UnisonVoices" then assert Name(UnisonVoices) == s; Some(UnisonVoices)
    else if s == "UnisonDetune" then assert Name(UnisonDetune) == s; Some(UnisonDetune)
    else None
  }

  function FromNameOfLength13(s: string): (r: Option<Param>)
    ensures r.Some? ==> Name(r.value) == s
  {
    if s == "AmpEnvSustain" then assert Name(AmpEnvSustain) == s; Some(AmpEnvSustain)
    else if s == "AmpEnvRelease" then assert Name(AmpEnvRelease) == s; Some(AmpEnvRelease)
    else None
  }

  function FromNameOfLength14(s: string): (r: Option<Param>)
    ensures r.Some? ==> Name(r.value) == s
  {
    if s == "FilterKeyTrack" then assert Name(FilterKeyTrack) == s; Some(FilterKeyTrack)
    else if s == "FilterEnvDecay" then assert Name(FilterEnvDecay) == s; Some(FilterEnvDecay)
    else if s == "Osc1PulseWidth" then assert Name(Osc1PulseWidth) == s; Some(Osc1PulseWidth)
    else if s == "Osc2PulseWidth" then assert Name(Osc2PulseWidth) == s; Some(Osc2PulseWidth)
    else None
  }

  function FromNameOfLength15(s: string): (r: Option<Param>)
    ensures r.Some? ==> Name(r.value) == s
  {
    if s == "FilterResonance" then assert Name(FilterResonance) == s; Some(FilterResonance)
    else if s == "FilterEnvAttack" then assert Name(FilterEnvAttack) == s; Some(FilterEnvAttack)
    else None
  }

  function FromNameOfLength16(s: string): (r: Option<Param>)
    ensures r.Some? ==> Name(r.value) == s
  {
    if s == "FilterEnvModGain" then assert Name(FilterEnvModGain) == s; Some(FilterEnvModGain)
    else if s == "FilterEnvSustain" then assert Name(FilterEnvSustain) == s; Some(FilterEnvSustain)
    else if s == "FilterEnvRelease" then assert Name(FilterEnvRelease) == s; Some(FilterEnvRelease)
    else None
  }

  function FromNameOfLength17(s: string): (r: Option<Param>)
    ensures r.Some? ==> Name(r.value) == s
  {
    if s == "FilterVelocityMod" then assert Name(FilterVelocityMod) == s; Some(FilterVelocityMod)
    else if s == "LfoFilterModDepth" then assert Name(LfoFilterModDepth) == s; Some(LfoFilterModDepth)
    else None
  }

  function FromNameOfLength18(s: string): (r: Option<Param>)
    ensures r.Some? ==> Name(r.value) == s
  {
    if s == "LfoOsc1DetuneDepth" then assert Name(LfoOsc1DetuneDepth) == s; Some(LfoOsc1DetuneDepth)
    else if s == "UnisonStereoSpread" then assert Name(UnisonStereoSpread) == s; Some(UnisonStereoSpread)
    else None
  }

  const MinFreq: real := 20.0
  const MaxFreq: real := 20000.0

  const Frequency: ParameterRange := Logarithmic(MinFreq, MaxFreq)
  const EnvelopeTime: ParameterRange := Logarithmic(0.001, 16.0)
  const Factor: ParameterRange := Linear(0.0, 1.0)
  const SignedFactor: ParameterRange := Linear(-1.0, 1.0)

  /** The part of ParamConfig the engine computes with; labels, units and
      display closures are cosmetic. */
  datatype ParamConfig = ParamConfig(range: ParameterRange, default: real)

  /** get_config: range and default of each parameter. */
  function Config(p: Param): (c: ParamConfig)
    ensures Range(c.range).0 <= c.default <= Range(c.range).1
  {
    match p
    case FilterCutoff => ParamConfig(Frequency, 4000.0)
    case FilterResonance => ParamConfig(Linear(0.0, 0.9), 0.1)
    case FilterEnvModGain => ParamConfig(SignedFactor, 0.0)
    case FilterKeyTrack => ParamConfig(Factor, 1.0)
    case FilterVelocityMod => ParamConfig(Factor, 1.0)
    case AmpEnvAttack => ParamConfig(EnvelopeTime, 0.01)
    case AmpEnvDecay => ParamConfig(EnvelopeTime, 0.01)
    case AmpEnvSustain => ParamConfig(Factor, 1.0)
    case AmpEnvRelease => ParamConfig(EnvelopeTime, 0.01)
    case FilterEnvAttack => ParamConfig(EnvelopeTime, 0.01)
    case FilterEnvDecay => ParamConfig(EnvelopeTime, 0.01)
    case FilterEnvSustain => ParamConfig(Factor, 1.0)
    case FilterEnvRelease => ParamConfig(EnvelopeTime, 0.01)
    case Osc1Level => ParamConfig(Factor, 1.0)
    case Osc1Octave => ParamConfig(Discrete(-3, 3), 0.0)
    case Osc1Detune => ParamConfig(Linear(-2.0, 2.0), 0.0)
    case Osc1WaveForm => ParamConfig(Discrete(0, 2), 0.0)
    case Osc1PulseWidth => ParamConfig(Linear(0.05, 0.95), 0.5)
    case Osc2Level => ParamConfig(Factor, 1.0)
    case Osc2Octave => ParamConfig(Discrete(-3, 3), 0.0)
    case Osc2Detune => ParamConfig(Linear(-2.0, 2.0), 0.0)
    case Osc2WaveForm => ParamConfig(Discrete(0, 2), 0.0)
    case Osc2PulseWidth => ParamConfig(Linear(0.05, 0.95), 0.5)
    case LfoHostSync => ParamConfig(Discrete(0, 1), 0.0)
    case LfoKeyTrig => ParamConfig(Discrete(0, 1), 0.0)
    case LfoFreq => ParamConfig(Logarithmic(0.05, 20.0), 1.0)
    case LfoWaveform => ParamConfig(Discrete(2, 4), 2.0)
    case LfoFilterModDepth => ParamConfig(SignedFactor, 0.0)
    case LfoOsc1DetuneDepth => ParamConfig(Linear(0.0, 12.0), 0.0)
    case MasterGain => ParamConfig(Linear(0.0, 2.0), 1.0)
    case UnisonVoices => ParamConfig(Discrete(1, 7), 1.0)
    case UnisonDetune => ParamConfig(Linear(0.0, 0.5), 0.05)
    case UnisonStereoSpread => ParamConfig(Factor, 0.0)
    case PolyMode => ParamConfig(Linear(1.0, 2.0), 2.0)
    case Portamento => ParamConfig(Linear(0.0, 100.0), 0.0)
  }

  /** Linear: 0 and 1 map to the bounds, and map_to_plugin inverts map_to_daw on
      [min, max]. */
  lemma LinearRoundTrip(m: Math, min: real, max: real, x: real)
    requires min < max && min <= x <= max
    ensures MapToPlugin(m, Linear(min, max), 0.0) == min
    ensures MapToPlugin(m, Linear(min, max), 1.0) == max
    ensures MapToPlugin(m, Linear(min, max), MapToDaw(m, Linear(min, max), x)) == x
  {
    var w := max - min;
    var u := (x - min) / w;
    assert u * w == x - min;
    UnitQuotient(x - min, w);
    assert MapToDaw(m, Linear(min, max), x) == u;
  }

  /** Linear: map_to_daw inverts map_to_plugin on [0, 1]. */
  lemma LinearDawRoundTrip(m: Math, min: real, max: real, t: real)
    requires min < max && 0.0 <= t <= 1.0
    ensures MapToDaw(m, Linear(min, max), MapToPlugin(m, Linear(min, max), t)) == t
  {
    var w := max - min;
    var x := Interpolate(min, max, t);
    assert x - min == t * w;
    assert (t * w) / w == t;
  }

  /** Logarithmic: map_to_plugin inverts map_to_daw on [min, max], given the laws
      of log2 and exp2. */
  lemma LogRoundTrip(m: Math, min: real, max: real, x: real)
    requires Log2Law(m) && 0.0 < min < max && min <= x <= max
    ensures ValidRange(m, Logarithmic(min, max))
    ensures MapToPlugin(m, Logarithmic(min, max), MapToDaw(m, Logarithmic(min, max), x)) == x
  {
    var a, b, c := m.log2(min), m.log2(max), m.log2(x);
    assert a < b;
    assert a <= c <= b by {
      if min < x { assert a < c; }
      if x < max { assert c < b; }
    }
    UnitQuotient(c - a, b - a);
    InterpolateQuotient(a, b, c);
    assert MapToDaw(m, Logarithmic(min, max), x) == (c - a) / (b - a);
  }

  /** Interpolating at the relative position of c in [a, b] gives back c. */
  lemma InterpolateQuotient(a: real, b: real, c: real)
    requires a < b
    ensures Interpolate(a, b, (c - a) / (b - a)) == c
  {
    var w := b - a;
    var u := (c - a) / w;
    assert u * w == c - a;
  }

  /** Logarithmic: map_to_daw inverts map_to_plugin on [0, 1], and the plugin value
      stays inside [min, max]. */
  lemma LogDawRoundTrip(m: Math, min: real, max: real, t: real)
    requires Log2Law(m) && 0.0 < min < max && 0.0 <= t <= 1.0
    ensures ValidRange(m, Logarithmic(min, max))
    ensures min <= MapToPlugin(m, Logarithmic(min, max), t) <= max
    ensures MapToDaw(m, Logarithmic(min, max), MapToPlugin(m, Logarithmic(min, max), t)) == t
  {
    var a, b := m.log2(min), m.log2(max);
    assert a < b;
    var y := Interpolate(a, b, t);
    InterpolateInverse(a, b, t);
    var e := m.exp2(y);
    assert 0.0 < e && m.log2(e) == y;
    Log2Reflects(m, min, e);
    Log2Reflects(m, e, max);
  }

  /** Interpolation on [a, b] stays inside it and the normalized distance from a
      recovers t. */
  lemma InterpolateInverse(a: real, b: real, t: real)
    requires a < b && 0.0 <= t <= 1.0
    ensures a <= Interpolate(a, b, t) <= b
    ensures (Interpolate(a, b, t) - a) / (b - a) == t
  {
    var w := b - a;
    var y := Interpolate(a, b, t);
    assert y - a == t * w;
    MulNonNeg(t, w);
    MulNonNeg(1.0 - t, w);
    assert b - y == (1.0 - t) * w;
    assert (t * w) / w == t;
  }

  /** log2 reflects the order of positive reals. */
  lemma Log2Reflects(m: Math, x: real, z: real)
    requires Log2Law(m) && 0.0 < x && 0.0 < z && m.log2(x) <= m.log2(z)
    ensures x <= z
  {
    if z < x {
      assert false;
    }
  }

  /** Discrete: map_to_plugin inverts map_to_daw on the integers of the range. */
  lemma DiscreteRoundTrip(m: Math, lo: int, hi: int, k: int)
    requires lo <= k <= hi && lo < hi
    ensures MapToPlugin(m, Discrete(lo, hi), MapToDaw(m, Discrete(lo, hi), k as real)) == k as real
  {
    var w := (hi - lo) as real;
    var u := (k - lo) as real / w;
    assert u * w == (k - lo) as real;
    UnitQuotient((k - lo) as real, w);
    assert MapToDaw(m, Discrete(lo, hi), k as real) == u;
    assert Interpolate(lo as real, hi as real, u) == k as real;
    RoundInteger(k);
  }

  /** Rounding is monotone. */
  lemma RoundMonotone(x: real, y: real)
    requires x <= y
    ensures Round(x) <= Round(y)
  {
  }

  /** from_index agrees with PARAMS on every index below 35. */
  lemma FromIndexAgreesWithParams()
    ensures |Params| == 35
    ensures forall i :: 0 <= i < 35 ==> FromIndex(i) == Some(Params[i])
  {
  }

  /** index inverts from_index. */
  lemma IndexOfFromIndex(i: nat)
    ensures FromIndex(i).Some? ==> Index(FromIndex(i).value) == i
  {
  }

  /** PARAMS lists the variants in index order: PARAMS[i].index() == i. */
  lemma {:induction false} ParamsInIndexOrder()
    ensures forall i :: 0 <= i < |Params| ==> Index(Params[i]) == i
  {
    FromIndexAgreesWithParams();
    forall i | 0 <= i < |Params|
      ensures Index(Params[i]) == i
    {
      IndexOfFromIndex(i);
    }
  }

  /** from_index inverts index. */
  lemma FromIndexOfIndex(p: Param)
    ensures FromIndex(Index(p)) == Some(p)
  {
  }

  /** from_str inverts Display. */
  lemma FromNameOfName(p: Param)
    ensures FromName(Name(p)) == Some(p)
  {
    if Index(p) < 7 {
      FromNameOfNameFrom0(p);
    } else if Index(p) < 14 {
      FromNameOfNameFrom7(p);
    } else if Index(p) < 21 {
      FromNameOfNameFrom14(p);
    } else if Index(p) < 25 {
      FromNameOfNameFrom21(p);
    } else if Index(p) < 28 {
      FromNameOfNameFrom25(p);
    } else if Index(p) < 32 {
      FromNameOfNameFrom28(p);
    } else {
      FromNameOfNameFrom32(p);
    }
  }

  lemma FromNameOfNameFrom0(p: Param)
    requires Index(p) < 7
    ensures FromName(Name(p)) == Some(p)
  {
  }

  lemma FromNameOfNameFrom7(p: Param)
    requires 7 <= Index(p) < 14
    ensures FromName(Name(p)) == Some(p)
  {
  }

  lemma FromNameOfNameFrom14(p: Param)
    requires 14 <= Index(p) < 21
    ensures FromName(Name(p)) == Some(p)
  {
  }

  lemma FromNameOfNameFrom21(p: Param)
    requires 21 <= Index(p) < 25
    ensures FromName(Name(p)) == Some(p)
  {
  }

  lemma FromNameOfNameFrom25(p: Param)
    requires 25 <= Index(p) < 28
    ensures FromName(Name(p)) == Some(p)
  {
  }

  lemma FromNameOfNameFrom28(p: Param)
    requires 28 <= Index(p) < 32
    ensures FromName(Name(p)) == Some(p)
  {
  }

  lemma FromNameOfNameFrom32(p: Param)
    requires 32 <= Index(p)
    ensures FromName(Name(p)) == Some(p)
  {
  }

  /** A logarithmic range with 0 < min < max is valid. */
  lemma LogRangeValid(m: Math, min: real, max: real)
    requires Log2Law(m) && 0.0 < min < max
    ensures ValidRange(m, Logarithmic(min, max))
  {
  }

  /** Every configured range is valid. */
  lemma ConfigsValid(m: Math, p: Param)
    requires Log2Law(m)
    ensures ValidRange(m, Config(p).range)
  {
    LogRangeValid(m, MinFreq, MaxFreq);
    LogRangeValid(m, 0.001, 16.0);
    LogRangeValid(m, 0.05, 20.0);
  }

  /** The waveform parameters map every normalized value to an integer waveform::from
      accepts: 0..=2 for the oscillators, 2..=4 for the LFO. */
  lemma WaveFormParamsDecode(m: Math, p: Param, t: real)
    requires p == Osc1WaveForm || p == Osc2WaveForm || p == LfoWaveform
    requires 0.0 <= t <= 1.0
    ensures var k := Round(MapToPlugin(m, Config(p).range, t));
      Oscillator.FromInt(k).Some? && k as real == MapToPlugin(m, Config(p).range, t)
  {
    var r := Config(p).range;
    RoundInteger(Round(Interpolate(r.lo as real, r.hi as real, t)));
  }
}
