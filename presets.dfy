/** Preset banks of the VST engine (src/synth/presets.rs): conversion between the
    serialized form, a list of (parameter name, plugin value) pairs per preset,
    and the in-memory form, one normalized value per parameter index. */
module Presets {
  import opened Numerics
  import opened Parameters

  const CurrentFormatVersion: nat := 1

  /** The number of parameters, PARAMS.len(). */
  const ParamCount: nat := 35

  datatype SynthPreset = SynthPreset(name: string, params: seq<real>)

  datatype SerializedPreset = SerializedPreset(name: string, params: seq<(string, real)>)

  datatype SerializedBank = SerializedBank(version: nat, presets: seq<SerializedPreset>)

  /** The parameter-name parser; the bank conversion uses Param::from_str
      (Parameters.FromName), and the lemmas about applying pairs hold for any parser. */
  type Parser = string -> Option<Param>

  /** One (name, value) pair applied to a parameter vector: a known name stores
      map_to_daw of the value at the parameter's index, an unknown one is skipped. */
  function Store(m: Math, parse: Parser, v: seq<real>, pair: (string, real)): (r: seq<real>)
    requires Log2Law(m) && |v| == ParamCount
    ensures |r| == ParamCount
  {
    match parse(pair.0)
    case None => v
    case Some(p) => v[Index(p) := DawValue(m, p, pair.1)]
  }

  /** The stored value of parameter p for the plugin value x: map_to_daw through
      p's configured range. */
  function DawValue(m: Math, p: Param, x: real): (d: real)
    requires Log2Law(m)
    ensures 0.0 <= d <= 1.0
  {
    ConfigsValid(m, p);
    MapToDaw(m, Config(p).range, x)
  }

  /** The pairs applied in order. */
  function ApplyPairs(m: Math, parse: Parser, v: seq<real>, pairs: seq<(string, real)>): (r: seq<real>)
    requires Log2Law(m) && |v| == ParamCount
    ensures |r| == ParamCount
    decreases |pairs|
  {
    if |pairs| == 0 then v
    else Store(m, parse, ApplyPairs(m, parse, v, pairs[..|pairs| - 1]), pairs[|pairs| - 1])
  }

  function Zeros(): (z: seq<real>)
    ensures |z| == ParamCount && forall i :: 0 <= i < |z| ==> z[i] == 0.0
  {
    seq(ParamCount, _ => 0.0)
  }

  /** A serialized preset in memory: the name, and a zero vector with the pairs applied. */
  function DecodePreset(m: Math, sp: SerializedPreset): SynthPreset
    requires Log2Law(m)
  {
    SynthPreset(sp.name, ApplyPairs(m, FromName, Zeros(), sp.params))
  }

  /** Whether a pair names a parameter with index k. */
  predicate NamesIndex(parse: Parser, pair: (string, real), k: nat)
  {
    parse(pair.0).Some? && Index(parse(pair.0).value) == k
  }

  /** The parameter and value of the last pair naming index k, if any: the
      reference the decoded vector is checked against. */
  function LastAt(parse: Parser, pairs: seq<(string, real)>, k: nat): Option<(Param, real)>
    decreases |pairs|
  {
    if |pairs| == 0 then None
    else if NamesIndex(parse, pairs[|pairs| - 1], k) then
      Some((parse(pairs[|pairs| - 1].0).value, pairs[|pairs| - 1].1))
    else LastAt(parse, pairs[..|pairs| - 1], k)
  }

  /** Entry k of the decoded vector is the stored value of the last pair naming
      index k, and stays as it was when no pair names it. */
  lemma {:induction false} ApplyPairsEntry(m: Math, parse: Parser, v: seq<real>, pairs: seq<(string, real)>, k: nat)
    requires Log2Law(m) && |v| == ParamCount && k < ParamCount
    ensures ApplyPairs(m, parse, v, pairs)[k] ==
      if LastAt(parse, pairs, k).None? then v[k]
      else DawValue(m, LastAt(parse, pairs, k).value.0, LastAt(parse, pairs, k).value.1)
    decreases |pairs|
  {
    if |pairs| > 0 {
      ApplyPairsEntry(m, parse, v, pairs[..|pairs| - 1], k);
    }
  }

  /** LastAt finds nothing exactly when no pair names index k. */
  lemma {:induction false} LastAtNone(parse: Parser, pairs: seq<(string, real)>, k: nat)
    ensures LastAt(parse, pairs, k).None? <==> forall j :: 0 <= j < |pairs| ==> !NamesIndex(parse, pairs[j], k)
    decreases |pairs|
  {
    if |pairs| > 0 {
      var init := pairs[..|pairs| - 1];
      LastAtNone(parse, init, k);
      assert forall j :: 0 <= j < |init| ==> init[j] == pairs[j];
    }
  }

  /** What LastAt finds comes from a pair naming index k after which no pair names
      it: a name repeated within one preset keeps its last value. */
  lemma LastAtIsLast(parse: Parser, pairs: seq<(string, real)>, k: nat)
    requires LastAt(parse, pairs, k).Some?
    ensures exists j :: (0 <= j < |pairs| && NamesIndex(parse, pairs[j], k)
      && LastAt(parse, pairs, k).value == (parse(pairs[j].0).value, pairs[j].1)
      && forall i :: j < i < |pairs| ==> !NamesIndex(parse, pairs[i], k))
  {
    var j := LastAtWitness(parse, pairs, k);
  }

  lemma {:induction false} LastAtWitness(parse: Parser, pairs: seq<(string, real)>, k: nat) returns (j: nat)
    requires LastAt(parse, pairs, k).Some?
    ensures j < |pairs| && NamesIndex(parse, pairs[j], k)
    ensures LastAt(parse, pairs, k).value == (parse(pairs[j].0).value, pairs[j].1)
    ensures forall i :: j < i < |pairs| ==> !NamesIndex(parse, pairs[i], k)
    decreases |pairs|
  {
    var n := |pairs|;
    if NamesIndex(parse, pairs[n - 1], k) {
      j := n - 1;
    } else {
      var init := pairs[..n - 1];
      j := LastAtWitness(parse, init, k);
      assert pairs[j] == init[j];
      assert forall i :: j < i < n - 1 ==> pairs[i] == init[i];
    }
  }

  /** Every decoded value is a map_to_daw result, hence in [0, 1]. */
  lemma {:induction false} DecodedValuesInUnit(m: Math, sp: SerializedPreset, i: nat)
    requires Log2Law(m) && i < ParamCount
    ensures 0.0 <= DecodePreset(m, sp).params[i] <= 1.0
  {
    ApplyPairsEntry(m, FromName, Zeros(), sp.params, i);
  }

  /** from_serialized: each serialized preset decoded, in order. */
  method FromSerialized(m: Math, data: SerializedBank) returns (presets: seq<SynthPreset>)
    requires Log2Law(m)
    ensures |presets| == |data.presets|
    ensures forall i :: 0 <= i < |presets| ==> presets[i] == DecodePreset(m, data.presets[i])
  {
    presets := [];
    for k := 0 to |data.presets|
      invariant |presets| == k
      invariant forall i :: 0 <= i < k ==> presets[i] == DecodePreset(m, data.presets[i])
    {
      var sp := data.presets[k];
      var paramvec := DecodePairs(m, sp.params);
      presets := presets + [SynthPreset(sp.name, paramvec)];
    }
  }

  /** The inner loop of from_serialized over one preset's pairs. */
  method DecodePairs(m: Math, pairs: seq<(string, real)>) returns (paramvec: seq<real>)
    requires Log2Law(m)
    ensures paramvec == ApplyPairs(m, FromName, Zeros(), pairs)
  {
    paramvec := Zeros();
    for j := 0 to |pairs|
      invariant paramvec == ApplyPairs(m, FromName, Zeros(), pairs[..j])
    {
      var (paramName, val) := pairs[j];
      assert pairs[..j + 1][..j] == pairs[..j];
      match FromName(paramName)
      case Some(par) =>
        paramvec := paramvec[Index(par) := DawValue(m, par, val)];
      case None =>
    }
    assert pairs[..|pairs|] == pairs;
  }

  /** The serialized pairs of one preset: every parameter in index order, named by
      its Display name, with its plugin value. */
  function EncodePairs(m: Math, params: seq<real>): (r: seq<(string, real)>)
    requires ParamCount <= |params|
    ensures |r| == ParamCount
  {
    seq(ParamCount, i requires 0 <= i < ParamCount => EncodePair(m, FromIndex(i).value, params[i]))
  }

  /** The serialized pair of parameter p with normalized value t. */
  function EncodePair(m: Math, p: Param, t: real): (string, real)
  {
    (Name(p), MapToPlugin(m, Config(p).range, t))
  }

  /** to_serialized: every preset's name and encoded pairs, with the current version. */
  method ToSerialized(m: Math, presets: seq<SynthPreset>) returns (bank: SerializedBank)
    requires forall k :: 0 <= k < |presets| ==> ParamCount <= |presets[k].params|
    ensures bank.version == CurrentFormatVersion && |bank.presets| == |presets|
    ensures forall k :: 0 <= k < |presets| ==>
      bank.presets[k] == SerializedPreset(presets[k].name, EncodePairs(m, presets[k].params))
  {
    var out: seq<SerializedPreset> := [];
    for k := 0 to |presets|
      invariant |out| == k
      invariant forall j :: 0 <= j < k ==>
        out[j] == SerializedPreset(presets[j].name, EncodePairs(m, presets[j].params))
    {
      var serializedParams := EncodeLoop(m, presets[k].params);
      out := out + [SerializedPreset(presets[k].name, serializedParams)];
    }
    bank := SerializedBank(CurrentFormatVersion, out);
  }

  /** The inner loop of to_serialized over the 35 parameter indices. */
  method EncodeLoop(m: Math, params: seq<real>) returns (serializedParams: seq<(string, real)>)
    requires ParamCount <= |params|
    ensures serializedParams == EncodePairs(m, params)
  {
    serializedParams := [];
    for i := 0 to ParamCount
      invariant |serializedParams| == i
      invariant forall j :: 0 <= j < i ==> serializedParams[j] == EncodePair(m, FromIndex(j).value, params[j])
    {
      var param := FromIndex(i).value;
      serializedParams := serializedParams + [EncodePair(m, param, params[i])];
    }
  }

  /** In encoded pairs only pair i names index i. */
  lemma {:induction false} EncodedLastAt(m: Math, params: seq<real>, i: nat, n: nat)
    requires ParamCount <= |params| && i < ParamCount && n <= ParamCount
    ensures LastAt(FromName, EncodePairs(m, params)[..n], i) ==
      if i < n then Some((Params[i], MapToPlugin(m, Config(Params[i]).range, params[i]))) else None
    decreases n
  {
    FromIndexAgreesWithParams();
    ParamsInIndexOrder();
    var e := EncodePairs(m, params);
    if n > 0 {
      var pre := e[..n];
      assert pre[..n - 1] == e[..n - 1];
      FromNameOfName(Params[n - 1]);
      EncodedLastAt(m, params, i, n - 1);
    }
  }

  /** to_serialized then from_serialized keeps each preset's name and restores every
      Linear or Logarithmic parameter whose value lies in [0, 1]. */
  lemma RoundTrip(m: Math, preset: SynthPreset, i: nat)
    requires Log2Law(m) && ParamCount <= |preset.params| && i < ParamCount
    requires Config(Params[i]).range.Linear? || Config(Params[i]).range.Logarithmic?
    requires 0.0 <= preset.params[i] <= 1.0
    ensures var d := DecodePreset(m, SerializedPreset(preset.name, EncodePairs(m, preset.params)));
      d.name == preset.name && d.params[i] == preset.params[i]
  {
    FromIndexAgreesWithParams();
    var p := Params[i];
    var e := EncodePairs(m, preset.params);
    assert e[..ParamCount] == e;
    EncodedLastAt(m, preset.params, i, ParamCount);
    ApplyPairsEntry(m, FromName, Zeros(), e, i);
    ConfigsValid(m, p);
    var r := Config(p).range;
    match r
    case Linear(min, max) =>
      LinearDawRoundTrip(m, min, max, preset.params[i]);
    case Logarithmic(min, max) =>
      LogDawRoundTrip(m, min, max, preset.params[i]);
  }
}
