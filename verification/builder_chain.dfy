/** Fluent use of the builder: every setter returns the builder itself, so a
    caller writes `new Builder().minFps(10).maxFps(30)...build()`. A chain is
    modelled as the sequence of setter calls, applied left to right. */
module BuilderChain {
  import opened Results
  import opened Constraints

  /** One setter call with its argument. */
  datatype Call =
    | MinVideoDimensions(dims: Option<VideoDimensions>)
    | MaxVideoDimensions(dims: Option<VideoDimensions>)
    | MinFps(fps: int32)
    | MaxFps(fps: int32)
    | MinAspectRatio(ratio: real)
    | MaxAspectRatio(ratio: real)

  /** The field a call writes. */
  function FieldOf(c: Call): Field
  {
    match c
    case MinVideoDimensions(_) => MinDimsField
    case MaxVideoDimensions(_) => MaxDimsField
    case MinFps(_) => MinFpsField
    case MaxFps(_) => MaxFpsField
    case MinAspectRatio(_) => MinAspectField
    case MaxAspectRatio(_) => MaxAspectField
  }

  /** The value a call writes into its field. */
  function ValueOf(c: Call): FieldValue
  {
    match c
    case MinVideoDimensions(d) => DimsValue(d)
    case MaxVideoDimensions(d) => DimsValue(d)
    case MinFps(v) => FpsValue(v)
    case MaxFps(v) => FpsValue(v)
    case MinAspectRatio(v) => AspectValue(v)
    case MaxAspectRatio(v) => AspectValue(v)
  }

  /** One setter call: its own field takes the argument, the others keep
      their values. */
  function Apply(b: Builder, c: Call): (r: Builder)
    ensures Get(r, FieldOf(c)) == ValueOf(c)
    ensures forall f :: f != FieldOf(c) ==> Get(r, f) == Get(b, f)
  {
    match c
    case MinVideoDimensions(d) => SetMinVideoDimensions(b, d)
    case MaxVideoDimensions(d) => SetMaxVideoDimensions(b, d)
    case MinFps(v) => SetMinFps(b, v)
    case MaxFps(v) => SetMaxFps(b, v)
    case MinAspectRatio(v) => SetMinAspectRatio(b, v)
    case MaxAspectRatio(v) => SetMaxAspectRatio(b, v)
  }

  /** A chain of setter calls, applied from the first to the last. */
  function ApplyAll(b: Builder, calls: seq<Call>): Builder
    decreases |calls|
  {
    if |calls| == 0 then b else ApplyAll(Apply(b, calls[0]), calls[1..])
  }

  /** `true` when no call in `calls` writes field `f`. */
  predicate Untouched(calls: seq<Call>, f: Field)
  {
    forall i :: 0 <= i < |calls| ==> FieldOf(calls[i]) != f
  }

  /** Running two chains one after the other is running their concatenation. */
  lemma {:induction false} ApplyAllAppend(b: Builder, xs: seq<Call>, ys: seq<Call>)
    ensures ApplyAll(b, xs + ys) == ApplyAll(ApplyAll(b, xs), ys)
    decreases |xs|
  {
    if |xs| == 0 {
      assert xs + ys == ys;
    } else {
      assert (xs + ys)[1..] == xs[1..] + ys;
      ApplyAllAppend(Apply(b, xs[0]), xs[1..], ys);
    }
  }

  /** A field no call in the chain writes keeps the value it had before. */
  lemma {:induction false} ApplyAllUntouched(b: Builder, calls: seq<Call>, f: Field)
    requires Untouched(calls, f)
    ensures Get(ApplyAll(b, calls), f) == Get(b, f)
    decreases |calls|
  {
    if |calls| > 0 {
      assert FieldOf(calls[0]) != f;
      assert Untouched(calls[1..], f) by {
        forall i | 0 <= i < |calls[1..]|
          ensures FieldOf(calls[1..][i]) != f
        {
          assert calls[1..][i] == calls[i + 1];
        }
      }
      ApplyAllUntouched(Apply(b, calls[0]), calls[1..], f);
    }
  }

  /** The last call that writes a field decides its value: whatever earlier
      calls stored there is overwritten. */
  lemma {:induction false} ApplyAllLastWriteWins(b: Builder, calls: seq<Call>, i: nat)
    requires i < |calls|
    requires Untouched(calls[i + 1..], FieldOf(calls[i]))
    ensures Get(ApplyAll(b, calls), FieldOf(calls[i])) == ValueOf(calls[i])
  {
    var f := FieldOf(calls[i]);
    assert calls == calls[..i] + [calls[i]] + calls[i + 1..];
    ApplyAllAppend(b, calls[..i] + [calls[i]], calls[i + 1..]);
    ApplyAllAppend(b, calls[..i], [calls[i]]);
    var mid := ApplyAll(b, calls[..i]);
    assert [calls[i]][1..] == [];
    assert ApplyAll(mid, [calls[i]]) == Apply(mid, calls[i]);
    ApplyAllUntouched(Apply(mid, calls[i]), calls[i + 1..], f);
  }

  /** Setters of different fields commute, so only the last call per field
      matters, not the order in which the fields are set. */
  lemma ApplyDistinctCommute(b: Builder, c: Call, d: Call)
    requires FieldOf(c) != FieldOf(d)
    ensures Apply(Apply(b, c), d) == Apply(Apply(b, d), c)
  {
  }

  /** Calling the same setter twice in a row is the same as calling it once
      with the second argument. */
  lemma ApplySameOverwrites(b: Builder, c: Call, d: Call)
    requires FieldOf(c) == FieldOf(d)
    ensures Apply(Apply(b, c), d) == Apply(b, d)
  {
  }
}
