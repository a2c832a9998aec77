/** Capture constraints for a local video track: a mutable builder collects
    six bounds (minimum and maximum video dimensions, frame rate and aspect
    ratio), and `build` checks them in a fixed order, either throwing on the
    first rule that is broken or freezing them into an immutable value.

    The builder is modelled as an immutable record, each setter as a record
    update, and `build` as a total function whose `Failure` names the check
    that threw. */
module Constraints {
  import opened Results

  /** A Java `int`. Every value here is only compared, never computed with,
      so no wrap-around needs modelling; the bound keeps inputs to what a
      caller can pass. */
  newtype int32 = x: int | -0x8000_0000 <= x < 0x8000_0000

  /** Width and height of a video frame. Nothing constrains their sign. */
  datatype VideoDimensions = VideoDimensions(width: int32, height: int32)

  /** The builder state. A dimension bound is `None` when the caller passed
      `null` to its setter. Aspect ratios are Java `double`s that are only
      compared; they are modelled as exact reals. */
  datatype Builder = Builder(
    minVideoDimensions: Option<VideoDimensions>,
    maxVideoDimensions: Option<VideoDimensions>,
    minFps: int32,
    maxFps: int32,
    minAspectRatio: real,
    maxAspectRatio: real)

  /** The frozen value `build` returns. Its fields are the six getters; the
      dimensions can no longer be `null`. */
  datatype VideoConstraints = VideoConstraints(
    minVideoDimensions: VideoDimensions,
    maxVideoDimensions: VideoDimensions,
    minFps: int32,
    maxFps: int32,
    minAspectRatio: real,
    maxAspectRatio: real)

  /** One constructor per `throw` in `build`, in source order. The frame-rate
      ordering is checked twice; the second check gets its own constructor. */
  datatype BuildError =
    | NullMinDims
    | NullMaxDims
    | MinFpsGtMaxFps
    | MinFpsNeg
    | MaxFpsNeg
    | MinFpsGtMaxFpsRecheck
    | MinWidthGtMax
    | MinHeightGtMax
    | MinAspectNeg
    | MaxAspectNeg
    | MinAspectGtMax

  /** The exception class each check throws. */
  datatype ExceptionKind = NullPointer | IllegalState

  function Kind(e: BuildError): (k: ExceptionKind)
    ensures k == NullPointer <==> e in {NullMinDims, NullMaxDims}
  {
    match e
    case NullMinDims => NullPointer
    case NullMaxDims => NullPointer
    case _ => IllegalState
  }

  /** The position of each check in `build`, counting from 0. */
  function Rank(e: BuildError): nat
  {
    match e
    case NullMinDims => 0
    case NullMaxDims => 1
    case MinFpsGtMaxFps => 2
    case MinFpsNeg => 3
    case MaxFpsNeg => 4
    case MinFpsGtMaxFpsRecheck => 5
    case MinWidthGtMax => 6
    case MinHeightGtMax => 7
    case MinAspectNeg => 8
    case MaxAspectNeg => 9
    case MinAspectGtMax => 10
  }

  /** Whether the condition guarding check `e` holds of `b`, read on its own,
      regardless of the checks before it. The dimension comparisons need
      both bounds to be present. */
  predicate Violates(b: Builder, e: BuildError)
  {
    match e
    case NullMinDims => b.minVideoDimensions.None?
    case NullMaxDims => b.maxVideoDimensions.None?
    case MinFpsGtMaxFps => b.minFps > b.maxFps
    case MinFpsNeg => b.minFps < 0
    case MaxFpsNeg => b.maxFps < 0
    case MinFpsGtMaxFpsRecheck => b.minFps > b.maxFps
    case MinWidthGtMax =>
      b.minVideoDimensions.Some? && b.maxVideoDimensions.Some?
      && b.minVideoDimensions.value.width > b.maxVideoDimensions.value.width
    case MinHeightGtMax =>
      b.minVideoDimensions.Some? && b.maxVideoDimensions.Some?
      && b.minVideoDimensions.value.height > b.maxVideoDimensions.value.height
    case MinAspectNeg => b.minAspectRatio < 0.0
    case MaxAspectNeg => b.maxAspectRatio < 0.0
    case MinAspectGtMax => b.minAspectRatio > b.maxAspectRatio
  }

  /** The invariants a built value satisfies: both dimension bounds present,
      `0 <= minFps <= maxFps`, each dimension ordered, and
      `0 <= minAspectRatio <= maxAspectRatio`. */
  predicate Valid(b: Builder)
  {
    && b.minVideoDimensions.Some?
    && b.maxVideoDimensions.Some?
    && 0 <= b.minFps <= b.maxFps
    && b.minVideoDimensions.value.width <= b.maxVideoDimensions.value.width
    && b.minVideoDimensions.value.height <= b.maxVideoDimensions.value.height
    && 0.0 <= b.minAspectRatio <= b.maxAspectRatio
  }

  /** The builder state a frozen value was made from: the inverse of a
      successful `Build`. */
  function ToBuilder(c: VideoConstraints): Builder
  {
    Builder(Some(c.minVideoDimensions), Some(c.maxVideoDimensions),
            c.minFps, c.maxFps, c.minAspectRatio, c.maxAspectRatio)
  }

  /** `new Builder()`: 0x0 dimensions, zero frame rates and zero aspect
      ratios. These defaults already pass every check. */
  function NewBuilder(): (r: Builder)
    ensures r.minVideoDimensions == Some(VideoDimensions(0, 0))
    ensures r.maxVideoDimensions == Some(VideoDimensions(0, 0))
    ensures r.minFps == 0 && r.maxFps == 0
    ensures r.minAspectRatio == 0.0 && r.maxAspectRatio == 0.0
    ensures Valid(r)
    ensures Build(r).Success?
  {
    Builder(Some(VideoDimensions(0, 0)), Some(VideoDimensions(0, 0)), 0, 0, 0.0, 0.0)
  }

  /** The builder fields, so that a setter's frame can be stated once. */
  datatype Field =
    | MinDimsField
    | MaxDimsField
    | MinFpsField
    | MaxFpsField
    | MinAspectField
    | MaxAspectField

  datatype FieldValue =
    | DimsValue(dims: Option<VideoDimensions>)
    | FpsValue(fps: int32)
    | AspectValue(ratio: real)

  function Get(b: Builder, f: Field): FieldValue
  {
    match f
    case MinDimsField => DimsValue(b.minVideoDimensions)
    case MaxDimsField => DimsValue(b.maxVideoDimensions)
    case MinFpsField => FpsValue(b.minFps)
    case MaxFpsField => FpsValue(b.maxFps)
    case MinAspectField => AspectValue(b.minAspectRatio)
    case MaxAspectField => AspectValue(b.maxAspectRatio)
  }

  /** A builder is determined by what `Get` reads from it. */
  lemma GetDetermines(a: Builder, b: Builder)
    requires forall f :: Get(a, f) == Get(b, f)
    ensures a == b
  {
    assert Get(a, MinDimsField) == Get(b, MinDimsField);
    assert Get(a, MaxDimsField) == Get(b, MaxDimsField);
    assert Get(a, MinFpsField) == Get(b, MinFpsField);
    assert Get(a, MaxFpsField) == Get(b, MaxFpsField);
    assert Get(a, MinAspectField) == Get(b, MinAspectField);
    assert Get(a, MaxAspectField) == Get(b, MaxAspectField);
  }

  // The six setters. Each one stores its argument, `null` included, and
  // leaves the other five fields as they were.

  function SetMinVideoDimensions(b: Builder, d: Option<VideoDimensions>): (r: Builder)
    ensures Get(r, MinDimsField) == DimsValue(d)
    ensures forall f :: f != MinDimsField ==> Get(r, f) == Get(b, f)
  {
    b.(minVideoDimensions := d)
  }

  function SetMaxVideoDimensions(b: Builder, d: Option<VideoDimensions>): (r: Builder)
    ensures Get(r, MaxDimsField) == DimsValue(d)
    ensures forall f :: f != MaxDimsField ==> Get(r, f) == Get(b, f)
  {
    b.(maxVideoDimensions := d)
  }

  function SetMinFps(b: Builder, fps: int32): (r: Builder)
    ensures Get(r, MinFpsField) == FpsValue(fps)
    ensures forall f :: f != MinFpsField ==> Get(r, f) == Get(b, f)
  {
    b.(minFps := fps)
  }

  function SetMaxFps(b: Builder, fps: int32): (r: Builder)
    ensures Get(r, MaxFpsField) == FpsValue(fps)
    ensures forall f :: f != MaxFpsField ==> Get(r, f) == Get(b, f)
  {
    b.(maxFps := fps)
  }

  function SetMinAspectRatio(b: Builder, ratio: real): (r: Builder)
    ensures Get(r, MinAspectField) == AspectValue(ratio)
    ensures forall f :: f != MinAspectField ==> Get(r, f) == Get(b, f)
  {
    b.(minAspectRatio := ratio)
  }

  function SetMaxAspectRatio(b: Builder, ratio: real): (r: Builder)
    ensures Get(r, MaxAspectField) == AspectValue(ratio)
    ensures forall f :: f != MaxAspectField ==> Get(r, f) == Get(b, f)
  {
    b.(maxAspectRatio := ratio)
  }

  /** `build()`: the checks run in source order and the first one whose
      condition holds throws. Checks 4 and 5 are kept although they can never
      fire: once checks 2 and 3 pass, `0 <= minFps <= maxFps`.

      Success exactly when `Valid`; the value built carries the builder's
      fields unchanged; a failure names a check whose condition holds while
      no earlier check's does; and checks 4 and 5 never fire. */
  function Build(b: Builder): (r: Result<VideoConstraints, BuildError>)
    ensures r.Success? <==> Valid(b)
    ensures r.Success? ==> ToBuilder(r.value) == b
    ensures r.Failure? ==> Violates(b, r.error)
    ensures r.Failure? ==> forall e :: Rank(e) < Rank(r.error) ==> !Violates(b, e)
    ensures r.Failure? ==> r.error != MaxFpsNeg && r.error != MinFpsGtMaxFpsRecheck
  {
    if b.minVideoDimensions.None? then Failure(NullMinDims)
    else if b.maxVideoDimensions.None? then Failure(NullMaxDims)
    else if b.minFps > b.maxFps then Failure(MinFpsGtMaxFps)
    else if b.minFps < 0 then Failure(MinFpsNeg)
    else if b.maxFps < 0 then Failure(MaxFpsNeg)
    else if b.minFps > b.maxFps then Failure(MinFpsGtMaxFpsRecheck)
    else
      var minDims := b.minVideoDimensions.value;
      var maxDims := b.maxVideoDimensions.value;
      if minDims.width > maxDims.width then Failure(MinWidthGtMax)
      else if minDims.height > maxDims.height then Failure(MinHeightGtMax)
      else if b.minAspectRatio < 0.0 then Failure(MinAspectNeg)
      else if b.maxAspectRatio < 0.0 then Failure(MaxAspectNeg)
      else if b.minAspectRatio > b.maxAspectRatio then Failure(MinAspectGtMax)
      else Success(VideoConstraints(minDims, maxDims, b.minFps, b.maxFps,
                                    b.minAspectRatio, b.maxAspectRatio))
  }
}
