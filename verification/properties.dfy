/** Facts about `Build` that relate several calls or name concrete inputs:
    which builders are accepted, which checks can fire at all, and the order
    in which they fire. */
module ConstraintsProperties {
  import opened Results
  import opened Constraints
  import opened BuilderChain

  /** The invariants are exactly "no check's condition holds". */
  lemma ValidIffNoViolation(b: Builder)
    ensures Valid(b) <==> forall e :: !Violates(b, e)
  {
    if !Valid(b) {
      assert Build(b).Failure?;
      assert Violates(b, Build(b).error);
    }
  }

  /** Round trip: freezing the builder state of a value that satisfies the
      invariants gives that value back. */
  lemma BuildToBuilder(c: VideoConstraints)
    requires Valid(ToBuilder(c))
    ensures Build(ToBuilder(c)) == Success(c)
  {
  }

  /** The private constructor copies the six builder fields and each getter
      returns its field: a built value reports exactly what was set. */
  lemma GettersEcho(b: Builder)
    requires Build(b).Success?
    ensures Build(b).value.minVideoDimensions == b.minVideoDimensions.value
    ensures Build(b).value.maxVideoDimensions == b.maxVideoDimensions.value
    ensures Build(b).value.minFps == b.minFps
    ensures Build(b).value.maxFps == b.maxFps
    ensures Build(b).value.minAspectRatio == b.minAspectRatio
    ensures Build(b).value.maxAspectRatio == b.maxAspectRatio
  {
  }

  /** Only the two null checks throw `NullPointerException`; every other
      check throws `IllegalStateException`. */
  lemma NullPointerIffMissingDims(b: Builder)
    ensures Build(b).Failure? && Kind(Build(b).error) == NullPointer
        <==> b.minVideoDimensions.None? || b.maxVideoDimensions.None?
  {
  }

  /** Which checks can fire: every one except `maxFps < 0` and the second
      `minFps > maxFps` test. */
  lemma ReachableErrors(e: BuildError)
    ensures (exists b :: Build(b) == Failure(e))
        <==> e != MaxFpsNeg && e != MinFpsGtMaxFpsRecheck
  {
    var ok := NewBuilder();
    match e
    case NullMinDims =>
      assert Build(ok.(minVideoDimensions := None)) == Failure(e);
    case NullMaxDims =>
      assert Build(ok.(maxVideoDimensions := None)) == Failure(e);
    case MinFpsGtMaxFps =>
      assert Build(ok.(minFps := 1)) == Failure(e);
    case MinFpsNeg =>
      assert Build(ok.(minFps := -1)) == Failure(e);
    case MaxFpsNeg =>
    case MinFpsGtMaxFpsRecheck =>
    case MinWidthGtMax =>
      assert Build(ok.(minVideoDimensions := Some(VideoDimensions(1, 0)))) == Failure(e);
    case MinHeightGtMax =>
      assert Build(ok.(minVideoDimensions := Some(VideoDimensions(0, 1)))) == Failure(e);
    case MinAspectNeg =>
      assert Build(ok.(minAspectRatio := -1.0)) == Failure(e);
    case MaxAspectNeg =>
      assert Build(ok.(minAspectRatio := 0.5, maxAspectRatio := -1.0)) == Failure(e);
    case MinAspectGtMax =>
      assert Build(ok.(minAspectRatio := 1.0)) == Failure(e);
  }

  /** The ordering test fires before the sign tests: with minFps -5 and
      maxFps -10 the builder reports "greater than", not "less than 0". */
  lemma FpsOrderCheckedBeforeSign()
    ensures Build(NewBuilder().(minFps := -5, maxFps := -10)) == Failure(MinFpsGtMaxFps)
  {
  }

  /** The negative-maximum aspect ratio check is reachable, because the
      minimum is compared only with zero before it. */
  lemma MaxAspectNegFires()
    ensures Build(NewBuilder().(minAspectRatio := 0.5, maxAspectRatio := -1.0)) == Failure(MaxAspectNeg)
  {
  }

  /** Every comparison is strict: equal bounds are accepted. */
  lemma EqualBoundsAccepted(d: VideoDimensions, fps: int32, ratio: real)
    requires 0 <= fps
    requires 0.0 <= ratio
    ensures Build(Builder(Some(d), Some(d), fps, fps, ratio, ratio)).Success?
  {
  }

  /** Dimensions are only compared with each other, never with zero:
      ordered bounds are accepted whatever their sign. */
  lemma OrderedDimsAccepted(lo: VideoDimensions, hi: VideoDimensions)
    requires lo.width <= hi.width && lo.height <= hi.height
    ensures Build(SetMaxVideoDimensions(SetMinVideoDimensions(NewBuilder(), Some(lo)), Some(hi))).Success?
  {
  }

  lemma NegativeDimsAccepted()
    ensures Build(NewBuilder().(minVideoDimensions := Some(VideoDimensions(-640, -480)))).Success?
  {
  }

  /** A full fluent chain: `new Builder()` with 0x0 to 1280x720, 10 to 30
      fps and aspect ratios 1.333 to 1.778 builds a value whose getters
      return exactly those arguments. */
  lemma TypicalChainBuilds()
    ensures
      var lo := VideoDimensions(0, 0);
      var hi := VideoDimensions(1280, 720);
      var calls := [MinVideoDimensions(Some(lo)), MaxVideoDimensions(Some(hi)),
                    MinFps(10), MaxFps(30), MinAspectRatio(1.333), MaxAspectRatio(1.778)];
      Build(ApplyAll(NewBuilder(), calls)) == Success(VideoConstraints(lo, hi, 10, 30, 1.333, 1.778))
  {
    var lo := VideoDimensions(0, 0);
    var hi := VideoDimensions(1280, 720);
    var calls := [MinVideoDimensions(Some(lo)), MaxVideoDimensions(Some(hi)),
                  MinFps(10), MaxFps(30), MinAspectRatio(1.333), MaxAspectRatio(1.778)];
    var b := ApplyAll(NewBuilder(), calls);
    forall i | 0 <= i < |calls|
      ensures Get(b, FieldOf(calls[i])) == ValueOf(calls[i])
    {
      assert Untouched(calls[i + 1..], FieldOf(calls[i]));
      ApplyAllLastWriteWins(NewBuilder(), calls, i);
    }
    forall f
      ensures Get(b, f) == Get(Builder(Some(lo), Some(hi), 10, 30, 1.333, 1.778), f)
    {
      var i := match f
        case MinDimsField => 0
        case MaxDimsField => 1
        case MinFpsField => 2
        case MaxFpsField => 3
        case MinAspectField => 4
        case MaxAspectField => 5;
      assert FieldOf(calls[i]) == f;
    }
    GetDetermines(b, Builder(Some(lo), Some(hi), 10, 30, 1.333, 1.778));
  }

  /** A chain with the minimum frame rate set above the maximum is refused
      whatever else it sets, as long as it leaves the dimensions alone. */
  lemma {:induction false} ChainFpsInverted(calls: seq<Call>, lo: int32, hi: int32)
    requires lo > hi
    requires Untouched(calls, MinDimsField) && Untouched(calls, MaxDimsField)
    ensures Build(ApplyAll(NewBuilder(), calls + [MinFps(lo), MaxFps(hi)])) == Failure(MinFpsGtMaxFps)
  {
    var chain := calls + [MinFps(lo), MaxFps(hi)];
    ApplyAllLastWriteWins(NewBuilder(), chain, |calls|);
    ApplyAllLastWriteWins(NewBuilder(), chain, |calls| + 1);
    assert Untouched(chain, MinDimsField);
    assert Untouched(chain, MaxDimsField);
    ApplyAllUntouched(NewBuilder(), chain, MinDimsField);
    ApplyAllUntouched(NewBuilder(), chain, MaxDimsField);
  }

  /** The value a fresh builder holds in each field. */
  function Default(f: Field): FieldValue
  {
    match f
    case MinDimsField => DimsValue(Some(VideoDimensions(0, 0)))
    case MaxDimsField => DimsValue(Some(VideoDimensions(0, 0)))
    case MinFpsField => FpsValue(0)
    case MaxFpsField => FpsValue(0)
    case MinAspectField => AspectValue(0.0)
    case MaxAspectField => AspectValue(0.0)
  }

  /** A field that no call of a chain started from `new Builder()` sets
      keeps its default: 0x0 dimensions, 0 fps, aspect ratio 0.0. */
  lemma UnsetFieldKeepsDefault(calls: seq<Call>, f: Field)
    requires Untouched(calls, f)
    ensures Get(ApplyAll(NewBuilder(), calls), f) == Default(f)
  {
    ApplyAllUntouched(NewBuilder(), calls, f);
  }

  /** `new Builder().maxFps(5).build()` succeeds, and the minimum frame
      rate it reports is the default 0. */
  lemma OnlyMaxFpsSetBuilds()
    ensures Build(ApplyAll(NewBuilder(), [MaxFps(5)])).Success?
    ensures Build(ApplyAll(NewBuilder(), [MaxFps(5)])).value.minFps == 0
    ensures Build(ApplyAll(NewBuilder(), [MaxFps(5)])).value.maxFps == 5
  {
  }
}
