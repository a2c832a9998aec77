# VideoConstraints: a verified model of the capture-constraints builder

A local video track is configured with `VideoConstraints`: bounds that pick a
camera capture format. A mutable `VideoConstraints.Builder` collects six of
them:

- minimum and maximum video dimensions (width x height);
- minimum and maximum frames per second;
- minimum and maximum aspect ratio.

`build()` then runs eleven checks in a fixed order. It either throws on the
first one that fails or returns an immutable `VideoConstraints` whose six
getters return the builder's values.

The model has four modules:

- `Results` (`results.dfy`): `Option` stands in for a Java reference that may be `null`. `Result` stands for "returns a value or throws".
- `Constraints` (`constraints.dfy`): the builder, the frozen value and the six setters. It also holds `Build`, with one `BuildError` constructor per `throw` and `Kind` for the exception class each one throws. Three reference definitions sit beside `Build`:
  - `Valid`: the invariants a built value satisfies;
  - `Violates` and `Rank`: each check's condition read on its own, and its position in `build()`;
  - `ToBuilder`: the inverse of a successful build.
- `BuilderChain` (`builder_chain.dfy`): fluent use (`new Builder().minFps(10).maxFps(30)…`), modelled as a sequence of setter calls applied left to right. `ApplyAll` runs a chain. It has no contract of its own; the `ApplyAllAppend`, `ApplyAllUntouched` and `ApplyAllLastWriteWins` rows state its meaning. Chains compose by concatenation, a field no call writes keeps its value, and the last call to write a field decides that field's value.
- `ConstraintsProperties` (`properties.dfy`): acceptance, the round trip, which checks can fire at all, and concrete scenarios.

Two facts about the code are worth stating up front:

- `build()` never compares a width or a height with zero, so ordered negative dimensions are accepted (`NegativeDimsAccepted`).
- The two null checks throw `NullPointerException`; every other check throws `IllegalStateException` (`Kind`).

## Model

| member | source | states |
|---|---|---|
| Constraints.Build | conversations/src/main/java/com/twilio/conversations/VideoConstraints.java:131-166 | Succeeds exactly when `Valid` holds: both dimension bounds non-null, `0 <= minFps <= maxFps`, width and height ordered, `0 <= minAspectRatio <= maxAspectRatio`. On success the value maps back to the same builder. A failure names a check whose condition holds while no earlier check's does. The `maxFps < 0` check and the second `minFps > maxFps` check never fire. |
| Constraints.Kind | conversations/src/main/java/com/twilio/conversations/VideoConstraints.java:132-163 | Exactly the two null checks throw `NullPointerException`; every other check throws `IllegalStateException`. |
| Constraints.NewBuilder | conversations/src/main/java/com/twilio/conversations/VideoConstraints.java:92-99 | A fresh builder holds 0x0 minimum and maximum dimensions, fps 0/0 and aspect ratio 0.0/0.0. These defaults satisfy every invariant, so `build()` on it succeeds. |
| Constraints.SetMinVideoDimensions | conversations/src/main/java/com/twilio/conversations/VideoConstraints.java:101-104 | Stores its argument, `null` included, as the minimum dimensions. The other five fields are unchanged. |
| Constraints.SetMaxVideoDimensions | conversations/src/main/java/com/twilio/conversations/VideoConstraints.java:106-109 | Stores its argument, `null` included, as the maximum dimensions. The other five fields are unchanged. |
| Constraints.SetMinFps | conversations/src/main/java/com/twilio/conversations/VideoConstraints.java:111-114 | Stores its argument as the minimum fps. The other five fields are unchanged. |
| Constraints.SetMaxFps | conversations/src/main/java/com/twilio/conversations/VideoConstraints.java:116-119 | Stores its argument as the maximum fps. The other five fields are unchanged. |
| Constraints.SetMinAspectRatio | conversations/src/main/java/com/twilio/conversations/VideoConstraints.java:121-124 | Stores its argument as the minimum aspect ratio. The other five fields are unchanged. |
| Constraints.SetMaxAspectRatio | conversations/src/main/java/com/twilio/conversations/VideoConstraints.java:126-129 | Stores its argument as the maximum aspect ratio. The other five fields are unchanged. |
| BuilderChain.Apply | conversations/src/main/java/com/twilio/conversations/VideoConstraints.java:101-129 | Any one setter call writes its value into its own field and leaves every other field as it was. |
| BuilderChain.ApplyAllAppend | conversations/src/main/java/com/twilio/conversations/VideoConstraints.java:101-129 | Each setter returns the same builder, so running one chain after another equals running their concatenation. |
| BuilderChain.ApplyAllUntouched | conversations/src/main/java/com/twilio/conversations/VideoConstraints.java:101-129 | A field that no call in a chain writes keeps its earlier value. |
| BuilderChain.ApplyAllLastWriteWins | conversations/src/main/java/com/twilio/conversations/VideoConstraints.java:101-129 | After a chain, each field holds the value from the last call that wrote it. |
| BuilderChain.ApplyDistinctCommute | conversations/src/main/java/com/twilio/conversations/VideoConstraints.java:101-129 | Setters of different fields commute. |
| BuilderChain.ApplySameOverwrites | conversations/src/main/java/com/twilio/conversations/VideoConstraints.java:101-129 | A second call to the same setter overwrites the first. |
| ConstraintsProperties.ValidIffNoViolation | conversations/src/main/java/com/twilio/conversations/VideoConstraints.java:132-163 | The invariants hold exactly when no check's condition holds. |
| ConstraintsProperties.GettersEcho | conversations/src/main/java/com/twilio/conversations/VideoConstraints.java:40-89 | After a successful build, each of the six getters returns the value held in the matching builder field. |
| ConstraintsProperties.BuildToBuilder | conversations/src/main/java/com/twilio/conversations/VideoConstraints.java:40-47 | Building the builder state of any value that satisfies the invariants gives that same value back. |
| ConstraintsProperties.NullPointerIffMissingDims | conversations/src/main/java/com/twilio/conversations/VideoConstraints.java:132-137 | `build()` throws `NullPointerException` exactly when a dimension bound is null. |
| ConstraintsProperties.ReachableErrors | conversations/src/main/java/com/twilio/conversations/VideoConstraints.java:138-163 | Some builder makes a given check fire exactly when it is neither the `maxFps < 0` check nor the second `minFps > maxFps` check. |
| ConstraintsProperties.FpsOrderCheckedBeforeSign | conversations/src/main/java/com/twilio/conversations/VideoConstraints.java:138-143 | With minFps -5 and maxFps -10, the "greater than" error is thrown, not "less than 0". |
| ConstraintsProperties.MaxAspectNegFires | conversations/src/main/java/com/twilio/conversations/VideoConstraints.java:156-161 | With aspect ratios 0.5 and -1, the `maxAspectRatio < 0` error is thrown. |
| ConstraintsProperties.EqualBoundsAccepted | conversations/src/main/java/com/twilio/conversations/VideoConstraints.java:138-163 | All comparisons are strict: equal dimensions, equal non-negative fps and equal non-negative aspect ratios are accepted. |
| ConstraintsProperties.OrderedDimsAccepted | conversations/src/main/java/com/twilio/conversations/VideoConstraints.java:150-155 | Any ordered pair of dimensions set on a fresh builder is accepted, whatever its sign. |
| ConstraintsProperties.NegativeDimsAccepted | conversations/src/main/java/com/twilio/conversations/VideoConstraints.java:150-155 | A negative minimum size (-640 x -480) under the default 0x0 maximum is accepted. |
| ConstraintsProperties.TypicalChainBuilds | conversations/src/main/java/com/twilio/conversations/VideoConstraints.java:92-166 | The chain 0x0 to 1280x720, 10 to 30 fps, 1.333 to 1.778 builds, and the getters return exactly those arguments. |
| ConstraintsProperties.ChainFpsInverted | conversations/src/main/java/com/twilio/conversations/VideoConstraints.java:111-119 | A chain that leaves the dimensions alone and ends by setting minFps above maxFps fails with the first "greater than" error, whatever else it set. |
| ConstraintsProperties.UnsetFieldKeepsDefault | conversations/src/main/java/com/twilio/conversations/VideoConstraints.java:92-129 | After any chain started from `new Builder()`, a field that no call sets still holds its default: 0x0 dimensions, 0 fps or aspect ratio 0.0. |
| ConstraintsProperties.OnlyMaxFpsSetBuilds | conversations/src/main/java/com/twilio/conversations/VideoConstraints.java:92-166 | `new Builder().maxFps(5).build()` succeeds and reports minFps 0 (the default) and maxFps 5. |

## Left out

- The aspect ratios are Java `double`s and are modelled as exact reals. IEEE-754 semantics are not modelled. In particular, a NaN ratio fails every `<` and `>` test in `build()` and is accepted; the model has no NaN.
- The exception message strings, and the values concatenated into them, are not modelled. `BuildError` records only which check threw.
- The public frame-rate and aspect-ratio constants (`FPS_10` … `ASPECT_RATIO_16_9_MAX`) are not modelled. They are plain data with no behaviour.
- `VideoDimensions.java` is not part of this model. Only its `width` and `height` fields are used, taken to be Java `int`s and modelled as the datatype `VideoDimensions`.
- Object identity and mutation are not modelled. The Java builder is mutated in place and each setter returns `this`; the model uses immutable records and a sequence of calls instead.
- The instrumentation tests and the generated JNI header are not modelled. They drive a live backend and a native media engine, and contain no logic of this component.
