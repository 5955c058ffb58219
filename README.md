# testapp-extras core, modelled in Dafny

This project models the sequential logic of the multipaz-extras test
application (`testapp-extras`), which is otherwise Compose UI:

- **The application singleton `App`** (`bootstrap.dfy`, module `Bootstrap`).
  `App.init` takes a lock, returns at once when `initialized` is set, and
  otherwise runs the fixed list `initFuncs` — `platformInit`, then
  `faceMatchLiteRtModelInit` — one after another. After each step returns it
  logs that step's time; after the loop it logs the total time and only then
  sets `initialized`. A step that throws ends the call, `initialized` stays
  false, and the next call runs the list again from the first step. The model
  step reads `files/facenet_512.tflite` and builds the face-match model with
  image size 160 and embedding size 512. `App.getInstance` creates the
  instance held by the companion object's nullable `app` on the first call
  and returns that instance from then on.
  `App` is a class with the `initialized`, `faceMatchLiteRtModel` (a
  `lateinit`, so an `Option`) and log fields, plus a ghost log of step calls.
  `Init` takes an `Environment` as input: whether `platformInit` throws, and
  which bundled resources can be read. `Init` is proved against the
  functions `RunSteps` and `Pass`, and the lemmas about those functions state
  ordering, abort-on-failure and the shape of the log.
- **Route resolution** (`routing.dfy`, module `Routing`). The current
  back-stack route is cut at its first `'/'` and looked up by exact equality
  in `appDestinations`. A missing route or a route that matches nothing
  resolves to `StartDestination`.
- **The destination table** (`destinations.dfy`, module `Destinations`): the
  seven destinations with their routes and optional titles, and
  `appDestinations` in declaration order.
- **`platformIsEmulator` on Android** (`platform_android.dfy`, module
  `PlatformAndroid`). This is one boolean expression over `Build.*` strings.
  The strings become the fields of a `BuildInfo` record, and each disjunct of
  the expression is a named predicate.
- `kotlin_strings.dfy` (module `KotlinStrings`) models the `kotlin.text`
  operations these use: `startsWith`, `endsWith`, `contains`,
  `substringBefore` and `equals(ignoreCase = true)`. `wrappers.dfy` models
  nullable values as `Option`.

Points of the code's behaviour that the model keeps as they are:
- `init` checks `initialized` only while holding the lock; there is no
  lock-free fast path.
- `getInstance` does a plain check-then-set of a nullable global, with no
  synchronisation.
- The exception that leaves `init` is the step's own exception; nothing is
  added to it that names the step. The model's `StepFailure` records the
  step as well, so that the failing step can be stated.
- On failure, the timing lines cover only the steps that returned. The step
  that threw was still called, and it appears in `invocations`.

## Model

| member | source | states |
|---|---|---|
| `KotlinStrings.SubstringBefore` | testapp-extras/src/commonMain/kotlin/org/multipaz/testappextras/App.kt:130 | the result is the longest prefix without the delimiter: a prefix of the input, free of the delimiter, followed in the input by the delimiter unless it is all of the input |
| `KotlinStrings.SubstringBeforeAppend` | testapp-extras/src/commonMain/kotlin/org/multipaz/testappextras/App.kt:130 | cutting `s + "/" + rest` at the first `'/'` gives back `s` when `s` has no `'/'` |
| `KotlinStrings.ContainsIffOccurs` | testapp-extras/src/androidMain/kotlin/org/multipaz/testappextras/PlatformAndroid.kt:49-51 | the scanning `contains` holds exactly when the substring occurs at some index |
| `KotlinStrings.ContainsKeepsChars` | testapp-extras/src/androidMain/kotlin/org/multipaz/testappextras/PlatformAndroid.kt:49-51 | every character of a contained string occurs in the containing string |
| `KotlinStrings.MissingCharNotContained` | testapp-extras/src/androidMain/kotlin/org/multipaz/testappextras/PlatformAndroid.kt:49-51 | a string that lacks a character of `sub` does not contain `sub` |
| `KotlinStrings.StartsWith` | testapp-extras/src/androidMain/kotlin/org/multipaz/testappextras/PlatformAndroid.kt:35 | `s.startsWith(p)`: `p` is no longer than `s` and equals its first `|p|` characters |
| `KotlinStrings.EndsWith` | testapp-extras/src/androidMain/kotlin/org/multipaz/testappextras/PlatformAndroid.kt:36 | `s.endsWith(q)`: `q` is no longer than `s` and equals its last `|q|` characters |
| `KotlinStrings.Contains` | testapp-extras/src/androidMain/kotlin/org/multipaz/testappextras/PlatformAndroid.kt:49-51 | `s.contains(sub)` as a left-to-right scan; `ContainsIffOccurs` ties it to an occurrence at some index |
| `KotlinStrings.EqualsIgnoreCase` | testapp-extras/src/androidMain/kotlin/org/multipaz/testappextras/PlatformAndroid.kt:53-56 | `equals(ignoreCase = true)`: same length and equal characters after case folding (ASCII only) |
| `KotlinStrings.Folded` | testapp-extras/src/androidMain/kotlin/org/multipaz/testappextras/PlatformAndroid.kt:53-56 | the case-folded string has the same length and the folded character at every index |
| `KotlinStrings.EqualsIgnoreCaseIffSameFold` | testapp-extras/src/androidMain/kotlin/org/multipaz/testappextras/PlatformAndroid.kt:53-56 | two strings are equal ignoring case exactly when their case-folded forms are equal |
| `Destinations.AppDestinationsShape` | testapp-extras/src/commonMain/kotlin/org/multipaz/testappextras/Destinations.kt:52-60 | `appDestinations` (the constant `AppDestinations`) has seven entries, `StartDestination` first, every destination listed exactly once |
| `Destinations.RoutesDistinct` | testapp-extras/src/commonMain/kotlin/org/multipaz/testappextras/Destinations.kt:17-50 | two destinations share a route only if they are the same destination |
| `Destinations.OnlyStartIsUntitled` | testapp-extras/src/commonMain/kotlin/org/multipaz/testappextras/Destinations.kt:17-50 | a destination's title is null exactly for `StartDestination` |
| `Destinations.NoRouteHasSlash` | testapp-extras/src/commonMain/kotlin/org/multipaz/testappextras/Destinations.kt:18-48 | no route contains `'/'` |
| `Destinations.Destination.Route` | testapp-extras/src/commonMain/kotlin/org/multipaz/testappextras/Destinations.kt:17-50 | the route of each of the seven destinations, as declared |
| `Destinations.Destination.Title` | testapp-extras/src/commonMain/kotlin/org/multipaz/testappextras/Destinations.kt:17-50 | the title resource of each destination, null for `StartDestination` |
| `Routing.RouteWithoutArgs` | testapp-extras/src/commonMain/kotlin/org/multipaz/testappextras/App.kt:130 | a null route stays null; otherwise the result is the part of the route before its first `'/'`: a slash-free prefix that is followed by `'/'` unless it is the whole route |
| `Routing.Find` | testapp-extras/src/commonMain/kotlin/org/multipaz/testappextras/App.kt:132-133 | `find` gives null exactly when no element matches, and otherwise a matching element with no match before it |
| `Routing.ResolutionCharacterised` | testapp-extras/src/commonMain/kotlin/org/multipaz/testappextras/App.kt:130-134 | the current destination is `d` if and only if `d`'s route is the route cut at its first `'/'`, or `d` is `StartDestination` and no route is |
| `Routing.NullRouteIsStart` | testapp-extras/src/commonMain/kotlin/org/multipaz/testappextras/App.kt:130-134 | a null route resolves to `StartDestination` |
| `Routing.RouteResolvesToItself` | testapp-extras/src/commonMain/kotlin/org/multipaz/testappextras/App.kt:130-134 | every destination's route resolves to that destination |
| `Routing.RouteWithArgsResolvesToItself` | testapp-extras/src/commonMain/kotlin/org/multipaz/testappextras/App.kt:130-134 | `route + "/" + args` resolves to the destination of `route`, for any `args` |
| `Routing.RouteLookupIsCaseSensitive` | testapp-extras/src/commonMain/kotlin/org/multipaz/testappextras/Destinations.kt:38 | `"BarcodeScanning"` resolves to its destination; `"barcodescanning"` falls back to `StartDestination` |
| `Routing.CurrentDestination` | testapp-extras/src/commonMain/kotlin/org/multipaz/testappextras/App.kt:132-134 | the shown destination is listed in `appDestinations`, and is either the one whose route is the cut route or, when no route equals the cut route, `StartDestination`, which it always is for a null route |
| `PlatformAndroid.EachMarkerSuffices` | testapp-extras/src/androidMain/kotlin/org/multipaz/testappextras/PlatformAndroid.kt:47-62 | a `generic`/`unknown` fingerprint, any of the three model substrings, a `Genymotion` manufacturer, a `Build` host or a `google_sdk` product each make the predicate true alone |
| `PlatformAndroid.SdkClauseNeedsEveryPart` | testapp-extras/src/androidMain/kotlin/org/multipaz/testappextras/PlatformAndroid.kt:34-45 | with no other disjunct holding, the predicate is the SDK-image clause, and it is false once the manufacturer, the brand, the fingerprint prefix, the fingerprint suffix, the product prefix or the model prefix is missing; a plain `sdk_gphone_` fingerprint also needs release keys |
| `PlatformAndroid.SdkGphoneReleaseImageDetected` | testapp-extras/src/androidMain/kotlin/org/multipaz/testappextras/PlatformAndroid.kt:34-38 | a Google `sdk_gphone_` image with release keys is detected, whatever its other fields |
| `PlatformAndroid.SdkGphone64DevImageDetected` | testapp-extras/src/androidMain/kotlin/org/multipaz/testappextras/PlatformAndroid.kt:40-45 | a Google `sdk_gphone64_` image with `userdebug/dev-keys` is detected, whatever its other fields |
| `PlatformAndroid.SdkGphoneDevImageNotSdkClause` | testapp-extras/src/androidMain/kotlin/org/multipaz/testappextras/PlatformAndroid.kt:34-45 | an `sdk_gphone_` fingerprint with `userdebug/dev-keys` never meets the SDK-image clause |
| `PlatformAndroid.BlueStacksBoardUnlessXiaomi` | testapp-extras/src/androidMain/kotlin/org/multipaz/testappextras/PlatformAndroid.kt:53-56 | on board `QC_Reference_Phone` the clause holds exactly when the manufacturer is not `Xiaomi` ignoring case: `XIAOMI` is excluded, `Samsung` is detected |
| `PlatformAndroid.GenericBrandAndDeviceNeedsBoth` | testapp-extras/src/androidMain/kotlin/org/multipaz/testappextras/PlatformAndroid.kt:61 | generic brand and generic device make the predicate true; either one missing fails that clause |
| `PlatformAndroid.SdkDeviceAloneNotGeneric` | testapp-extras/src/androidMain/kotlin/org/multipaz/testappextras/PlatformAndroid.kt:61 | the SDK emulator's `generic_x86_arm` device with brand `google` does not meet the brand-and-device clause |
| `PlatformAndroid.SdkModelHasNoMarker` | testapp-extras/src/androidMain/kotlin/org/multipaz/testappextras/PlatformAndroid.kt:49-51 | the model name `sdk_gphone_x86` has none of the three emulator model substrings, so SDK images rely on the first clause |
| `PlatformAndroid.IsEmulator` | testapp-extras/src/androidMain/kotlin/org/multipaz/testappextras/PlatformAndroid.kt:32-63 | `platformIsEmulator`: the disjunction of the SDK-image clause and the other markers, in the source's order and grouping |
| `Bootstrap.TimingLines` | testapp-extras/src/commonMain/kotlin/org/multipaz/testappextras/App.kt:82 | one timing line per step, tagged with that step's name, in step order |
| `Bootstrap.RunSteps` | testapp-extras/src/commonMain/kotlin/org/multipaz/testappextras/App.kt:78-83 | the calls are a prefix of the steps; with no exception they are all the steps with one timing line each; no exception is thrown exactly when every step returns in the environment; with one, every step before the last one called returned, the last one threw the recorded cause, and only the steps before it are logged |
| `Bootstrap.Pass` | testapp-extras/src/commonMain/kotlin/org/multipaz/testappextras/App.kt:77-86 | a pass calls what the loop calls; on success the loop's timing lines are followed by the total line, and on failure the log is the loop's, with no total line |
| `Bootstrap.RunStepsCompletes` | testapp-extras/src/commonMain/kotlin/org/multipaz/testappextras/App.kt:78-83 | when no step throws, the loop calls every step once in order and logs one timing line per step, in order |
| `Bootstrap.RunStepsAborts` | testapp-extras/src/commonMain/kotlin/org/multipaz/testappextras/App.kt:78-83 | when the first step to throw is at index k, the loop calls exactly the steps up to k, logs the times of those before k, and ends with step k's exception |
| `Bootstrap.PassSucceedsIffNoStepThrows` | testapp-extras/src/commonMain/kotlin/org/multipaz/testappextras/App.kt:78-86 | a pass succeeds if and only if every step returns |
| `Bootstrap.PassSuccessLog` | testapp-extras/src/commonMain/kotlin/org/multipaz/testappextras/App.kt:82-85 | a successful pass calls the steps in order and logs exactly one timing line per step, tagged with its name, in step order, then one total line |
| `Bootstrap.PassFailureStopsAtStep` | testapp-extras/src/commonMain/kotlin/org/multipaz/testappextras/App.kt:78-86 | a failed pass reports its first throwing step, calls nothing after it and logs no total line |
| `Bootstrap.PassStartsWithPlatformInit` | testapp-extras/src/commonMain/kotlin/org/multipaz/testappextras/App.kt:72-75 | every pass, including a retry after a failure, begins by calling `platformInit` |
| `Bootstrap.InitFuncsPass` | testapp-extras/src/commonMain/kotlin/org/multipaz/testappextras/App.kt:72-94 | the three ways a pass over `initFuncs` ends: `platformInit` throws; the model resource is missing after `platformInit` was logged; both steps and the total are logged |
| `Bootstrap.App.constructor` | testapp-extras/src/commonMain/kotlin/org/multipaz/testappextras/App.kt:62-65 | a new app is not initialised, holds no model, and has logged and called nothing |
| `Bootstrap.App.FaceMatchLiteRtModelInitStep` | testapp-extras/src/commonMain/kotlin/org/multipaz/testappextras/App.kt:91-94 | a missing resource throws and leaves the model unchanged; otherwise the model is built from the resource's bytes with image size 160 and embedding size 512 |
| `Bootstrap.App.CallStep` | testapp-extras/src/commonMain/kotlin/org/multipaz/testappextras/App.kt:80 | calling a step ends as the environment says; only a returning model step changes the model, to the one built from the resource |
| `Bootstrap.App.CallAndLog` | testapp-extras/src/commonMain/kotlin/org/multipaz/testappextras/App.kt:79-82 | one turn records the call, and logs the step's timing line exactly when the step returned |
| `Bootstrap.App.RunInitFuncs` | testapp-extras/src/commonMain/kotlin/org/multipaz/testappextras/App.kt:78-83 | the loop's calls, log lines and exception are those of `RunSteps` over `initFuncs`; the model is loaded when no step threw and untouched otherwise |
| `Bootstrap.App.Init` | testapp-extras/src/commonMain/kotlin/org/multipaz/testappextras/App.kt:67-88 | once initialised, a call succeeds and changes nothing; otherwise the calls, log lines, flag, result and model are exactly those of one pass over `initFuncs`, and `Valid` (initialised implies the 160/512 model is loaded) is kept |
| `Bootstrap.Companion.constructor` | testapp-extras/src/commonMain/kotlin/org/multipaz/testappextras/App.kt:99 | the global `app` starts null, with nothing constructed |
| `Bootstrap.Companion.GetInstance` | testapp-extras/src/commonMain/kotlin/org/multipaz/testappextras/App.kt:100-105 | the first call constructs a fresh, uninitialised app and stores it; later calls return the stored app and construct nothing |
| `Bootstrap.GetInstanceTwice` | testapp-extras/src/commonMain/kotlin/org/multipaz/testappextras/App.kt:99-105 | two `getInstance` calls in a row return the same object, and exactly one app has been constructed |
| `Bootstrap.InitRetryThenIdle` | testapp-extras/src/commonMain/kotlin/org/multipaz/testappextras/App.kt:67-94 | a call that fails on the missing model resource is followed by a full re-run from `platformInit` that succeeds, and a third call runs nothing |

## Left out

- Compose UI (`Content` apart from route resolution, `AppBar`, the snackbar, the loading screen, `StartScreen`): presentation with no state to model.
- `Mutex.withLock`, coroutines and `CoroutineScope(Dispatchers.Main).launch`: the lock body is modelled as a sequential critical section. Concurrent callers and the unsynchronised `getInstance` are not modelled.
- `Clock.System.now()` and the millisecond values in the log lines: a log line is modelled by what it reports (a step's name, or the total), not by its time.
- `Logger.i`: the lines `App` logs are a field of `App`. The logger tag `App` is not modelled, since every line in the field is one of `App`'s.
- The `App` constructor is private in Kotlin (only `getInstance` calls it); Dafny has no private members, so `Companion.constructed` counts only the constructions made through `GetInstance`.
- `Res.readBytes`: modelled as a lookup in the environment's resource map that throws when the path is absent. Truncated or corrupt bytes are not distinguished.
- The `FaceMatchLiteRtModel` constructor is an ML wrapper whose internals are not part of this model. It is modelled as a record of the bytes and the two sizes, and it never throws.
- `platformInit` bodies (Android notification set-up, the iOS no-op): modelled as a step whose outcome, returned or thrown, is part of the environment.
- The `promptModel` constructor argument, `platformPromptModel`, `platformHttpClientEngineFactory`, `platformAppName`, `platformAppIcon` and the `Platform` enum: thin wrappers and constants with nothing to state.
- Reading `faceMatchLiteRtModel` before it is assigned throws in Kotlin. The model only says when it is assigned, and does not model reads.
- The `by lazy` evaluation of `platformIsEmulator`: modelled as a pure predicate, which is the value the lazy property caches.
- `KotlinStrings.EqualsIgnoreCase`: uses ASCII case folding only. Kotlin compares characters by their Unicode upper- and lower-case forms, so non-Latin letters that fold to the letters of `Xiaomi`, such as the dotless `ı`, are not modelled.
- `MainActivity.kt`, `MainViewController.kt` and `settings.gradle.kts`: lifecycle glue and build configuration are not part of this model.
