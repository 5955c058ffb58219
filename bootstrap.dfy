/**
 * The application singleton `App`: a guarded, ordered, abort-on-failure
 * initialisation pass over a fixed list of named steps, and the lazily
 * created process-wide instance.
 *
 * The lock around `init` is a sequential critical section here. What the
 * steps meet in the outside world (whether the platform set-up throws,
 * which resources can be read) is the `Environment` passed to each call.
 */
module Bootstrap {
  import opened Wrappers

  newtype byte = x: int | 0 <= x < 256

  /** The resource the face-match model is read from, and its fixed parameters. */
  const ModelResourcePath: string := "files/facenet_512.tflite"
  const ImageSquareSize: nat := 160
  const EmbeddingsArraySize: nat := 512

  /** `FaceMatchLiteRtModel`: the model bytes and its configuration. */
  datatype FaceMatchLiteRtModel = FaceMatchLiteRtModel(
    modelData: seq<byte>,
    imageSquareSize: nat,
    embeddingsArraySize: nat)

  datatype InitStep = PlatformInit | FaceMatchLiteRtModelInit {
    /** The name paired with the step in `initFuncs`. */
    function Name(): string
    {
      match this
      case PlatformInit => "platformInit"
      case FaceMatchLiteRtModelInit => "faceMatchLiteRtModelInit"
    }
  }

  /** `initFuncs`, in the order `init` runs them. */
  const InitFuncs: seq<InitStep> := [PlatformInit, FaceMatchLiteRtModelInit]

  /** How a step's call ended: it returned, or it threw. */
  datatype StepOutcome = Returned | Threw(cause: string)

  /** What the steps find outside the model on one call of `init`. */
  datatype Environment = Environment(
    platformInitOutcome: StepOutcome,
    resources: map<string, seq<byte>>)

  /** `Res.readBytes(path)`: the bytes of a bundled resource, or an exception. */
  function ReadBytes(env: Environment, path: string): (r: Option<seq<byte>>)
    ensures r.Some? <==> path in env.resources
    ensures r.Some? ==> r.value == env.resources[path]
  {
    if path in env.resources then Some(env.resources[path]) else None
  }

  /** How running `step` in `env` ends: the model step throws exactly when its resource is missing. */
  function Outcome(env: Environment, step: InitStep): (r: StepOutcome)
    ensures step == PlatformInit ==> r == env.platformInitOutcome
    ensures step == FaceMatchLiteRtModelInit ==> (r.Returned? <==> ModelResourcePath in env.resources)
  {
    match step
    case PlatformInit => env.platformInitOutcome
    case FaceMatchLiteRtModelInit =>
      if ReadBytes(env, ModelResourcePath).Some? then Returned
      else Threw("missing resource " + ModelResourcePath)
  }

  /** The model `faceMatchLiteRtModelInit` builds from the bytes it read. */
  function LoadedModel(modelData: seq<byte>): FaceMatchLiteRtModel
  {
    FaceMatchLiteRtModel(modelData, ImageSquareSize, EmbeddingsArraySize)
  }

  /** The lines `init` logs, by what they report (times are left out). */
  datatype LogEntry = StepTime(stepName: string) | TotalTime

  /** The exception that aborted a pass, with the step it came from. */
  datatype StepFailure = StepFailure(step: InitStep, cause: string)

  /** How a call of `init` ends: it returns, or it rethrows a step's exception. */
  datatype InitResult = Success | Failure(failure: StepFailure)

  /** What running a list of steps does: the steps called, the lines logged, the exception if any. */
  datatype Trace = Trace(invoked: seq<InitStep>, logged: seq<LogEntry>, failure: Option<StepFailure>)

  /** One timing line per step, in step order. */
  function TimingLines(steps: seq<InitStep>): (r: seq<LogEntry>)
    ensures |r| == |steps|
    ensures forall i :: 0 <= i < |steps| ==> r[i] == StepTime(steps[i].Name())
  {
    if |steps| == 0 then [] else [StepTime(steps[0].Name())] + TimingLines(steps[1..])
  }

  /**
   * The body of the `for` loop over `steps`: each step is called, then its
   * timing line is logged; a step that throws ends the loop.
   */
  function RunSteps(steps: seq<InitStep>, env: Environment): (t: Trace)
    ensures |t.invoked| <= |steps| && t.invoked == steps[..|t.invoked|]
    ensures t.failure.None? ==> t.invoked == steps && t.logged == TimingLines(steps)
    ensures t.failure.Some? ==>
      |t.invoked| > 0 && t.failure.value.step == t.invoked[|t.invoked| - 1] &&
      t.logged == TimingLines(t.invoked[..|t.invoked| - 1])
    ensures t.failure.None? <==> ReturnBefore(steps, env, |steps|)
    ensures t.failure.Some? ==>
      ReturnBefore(steps, env, |t.invoked| - 1) &&
      Outcome(env, t.invoked[|t.invoked| - 1]) == Threw(t.failure.value.cause)
  {
    if |steps| == 0 then Trace([], [], None)
    else match Outcome(env, steps[0])
      case Threw(cause) => Trace([steps[0]], [], Some(StepFailure(steps[0], cause)))
      case Returned =>
        var rest := RunSteps(steps[1..], env);
        ConsTraceShape(steps, rest);
        ConsTraceOutcomes(steps, env, rest);
        Trace([steps[0]] + rest.invoked, [StepTime(steps[0].Name())] + rest.logged, rest.failure)
  }

  /** The timing lines of a step followed by more steps. */
  lemma TimingLinesCons(step: InitStep, steps: seq<InitStep>)
    ensures TimingLines([step] + steps) == [StepTime(step.Name())] + TimingLines(steps)
  {
    assert ([step] + steps)[1..] == steps;
  }

  /** The timing lines of some steps followed by one more. */
  lemma TimingLinesSnoc(steps: seq<InitStep>, step: InitStep)
    ensures TimingLines(steps + [step]) == TimingLines(steps) + [StepTime(step.Name())]
  {
    assert forall i :: 0 <= i < |steps| ==> (steps + [step])[i] == steps[i];
  }

  /** Prepending a returned step keeps a trace a prefix run of its steps with the right timing lines. */
  lemma ConsTraceShape(steps: seq<InitStep>, rest: Trace)
    requires |steps| > 0
    requires |rest.invoked| <= |steps| - 1 && rest.invoked == steps[1..][..|rest.invoked|]
    requires rest.failure.None? ==> rest.invoked == steps[1..] && rest.logged == TimingLines(steps[1..])
    requires rest.failure.Some? ==>
      |rest.invoked| > 0 && rest.failure.value.step == rest.invoked[|rest.invoked| - 1] &&
      rest.logged == TimingLines(rest.invoked[..|rest.invoked| - 1])
    ensures var t := Trace([steps[0]] + rest.invoked, [StepTime(steps[0].Name())] + rest.logged, rest.failure);
      && |t.invoked| <= |steps| && t.invoked == steps[..|t.invoked|]
      && (t.failure.None? ==> t.invoked == steps && t.logged == TimingLines(steps))
      && (t.failure.Some? ==>
            |t.invoked| > 0 && t.failure.value.step == t.invoked[|t.invoked| - 1] &&
            t.logged == TimingLines(t.invoked[..|t.invoked| - 1]))
  {
    var n := |rest.invoked|;
    var t := Trace([steps[0]] + rest.invoked, [StepTime(steps[0].Name())] + rest.logged, rest.failure);
    assert [steps[0]] + steps[1..] == steps;
    assert steps[..n + 1] == [steps[0]] + steps[1..][..n];
    if rest.failure.Some? {
      assert t.invoked[n] == rest.invoked[n - 1];
      assert t.invoked[..n] == [steps[0]] + rest.invoked[..n - 1];
      TimingLinesCons(steps[0], rest.invoked[..n - 1]);
    } else {
      TimingLinesCons(steps[0], steps[1..]);
    }
  }

  /** Prepending a returned step keeps a trace's failure tied to the outcomes of its steps. */
  lemma ConsTraceOutcomes(steps: seq<InitStep>, env: Environment, rest: Trace)
    requires |steps| > 0 && Outcome(env, steps[0]).Returned?
    requires |rest.invoked| <= |steps| - 1 && rest.invoked == steps[1..][..|rest.invoked|]
    requires rest.failure.Some? ==> |rest.invoked| > 0
    requires rest.failure.None? <==> ReturnBefore(steps[1..], env, |steps| - 1)
    requires rest.failure.Some? ==>
      ReturnBefore(steps[1..], env, |rest.invoked| - 1) &&
      Outcome(env, rest.invoked[|rest.invoked| - 1]) == Threw(rest.failure.value.cause)
    ensures var t := Trace([steps[0]] + rest.invoked, [StepTime(steps[0].Name())] + rest.logged, rest.failure);
      && (t.failure.None? <==> ReturnBefore(steps, env, |steps|))
      && (t.failure.Some? ==>
            ReturnBefore(steps, env, |t.invoked| - 1) &&
            Outcome(env, t.invoked[|t.invoked| - 1]) == Threw(t.failure.value.cause))
  {
    ReturnBeforeShift(steps, env, |steps| - 1);
    if rest.failure.Some? {
      var n := |rest.invoked| - 1;
      ReturnBeforeShift(steps, env, n);
      assert ([steps[0]] + rest.invoked)[n + 1] == rest.invoked[n];
    }
  }

  /** A whole pass: the loop, then the total-time line if the loop completed. */
  function Pass(steps: seq<InitStep>, env: Environment): (t: Trace)
    ensures t.invoked == RunSteps(steps, env).invoked && t.failure == RunSteps(steps, env).failure
    ensures t.failure.None? ==> t.logged == TimingLines(steps) + [TotalTime]
    ensures t.failure.Some? ==> t.logged == RunSteps(steps, env).logged && TotalTime !in t.logged
  {
    var t := RunSteps(steps, env);
    if t.failure.None? then t.(logged := t.logged + [TotalTime]) else t
  }

  /** The steps before index `k` all return. */
  predicate ReturnBefore(steps: seq<InitStep>, env: Environment, k: nat)
    requires k <= |steps|
  {
    forall j :: 0 <= j < k ==> Outcome(env, steps[j]).Returned?
  }

  /** Past a first step that returns, the steps before `k + 1` return exactly when those of the rest before `k` do. */
  lemma ReturnBeforeShift(steps: seq<InitStep>, env: Environment, k: nat)
    requires k < |steps| && Outcome(env, steps[0]).Returned?
    ensures ReturnBefore(steps, env, k + 1) <==> ReturnBefore(steps[1..], env, k)
  {
    assert forall j :: 0 <= j < k ==> steps[1..][j] == steps[j + 1];
    if ReturnBefore(steps[1..], env, k) {
      forall j | 0 <= j < k + 1 ensures Outcome(env, steps[j]).Returned? {
        if j > 0 { assert steps[j] == steps[1..][j - 1]; }
      }
    }
  }

  /** A loop in which no step throws calls every step once, in order, and logs each one's time. */
  lemma {:induction false} RunStepsCompletes(steps: seq<InitStep>, env: Environment)
    requires ReturnBefore(steps, env, |steps|)
    ensures RunSteps(steps, env) == Trace(steps, TimingLines(steps), None)
  {
    if |steps| > 0 {
      assert ReturnBefore(steps[1..], env, |steps| - 1) by {
        forall j | 0 <= j < |steps| - 1 ensures Outcome(env, steps[1..][j]).Returned? {
          assert steps[1..][j] == steps[j + 1];
        }
      }
      RunStepsCompletes(steps[1..], env);
      assert [steps[0]] + steps[1..] == steps;
    }
  }

  /**
   * A loop whose first throwing step is at index `k` calls exactly the steps
   * up to and including it, logs the times of those before it, and ends with
   * that step's exception.
   */
  lemma {:induction false} RunStepsAborts(steps: seq<InitStep>, env: Environment, k: nat)
    requires k < |steps| && ReturnBefore(steps, env, k) && Outcome(env, steps[k]).Threw?
    ensures RunSteps(steps, env) ==
      Trace(steps[..k + 1], TimingLines(steps[..k]), Some(StepFailure(steps[k], Outcome(env, steps[k]).cause)))
  {
    var t := RunSteps(steps, env);
    assert !ReturnBefore(steps, env, |steps|);
    var m := |t.invoked| - 1;
    assert Outcome(env, steps[m]).Threw?;
    assert m == k;
    assert t.invoked[..k] == steps[..k];
  }

  /** A pass succeeds exactly when no step throws. */
  lemma PassSucceedsIffNoStepThrows(steps: seq<InitStep>, env: Environment)
    ensures Pass(steps, env).failure.None? <==> ReturnBefore(steps, env, |steps|)
  {
  }

  /**
   * A successful pass calls every step once in order and logs one timing
   * line per step, in step order, then one total-time line.
   */
  lemma PassSuccessLog(steps: seq<InitStep>, env: Environment)
    requires Pass(steps, env).failure.None?
    ensures Pass(steps, env).invoked == steps
    ensures Pass(steps, env).logged == TimingLines(steps) + [TotalTime]
    ensures |Pass(steps, env).logged| == |steps| + 1
    ensures forall i :: 0 <= i < |steps| ==> Pass(steps, env).logged[i] == StepTime(steps[i].Name())
  {
  }

  /**
   * A failed pass stops at its first throwing step `k`: nothing after it
   * was called, it reports that step, and no total-time line is logged.
   */
  lemma PassFailureStopsAtStep(steps: seq<InitStep>, env: Environment, k: nat)
    requires k < |steps| && ReturnBefore(steps, env, k) && Outcome(env, steps[k]).Threw?
    ensures Pass(steps, env).failure == Some(StepFailure(steps[k], Outcome(env, steps[k]).cause))
    ensures Pass(steps, env).invoked == steps[..k + 1]
    ensures Pass(steps, env).logged == TimingLines(steps[..k])
    ensures TotalTime !in Pass(steps, env).logged
  {
    RunStepsAborts(steps, env, k);
  }

  /** Every pass over `initFuncs`, successful or not, begins with `platformInit`. */
  lemma PassStartsWithPlatformInit(env: Environment)
    ensures |Pass(InitFuncs, env).invoked| > 0 && Pass(InitFuncs, env).invoked[0] == PlatformInit
  {
  }

  /** The three ways a pass over `initFuncs` can end. */
  lemma InitFuncsPass(env: Environment)
    ensures env.platformInitOutcome.Threw? ==>
      Pass(InitFuncs, env) == Trace([PlatformInit], [], Some(StepFailure(PlatformInit, env.platformInitOutcome.cause)))
    ensures env.platformInitOutcome.Returned? && ModelResourcePath !in env.resources ==>
      Pass(InitFuncs, env) == Trace(InitFuncs, [StepTime("platformInit")],
                                    Some(StepFailure(FaceMatchLiteRtModelInit, "missing resource " + ModelResourcePath)))
    ensures env.platformInitOutcome.Returned? && ModelResourcePath in env.resources ==>
      Pass(InitFuncs, env) == Trace(InitFuncs, [StepTime("platformInit"), StepTime("faceMatchLiteRtModelInit"), TotalTime], None)
  {
    if env.platformInitOutcome.Returned? {
      if ModelResourcePath in env.resources {
        RunStepsCompletes(InitFuncs, env);
      } else {
        RunStepsAborts(InitFuncs, env, 1);
        assert InitFuncs[..2] == InitFuncs;
      }
    }
  }

  /** `App`: the state `init` and the model step update. */
  class App {
    /** `initialized`: set once a whole pass has completed. */
    var initialized: bool
    /** `faceMatchLiteRtModel`, a `lateinit` property: `None` until assigned. */
    var faceMatchLiteRtModel: Option<FaceMatchLiteRtModel>
    /** The lines `init` has logged, oldest first. */
    var log: seq<LogEntry>
    /** Every step called so far, oldest first. */
    ghost var invocations: seq<InitStep>

    /** An initialised app holds the model, built with its fixed parameters. */
    ghost predicate Valid()
      reads this
    {
      initialized ==>
        faceMatchLiteRtModel.Some?
        && faceMatchLiteRtModel.value.imageSquareSize == ImageSquareSize
        && faceMatchLiteRtModel.value.embeddingsArraySize == EmbeddingsArraySize
    }

    /**
     * The constructor, private in Kotlin so that only `getInstance` calls it;
     * Dafny has no private members, so `Companion.constructed` counts only
     * the constructions made through `GetInstance`.
     */
    constructor ()
      ensures Valid()
      ensures !initialized && faceMatchLiteRtModel == None && log == [] && invocations == []
    {
      initialized := false;
      faceMatchLiteRtModel := None;
      log := [];
      invocations := [];
    }

    /**
     * `faceMatchLiteRtModelInit`: read the model resource, which throws when
     * it is missing, and build the model from its bytes.
     */
    method FaceMatchLiteRtModelInitStep(env: Environment) returns (outcome: StepOutcome)
      modifies this`faceMatchLiteRtModel
      ensures old(Valid()) ==> Valid()
      ensures outcome == Outcome(env, FaceMatchLiteRtModelInit)
      ensures outcome.Returned? ==>
        ModelResourcePath in env.resources &&
        faceMatchLiteRtModel == Some(LoadedModel(env.resources[ModelResourcePath]))
      ensures outcome.Threw? ==> faceMatchLiteRtModel == old(faceMatchLiteRtModel)
    {
      var modelData := ReadBytes(env, ModelResourcePath);
      if modelData.None? {
        return Threw("missing resource " + ModelResourcePath);
      }
      faceMatchLiteRtModel := Some(LoadedModel(modelData.value));
      outcome := Returned;
    }

    /** `func()` in the loop of `init`: runs one step of `initFuncs`. */
    method CallStep(step: InitStep, env: Environment) returns (outcome: StepOutcome)
      modifies this`faceMatchLiteRtModel
      ensures outcome == Outcome(env, step)
      ensures step == FaceMatchLiteRtModelInit && outcome.Returned? ==>
        ModelResourcePath in env.resources &&
        faceMatchLiteRtModel == Some(LoadedModel(env.resources[ModelResourcePath]))
      ensures step == PlatformInit || outcome.Threw? ==> faceMatchLiteRtModel == old(faceMatchLiteRtModel)
    {
      match step {
        case PlatformInit =>
          outcome := env.platformInitOutcome;
        case FaceMatchLiteRtModelInit =>
          outcome := FaceMatchLiteRtModelInitStep(env);
      }
    }

    /** One turn of the loop of `init`: call the step, then log its time if it returned. */
    method CallAndLog(step: InitStep, env: Environment) returns (outcome: StepOutcome)
      modifies this`invocations, this`log, this`faceMatchLiteRtModel
      ensures outcome == Outcome(env, step)
      ensures invocations == old(invocations) + [step]
      ensures log == old(log) + (if outcome.Returned? then [StepTime(step.Name())] else [])
      ensures step == FaceMatchLiteRtModelInit && outcome.Returned? ==>
        ModelResourcePath in env.resources &&
        faceMatchLiteRtModel == Some(LoadedModel(env.resources[ModelResourcePath]))
      ensures step == PlatformInit || outcome.Threw? ==> faceMatchLiteRtModel == old(faceMatchLiteRtModel)
    {
      invocations := invocations + [step];
      outcome := CallStep(step, env);
      if outcome.Returned? {
        log := log + [StepTime(step.Name())];
      }
    }

    /**
     * The `for` loop of `init`: calls the steps of `initFuncs` in order,
     * logging each one's time after it returns, and stops at the first step
     * that throws, handing back its exception.
     */
    method RunInitFuncs(env: Environment) returns (failure: Option<StepFailure>)
      modifies this`invocations, this`log, this`faceMatchLiteRtModel
      ensures var t := RunSteps(InitFuncs, env);
        && invocations == old(invocations) + t.invoked
        && log == old(log) + t.logged
        && failure == t.failure
      ensures failure.None? ==>
        ModelResourcePath in env.resources &&
        faceMatchLiteRtModel == Some(LoadedModel(env.resources[ModelResourcePath]))
      ensures failure.Some? ==> faceMatchLiteRtModel == old(faceMatchLiteRtModel)
    {
      var i := 0;
      while i < |InitFuncs|
        invariant 0 <= i <= |InitFuncs|
        invariant ReturnBefore(InitFuncs, env, i)
        invariant invocations == old(invocations) + InitFuncs[..i]
        invariant log == old(log) + TimingLines(InitFuncs[..i])
        invariant i < |InitFuncs| ==> faceMatchLiteRtModel == old(faceMatchLiteRtModel)
        invariant i == |InitFuncs| ==>
          ModelResourcePath in env.resources &&
          faceMatchLiteRtModel == Some(LoadedModel(env.resources[ModelResourcePath]))
      {
        var step := InitFuncs[i];
        var outcome := CallAndLog(step, env);
        assert InitFuncs[..i + 1] == InitFuncs[..i] + [step];
        if outcome.Threw? {
          RunStepsAborts(InitFuncs, env, i);
          return Some(StepFailure(step, outcome.cause));
        }
        TimingLinesSnoc(InitFuncs[..i], step);
        i := i + 1;
      }
      RunStepsCompletes(InitFuncs, env);
      assert InitFuncs[..i] == InitFuncs;
      failure := None;
    }

    /**
     * `init`: does nothing once initialised; otherwise runs the loop over
     * `initFuncs`, then logs the total, and only then sets `initialized`. A
     * step that throws ends the call with its exception and leaves
     * `initialized` false, so the next call starts again from the first step.
     */
    method Init(env: Environment) returns (r: InitResult)
      requires Valid()
      modifies this
      ensures Valid()
      ensures old(initialized) ==> r == Success && unchanged(this)
      ensures !old(initialized) ==>
        var t := Pass(InitFuncs, env);
        && invocations == old(invocations) + t.invoked
        && log == old(log) + t.logged
        && initialized == t.failure.None?
        && r == (if t.failure.None? then Success else Failure(t.failure.value))
      ensures !old(initialized) && Pass(InitFuncs, env).failure.None? ==>
        ModelResourcePath in env.resources &&
        faceMatchLiteRtModel == Some(LoadedModel(env.resources[ModelResourcePath]))
      ensures !old(initialized) && Pass(InitFuncs, env).failure.Some? ==>
        faceMatchLiteRtModel == old(faceMatchLiteRtModel)
    {
      if initialized {
        return Success;
      }
      var failure := RunInitFuncs(env);
      if failure.Some? {
        return Failure(failure.value);
      }
      log := log + [TotalTime];
      initialized := true;
      r := Success;
    }
  }

  /** The companion object: the nullable global `app`, and how many `App`s were constructed. */
  class Companion {
    var app: App?
    ghost var constructed: nat

    ghost predicate Valid()
      reads this, app
    {
      constructed <= 1 && (app == null <==> constructed == 0) && (app != null ==> app.Valid())
    }

    constructor ()
      ensures Valid() && app == null && constructed == 0
    {
      app := null;
      constructed := 0;
    }

    /** `getInstance`: construct the app on the first call, return the same one afterwards. */
    method GetInstance() returns (a: App)
      requires Valid()
      modifies this
      ensures Valid() && app == a
      ensures old(app) != null ==> a == old(app) && constructed == old(constructed)
      ensures old(app) == null ==>
        fresh(a) && constructed == 1 &&
        !a.initialized && a.faceMatchLiteRtModel == None && a.log == [] && a.invocations == []
    {
      if app == null {
        app := new App();
        constructed := constructed + 1;
      }
      a := app;
    }
  }

  /** Repeated `getInstance` calls give one object, constructed at most once. */
  method GetInstanceTwice(companion: Companion) returns (first: App, second: App)
    requires companion.Valid()
    modifies companion
    ensures first == second && companion.app == first
    ensures companion.constructed == 1
    ensures old(companion.app) != null ==> first == old(companion.app)
  {
    first := companion.GetInstance();
    second := companion.GetInstance();
  }

  /**
   * A call whose model resource is missing fails after `platformInit`; the
   * next call runs both steps again from the first and succeeds; the call
   * after that runs nothing.
   */
  method InitRetryThenIdle(app: App, missing: Environment, present: Environment, later: Environment)
    returns (first: InitResult, second: InitResult, third: InitResult)
    requires app.Valid() && !app.initialized
    requires missing.platformInitOutcome == Returned && ModelResourcePath !in missing.resources
    requires present.platformInitOutcome == Returned && ModelResourcePath in present.resources
    modifies app
    ensures first == Failure(StepFailure(FaceMatchLiteRtModelInit, "missing resource " + ModelResourcePath))
    ensures second == Success && third == Success && app.initialized
    ensures app.invocations == old(app.invocations) + InitFuncs + InitFuncs
    ensures app.log == old(app.log) + [StepTime("platformInit")]
                     + [StepTime("platformInit"), StepTime("faceMatchLiteRtModelInit"), TotalTime]
    ensures app.faceMatchLiteRtModel == Some(LoadedModel(present.resources[ModelResourcePath]))
  {
    InitFuncsPass(missing);
    InitFuncsPass(present);
    first := app.Init(missing);
    second := app.Init(present);
    third := app.Init(later);
  }
}
