/** The test-script generator of maketest.go.

    `Maketest` marshals the build rules to JSON, marshals the timing overrides
    only when custom timing is requested, derives the duration fields, assembles
    the flat `Test` record and hands it to the template generator together with
    a fixed template path and the destination `<path>/<name>.sh`.

    The three foreign calls (`json.Marshal` on the rules, `json.Marshal` on the
    timing slice, `gen.GenerateTemplate`) are parameters of `Maketest`, so they
    are arbitrary functions here; the model returns, beside the outcome, the
    sequence of foreign calls made, which is how "not attempted" is stated.
 */
module MakeTest {
  import opened GoInt

  /** The result of a Go call that returns `(value, error)`: a value, or an
      error with its message (`err.Error()`). */
  datatype Result<T> = Success(value: T) | Failure(error: string)

  datatype Option<T> = None | Some(value: T)

  /** `temporal.Temporal`: one timing override; its fields are not part of this model. */
  type Temporal(==)

  /** A Go slice: `nil`, or a (possibly empty) run of elements. `json.Marshal`
      tells the two apart (`null` against `[]`), so the model does too. */
  datatype Slice<T> = Nil | Elements(items: seq<T>)

  /** The fields of `types.Rules` other than the two this component reads. */
  type RulesDetail(==)

  /** `types.Rules`, exposing the application name and the maximum run time in
      microseconds (`NoDuration` when there is none). */
  datatype Rules = Rules(name: string, maxDurationUs: int, detail: RulesDetail)

  /** The six directories and the log-file name a test run needs
      (maketest.go `Environment`). */
  datatype Environment = Environment(
    generateDirectory: string,
    workspaceDirectory: string,
    rosDirectory: string,
    analysisDirectory: string,
    resultsDirectory: string,
    logfileDirectory: string,
    logfileName: string)

  /** The flat record handed to the template (maketest.go `Test`). */
  datatype Test = Test(
    testName: string,
    appName: string,
    appRules: string,
    isCustomTiming: bool,
    appTiming: string,
    isDuration: bool,
    durationS: int,
    generateDirectory: string,
    workspaceDirectory: string,
    rosDirectory: string,
    analysisDirectory: string,
    resultsDirectory: string,
    logfileDirectory: string,
    logfileName: string)

  /** The template every script is rendered from; a literal in the source. */
  const TemplatePath: string := "/home/micrified/Go/src/maketest/templates/autotest.tmpl"

  /** The value of `Max_duration_us` that means "no maximum". */
  const NoDuration: int := -1

  const MicrosPerSecond: int := 1000000

  const RulesPrefix: string := "Unable to marshal rules: "
  const TimingPrefix: string := "Unable to marshal timing: "

  /** The foreign calls `Maketest` can make, with their arguments. */
  datatype Call =
    | MarshalRules(rules: Rules)
    | MarshalTiming(timing: Slice<Temporal>)
    | GenerateTemplate(test: Test, templatePath: string, destPath: string)

  /** What `Maketest` returns, tagged with the stage that failed. A template
      error carries the generator's error itself: the source does not wrap it. */
  datatype Outcome =
    | Ok
    | RulesErr(cause: string)
    | TimingErr(cause: string)
    | TemplateErr(cause: string)

  /** An outcome together with the foreign calls made to reach it, in order. */
  datatype Run = Run(outcome: Outcome, calls: seq<Call>)

  /** The Go `error` value the source returns for an outcome: nil on success,
      otherwise the message, with the stage prefix for the two marshal errors. */
  function ErrorText(o: Outcome): (e: Option<string>)
    ensures e.None? <==> o.Ok?
    ensures o.RulesErr? ==> RulesPrefix <= e.value
                            && e.value[|RulesPrefix|..] == o.cause
    ensures o.TimingErr? ==> TimingPrefix <= e.value
                             && e.value[|TimingPrefix|..] == o.cause
    ensures o.TemplateErr? ==> e.value == o.cause
  {
    match o
    case Ok => None
    case RulesErr(c) => Some(RulesPrefix + c)
    case TimingErr(c) => Some(TimingPrefix + c)
    case TemplateErr(c) => Some(c)
  }

  /** `Duration_s`, the timeout in whole seconds: one more than Go's
      truncating quotient of the microseconds by a million. For a non-negative
      maximum the timeout exceeds it, by at most one second. */
  function DurationSeconds(maxDurationUs: int): (s: int)
    ensures maxDurationUs >= 0 ==>
              (s - 1) * MicrosPerSecond <= maxDurationUs < s * MicrosPerSecond
    ensures maxDurationUs < 0 ==>
              (s - 2) * MicrosPerSecond < maxDurationUs <= (s - 1) * MicrosPerSecond
  {
    1 + TruncDiv(maxDurationUs, MicrosPerSecond)
  }

  /** The destination script, `path + "/" + name + ".sh"`. */
  function DestPath(path: string, name: string): (dest: string)
    ensures |dest| == |path| + |name| + 4
    ensures dest[..|path|] == path && dest[|path|] == '/'
    ensures dest[|path| + 1..|dest| - 3] == name
    ensures dest[|dest| - 3..] == ".sh"
  {
    path + "/" + name + ".sh"
  }

  /** The environment part of a test record. */
  function EnvironmentOf(t: Test): Environment {
    Environment(t.generateDirectory, t.workspaceDirectory, t.rosDirectory,
                t.analysisDirectory, t.resultsDirectory, t.logfileDirectory,
                t.logfileName)
  }

  /** The struct literal: every field copied from the inputs, the two
      duration fields derived from the rules. */
  function BuildTest(name: string, rules: Rules, rulesData: string,
                     isCustomTiming: bool, timingData: string,
                     env: Environment): (t: Test)
    ensures t.testName == name && t.appName == rules.name
    ensures t.appRules == rulesData && t.appTiming == timingData
    ensures t.isCustomTiming == isCustomTiming
    ensures t.isDuration <==> rules.maxDurationUs != NoDuration
    ensures t.durationS == DurationSeconds(rules.maxDurationUs)
    ensures EnvironmentOf(t) == env
  {
    Test(name, rules.name, rulesData, isCustomTiming, timingData,
         rules.maxDurationUs != NoDuration, DurationSeconds(rules.maxDurationUs),
         env.generateDirectory, env.workspaceDirectory, env.rosDirectory,
         env.analysisDirectory, env.resultsDirectory, env.logfileDirectory,
         env.logfileName)
  }

  /** `Maketest(name, path, rules, is_custom_timing, timing, environment)`,
      with `json.Marshal` on the rules and on the timing slice and
      `gen.GenerateTemplate` supplied as functions. */
  function Maketest(name: string, path: string, rules: Rules,
                    isCustomTiming: bool, timing: Slice<Temporal>, env: Environment,
                    marshalRules: Rules -> Result<string>,
                    marshalTiming: Slice<Temporal> -> Result<string>,
                    generate: (Test, string, string) -> Result<()>): (run: Run)
    ensures |run.calls| >= 1 && run.calls[0] == MarshalRules(rules)
    ensures run.outcome.RulesErr? <==> marshalRules(rules).Failure?
    ensures run.outcome.TimingErr? <==>
              marshalRules(rules).Success? && isCustomTiming
              && marshalTiming(timing).Failure?
    ensures MarshalTiming(timing) in run.calls <==>
              marshalRules(rules).Success? && isCustomTiming
    ensures run.calls[|run.calls| - 1].GenerateTemplate? <==>
              run.outcome.Ok? || run.outcome.TemplateErr?
  {
    var rulesData := marshalRules(rules);
    if rulesData.Failure? then
      Run(RulesErr(rulesData.error), [MarshalRules(rules)])
    else
      var timingData := if isCustomTiming then marshalTiming(timing) else Success("");
      var marshalCalls := [MarshalRules(rules)]
                          + (if isCustomTiming then [MarshalTiming(timing)] else []);
      if timingData.Failure? then
        Run(TimingErr(timingData.error), marshalCalls)
      else
        var test := BuildTest(name, rules, rulesData.value, isCustomTiming,
                              timingData.value, env);
        var dest := DestPath(path, name);
        var generated := generate(test, TemplatePath, dest);
        Run(if generated.Success? then Ok else TemplateErr(generated.error),
            marshalCalls + [GenerateTemplate(test, TemplatePath, dest)])
  }
}
