/** Properties of `Maketest`: staging and order of the errors, which foreign
    calls are made, the duration fields and the destination path. */
module MaketestProperties {
  import opened GoInt
  import opened MakeTest

  // ---------------------------------------------------------------------------
  // Duration
  // ---------------------------------------------------------------------------

  /** Any maximum strictly between minus and plus one second, the sentinel
      included, gives a one-second timeout. */
  lemma DurationBelowOneSecond(us: int)
    requires -MicrosPerSecond < us < MicrosPerSecond
    ensures DurationSeconds(us) == 1
  {
    assert IsTruncQuotient(us, MicrosPerSecond, 0);
    TruncQuotientUnique(us, MicrosPerSecond, TruncDiv(us, MicrosPerSecond), 0);
  }

  /** Worked values: 2.5 s gives 3, 999 999 us gives 1, the sentinel gives 1
      (not 0, as rounding toward minus infinity would), 5 s gives 6, and
      a negative 2.5 s rounds toward zero and gives -1. */
  lemma DurationExamples()
    ensures DurationSeconds(2500000) == 3
    ensures DurationSeconds(999999) == 1
    ensures DurationSeconds(NoDuration) == 1
    ensures DurationSeconds(5000000) == 6
    ensures DurationSeconds(-2500000) == -1
  {
    TruncDivOfNatural(2500000, MicrosPerSecond);
    TruncDivOfNatural(5000000, MicrosPerSecond);
    DurationBelowOneSecond(999999);
    DurationBelowOneSecond(NoDuration);
    TruncDivOfNegative(-2500000, MicrosPerSecond);
  }

  /** With the sentinel, `Is_duration` is false and `Duration_s` is still
      computed, as 1. */
  lemma SentinelDuration(name: string, rules: Rules, rulesData: string,
                         isCustomTiming: bool, timingData: string, env: Environment)
    requires rules.maxDurationUs == NoDuration
    ensures var t := BuildTest(name, rules, rulesData, isCustomTiming, timingData, env);
            !t.isDuration && t.durationS == 1
  {
    DurationBelowOneSecond(NoDuration);
  }

  /** Any other negative maximum is passed through: `Is_duration` is true and
      the timeout is at most one second. */
  lemma NegativeDurationPassthrough(name: string, rules: Rules, rulesData: string,
                                    isCustomTiming: bool, timingData: string,
                                    env: Environment)
    requires rules.maxDurationUs < 0 && rules.maxDurationUs != NoDuration
    ensures var t := BuildTest(name, rules, rulesData, isCustomTiming, timingData, env);
            t.isDuration && t.durationS <= 1
  {
  }

  // ---------------------------------------------------------------------------
  // Destination path
  // ---------------------------------------------------------------------------

  /** In one output directory, distinct test names give distinct destination
      paths, as text; different texts can still name one file. */
  lemma DestPathInjective(path: string, name1: string, name2: string)
    requires DestPath(path, name1) == DestPath(path, name2)
    ensures name1 == name2
  {
    var d := DestPath(path, name1);
    assert name1 == d[|path| + 1..|d| - 3];
  }

  /** Across directories they need not: a name containing '/' can give the
      same destination path as another (path, name) pair. */
  lemma DestPathCollision()
    ensures DestPath("/tmp/out", "run1") == DestPath("/tmp", "out/run1")
  {
  }

  // ---------------------------------------------------------------------------
  // Staging of the foreign calls and of the errors
  // ---------------------------------------------------------------------------

  /** A rules-marshal failure is returned at once: neither the timing marshal
      nor the template generator is called. */
  lemma RulesFailureAborts(name: string, path: string, rules: Rules,
                           isCustomTiming: bool, timing: Slice<Temporal>, env: Environment,
                           marshalRules: Rules -> Result<string>,
                           marshalTiming: Slice<Temporal> -> Result<string>,
                           generate: (Test, string, string) -> Result<()>)
    requires marshalRules(rules).Failure?
    ensures Maketest(name, path, rules, isCustomTiming, timing, env,
                     marshalRules, marshalTiming, generate)
            == Run(RulesErr(marshalRules(rules).error), [MarshalRules(rules)])
  {
  }

  /** With custom timing, a timing-marshal failure is returned after the rules
      marshal and before any template generation. */
  lemma TimingFailureAborts(name: string, path: string, rules: Rules,
                            timing: Slice<Temporal>, env: Environment,
                            marshalRules: Rules -> Result<string>,
                            marshalTiming: Slice<Temporal> -> Result<string>,
                            generate: (Test, string, string) -> Result<()>)
    requires marshalRules(rules).Success? && marshalTiming(timing).Failure?
    ensures Maketest(name, path, rules, true, timing, env,
                     marshalRules, marshalTiming, generate)
            == Run(TimingErr(marshalTiming(timing).error),
                   [MarshalRules(rules), MarshalTiming(timing)])
  {
  }

  /** Without custom timing the timing slice and its marshaller play no part:
      the run is the same whatever they are, it never fails with a timing
      error, and the record it renders has an empty `App_timing`. */
  lemma TimingIgnoredWithoutCustomTiming(
    name: string, path: string, rules: Rules, env: Environment,
    timing1: Slice<Temporal>, timing2: Slice<Temporal>,
    marshalRules: Rules -> Result<string>,
    marshalTiming1: Slice<Temporal> -> Result<string>,
    marshalTiming2: Slice<Temporal> -> Result<string>,
    generate: (Test, string, string) -> Result<()>)
    ensures var run := Maketest(name, path, rules, false, timing1, env,
                                marshalRules, marshalTiming1, generate);
            && run == Maketest(name, path, rules, false, timing2, env,
                               marshalRules, marshalTiming2, generate)
            && !run.outcome.TimingErr?
            && (forall c | c in run.calls :: !c.MarshalTiming?)
            && (forall c | c in run.calls && c.GenerateTemplate? ::
                  c.test.appTiming == "" && !c.test.isCustomTiming)
  {
  }

  /** Once both marshals succeed, the template generator is called exactly
      once, last, on the assembled record, the fixed template and
      `<path>/<name>.sh`, and its result is the outcome, unwrapped. */
  lemma TemplateStage(name: string, path: string, rules: Rules,
                      isCustomTiming: bool, timing: Slice<Temporal>, env: Environment,
                      marshalRules: Rules -> Result<string>,
                      marshalTiming: Slice<Temporal> -> Result<string>,
                      generate: (Test, string, string) -> Result<()>)
    requires marshalRules(rules).Success?
    requires isCustomTiming ==> marshalTiming(timing).Success?
    ensures var timingData := if isCustomTiming then marshalTiming(timing).value else "";
            var test := BuildTest(name, rules, marshalRules(rules).value,
                                  isCustomTiming, timingData, env);
            var dest := path + "/" + name + ".sh";
            var generated := generate(test, TemplatePath, dest);
            var run := Maketest(name, path, rules, isCustomTiming, timing, env,
                                marshalRules, marshalTiming, generate);
            && run.calls == [MarshalRules(rules)]
                            + (if isCustomTiming then [MarshalTiming(timing)] else [])
                            + [GenerateTemplate(test, TemplatePath, dest)]
            && (run.outcome == Ok <==> generated.Success?)
            && (generated.Failure? ==> run.outcome == TemplateErr(generated.error))
  {
  }

  /** With custom timing, a nil timing slice and an empty one are different
      inputs: a marshaller that encodes them as `null` and `[]`, as
      `encoding/json` does, makes the rendered `App_timing` differ. */
  lemma NilAndEmptyTimingDiffer(
    name: string, path: string, rules: Rules, env: Environment,
    marshalRules: Rules -> Result<string>,
    marshalTiming: Slice<Temporal> -> Result<string>,
    generate: (Test, string, string) -> Result<()>)
    requires marshalRules(rules).Success?
    requires marshalTiming(Nil) == Success("null")
    requires marshalTiming(Elements([])) == Success("[]")
    ensures var runNil := Maketest(name, path, rules, true, Nil, env,
                                   marshalRules, marshalTiming, generate);
            var runEmpty := Maketest(name, path, rules, true, Elements([]), env,
                                     marshalRules, marshalTiming, generate);
            && runNil.calls[2].GenerateTemplate? && runEmpty.calls[2].GenerateTemplate?
            && runNil.calls[2].test.appTiming == "null"
            && runEmpty.calls[2].test.appTiming == "[]"
  {
    TemplateStage(name, path, rules, true, Nil, env, marshalRules, marshalTiming, generate);
    TemplateStage(name, path, rules, true, Elements([]), env, marshalRules, marshalTiming, generate);
  }

  /** Rules, then timing, then template: a rules failure masks whatever the
      timing marshal and the generator would do. */
  lemma RulesFailureMasksLaterStages(
    name: string, path: string, rules: Rules,
    isCustomTiming: bool, timing: Slice<Temporal>, env: Environment,
    marshalRules: Rules -> Result<string>,
    marshalTiming1: Slice<Temporal> -> Result<string>,
    marshalTiming2: Slice<Temporal> -> Result<string>,
    generate1: (Test, string, string) -> Result<()>,
    generate2: (Test, string, string) -> Result<()>)
    requires marshalRules(rules).Failure?
    ensures Maketest(name, path, rules, isCustomTiming, timing, env,
                     marshalRules, marshalTiming1, generate1)
            == Maketest(name, path, rules, isCustomTiming, timing, env,
                        marshalRules, marshalTiming2, generate2)
  {
  }

  /** A timing failure masks whatever the generator would do. */
  lemma TimingFailureMasksTemplate(
    name: string, path: string, rules: Rules, timing: Slice<Temporal>, env: Environment,
    marshalRules: Rules -> Result<string>,
    marshalTiming: Slice<Temporal> -> Result<string>,
    generate1: (Test, string, string) -> Result<()>,
    generate2: (Test, string, string) -> Result<()>)
    requires marshalRules(rules).Success? && marshalTiming(timing).Failure?
    ensures Maketest(name, path, rules, true, timing, env,
                     marshalRules, marshalTiming, generate1)
            == Maketest(name, path, rules, true, timing, env,
                        marshalRules, marshalTiming, generate2)
  {
  }

  /** The stage that failed is in the outcome's tag but not always in the
      error text: a template error is returned unwrapped, so its message can
      read like a rules-marshal error. */
  lemma ErrorTextAmbiguous(cause: string)
    ensures ErrorText(TemplateErr(RulesPrefix + cause)) == ErrorText(RulesErr(cause))
  {
  }

  /** The end-to-end case: test "run1" in "/tmp/out" of "navnode" with a 5 s
      maximum, no custom timing and a nil timing slice, with a rules marshal
      and a generator that succeed,
      renders `/tmp/out/run1.sh` with a 6 s timeout and returns no error. */
  lemma EndToEnd(detail: RulesDetail, env: Environment,
                 rulesJson: string,
                 marshalRules: Rules -> Result<string>,
                 marshalTiming: Slice<Temporal> -> Result<string>,
                 generate: (Test, string, string) -> Result<()>)
    requires marshalRules(Rules("navnode", 5000000, detail)) == Success(rulesJson)
    requires forall t: Test, tp: string, d: string :: generate(t, tp, d) == Success(())
    ensures var run := Maketest("run1", "/tmp/out", Rules("navnode", 5000000, detail),
                                false, Nil, env,
                                marshalRules, marshalTiming, generate);
            && run.outcome == Ok
            && run.calls[|run.calls| - 1].GenerateTemplate?
            && run.calls[|run.calls| - 1].destPath == "/tmp/out/run1.sh"
            && run.calls[|run.calls| - 1].test.durationS == 6
            && run.calls[|run.calls| - 1].test.appRules == rulesJson
  {
    DurationExamples();
  }
}
