# maketest: a verified model of the test-script generator

`Maketest` (package `maketest`, file `maketest.go`) prepares one timed test run
of a ROS application. It does four things in order:

1. It marshals the build rules (`types.Rules`) to JSON and stops with
   "Unable to marshal rules: …" if that fails.
2. Only when `is_custom_timing` is set, it marshals the timing overrides
   (`[]temporal.Temporal`) to JSON and stops with "Unable to marshal timing: …"
   if that fails.
3. It derives `Is_duration` (the maximum run time is not the sentinel -1) and
   `Duration_s` (one plus Go's truncating quotient of the microseconds by a
   million), and copies everything into the flat `Test` record, together with
   the six directories and the log-file name of the `Environment`.
4. It calls `gen.GenerateTemplate` with that record, a hard-coded template path
   and the destination `path + "/" + name + ".sh"`, and returns its error as is.

The model is written as functions and lemmas, like the source: straight-line
code with two early returns and no state that changes in place.

- `go_int.dfy`, module `GoInt`: Go's integer division, which truncates toward
  zero, whereas Dafny's `/` is Euclidean. `TruncDiv` is characterised by the
  quotient/remainder law of The Go Programming Language Specification, section
  "Arithmetic operators". Lemmas prove the law determines the quotient, say
  where it agrees with Dafny's `/`, and show `-1 / 1000000` is 0 in Go.
- `maketest.dfy`, module `MakeTest`: the records and the operation itself.
  - The three foreign calls are function-valued parameters of `Maketest`, so
    every property holds whatever they do. These are `json.Marshal` on the
    rules, `json.Marshal` on the timing slice, and `gen.GenerateTemplate`.
  - `Maketest` returns a `Run`: the outcome, tagged `Ok`, `RulesErr`,
    `TimingErr` or `TemplateErr`, plus the foreign calls made, in order. The
    call list is how "not attempted" is stated.
  - `ErrorText` maps an outcome back to the Go `error` the source returns.
- `maketest_properties.dfy`, module `MaketestProperties`: lemmas about the
  staging of errors and calls, the duration fields and the destination path.

Points where the code's behaviour is easy to misread, stated as the code has
it:

- `Duration_s` uses Go's truncating division; it does not round down or up.
  The sentinel -1 therefore gives `Duration_s == 1`, not 0, and -2 500 000
  gives -1.
- A template-generation error is returned unwrapped, without any stage prefix.
  Only the outcome's tag says which stage failed. The error text can read like
  a rules-marshal error (`ErrorTextAmbiguous`).
- The template path is the literal constant from the source, not a configured
  value.
- The destination is built by plain concatenation. Distinct `(path, name)`
  pairs can therefore give the same destination path (`DestPathCollision`).
  Within one directory, distinct names always give distinct destination paths
  as text (`DestPathInjective`). These texts are not normalised:
  `/tmp/out/run1.sh` and `/tmp/out/./run1.sh` differ as text and still name
  one file.

## Model

| member | source | states |
|---|---|---|
| GoInt.TruncDiv | maketest.go:82 | Go's `x / y`: the result obeys Go's law, so the remainder `x - q*y` is smaller than `y` in magnitude and is zero or has the sign of `x` |
| GoInt.TruncQuotientUnique | maketest.go:82 | the law allows only one quotient, so `TruncDiv` is exactly Go's division |
| GoInt.WholeUnitsRemainder | maketest.go:82 | counting whole divisors by repeated subtraction leaves a remainder in `[0, y)` |
| GoInt.TruncDivCountsWholeUnits | maketest.go:82 | for `y > 0`, Go's `x / y` is the number of whole `y` in `|x|`, with the sign of `x`: it rounds toward zero |
| GoInt.TruncDivOfNatural | maketest.go:82 | for `x >= 0` and `y > 0`, Go's quotient equals Dafny's Euclidean `x / y` |
| GoInt.TruncDivOfNegative | maketest.go:82 | for negative `x` not divisible by `y > 0`, Go's quotient is Dafny's plus one |
| GoInt.MinusOneOverMillion | maketest.go:81-82 | `-1 / 1000000` is 0 in Go and -1 with Dafny's operator |
| MakeTest.DurationSeconds | maketest.go:82 | the timeout in seconds: for a non-negative maximum, `(s-1)*10^6 <= us < s*10^6`, so the timeout exceeds the maximum by at most one second; for a negative maximum, the bound rounded toward zero |
| MakeTest.DestPath | maketest.go:102 | the destination is `path`, then `/`, then `name`, then `.sh`, and each part can be read back at its position |
| MakeTest.BuildTest | maketest.go:81-100 | the record copies name, rules name, rules JSON, custom-timing flag and timing JSON; `isDuration` holds iff the maximum is not -1; `durationS` is `DurationSeconds`; its environment part equals the input `Environment` |
| MakeTest.ErrorText | maketest.go:67-102 | nil exactly on `Ok`; a rules or timing error is its stage prefix followed by the cause; a template error is the generator's message unchanged |
| MakeTest.Maketest | maketest.go:60-103 | the rules marshal is always the first call; `RulesErr` iff it fails; `TimingErr` iff it succeeds, custom timing is set and the timing marshal fails; the timing marshal is called iff the rules marshal succeeded and custom timing is set; the last call is the template generator iff the outcome is `Ok` or `TemplateErr` |
| MaketestProperties.DurationBelowOneSecond | maketest.go:82 | any maximum strictly between -1 s and 1 s, the sentinel included, gives a one-second timeout |
| MaketestProperties.DurationExamples | maketest.go:82 | 2 500 000 us gives 3, 999 999 gives 1, -1 gives 1, 5 000 000 gives 6, -2 500 000 gives -1 |
| MaketestProperties.SentinelDuration | maketest.go:81-92 | with maximum -1 the record has `isDuration` false and `durationS` still computed, as 1 |
| MaketestProperties.NegativeDurationPassthrough | maketest.go:81-82 | a negative maximum other than -1 is not special-cased: `isDuration` is true and `durationS <= 1` |
| MaketestProperties.DestPathInjective | maketest.go:102 | in one output directory, equal destination paths (as text) imply equal test names |
| MaketestProperties.DestPathCollision | maketest.go:102 | `("/tmp/out", "run1")` and `("/tmp", "out/run1")` give the same destination path |
| MaketestProperties.RulesFailureAborts | maketest.go:67-70 | a rules-marshal failure gives `RulesErr` with its message, and the rules marshal is the only call made |
| MaketestProperties.TimingFailureAborts | maketest.go:73-78 | with custom timing and a timing-marshal failure the outcome is `TimingErr`; the calls are exactly the two marshals, with no template generation |
| MaketestProperties.TimingIgnoredWithoutCustomTiming | maketest.go:63-90 | without custom timing the run does not depend on the timing slice or its marshaller; it is never `TimingErr`, never marshals timing, and renders `appTiming == ""` |
| MaketestProperties.TemplateStage | maketest.go:80-102 | once both marshals succeed, the calls are the marshals followed by one template call with the assembled record, the fixed template and `path + "/" + name + ".sh"`; the outcome is `Ok` iff that call succeeds, and otherwise `TemplateErr` with its error unwrapped |
| MaketestProperties.NilAndEmptyTimingDiffer | maketest.go:73-90 | with custom timing, a nil and an empty timing slice are distinct inputs; a marshaller encoding them as `null` and `[]` makes the rendered `appTiming` "null" and "[]" |
| MaketestProperties.RulesFailureMasksLaterStages | maketest.go:67-102 | after a rules failure the run is the same whatever the timing marshaller and the generator would do |
| MaketestProperties.TimingFailureMasksTemplate | maketest.go:73-102 | after a timing failure the run is the same whatever the generator would do |
| MaketestProperties.ErrorTextAmbiguous | maketest.go:102 | a template error whose message begins with the rules prefix has the same text as a rules error, so only the tag identifies the stage |
| MaketestProperties.EndToEnd | maketest.go:60-103 | test "run1" in "/tmp/out" of "navnode" with a 5 s maximum, no custom timing and a nil timing slice, a succeeding rules marshal and generator: the outcome is `Ok`, and the last call renders `/tmp/out/run1.sh` with a 6 s timeout and the rules JSON |

## Left out

- What `encoding/json` produces, and any marshal/unmarshal round trip: `json.Marshal` is foreign code, so here it is an arbitrary function from the value to a text or an error. The timing argument is a `Slice` that keeps a nil slice apart from an empty one, since the real marshaller encodes them differently (`null` and `[]`).
- `gen.GenerateTemplate`: template parsing, rendering and the file write are foreign code plus file-system I/O, so it is an arbitrary function of the record, the template path and the destination. The model reasons only about its arguments and its result.
- The write of the script file happens inside the generator. The model records that the generator was called; it does not model the file.
- The definitions of `types.Rules` and `temporal.Temporal` are not part of this model. `Temporal` is an opaque type. `Rules` exposes only `Name` and `Max_duration_us`, and the rest of it is an opaque `detail` field.
- Go strings are byte sequences. Each `char` of a model string stands for one byte of the Go string, with a value from 0 to 255; UTF-8 is never decoded. The model only compares and concatenates strings, so nothing depends on how bytes would group into characters. The `[]byte` to `string` conversions (maketest.go:88, 90) are therefore the identity. The marshallers return the text directly, and an absent timing marshal gives the empty string, as `string(nil)` does.
- Path normalisation and the file system: destination paths are compared as text. `.` and `..` segments, symbolic links and case-insensitive file systems can make different texts name one file, and the model does not capture this.
- Integer width: `Max_duration_us` and `Duration_s` are unbounded `int`. `1 + x / 1000000` cannot overflow a 64-bit `int`, because the division shrinks the value.
- Error messages are modelled as the message strings; Go's `error` interface and `errors.New` are not modelled further.
