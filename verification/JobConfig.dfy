/** The check of a job's configuration (public/job/job.go). */
module JobConfig {
  import opened Wrappers
  import opened JobTypes
  import R = RunnerGrammar

  const TYPE_RECORDING: string := "recording"
  const TYPE_TRANSCRIBING: string := "transcribing"

  datatype ConfigError = EmptyType | BadRunner(error: R.RunnerError) | BadDuration | UnknownType

  function IsValid(c: Config, registry: string, devOrTestMode: bool): (r: Outcome<ConfigError>) {
    Check(c, R.RunnerIsValid(c.runner, registry, devOrTestMode))
  }

  /** The checks in order, given the outcome of the runner's. */
  function Check(c: Config, runner: Outcome<R.RunnerError>): (r: Outcome<ConfigError>) {
    if c.jobType == "" then Fail(EmptyType)
    else if runner.Fail? then Fail(BadRunner(runner.error))
    else if c.maxDurationSec <= 0 then Fail(BadDuration)
    else if IsKnown(c.jobType) then Pass
    else Fail(UnknownType)
  }

  predicate IsKnown(jobType: string) {
    jobType == TYPE_RECORDING || jobType == TYPE_TRANSCRIBING
  }

  lemma KnownTypes()
    ensures !IsKnown("") && IsKnown(TYPE_RECORDING) && IsKnown(TYPE_TRANSCRIBING)
  {
    assert |TYPE_RECORDING| == 9 && |TYPE_TRANSCRIBING| == 12;
  }

  lemma CheckPassesIff(c: Config, runner: Outcome<R.RunnerError>)
    ensures Check(c, runner).Pass? <==> IsKnown(c.jobType) && c.maxDurationSec > 0 && runner.Pass?
  {
    KnownTypes();
  }

  /** Which of several faults is reported. */
  lemma FirstFaultIsReported(c: Config, runner: Outcome<R.RunnerError>)
    ensures Check(c, runner) == Fail(EmptyType) <==> c.jobType == ""
    ensures Check(c, runner).Fail? && Check(c, runner).error.BadRunner? <==> c.jobType != "" && runner.Fail?
    ensures Check(c, runner) == Fail(BadDuration) <==> c.jobType != "" && runner.Pass? && c.maxDurationSec <= 0
    ensures Check(c, runner) == Fail(UnknownType)
       <==> c.jobType != "" && runner.Pass? && c.maxDurationSec > 0 && c.jobType != "recording" && c.jobType != "transcribing"
  {
  }

  /** Outside dev and test mode exactly the jobs of a known type with a positive duration and the text
      of a supported runner are accepted. */
  lemma IsValidIff(c: Config, registry: string)
    requires registry != "" && R.IsPlain(registry)
    ensures IsValid(c, registry, false).Pass?
       <==> && IsKnown(c.jobType)
            && c.maxDurationSec > 0
            && exists r {:trigger R.IsSupported(registry, r)} :: R.IsSupported(registry, r) && c.runner == R.Print(r)
  {
    R.AcceptsExactlySupported(c.runner, registry);
    CheckPassesIff(c, R.RunnerIsValid(c.runner, registry, false));
  }

  /** The type is not held against the runner: a recorder may be asked to transcribe. */
  lemma TypeNeedNotFitRunner(runner: R.Runner, registry: string, c: Config)
    requires registry != "" && R.IsPlain(registry) && R.IsSupported(registry, runner)
    requires c.runner == R.Print(runner) && c.maxDurationSec > 0
    ensures IsValid(c, registry, false).Pass? <==> IsKnown(c.jobType)
  {
    R.SupportedIsAccepted(registry, runner);
    CheckPassesIff(c, R.RunnerIsValid(c.runner, registry, false));
  }
}
