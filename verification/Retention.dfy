/**
 * The retention time of failed jobs, from its text to the nanoseconds the Docker sweep compares with
 * and the seconds handed to Kubernetes (service/config.go, service/jobs_service.go,
 * service/docker/service.go, service/kubernetes/service.go). Durations are 64-bit nanoseconds.
 */
module Retention {

  import opened Wrappers
  import opened MachineInts
  import opened Decimal

  const SECOND: int := 1_000_000_000
  const MINUTE: int := 60 * SECOND
  const HOUR: int := 60 * MINUTE
  const DAY: int := 24 * HOUR

  /** The most days whose nanoseconds fit into 64 bits. */
  const MAX_DAYS: int := 106751

  datatype ParseError = BadFormat | BadNumber | BadDuration

  /** Digits followed by one of the three units, and nothing else. */
  predicate HasFormat(val: string) {
    |val| >= 2 && AllDigits(val[..|val| - 1]) && val[|val| - 1] in {'m', 'h', 'd'}
  }

  /** Reads a retention time. The number of days is range-checked, its product with a day is not. */
  function ParseRetentionTime(val: string): (r: Result<int, ParseError>)
    ensures r.Success? ==> IsInt64(r.value)
  {
    if !HasFormat(val) then Failure(BadFormat)
    else
      var n, unit := Value(val[..|val| - 1]), val[|val| - 1];
      if unit == 'd' then
        if n > MAX_INT64 then Failure(BadNumber) else Success(Wrap64(DAY * n))
      else ParseDuration(n, if unit == 'h' then HOUR else MINUTE)
  }

  /** Go's time.ParseDuration on a whole number of one unit: overflow is an error. */
  function ParseDuration(n: nat, unit: int): (r: Result<int, ParseError>)
    requires unit > 0
    ensures r.Success? ==> IsInt64(r.value)
  {
    if unit * n > MAX_INT64 then Failure(BadDuration)
    else
      assert 0 <= unit * n;
      Success(unit * n)
  }

  function WithUnit(n: nat, unit: char): (val: string) {
    Numeral(n) + [unit]
  }

  lemma WithUnitHasFormat(n: nat, unit: char)
    requires unit in {'m', 'h', 'd'}
    ensures var val := WithUnit(n, unit);
            HasFormat(val) && val[|val| - 1] == unit && Value(val[..|val| - 1]) == n
  {
    ValueOfNumeral(n);
    var val := WithUnit(n, unit);
    assert val[..|val| - 1] == Numeral(n);
  }

  /** What each unit is read as. */
  lemma ParseOf(n: nat)
    ensures ParseRetentionTime(WithUnit(n, 'd')) == if n > MAX_INT64 then Failure(BadNumber) else Success(Wrap64(DAY * n))
    ensures ParseRetentionTime(WithUnit(n, 'h')) == ParseDuration(n, HOUR)
    ensures ParseRetentionTime(WithUnit(n, 'm')) == ParseDuration(n, MINUTE)
  {
    WithUnitHasFormat(n, 'd');
    WithUnitHasFormat(n, 'h');
    WithUnitHasFormat(n, 'm');
  }

  /** The format is digits and one of the letters m, h and d; any other text, and no text of this form,
      is refused for its format. */
  lemma BadFormatIff(val: string)
    ensures ParseRetentionTime(val) == Failure(BadFormat)
       <==> !exists digits: string, unit :: digits != "" && AllDigits(digits) && unit in {'m', 'h', 'd'} && val == digits + [unit]
  {
    if HasFormat(val) {
      var digits, unit := val[..|val| - 1], val[|val| - 1];
      assert digits != "" && AllDigits(digits) && val == digits + [unit];
    }
    forall digits: string, unit | digits != "" && AllDigits(digits) && unit in {'m', 'h', 'd'} && val == digits + [unit]
      ensures HasFormat(val)
    {
      assert val[..|val| - 1] == digits;
    }
  }

  /** Days are read exactly up to 106751 of them, and never beyond. */
  lemma DaysAreExactIff(n: nat)
    ensures ParseRetentionTime(WithUnit(n, 'd')) == Success(DAY * n) <==> n <= MAX_DAYS
  {
    ParseOf(n);
    if n <= MAX_INT64 {
      WrapIsExactIffInRange(DAY * n);
    }
  }

  /** Hours and minutes are read exactly or not at all. */
  lemma {:induction false} OtherUnitsAreExactOrRefused(val: string)
    requires HasFormat(val) && val[|val| - 1] != 'd'
    ensures var n, unit := Value(val[..|val| - 1]), if val[|val| - 1] == 'h' then HOUR else MINUTE;
            ParseRetentionTime(val) == if IsInt64(unit * n) then Success(unit * n) else Failure(BadDuration)
  {
    var n := Value(val[..|val| - 1]);
    assert 0 <= HOUR * n && 0 <= MINUTE * n;
  }

  lemma SameDuration(n: nat)
    ensures ParseDuration(24 * n, HOUR) == ParseDuration(1440 * n, MINUTE) == ParseDuration(n, DAY)
  {
    assert HOUR * (24 * n) == DAY * n && MINUTE * (1440 * n) == DAY * n;
  }

  /** The same time in days, hours and minutes is read as the same duration exactly up to 106751 days. */
  lemma UnitsAgreeIff(n: nat)
    ensures n <= MAX_DAYS <==>
            && ParseRetentionTime(WithUnit(n, 'd')).Success?
            && ParseRetentionTime(WithUnit(n, 'd')) == ParseRetentionTime(WithUnit(24 * n, 'h'))
            && ParseRetentionTime(WithUnit(n, 'd')) == ParseRetentionTime(WithUnit(1440 * n, 'm'))
  {
    ParseOf(n);
    ParseOf(24 * n);
    ParseOf(1440 * n);
    DaysAreExactIff(n);
    SameDuration(n);
  }

  /** More days, a longer time. */
  lemma MoreDaysLast(m: nat, n: nat)
    requires m < n <= MAX_DAYS
    ensures var a, b := ParseRetentionTime(WithUnit(m, 'd')), ParseRetentionTime(WithUnit(n, 'd'));
            a.Success? && b.Success? && a.value < b.value
  {
    DaysAreExactIff(m);
    DaysAreExactIff(n);
  }

  /** The check of the service's own configuration. */
  predicate ServiceAccepts(retention: int) {
    !(retention < 0) && !(retention > 0 && retention < MINUTE)
  }

  /** The check of the two job services, which forgets about negative times. */
  predicate BackendAccepts(retention: int) {
    !(retention > 0 && retention < MINUTE)
  }

  /** What was read without losing anything passes all the checks. */
  lemma ExactTimesAreAccepted(val: string)
    requires HasFormat(val)
    requires val[|val| - 1] == 'd' ==> Value(val[..|val| - 1]) <= MAX_DAYS
    requires ParseRetentionTime(val).Success?
    ensures ServiceAccepts(ParseRetentionTime(val).value)
    ensures BackendAccepts(ParseRetentionTime(val).value)
  {
    var n, unit := Value(val[..|val| - 1]), val[|val| - 1];
    if unit == 'd' {
      WrapIsExactIffInRange(DAY * n);
    }
  }

  /** The first overflow comes out negative, so the service refuses it: up to twice the limit, the
      check lets pass exactly the days that were read exactly. */
  lemma FirstOverflowIsCaught(n: nat)
    requires n <= 2 * MAX_DAYS + 1
    ensures ParseRetentionTime(WithUnit(n, 'd')).Success?
    ensures ServiceAccepts(ParseRetentionTime(WithUnit(n, 'd')).value) <==> n <= MAX_DAYS
  {
    ParseOf(n);
    var w, x := Wrap64(DAY * n), DAY * n;
    WrapIsExactIffInRange(x);
    if n > MAX_DAYS {
      assert MAX_INT64 < x < TWO_TO_THE_64;
      assert w == x - TWO_TO_THE_64;
    }
  }

  /** The next one is not: 213504 days (584 years) are taken for less than half an hour. */
  lemma SecondOverflowPasses()
    ensures ParseRetentionTime(WithUnit(213504, 'd')) == Success(1_526_290_448_384)
    ensures ServiceAccepts(1_526_290_448_384) && BackendAccepts(1_526_290_448_384)
    ensures 25 * MINUTE < 1_526_290_448_384 < 26 * MINUTE
  {
    ParseOf(213504);
    WrapIs(DAY * 213504, 1, 1_526_290_448_384);
  }

  datatype APIType = Docker | Kubernetes | OtherAPI(name: string)

  /** What the job services are configured with, of which the retention time and the limit are copied. */
  datatype BackendConfig = BackendConfig(maxConcurrentJobs: int, retention: int, imageRegistry: string)

  datatype JobsConfig = JobsConfig(
    apiType: APIType, maxConcurrentJobs: int, retention: int, imageRegistry: string,
    docker: BackendConfig, kubernetes: BackendConfig)

  predicate BackendConfigIsValid(c: BackendConfig) {
    !(c.maxConcurrentJobs < 0) && BackendAccepts(c.retention)
  }

  predicate JobsConfigIsValid(c: JobsConfig) {
    && !c.apiType.OtherAPI?
    && !(c.maxConcurrentJobs <= 0)
    && ServiceAccepts(c.retention)
    && (c.apiType == Docker ==> BackendConfigIsValid(c.docker))
    && (c.apiType == Kubernetes ==> BackendConfigIsValid(c.kubernetes))
  }

  /** The service's configuration is valid exactly for Docker or Kubernetes with a positive limit, a retention
      time of 0 or at least a minute, and settings of the chosen backend that do not contradict these. */
  lemma JobsConfigIsValidIff(c: JobsConfig)
    ensures var own := if c.apiType == Docker then c.docker else c.kubernetes;
            JobsConfigIsValid(c) <==>
              && (c.apiType == Docker || c.apiType == Kubernetes)
              && 0 < c.maxConcurrentJobs
              && (c.retention == 0 || 60 * 1_000_000_000 <= c.retention)
              && 0 <= own.maxConcurrentJobs
              && (own.retention <= 0 || 60 * 1_000_000_000 <= own.retention)
  {
  }

  /** The configuration the chosen job service starts with, if any: the backend's own settings are
      checked first and overwritten then. */
  method NewJobService(cfg: JobsConfig) returns (r: Option<BackendConfig>)
    ensures r.Some? <==> JobsConfigIsValid(cfg)
    ensures r.Some? ==> r.value == BackendConfig(cfg.maxConcurrentJobs, cfg.retention, cfg.imageRegistry)
    ensures r.Some? ==> BackendConfigIsValid(r.value) && r.value.maxConcurrentJobs > 0 && r.value.retention >= 0
  {
    if !JobsConfigIsValid(cfg) {
      return None;
    }
    var own;
    match cfg.apiType {
      case Docker =>
        own := cfg.docker;
      case Kubernetes =>
        own := cfg.kubernetes;
    }
    own := own.(maxConcurrentJobs := cfg.maxConcurrentJobs);
    own := own.(retention := cfg.retention);
    own := own.(imageRegistry := cfg.imageRegistry);
    return Some(own);
  }

  const MAX_INT32: int := 0x7fff_ffff
  const MIN_INT32: int := -0x8000_0000

  /** The most days whose seconds fit into 32 bits. */
  const MAX_TTL_DAYS: int := 24855

  /**
   * The seconds Kubernetes may be given for a retention time: none unless it is positive. They go
   * through floating point, which is exact on whole seconds within 32 bits; out of the 32 bits the
   * conversion may give anything, and a fraction of a second may be dropped or rounded up.
   */
  ghost predicate IsTTL(retention: int, ttl: Option<int>) {
    if retention <= 0 then ttl == None
    else
      && ttl.Some?
      && MIN_INT32 <= ttl.value <= MAX_INT32
      && (retention / SECOND <= MAX_INT32 ==>
            if retention % SECOND == 0 then ttl.value == retention / SECOND
            else retention / SECOND <= ttl.value <= retention / SECOND + 1)
  }

  lemma WholeSeconds(n: nat)
    ensures DAY * n % SECOND == 0 && DAY * n / SECOND == 86400 * n
  {
    assert DAY * n == 86400 * n * SECOND;
  }

  /** From text to seconds: a number of days reaches Kubernetes unchanged exactly up to 24855 of them. */
  lemma TTLIsExactIff(n: nat, ttl: Option<int>)
    requires ParseRetentionTime(WithUnit(n, 'd')).Success?
    requires IsTTL(ParseRetentionTime(WithUnit(n, 'd')).value, ttl)
    ensures ttl == Some(86400 * n) <==> 1 <= n <= MAX_TTL_DAYS
  {
    if n <= MAX_DAYS {
      DaysAreExactIff(n);
      WholeSeconds(n);
    }
  }
}
