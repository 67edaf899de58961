/**
 The two grammars of runner images, the minimum-version check, and how they agree.  Each
 regular expression is given by the texts it matches, cut into the pieces of the pattern; the
 parsers below are proved to find such a cut exactly when there is one.
 */
module RunnerGrammar {
  import opened Wrappers
  import opened MachineInts
  import opened Decimal

  const RECORDER: string := "calls-recorder"
  const TRANSCRIBER: string := "calls-transcriber"
  const DEFAULT_REGISTRY: string := "mattermost"

  datatype Version = Version(major: nat, minor: nat, patch: nat)

  const MIN_RECORDER: Version := Version(0, 6, 0)
  const MIN_TRANSCRIBER: Version := Version(0, 1, 0)

  /** `dev` holds the digits after "-dev", if the suffix is there. */
  datatype Runner = Runner(host: string, name: string, version: Version, dev: Option<string>)

  // ---------------------------------------------------------------------------
  // Versions
  // ---------------------------------------------------------------------------

  function PrintVersion(v: Version): string {
    Numeral(v.major) + "." + Numeral(v.minor) + "." + Numeral(v.patch)
  }

  predicate StartsWithDigit(s: string) {
    s != "" && IsDigit(s[0])
  }

  /** A numeral, as long as it goes, and what follows. */
  function ParseNumeral(s: string): (r: Option<(nat, string)>) {
    var n := DigitsLen(s);
    if IsNumeral(s[..n]) then Some((Value(s[..n]), s[n..])) else None
  }

  lemma ParseNumeralIff(s: string, n: nat, rest: string)
    ensures ParseNumeral(s) == Some((n, rest)) <==> s == Numeral(n) + rest && !StartsWithDigit(rest)
  {
    var k := DigitsLen(s);
    DigitsLenIsMaximal(s);
    assert s == s[..k] + s[k..];
    if ParseNumeral(s) == Some((n, rest)) {
      NumeralOfValue(s[..k]);
    }
    if s == Numeral(n) + rest && !StartsWithDigit(rest) {
      ValueOfNumeral(n);
      DigitsLenIs(Numeral(n), rest);
    }
  }

  /** The same, followed by a dot. */
  function ParseNumeralDot(s: string): (r: Option<(nat, string)>) {
    var r := ParseNumeral(s);
    if r.Some? && r.value.1 != "" && r.value.1[0] == '.' then Some((r.value.0, r.value.1[1..])) else None
  }

  lemma ParseNumeralDotIff(s: string, n: nat, rest: string)
    ensures ParseNumeralDot(s) == Some((n, rest)) <==> s == Numeral(n) + "." + rest
  {
    ParseNumeralIff(s, n, "." + rest);
    assert Numeral(n) + "." + rest == Numeral(n) + ("." + rest);
    if ParseNumeralDot(s) == Some((n, rest)) {
      assert ParseNumeral(s).value.1 == "." + rest;
    }
  }

  function ParseVersion(s: string): (r: Option<(Version, string)>) {
    var a := ParseNumeralDot(s);
    if a.None? then None
    else
      var b := ParseNumeralDot(a.value.1);
      if b.None? then None
      else
        var c := ParseNumeral(b.value.1);
        if c.None? then None else Some((Version(a.value.0, b.value.0, c.value.0), c.value.1))
  }

  lemma Associate(a: string, b: string, c: string)
    ensures a + b + c == a + (b + c)
  {
  }

  lemma DotsAssociate(a: string, b: string, c: string, rest: string)
    ensures (a + "." + b + "." + c) + rest == a + "." + (b + "." + (c + rest))
  {
  }

  lemma PrintedVersionParses(s: string, v: Version, rest: string)
    requires s == PrintVersion(v) + rest && !StartsWithDigit(rest)
    ensures ParseVersion(s) == Some((v, rest))
  {
    var t2 := Numeral(v.patch) + rest;
    var t1 := Numeral(v.minor) + "." + t2;
    DotsAssociate(Numeral(v.major), Numeral(v.minor), Numeral(v.patch), rest);
    ParseNumeralDotIff(s, v.major, t1);
    ParseNumeralDotIff(t1, v.minor, t2);
    ParseNumeralIff(t2, v.patch, rest);
  }

  lemma ParsedVersionIsPrinted(s: string, v: Version, rest: string)
    requires ParseVersion(s) == Some((v, rest))
    ensures s == PrintVersion(v) + rest && !StartsWithDigit(rest)
  {
    var t1 := ParseNumeralDot(s).value.1;
    var t2 := ParseNumeralDot(t1).value.1;
    ParseNumeralDotIff(s, v.major, t1);
    ParseNumeralDotIff(t1, v.minor, t2);
    ParseNumeralIff(t2, v.patch, rest);
    DotsAssociate(Numeral(v.major), Numeral(v.minor), Numeral(v.patch), rest);
  }

  /** Comparison of the numbers in order (section 11 of Semantic Versioning 2.0.0; captured
      versions carry no pre-release part). */
  function Compare(a: Version, b: Version): (c: int) {
    if a.major != b.major then CompareSegment(a.major, b.major)
    else if a.minor != b.minor then CompareSegment(a.minor, b.minor)
    else CompareSegment(a.patch, b.patch)
  }

  function CompareSegment(a: nat, b: nat): (c: int) {
    if a < b then -1 else if a > b then 1 else 0
  }

  predicate AtLeast(v: Version, min: Version) {
    || v.major > min.major
    || (v.major == min.major && v.minor > min.minor)
    || (v.major == min.major && v.minor == min.minor && v.patch >= min.patch)
  }

  lemma CompareIsLexicographic(a: Version, b: Version, c: Version)
    ensures Compare(a, b) >= 0 <==> AtLeast(a, b)
    ensures Compare(a, b) == 0 <==> a == b
    ensures Compare(a, b) == -Compare(b, a)
    ensures AtLeast(a, b) && AtLeast(b, c) ==> AtLeast(a, c)
  {
  }

  /** The version library reads each number as a 64-bit integer and fails on larger ones. */
  predicate Fits(v: Version) {
    IsInt64(v.major) && IsInt64(v.minor) && IsInt64(v.patch)
  }

  datatype RunnerError = EmptyRunner | EmptyRegistry | BadVersion | TooOld | NotMatched

  function CheckMinVersion(min: Version, actual: Version): (r: Outcome<RunnerError>) {
    if !Fits(min) || !Fits(actual) then Fail(BadVersion)
    else if Compare(actual, min) < 0 then Fail(TooOld)
    else Pass
  }

  lemma CheckMinVersionIff(min: Version, actual: Version)
    ensures CheckMinVersion(min, actual).Pass? <==> Fits(min) && Fits(actual) && AtLeast(actual, min)
  {
    CompareIsLexicographic(actual, min, min);
  }

  // ---------------------------------------------------------------------------
  // Runners
  // ---------------------------------------------------------------------------

  /** The characters with a meaning in a pattern, other than the dot. */
  const METACHARACTERS: string := "\\+*?()|[]{}^$"

  /** The registry is put into the pattern unquoted: its dots match any character but a
      line break. */
  predicate IsPlain(registry: string) {
    forall c :: c in registry ==> c !in METACHARACTERS
  }

  predicate RegistryMatches(registry: string, host: string) {
    |host| == |registry| && forall i :: 0 <= i < |host| ==> if registry[i] == '.' then host[i] != '\n' else host[i] == registry[i]
  }

  function PrintDev(dev: Option<string>): string {
    if dev.Some? then "-dev" + dev.value else ""
  }

  function Print(r: Runner): string {
    r.host + Middle(r.name) + PrintVersion(r.version) + PrintDev(r.dev)
  }

  /** The runner is one the pattern for this registry and image name matches. */
  predicate IsRunner(registry: string, name: string, r: Runner) {
    RegistryMatches(registry, r.host) && r.name == name && (r.dev.Some? ==> AllDigits(r.dev.value))
  }

  function ParseDev(s: string): (r: Option<Option<string>>) {
    if s == "" then Some(None)
    else if "-dev" <= s && AllDigits(s[4..]) then Some(Some(s[4..]))
    else None
  }

  function Middle(name: string): string {
    "/" + name + ":v"
  }

  /** What follows the registry, the slash, the image name and ":v". */
  function SkipImage(registry: string, name: string, s: string): (r: Option<string>) {
    var k := |registry|;
    if |s| < k || !RegistryMatches(registry, s[..k]) || !(Middle(name) <= s[k..]) then None
    else Some(s[k..][|Middle(name)|..])
  }

  lemma SkipImageIff(registry: string, name: string, s: string, tail: string)
    ensures SkipImage(registry, name, s) == Some(tail)
       <==> |s| >= |registry| && RegistryMatches(registry, s[..|registry|]) && s == s[..|registry|] + Middle(name) + tail
  {
    var k := |registry|;
    if |s| >= k {
      assert s == s[..k] + s[k..];
      if s == s[..k] + Middle(name) + tail {
        assert s[k..] == Middle(name) + tail;
      }
    }
  }

  /** The anchored pattern: registry, slash, image name, ":v", version, optional suffix. */
  function Parse(registry: string, name: string, s: string): (r: Option<Runner>) {
    var tail := SkipImage(registry, name, s);
    if tail.None? then None
    else
      var v := ParseVersion(tail.value);
      if v.None? then None
      else
        var dev := ParseDev(v.value.1);
        if dev.None? then None else Some(Runner(s[..|registry|], name, v.value.0, dev.value))
  }

  lemma ParseDevIff(s: string, dev: Option<string>)
    ensures ParseDev(s) == Some(dev) <==> s == PrintDev(dev) && (dev.Some? ==> AllDigits(dev.value))
    ensures ParseDev(s).Some? ==> !StartsWithDigit(s)
  {
    if s != "" && "-dev" <= s {
      assert s == "-dev" + s[4..] && s[0] == '-';
    }
    if dev.Some? && s == PrintDev(dev) {
      assert s[4..] == dev.value;
    }
  }

  lemma PrintedParses(registry: string, name: string, s: string, r: Runner)
    requires s == Print(r) && IsRunner(registry, name, r)
    ensures Parse(registry, name, s) == Some(r)
  {
    var tail := PrintVersion(r.version) + PrintDev(r.dev);
    Associate(r.host + Middle(name), PrintVersion(r.version), PrintDev(r.dev));
    assert s[..|registry|] == r.host;
    SkipImageIff(registry, name, s, tail);
    ParseDevIff(PrintDev(r.dev), r.dev);
    PrintedVersionParses(tail, r.version, PrintDev(r.dev));
  }

  lemma ParsedIsPrinted(registry: string, name: string, s: string, r: Runner)
    requires Parse(registry, name, s) == Some(r)
    ensures s == Print(r) && IsRunner(registry, name, r)
  {
    var tail := SkipImage(registry, name, s).value;
    SkipImageIff(registry, name, s, tail);
    var v := ParseVersion(tail).value;
    ParsedVersionIsPrinted(tail, v.0, v.1);
    ParseDevIff(v.1, r.dev);
    Associate(r.host + Middle(name), PrintVersion(r.version), PrintDev(r.dev));
  }

  /** Printing and parsing are inverse, both ways: a string parses to a runner exactly when it
      is that runner's text.  So the pattern matches exactly the printed runners, and captures
      the printed version. */
  lemma ParseIffPrinted(registry: string, name: string, s: string, r: Runner)
    ensures Parse(registry, name, s) == Some(r) <==> s == Print(r) && IsRunner(registry, name, r)
  {
    if s == Print(r) && IsRunner(registry, name, r) {
      PrintedParses(registry, name, s, r);
    }
    if Parse(registry, name, s) == Some(r) {
      ParsedIsPrinted(registry, name, s, r);
    }
  }

  lemma PrintedRunnerParses(registry: string, r: Runner)
    requires RegistryMatches(registry, r.host) && (r.dev.Some? ==> AllDigits(r.dev.value))
    ensures Parse(registry, r.name, Print(r)) == Some(r)
  {
    ParseIffPrinted(registry, r.name, Print(r), r);
  }

  /** No text is both a recorder and a transcriber. */
  lemma GrammarsAreDisjoint(registry: string, s: string)
    ensures Parse(registry, RECORDER, s).None? || Parse(registry, TRANSCRIBER, s).None?
  {
    var k := |registry|;
    if |s| >= k && Middle(RECORDER) <= s[k..] {
      assert Middle(RECORDER)[7] == s[k..][7];
      assert Middle(TRANSCRIBER)[7] != Middle(RECORDER)[7];
    }
  }

  /** In development or test mode anything goes. */
  function RunnerIsValid(runner: string, registry: string, devOrTestMode: bool): (r: Outcome<RunnerError>) {
    if devOrTestMode then Pass
    else if runner == "" then Fail(EmptyRunner)
    else if registry == "" then Fail(EmptyRegistry)
    else
      var recorder := Parse(registry, RECORDER, runner);
      if recorder.Some? then CheckMinVersion(MIN_RECORDER, recorder.value.version)
      else
        var transcriber := Parse(registry, TRANSCRIBER, runner);
        if transcriber.Some? then CheckMinVersion(MIN_TRANSCRIBER, transcriber.value.version)
        else Fail(NotMatched)
  }

  /** A recorder or transcriber of this registry that is recent enough, its version numbers
      within the version library's range. */
  predicate IsSupported(registry: string, r: Runner) {
    && Fits(r.version)
    && ((IsRunner(registry, "calls-recorder", r) && AtLeast(r.version, Version(0, 6, 0)))
        || (IsRunner(registry, "calls-transcriber", r) && AtLeast(r.version, Version(0, 1, 0))))
  }

  lemma SupportedIsAccepted(registry: string, r: Runner)
    requires registry != "" && IsSupported(registry, r)
    ensures RunnerIsValid(Print(r), registry, false).Pass?
  {
    PrintedRunnerParses(registry, r);
    GrammarsAreDisjoint(registry, Print(r));
    CheckMinVersionIff(MIN_RECORDER, r.version);
    CheckMinVersionIff(MIN_TRANSCRIBER, r.version);
    assert Print(r) != "";
  }

  lemma AcceptedIsSupported(runner: string, registry: string) returns (r: Runner)
    requires RunnerIsValid(runner, registry, false).Pass?
    ensures Parse(registry, r.name, runner) == Some(r) && runner == Print(r) && IsSupported(registry, r)
    ensures r.name == if Parse(registry, RECORDER, runner).Some? then RECORDER else TRANSCRIBER
  {
    var name := if Parse(registry, RECORDER, runner).Some? then RECORDER else TRANSCRIBER;
    r := Parse(registry, name, runner).value;
    ParseIffPrinted(registry, name, runner, r);
    CheckMinVersionIff(MIN_RECORDER, r.version);
    CheckMinVersionIff(MIN_TRANSCRIBER, r.version);
  }

  /** The check accepts exactly the texts of the supported runners. */
  lemma AcceptsExactlySupported(runner: string, registry: string)
    requires registry != "" && IsPlain(registry)
    ensures RunnerIsValid(runner, registry, false).Pass? <==> exists r {:trigger IsSupported(registry, r)} :: IsSupported(registry, r) && runner == Print(r)
  {
    if RunnerIsValid(runner, registry, false).Pass? {
      var r := AcceptedIsSupported(runner, registry);
    }
    forall r | IsSupported(registry, r) && runner == Print(r)
      ensures RunnerIsValid(runner, registry, false).Pass?
    {
      SupportedIsAccepted(registry, r);
    }
  }

  /** What is not looked at any further: anything passes in dev or test mode, and outside it an empty runner or
      registry is an error of its own. */
  lemma EmptyIsRefused(runner: string, registry: string)
    ensures RunnerIsValid(runner, registry, true) == Pass
    ensures RunnerIsValid(runner, registry, false) == Fail(EmptyRunner) <==> runner == ""
    ensures RunnerIsValid(runner, registry, false) == Fail(EmptyRegistry) <==> runner != "" && registry == ""
  {
  }

  /** The suffix of a development build makes no difference. */
  lemma DevSuffixIsIgnored(r: Runner, registry: string)
    requires registry != "" && IsPlain(registry) && RegistryMatches(registry, r.host)
    requires r.name == RECORDER || r.name == TRANSCRIBER
    requires r.dev.Some? && AllDigits(r.dev.value)
    ensures RunnerIsValid(Print(r), registry, false) == RunnerIsValid(Print(r.(dev := None)), registry, false)
  {
    PrintedRunnerParses(registry, r);
    PrintedRunnerParses(registry, r.(dev := None));
    GrammarsAreDisjoint(registry, Print(r));
    GrammarsAreDisjoint(registry, Print(r.(dev := None)));
  }

  lemma RecorderVerdict(registry: string, r: Runner)
    requires registry != "" && IsRunner(registry, RECORDER, r)
    ensures RunnerIsValid(Print(r), registry, false) == CheckMinVersion(MIN_RECORDER, r.version)
  {
    PrintedRunnerParses(registry, r);
    PrintedIsNotEmpty(r);
  }

  lemma TranscriberVerdict(registry: string, r: Runner)
    requires registry != "" && IsRunner(registry, TRANSCRIBER, r)
    ensures RunnerIsValid(Print(r), registry, false) == CheckMinVersion(MIN_TRANSCRIBER, r.version)
  {
    PrintedRunnerParses(registry, r);
    GrammarsAreDisjoint(registry, Print(r));
    PrintedIsNotEmpty(r);
  }

  lemma PrintedIsNotEmpty(r: Runner)
    ensures Print(r) != ""
  {
    assert |Middle(r.name)| > 0;
  }

  lemma CheckMinVersionFails(min: Version, v: Version)
    requires Fits(min)
    ensures CheckMinVersion(min, v) == Fail(BadVersion) <==> !Fits(v)
    ensures CheckMinVersion(min, v) == Fail(TooOld) <==> Fits(v) && !AtLeast(v, min)
  {
    CompareIsLexicographic(v, min, min);
  }

  /** "Recent enough" alone is not what is checked: a version with a number that does not fit is
      refused however large it is, and no other is refused for that reason. */
  lemma UnfitVersionIsRefusedIff(registry: string, r: Runner)
    requires registry != "" && IsPlain(registry)
    requires IsRunner(registry, RECORDER, r) || IsRunner(registry, TRANSCRIBER, r)
    ensures RunnerIsValid(Print(r), registry, false) == Fail(BadVersion) <==> !Fits(r.version)
  {
    if IsRunner(registry, RECORDER, r) {
      RecorderVerdict(registry, r);
      CheckMinVersionFails(MIN_RECORDER, r.version);
    } else {
      TranscriberVerdict(registry, r);
      CheckMinVersionFails(MIN_TRANSCRIBER, r.version);
    }
  }

  /** A registry with a dot also lets in images from other hosts, those that differ from it at
      the dot; without dots only the registry itself matches. */
  lemma DotsMatchOtherHosts(registry: string, host: string)
    ensures '.' !in registry ==> (RegistryMatches(registry, host) <==> host == registry)
    ensures '.' in registry ==> exists other :: other != registry && RegistryMatches(registry, other)
  {
    if '.' in registry {
      var i :| 0 <= i < |registry| && registry[i] == '.';
      assert RegistryMatches(registry, registry[i := 'x']) && registry[i := 'x'][i] == 'x';
    }
  }

  // ---------------------------------------------------------------------------
  // Configurations
  // ---------------------------------------------------------------------------

  /** All runners of a service configuration are checked, up to the first bad one. */
  method ServiceConfigIsValid(runners: seq<string>, registry: string, devOrTestMode: bool) returns (ok: bool)
    ensures ok <==> runners != [] && registry != "" && AllAreValid(runners, registry, devOrTestMode)
  {
    if |runners| == 0 || registry == "" {
      return false;
    }
    for i := 0 to |runners|
      invariant AllAreValid(runners[..i], registry, devOrTestMode)
    {
      OneMoreIsValid(runners, i, registry, devOrTestMode);
      if RunnerIsValid(runners[i], registry, devOrTestMode).Fail? {
        return false;
      }
    }
    assert runners[..|runners|] == runners;
    return true;
  }

  lemma OneMoreIsValid(runners: seq<string>, i: nat, registry: string, devOrTestMode: bool)
    requires i < |runners|
    ensures AllAreValid(runners[..i + 1], registry, devOrTestMode)
       <==> AllAreValid(runners[..i], registry, devOrTestMode) && RunnerIsValid(runners[i], registry, devOrTestMode).Pass?
    ensures RunnerIsValid(runners[i], registry, devOrTestMode).Fail? ==> !AllAreValid(runners, registry, devOrTestMode)
  {
    assert runners[..i + 1] == runners[..i] + [runners[i]];
  }

  predicate AllAreValid(runners: seq<string>, registry: string, devOrTestMode: bool) {
    forall runner :: runner in runners ==> RunnerIsValid(runner, registry, devOrTestMode).Pass?
  }

  // ---------------------------------------------------------------------------
  // The image name of a runner
  // ---------------------------------------------------------------------------

  /** Any number of "-dev" suffixes, each with its digits. */
  function PrintDevs(devs: seq<string>): string {
    if devs == [] then "" else "-dev" + devs[0] + PrintDevs(devs[1..])
  }

  predicate AreDevs(devs: seq<string>) {
    forall i :: 0 <= i < |devs| ==> AllDigits(devs[i])
  }

  function ParseDevs(s: string): (r: Option<seq<string>>)
    decreases |s|
  {
    if s == "" then Some([])
    else if !("-dev" <= s) then None
    else
      var n := DigitsLen(s[4..]);
      var rest := ParseDevs(s[4..][n..]);
      if rest.None? then None else Some([s[4..][..n]] + rest.value)
  }

  lemma DevsStartWithDash(devs: seq<string>)
    ensures !StartsWithDigit(PrintDevs(devs))
  {
    if devs != [] {
      assert PrintDevs(devs)[0] == '-';
    }
  }

  lemma {:induction false} PrintedDevsParse(devs: seq<string>)
    requires AreDevs(devs)
    ensures ParseDevs(PrintDevs(devs)) == Some(devs)
  {
    if devs != [] {
      var rest := PrintDevs(devs[1..]);
      PrintedDevsParse(devs[1..]);
      DevsStartWithDash(devs[1..]);
      DigitsLenIs(devs[0], rest);
      Associate("-dev", devs[0], rest);
      DevStep(devs[0], rest);
      assert [devs[0]] + devs[1..] == devs;
    }
  }

  lemma DevStep(digits: string, rest: string)
    requires DigitsLen(digits + rest) == |digits|
    ensures ParseDevs("-dev" + (digits + rest))
         == if ParseDevs(rest).None? then None else Some([digits] + ParseDevs(rest).value)
  {
    var s := "-dev" + (digits + rest);
    assert s[4..] == digits + rest;
    assert s[4..][..|digits|] == digits && s[4..][|digits|..] == rest;
  }

  lemma {:induction false} ParsedDevsArePrinted(s: string)
    requires ParseDevs(s).Some?
    ensures s == PrintDevs(ParseDevs(s).value) && AreDevs(ParseDevs(s).value)
    decreases |s|
  {
    if s != "" {
      var n := DigitsLen(s[4..]);
      var digits, rest := s[4..][..n], s[4..][n..];
      DigitsLenIsMaximal(s[4..]);
      ParsedDevsArePrinted(rest);
      OneMoreDev(digits, ParseDevs(rest).value);
      CutInThree(s, "-dev", n);
    }
  }

  lemma OneMoreDev(digits: string, devs: seq<string>)
    requires AllDigits(digits) && AreDevs(devs)
    ensures PrintDevs([digits] + devs) == "-dev" + digits + PrintDevs(devs) && AreDevs([digits] + devs)
  {
    assert ([digits] + devs)[1..] == devs;
  }

  lemma CutInThree(s: string, prefix: string, n: nat)
    requires prefix <= s && |prefix| + n <= |s|
    ensures s == prefix + s[|prefix|..][..n] + s[|prefix|..][n..]
  {
  }

  lemma ParseDevsIff(s: string, devs: seq<string>)
    ensures ParseDevs(s) == Some(devs) <==> s == PrintDevs(devs) && AreDevs(devs)
    ensures !StartsWithDigit(PrintDevs(devs))
  {
    DevsStartWithDash(devs);
    if AreDevs(devs) {
      PrintedDevsParse(devs);
    }
    if ParseDevs(s).Some? {
      ParsedDevsArePrinted(s);
    }
  }

  const IMAGE_PREFIX: string := "mattermost/"

  /** The text is cut by the image pattern with this name in its greedy group: one or more
      characters, none of them a line break. */
  predicate IsImageOf(s: string, name: string, v: Version, devs: seq<string>) {
    && s == IMAGE_PREFIX + name + ":v" + PrintVersion(v) + PrintDevs(devs)
    && name != "" && '\n' !in name && AreDevs(devs)
  }

  ghost predicate IsImage(s: string, name: string) {
    exists v, devs :: IsImageOf(s, name, v, devs)
  }

  /** The part of the text before the last colon. */
  function BeforeLastColon(s: string): (n: Option<nat>)
    ensures n.Some? ==> n.value < |s|
  {
    if s == "" then None
    else if s[|s| - 1] == ':' then Some(|s| - 1)
    else BeforeLastColon(s[..|s| - 1])
  }

  /** Nothing the pattern allows after the name contains a colon but the one that starts it. */
  lemma {:induction false} NumeralsHaveNoColon(n: nat)
    ensures ':' !in Numeral(n)
  {
    ValueOfNumeral(n);
  }

  lemma {:induction false} DevsHaveNoColon(devs: seq<string>)
    requires AreDevs(devs)
    ensures ':' !in PrintDevs(devs)
  {
    if devs != [] {
      DevsHaveNoColon(devs[1..]);
      assert ':' !in devs[0];
    }
  }

  lemma TailHasNoColon(v: Version, devs: seq<string>)
    requires AreDevs(devs)
    ensures ':' !in "v" + PrintVersion(v) + PrintDevs(devs)
  {
    NumeralsHaveNoColon(v.major);
    NumeralsHaveNoColon(v.minor);
    NumeralsHaveNoColon(v.patch);
    DevsHaveNoColon(devs);
  }

  lemma {:induction false} LastColonIs(head: string, tail: string)
    requires ':' !in tail
    ensures BeforeLastColon(head + ":" + tail) == Some(|head|)
  {
    var s := head + ":" + tail;
    if tail != "" {
      var init := tail[..|tail| - 1];
      assert s[..|s| - 1] == head + ":" + init;
      assert s[|s| - 1] == tail[|tail| - 1];
      LastColonIs(head, init);
    }
  }

  /** The name the pattern captures, "" when it does not match. */
  function GetImageNameFromRunner(s: string): (name: string) {
    var n := BeforeLastColon(s);
    if n.None? || n.value <= |IMAGE_PREFIX| || !(IMAGE_PREFIX <= s) || !(":v" <= s[n.value..]) then ""
    else
      var name := s[|IMAGE_PREFIX|..n.value];
      var v := ParseVersion(s[n.value..][2..]);
      if '\n' in name || v.None? || ParseDevs(v.value.1).None? then "" else name
  }

  /** The split at the name is unique, in spite of the greedy group: it is at the last colon. */
  lemma ImageSplitIsAtLastColon(s: string, name: string, v: Version, devs: seq<string>)
    requires IsImageOf(s, name, v, devs)
    ensures BeforeLastColon(s) == Some(|IMAGE_PREFIX| + |name|)
    ensures s[|IMAGE_PREFIX|..|IMAGE_PREFIX| + |name|] == name
    ensures s[|IMAGE_PREFIX| + |name|..] == ":v" + (PrintVersion(v) + PrintDevs(devs))
  {
    var tail := "v" + PrintVersion(v) + PrintDevs(devs);
    ColonAssociates(IMAGE_PREFIX + name, PrintVersion(v), PrintDevs(devs));
    TailHasNoColon(v, devs);
    ColonSplit(IMAGE_PREFIX, name, tail);
  }

  lemma ColonAssociates(head: string, a: string, b: string)
    ensures head + ":v" + a + b == head + ":" + ("v" + a + b)
    ensures ":v" + (a + b) == ":" + ("v" + a + b)
  {
  }

  lemma ColonSplit(prefix: string, name: string, tail: string)
    requires ':' !in tail
    ensures var s := prefix + name + ":" + tail;
            && BeforeLastColon(s) == Some(|prefix| + |name|)
            && s[|prefix|..|prefix| + |name|] == name
            && s[|prefix| + |name|..] == ":" + tail
  {
    LastColonIs(prefix + name, tail);
  }

  lemma ImageNameIsCaptured(s: string, name: string, v: Version, devs: seq<string>)
    requires IsImageOf(s, name, v, devs)
    ensures GetImageNameFromRunner(s) == name
  {
    ImageSplitIsAtLastColon(s, name, v, devs);
    var tail := PrintVersion(v) + PrintDevs(devs);
    assert (":v" + tail)[2..] == tail;
    ParseDevsIff(PrintDevs(devs), devs);
    PrintedVersionParses(tail, v, PrintDevs(devs));
  }

  lemma TailIsParsed(rest: string) returns (v: Version, devs: seq<string>)
    requires ParseVersion(rest).Some? && ParseDevs(ParseVersion(rest).value.1).Some?
    ensures rest == PrintVersion(v) + PrintDevs(devs) && AreDevs(devs)
  {
    var parsed := ParseVersion(rest).value;
    v, devs := parsed.0, ParseDevs(parsed.1).value;
    ParsedVersionIsPrinted(rest, v, parsed.1);
    ParseDevsIff(parsed.1, devs);
  }

  lemma CutInFour(s: string, prefix: string, n: nat, middle: string)
    requires |prefix| <= n <= |s| && prefix <= s && middle <= s[n..]
    ensures s == prefix + s[|prefix|..n] + middle + s[n..][|middle|..]
  {
    assert s == s[..n] + s[n..];
    assert s[..n] == prefix + s[|prefix|..n];
    assert s[n..] == middle + s[n..][|middle|..];
  }

  lemma CapturedNameIsImage(s: string) returns (v: Version, devs: seq<string>)
    requires GetImageNameFromRunner(s) != ""
    ensures IsImageOf(s, GetImageNameFromRunner(s), v, devs)
  {
    var name := GetImageNameFromRunner(s);
    var n := BeforeLastColon(s).value;
    var rest := s[n..][2..];
    v, devs := TailIsParsed(rest);
    CutInFour(s, IMAGE_PREFIX, n, ":v");
    Associate(IMAGE_PREFIX + name + ":v", PrintVersion(v), PrintDevs(devs));
  }

  /** A name is captured exactly when the pattern cuts the text at that name; and then no
      other cut has another name. */
  lemma ImageNameIff(s: string, name: string)
    requires name != ""
    ensures GetImageNameFromRunner(s) == name <==> IsImage(s, name)
  {
    if IsImage(s, name) {
      var v, devs :| IsImageOf(s, name, v, devs);
      ImageNameIsCaptured(s, name, v, devs);
    }
    if GetImageNameFromRunner(s) == name {
      var v, devs := CapturedNameIsImage(s);
    }
  }

  /** A runner of the default registry is an image with its own name. */
  lemma RunnerIsImage(r: Runner)
    requires IsRunner(DEFAULT_REGISTRY, r.name, r) && r.name != "" && '\n' !in r.name
    ensures IsImageOf(Print(r), r.name, r.version, if r.dev.Some? then [r.dev.value] else [])
  {
    DotsMatchOtherHosts(DEFAULT_REGISTRY, r.host);
    var devs := if r.dev.Some? then [r.dev.value] else [];
    if r.dev.Some? {
      assert devs[1..] == [];
      assert PrintDevs(devs) == "-dev" + r.dev.value + "";
    }
    assert PrintDevs(devs) == PrintDev(r.dev);
    assert r.host + Middle(r.name) == IMAGE_PREFIX + r.name + ":v";
  }

  lemma NamesAreOneLine()
    ensures RECORDER != "" && '\n' !in RECORDER
    ensures TRANSCRIBER != "" && '\n' !in TRANSCRIBER
  {
  }

  lemma RunnerHasImageName(r: Runner)
    requires IsRunner(DEFAULT_REGISTRY, r.name, r) && r.name != "" && '\n' !in r.name
    ensures GetImageNameFromRunner(Print(r)) == r.name
  {
    RunnerIsImage(r);
    ImageNameIsCaptured(Print(r), r.name, r.version, if r.dev.Some? then [r.dev.value] else []);
  }

  /** Every runner that is accepted for the default registry has an image name, which is that
      of the pattern that accepted it. */
  lemma GrammarsAgree(runner: string)
    ensures RunnerIsValid(runner, DEFAULT_REGISTRY, false).Pass? ==>
              GetImageNameFromRunner(runner) == if Parse(DEFAULT_REGISTRY, RECORDER, runner).Some? then RECORDER else TRANSCRIBER
  {
    if RunnerIsValid(runner, DEFAULT_REGISTRY, false).Pass? {
      var r := AcceptedIsSupported(runner, DEFAULT_REGISTRY);
      NamesAreOneLine();
      assert IsRunner(DEFAULT_REGISTRY, r.name, r);
      RunnerHasImageName(r);
    }
  }
}
