/** MSBuildTaskExecutor: turns a task configuration into the MSBuild command line, and maps
    what happened to the MSBuild process to the result the task reports. */
module MSBuildTaskExecutor {
  import opened JavaLang
  import opened JavaText
  import opened GoApi
  import MSBuildTask

  const DefaultMSBuildPath := "C:\\Windows\\Microsoft.NET\\Framework\\v4.0.30319\\MSBuild.exe"

  const PropertyPrefix := "/property:"
  const VerbosityPrefix := "/verbosity:"
  const TargetsPrefix := "/targets:"
  const FileLoggerSwitch := "/fileLogger"
  const DetailedSummarySwitch := "/detailedsummary"
  const NoLogoSwitch := "/nologo"
  const NoAutoResponseSwitch := "/noautoResponse"

  /** The command line a ProcessBuilder holds (an element may be `null`) and the directory
      it starts the process in. */
  datatype ProcessBuilder = ProcessBuilder(command: seq<Option<string>>, directory: string)

  /** The `List<String>` the command is collected in. */
  class CommandList {
    var elements: seq<Option<string>>

    constructor ()
      ensures elements == []
    {
      elements := [];
    }

    method Add(element: Option<string>)
      modifies this
      ensures elements == old(elements) + [element]
    {
      elements := elements + [element];
    }
  }

  // ---------------------------------------------------------------------------
  // The command line, stated as functions of the configuration
  // ---------------------------------------------------------------------------

  /** The arguments as list elements, none of them `null`. */
  function NonNull(args: seq<string>): (r: seq<Option<string>>)
    ensures |r| == |args|
  {
    if args == [] then [] else [Some(args[0])] + NonNull(args[1..])
  }

  lemma {:induction false} NonNullIndex(args: seq<string>, i: int)
    requires 0 <= i < |args|
    ensures NonNull(args)[i] == Some(args[i])
  {
    if i > 0 {
      NonNullIndex(args[1..], i - 1);
    }
  }

  /** One argument per piece: the piece with its whitespace removed. */
  function Stripped(pieces: seq<string>): (r: seq<string>)
    ensures |r| == |pieces|
  {
    seq(|pieces|, i requires 0 <= i < |pieces| => RemoveRegexSpaces(pieces[i]))
  }

  /** One flag per piece: the prefix, then the piece with its whitespace removed. */
  function Flags(prefix: string, pieces: seq<string>): (r: seq<string>)
    ensures |r| == |pieces|
  {
    seq(|pieces|, i requires 0 <= i < |pieces| => prefix + RemoveRegexSpaces(pieces[i]))
  }

  /** The program to run: MSBuildPath as given when CustomizeMSBuildPath is "true"
      (`null` when it is absent), the built-in path otherwise. */
  function ToolPath(c: Config): Option<string> {
    if IsTrue(GetValue(c, MSBuildTask.CustomizeMSBuildPath)) then GetValue(c, MSBuildTask.MSBuildPath)
    else Some(DefaultMSBuildPath)
  }

  function PropertyArguments(c: Config): seq<string> {
    var raw := GetValue(c, MSBuildTask.Properties);
    if IsEmpty(raw) then [] else Flags(PropertyPrefix, SplitLineRuns(raw.value))
  }

  function VerbosityArgument(c: Config): string {
    var verbosity := GetValue(c, MSBuildTask.Verbosity);
    if IsEmpty(verbosity) then VerbosityPrefix + "normal" else VerbosityPrefix + verbosity.value
  }

  function TargetsArguments(c: Config): seq<string> {
    var targets := GetValue(c, MSBuildTask.Targets);
    if IsTrue(GetValue(c, MSBuildTask.SpecifyTargets)) && !IsEmpty(targets)
    then [TargetsPrefix + RemoveRegexSpaces(targets.value)]
    else []
  }

  function SwitchIf(c: Config, key: string, switch: string): seq<string> {
    if IsTrue(GetValue(c, key)) then [switch] else []
  }

  function SwitchArguments(c: Config): seq<string> {
    SwitchIf(c, MSBuildTask.FileLogger, FileLoggerSwitch)
    + SwitchIf(c, MSBuildTask.DetailedSummary, DetailedSummarySwitch)
    + SwitchIf(c, MSBuildTask.NoLogo, NoLogoSwitch)
    + SwitchIf(c, MSBuildTask.NoAutoResponse, NoAutoResponseSwitch)
  }

  /** What AddMSBuildArguments appends. */
  function MSBuildArguments(c: Config): seq<string> {
    PropertyArguments(c) + [VerbosityArgument(c)] + TargetsArguments(c) + SwitchArguments(c)
  }

  /** What AddAdditionalParameters appends, or the NullPointerException it raises when the
      key is absent. */
  function AdditionalArguments(c: Config): Result<seq<string>> {
    if MSBuildTask.AdditionalParameters !in c then Thrown(NullPointerException)
    else Ok(Stripped(SplitLineRuns(c[MSBuildTask.AdditionalParameters])))
  }

  /** The whole command createMSBuildCommand collects. */
  function Command(c: Config): Result<seq<Option<string>>> {
    match AdditionalArguments(c)
    case Thrown(e) => Thrown(e)
    case Ok(extra) =>
      Ok([ToolPath(c)] + NonNull(MSBuildArguments(c)) + NonNull(extra)
         + [GetValue(c, MSBuildTask.SolutionFile)])
  }

  // ---------------------------------------------------------------------------
  // createMSBuildCommand and its helpers
  // ---------------------------------------------------------------------------

  lemma {:induction false} NonNullAppend(a: seq<string>, b: seq<string>)
    ensures NonNull(a + b) == NonNull(a) + NonNull(b)
  {
    if a != [] {
      assert (a + b)[1..] == a[1..] + b;
      NonNullAppend(a[1..], b);
    } else {
      assert a + b == b;
    }
  }

  lemma FlagsSnoc(prefix: string, pieces: seq<string>, i: int)
    requires 0 <= i < |pieces|
    ensures Flags(prefix, pieces[..i + 1]) == Flags(prefix, pieces[..i]) + [prefix + RemoveRegexSpaces(pieces[i])]
  {
  }

  lemma StrippedSnoc(pieces: seq<string>, i: int)
    requires 0 <= i < |pieces|
    ensures Stripped(pieces[..i + 1]) == Stripped(pieces[..i]) + [RemoveRegexSpaces(pieces[i])]
  {
  }

  /** createMSBuildCommand: the tool path, then the three helpers' arguments, in a fresh
      list; the ProcessBuilder runs it in the task's working directory. */
  method CreateMSBuildCommand(workingDir: string, taskConfig: Config) returns (r: Result<ProcessBuilder>)
    ensures r.Thrown? <==> MSBuildTask.AdditionalParameters !in taskConfig
    ensures r.Thrown? ==> r.exception == NullPointerException
    ensures r.Ok? ==> r.value == ProcessBuilder(Command(taskConfig).value, workingDir)
  {
    var command := new CommandList();

    var customizeMSBuildPath := GetValue(taskConfig, MSBuildTask.CustomizeMSBuildPath);
    var msBuildPath := if customizeMSBuildPath.Some? && customizeMSBuildPath.value == "true"
      then GetValue(taskConfig, MSBuildTask.MSBuildPath) else Some(DefaultMSBuildPath);
    command.Add(msBuildPath);

    AddMSBuildArguments(taskConfig, command);
    ghost var withArguments := command.elements;
    var status := AddAdditionalParameters(taskConfig, command);
    if status.Thrown? {
      return Thrown(status.exception);
    }
    ghost var withExtra := command.elements;
    AddProjectFile(taskConfig, command);
    CommandFromParts(taskConfig, msBuildPath, withArguments, withExtra, command.elements);

    return Ok(ProcessBuilder(command.elements, workingDir));
  }

  /** The list createMSBuildCommand builds, step by step, is the command. */
  lemma CommandFromParts(c: Config, path: Option<string>, withArguments: seq<Option<string>>,
                         withExtra: seq<Option<string>>, elements: seq<Option<string>>)
    requires MSBuildTask.AdditionalParameters in c
    requires path == ToolPath(c)
    requires withArguments == [path] + NonNull(MSBuildArguments(c))
    requires withExtra == withArguments + NonNull(AdditionalArguments(c).value)
    requires elements == withExtra + [GetValue(c, MSBuildTask.SolutionFile)]
    ensures Command(c) == Ok(elements)
  {
  }

  method AddProjectFile(taskConfig: Config, command: CommandList)
    modifies command
    ensures command.elements == old(command.elements) + [GetValue(taskConfig, MSBuildTask.SolutionFile)]
  {
    var solutionFile := GetValue(taskConfig, MSBuildTask.SolutionFile);
    command.Add(solutionFile);
  }

  /** AddMSBuildArguments: the property flags, the verbosity, the targets and the four
      check-box switches, in that order. */
  method AddMSBuildArguments(taskConfig: Config, command: CommandList)
    modifies command
    ensures command.elements == old(command.elements) + NonNull(MSBuildArguments(taskConfig))
  {
    AddPropertyArguments(taskConfig, command);
    // the arguments added so far
    ghost var added := PropertyArguments(taskConfig);

    AddVerbosityArgument(taskConfig, command);
    Extended(old(command.elements), added, [VerbosityArgument(taskConfig)]);
    added := added + [VerbosityArgument(taskConfig)];

    AddTargetsArgument(taskConfig, command);
    Extended(old(command.elements), added, TargetsArguments(taskConfig));
    added := added + TargetsArguments(taskConfig);
    ghost var beforeSwitches := added;

    AddSwitch(taskConfig, MSBuildTask.FileLogger, FileLoggerSwitch, command);
    Extended(old(command.elements), added, SwitchIf(taskConfig, MSBuildTask.FileLogger, FileLoggerSwitch));
    added := added + SwitchIf(taskConfig, MSBuildTask.FileLogger, FileLoggerSwitch);

    AddSwitch(taskConfig, MSBuildTask.DetailedSummary, DetailedSummarySwitch, command);
    Extended(old(command.elements), added, SwitchIf(taskConfig, MSBuildTask.DetailedSummary, DetailedSummarySwitch));
    added := added + SwitchIf(taskConfig, MSBuildTask.DetailedSummary, DetailedSummarySwitch);

    AddSwitch(taskConfig, MSBuildTask.NoLogo, NoLogoSwitch, command);
    Extended(old(command.elements), added, SwitchIf(taskConfig, MSBuildTask.NoLogo, NoLogoSwitch));
    added := added + SwitchIf(taskConfig, MSBuildTask.NoLogo, NoLogoSwitch);

    AddSwitch(taskConfig, MSBuildTask.NoAutoResponse, NoAutoResponseSwitch, command);
    Extended(old(command.elements), added, SwitchIf(taskConfig, MSBuildTask.NoAutoResponse, NoAutoResponseSwitch));
    added := added + SwitchIf(taskConfig, MSBuildTask.NoAutoResponse, NoAutoResponseSwitch);

    SwitchArgumentsAssociate(taskConfig, beforeSwitches);
    assert added == MSBuildArguments(taskConfig);
  }

  /** Each line of Properties, with its whitespace removed, as a `/property:` flag. */
  method AddPropertyArguments(taskConfig: Config, command: CommandList)
    modifies command
    ensures command.elements == old(command.elements) + NonNull(PropertyArguments(taskConfig))
  {
    var rawProperties := GetValue(taskConfig, MSBuildTask.Properties);
    if rawProperties.Some? && !IsEmpty(rawProperties) {
      var properties := SplitLineRuns(rawProperties.value);
      for i := 0 to |properties|
        invariant command.elements == old(command.elements) + NonNull(Flags(PropertyPrefix, properties[..i]))
      {
        var prop := RemoveRegexSpaces(properties[i]);
        command.Add(Some(PropertyPrefix + prop));
        FlagsSnoc(PropertyPrefix, properties, i);
        NonNullAppend(Flags(PropertyPrefix, properties[..i]), [PropertyPrefix + prop]);
      }
      assert properties[..|properties|] == properties;
    }
  }

  method AddVerbosityArgument(taskConfig: Config, command: CommandList)
    modifies command
    ensures command.elements == old(command.elements) + NonNull([VerbosityArgument(taskConfig)])
  {
    var verbosity := GetValue(taskConfig, MSBuildTask.Verbosity);
    if verbosity.Some? && !IsEmpty(verbosity) {
      command.Add(Some(VerbosityPrefix + verbosity.value));
    } else {
      command.Add(Some(VerbosityPrefix + "normal"));
    }
    assert [VerbosityArgument(taskConfig)][1..] == [];
  }

  method AddTargetsArgument(taskConfig: Config, command: CommandList)
    modifies command
    ensures command.elements == old(command.elements) + NonNull(TargetsArguments(taskConfig))
  {
    var specifyTargets := GetValue(taskConfig, MSBuildTask.SpecifyTargets);
    if specifyTargets.Some? && specifyTargets.value == "true" {
      var targets := GetValue(taskConfig, MSBuildTask.Targets);
      if targets.Some? && !IsEmpty(targets) {
        var stripped := RemoveRegexSpaces(targets.value);
        command.Add(Some(TargetsPrefix + stripped));
        assert TargetsArguments(taskConfig)[1..] == [];
      }
    }
  }

  /** One check box: `switch` is added when the box's value is "true". */
  method AddSwitch(taskConfig: Config, key: string, switch: string, command: CommandList)
    modifies command
    ensures command.elements == old(command.elements) + NonNull(SwitchIf(taskConfig, key, switch))
  {
    var value := GetValue(taskConfig, key);
    if value.Some? && value.value == "true" {
      command.Add(Some(switch));
      assert [switch][1..] == [];
    }
  }

  lemma Extended(start: seq<Option<string>>, added: seq<string>, more: seq<string>)
    ensures start + NonNull(added) + NonNull(more) == start + NonNull(added + more)
  {
    NonNullAppend(added, more);
  }

  lemma SwitchArgumentsAssociate(c: Config, prefix: seq<string>)
    ensures prefix + SwitchIf(c, MSBuildTask.FileLogger, FileLoggerSwitch)
                   + SwitchIf(c, MSBuildTask.DetailedSummary, DetailedSummarySwitch)
                   + SwitchIf(c, MSBuildTask.NoLogo, NoLogoSwitch)
                   + SwitchIf(c, MSBuildTask.NoAutoResponse, NoAutoResponseSwitch)
         == prefix + SwitchArguments(c)
  {
  }

  /** AddAdditionalParameters: splits the value without a null check, so an absent key
      raises a NullPointerException before anything is added. */
  method AddAdditionalParameters(taskConfig: Config, command: CommandList) returns (r: Result<()>)
    modifies command
    ensures r.Thrown? <==> MSBuildTask.AdditionalParameters !in taskConfig
    ensures r.Thrown? ==> r.exception == NullPointerException && command.elements == old(command.elements)
    ensures r.Ok? ==> command.elements == old(command.elements) + NonNull(AdditionalArguments(taskConfig).value)
  {
    var additionalParams := GetValue(taskConfig, MSBuildTask.AdditionalParameters);
    if additionalParams.None? {
      return Thrown(NullPointerException);
    }
    var splitParams := SplitLineRuns(additionalParams.value);
    for i := 0 to |splitParams|
      invariant command.elements == old(command.elements) + NonNull(Stripped(splitParams[..i]))
    {
      var param := RemoveRegexSpaces(splitParams[i]);
      command.Add(Some(param));
      StrippedSnoc(splitParams, i);
      NonNullAppend(Stripped(splitParams[..i]), [param]);
    }
    assert splitParams[..|splitParams|] == splitParams;
    return Ok(());
  }

  // ---------------------------------------------------------------------------
  // execute
  // ---------------------------------------------------------------------------

  /** What happened once the process was launched: it exited with a code, or `start` or
      `waitFor` raised an exception. */
  datatype ProcessOutcome = Exited(exitCode: int) | Raised(exception: JavaException)

  const BuildSuccess := "Build Success"
  const BuildFailure := "Build Failure"
  const LaunchFailure := "Failed while running MSBuild task "

  /** ProcessBuilder.start refuses a command with a `null` element. */
  function Start(command: seq<Option<string>>, outcome: ProcessOutcome): ProcessOutcome {
    if None in command then Raised(NullPointerException) else outcome
  }

  /** The verdict `execute` returns for how the process ended. */
  function Verdict(outcome: ProcessOutcome): (r: ExecutionResult)
    ensures r.Success? <==> outcome == Exited(0)
    ensures r.Success? ==> r.message == BuildSuccess
    ensures outcome.Exited? && outcome.exitCode != 0 ==> r == Failure(BuildFailure, None)
    ensures outcome.Raised? ==> r == Failure(LaunchFailure, Some(outcome.exception))
  {
    match outcome
    case Exited(code) => if code != 0 then Failure(BuildFailure, None) else Success(BuildSuccess)
    case Raised(e) => Failure(LaunchFailure, Some(e))
  }

  /** execute: builds the command (outside the try, so its exception escapes), launches it
      and reports the verdict. `outcome` stands for what the operating system does with the
      process once it is started. */
  method Execute(taskConfig: Config, workingDir: string, outcome: ProcessOutcome) returns (r: Result<ExecutionResult>)
    ensures r.Thrown? <==> MSBuildTask.AdditionalParameters !in taskConfig
    ensures r.Thrown? ==> r.exception == NullPointerException
    ensures r.Ok? ==> r.value == Verdict(Start(Command(taskConfig).value, outcome))
  {
    var msbuild := CreateMSBuildCommand(workingDir, taskConfig);
    if msbuild.Thrown? {
      return Thrown(msbuild.exception);
    }
    var launched := Start(msbuild.value.command, outcome);
    match launched {
      case Raised(e) =>
        return Ok(Failure(LaunchFailure, Some(e)));
      case Exited(exitCode) =>
        if exitCode != 0 {
          return Ok(Failure(BuildFailure, None));
        }
    }
    return Ok(Success(BuildSuccess));
  }

  // ---------------------------------------------------------------------------
  // Properties of the command line
  // ---------------------------------------------------------------------------

  lemma DiffersAt(s: string, prefix: string, k: int)
    requires 0 <= k < |prefix| && k < |s| && s[k] != prefix[k]
    ensures !StartsWith(s, prefix)
  {
  }

  lemma PrefixStarts(prefix: string, rest: string)
    ensures StartsWith(prefix + rest, prefix)
    ensures (prefix + rest)[|prefix|..] == rest
  {
    assert (prefix + rest)[..|prefix|] == prefix;
  }

  /** Every property argument is `/property:` followed by a payload with no whitespace. */
  lemma PropertyFlagsSpaceFree(c: Config)
    ensures forall i :: 0 <= i < |PropertyArguments(c)| ==>
      StartsWith(PropertyArguments(c)[i], PropertyPrefix)
      && NoRegexSpace(PropertyArguments(c)[i][|PropertyPrefix|..])
  {
    var props := PropertyArguments(c);
    if !IsEmpty(GetValue(c, MSBuildTask.Properties)) {
      var pieces := SplitLineRuns(c[MSBuildTask.Properties]);
      forall i | 0 <= i < |props|
        ensures StartsWith(props[i], PropertyPrefix) && NoRegexSpace(props[i][|PropertyPrefix|..])
      {
        assert props[i] == PropertyPrefix + RemoveRegexSpaces(pieces[i]);
        PrefixStarts(PropertyPrefix, RemoveRegexSpaces(pieces[i]));
      }
    }
  }

  /** Properties written one per line (break-free lines, none empty after the first) give
      one `/property:` flag per line, in the order of the lines. An empty first line (text
      that starts with a line break) gives a bare `/property:` first. */
  lemma {:induction false} PropertyFlagsFollowLines(c: Config, lines: seq<string>)
    requires MSBuildTask.Properties in c && c[MSBuildTask.Properties] == JoinLines(lines)
    requires |lines| >= 1 && lines != [""]
    requires forall i :: 0 <= i < |lines| ==> NoLineBreak(lines[i])
    requires forall i :: 0 < i < |lines| ==> lines[i] != ""
    ensures |PropertyArguments(c)| == |lines|
    ensures forall i :: 0 <= i < |lines| ==>
      PropertyArguments(c)[i] == PropertyPrefix + RemoveRegexSpaces(lines[i])
  {
    SplitLineRunsOfJoin(lines);
    if |lines| == 1 {
      assert JoinLines(lines) == lines[0];
    } else {
      assert JoinLines(lines) == lines[0] + "\n" + JoinLines(lines[1..]);
    }
  }

  /** The leading empty piece: `\na=b` gives `/property:` and then `/property:a=b`. */
  lemma LeadingBreakGivesEmptyFlag()
    ensures PropertyArguments(map[MSBuildTask.Properties := "\na=b"]) == ["/property:", "/property:a=b"]
  {
    assert PropertyPrefix + "" == "/property:" && PropertyPrefix + "a=b" == "/property:a=b";
    assert RemoveRegexSpaces("a=b") == "a=b" by { assert NoRegexSpace("a=b"); }
    assert JoinLines(["", "a=b"]) == "\na=b" by {
      assert ["", "a=b"][1..] == ["a=b"];
      assert JoinLines(["", "a=b"]) == "" + "\n" + "a=b";
    }
    PropertyFlagsFollowLines(map[MSBuildTask.Properties := "\na=b"], ["", "a=b"]);
    PairFromIndices(PropertyArguments(map[MSBuildTask.Properties := "\na=b"]));
  }

  lemma PairFromIndices(args: seq<string>)
    requires |args| == 2
    ensures args == [args[0], args[1]]
  {
  }

  /** The four switches, and whether each key's box turns one on. */
  lemma SwitchesIff(c: Config)
    ensures FileLoggerSwitch in SwitchArguments(c) <==> IsTrue(GetValue(c, MSBuildTask.FileLogger))
    ensures DetailedSummarySwitch in SwitchArguments(c) <==> IsTrue(GetValue(c, MSBuildTask.DetailedSummary))
    ensures NoLogoSwitch in SwitchArguments(c) <==> IsTrue(GetValue(c, MSBuildTask.NoLogo))
    ensures NoAutoResponseSwitch in SwitchArguments(c) <==> IsTrue(GetValue(c, MSBuildTask.NoAutoResponse))
    ensures forall i :: 0 <= i < |SwitchArguments(c)| ==>
      SwitchArguments(c)[i] in {FileLoggerSwitch, DetailedSummarySwitch, NoLogoSwitch, NoAutoResponseSwitch}
    ensures forall i, j :: 0 <= i < j < |SwitchArguments(c)| ==> SwitchArguments(c)[i] != SwitchArguments(c)[j]
  {
  }

  /** The second character of an argument tells its kind apart: `p`roperty, `v`erbosity,
      `t`argets, or one of the switches. */
  predicate Marked(arg: string, marker: char) {
    |arg| > 1 && arg[1] == marker
  }

  predicate SwitchMarked(arg: string) {
    Marked(arg, 'f') || Marked(arg, 'd') || Marked(arg, 'n')
  }

  lemma ConcatSections(p: seq<string>, v: string, t: seq<string>, sw: seq<string>)
    ensures var args, n := p + [v] + t + sw, |p|;
      |args| == n + 1 + |t| + |sw|
      && (forall i :: 0 <= i < n ==> args[i] == p[i])
      && args[n] == v
      && (forall i :: n < i <= n + |t| ==> args[i] == t[i - n - 1])
      && (forall i :: n + |t| < i < |args| ==> args[i] == sw[i - n - 1 - |t|])
  {
  }

  lemma PropertyFlagsMarked(c: Config)
    ensures forall i :: 0 <= i < |PropertyArguments(c)| ==> Marked(PropertyArguments(c)[i], 'p')
  {
    var p := PropertyArguments(c);
    PropertyFlagsSpaceFree(c);
    forall i | 0 <= i < |p| ensures Marked(p[i], 'p') {
      assert p[i][..|PropertyPrefix|] == PropertyPrefix;
      assert p[i][1] == p[i][..|PropertyPrefix|][1];
    }
  }

  lemma OtherFlagsMarked(c: Config)
    ensures Marked(VerbosityArgument(c), 'v')
    ensures forall i :: 0 <= i < |TargetsArguments(c)| ==> Marked(TargetsArguments(c)[i], 't')
    ensures forall i :: 0 <= i < |SwitchArguments(c)| ==> SwitchMarked(SwitchArguments(c)[i])
  {
    SwitchesIff(c);
  }

  /** Where each kind of argument sits in MSBuildArguments. */
  lemma ArgumentSections(c: Config)
    ensures var args, n, t := MSBuildArguments(c), |PropertyArguments(c)|, |TargetsArguments(c)|;
      |args| == n + 1 + t + |SwitchArguments(c)|
      && (forall i :: 0 <= i < n ==> args[i] == PropertyArguments(c)[i] && Marked(args[i], 'p'))
      && args[n] == VerbosityArgument(c) && Marked(args[n], 'v')
      && (forall i :: n < i <= n + t ==> args[i] == TargetsArguments(c)[i - n - 1] && Marked(args[i], 't'))
      && (forall i :: n + t < i < |args| ==>
            args[i] == SwitchArguments(c)[i - n - 1 - t] && SwitchMarked(args[i]))
  {
    ConcatSections(PropertyArguments(c), VerbosityArgument(c), TargetsArguments(c), SwitchArguments(c));
    PropertyFlagsMarked(c);
    OtherFlagsMarked(c);
  }

  /** Exactly one argument sets the verbosity, right after the property flags; it is
      `normal` when Verbosity is absent or empty. */
  lemma VerbosityExactlyOnce(c: Config)
    ensures var args, n := MSBuildArguments(c), |PropertyArguments(c)|;
      n < |args|
      && (forall i :: 0 <= i < |args| ==> (StartsWith(args[i], VerbosityPrefix) <==> i == n))
      && (IsEmpty(GetValue(c, MSBuildTask.Verbosity)) ==> args[n] == "/verbosity:normal")
      && (!IsEmpty(GetValue(c, MSBuildTask.Verbosity)) ==> args[n] == "/verbosity:" + c[MSBuildTask.Verbosity])
  {
    assert VerbosityPrefix + "normal" == "/verbosity:normal";
    var p, v, t, sw := PropertyArguments(c), VerbosityArgument(c), TargetsArguments(c), SwitchArguments(c);
    var args := MSBuildArguments(c);
    PropertyFlagsMarked(c);
    OtherFlagsMarked(c);
    assert args == p + [v] + t + sw;
    OnlyVerbosityMarked(p, v, t, sw);
    var verbosity := GetValue(c, MSBuildTask.Verbosity);
    PrefixStarts(VerbosityPrefix, if IsEmpty(verbosity) then "normal" else verbosity.value);
    forall i | 0 <= i < |args| && StartsWith(args[i], VerbosityPrefix) ensures Marked(args[i], 'v') {
      assert args[i][1] == args[i][..|VerbosityPrefix|][1];
    }
  }

  /** The verbosity is the only argument marked as one. */
  lemma OnlyVerbosityMarked(p: seq<string>, v: string, t: seq<string>, sw: seq<string>)
    requires SectionsMarked(p, v, t, sw)
    ensures var args := p + [v] + t + sw;
      |p| < |args| && args[|p|] == v
      && forall i :: 0 <= i < |args| && Marked(args[i], 'v') ==> i == |p|
  {
    ConcatSections(p, v, t, sw);
  }

  /** A `/targets:` argument appears exactly when SpecifyTargets is "true" and Targets is
      not empty, right after the verbosity, holding Targets without its whitespace. */
  lemma TargetsFlagIff(c: Config)
    ensures var args, n := MSBuildArguments(c), |PropertyArguments(c)|;
      var wanted := IsTrue(GetValue(c, MSBuildTask.SpecifyTargets)) && !IsEmpty(GetValue(c, MSBuildTask.Targets));
      ((exists i :: 0 <= i < |args| && StartsWith(args[i], TargetsPrefix)) <==> wanted)
      && (wanted ==> n + 1 < |args| && args[n + 1] == TargetsPrefix + RemoveRegexSpaces(c[MSBuildTask.Targets])
                     && NoRegexSpace(args[n + 1][|TargetsPrefix|..]))
  {
    if IsTrue(GetValue(c, MSBuildTask.SpecifyTargets)) && !IsEmpty(GetValue(c, MSBuildTask.Targets)) {
      TargetsFlagPresent(c);
    } else {
      TargetsFlagAbsent(c);
    }
  }

  lemma TargetsFlagPresent(c: Config)
    requires IsTrue(GetValue(c, MSBuildTask.SpecifyTargets)) && !IsEmpty(GetValue(c, MSBuildTask.Targets))
    ensures var args, n := MSBuildArguments(c), |PropertyArguments(c)|;
      n + 1 < |args| && args[n + 1] == TargetsPrefix + RemoveRegexSpaces(c[MSBuildTask.Targets])
      && StartsWith(args[n + 1], TargetsPrefix) && NoRegexSpace(args[n + 1][|TargetsPrefix|..])
  {
    ArgumentSections(c);
    PrefixStarts(TargetsPrefix, RemoveRegexSpaces(c[MSBuildTask.Targets]));
  }

  lemma TargetsFlagAbsent(c: Config)
    requires !(IsTrue(GetValue(c, MSBuildTask.SpecifyTargets)) && !IsEmpty(GetValue(c, MSBuildTask.Targets)))
    ensures var args := MSBuildArguments(c);
      forall i :: 0 <= i < |args| ==> !StartsWith(args[i], TargetsPrefix)
  {
    var args := MSBuildArguments(c);
    PropertyFlagsMarked(c);
    OtherFlagsMarked(c);
    NoTargetsMarked(PropertyArguments(c), VerbosityArgument(c), TargetsArguments(c), SwitchArguments(c));
    forall i | 0 <= i < |args| ensures !StartsWith(args[i], TargetsPrefix) {
      DiffersAt(args[i], TargetsPrefix, 1);
    }
  }

  /** Without a targets section no argument carries the targets marker. */
  lemma NoTargetsMarked(p: seq<string>, v: string, t: seq<string>, sw: seq<string>)
    requires SectionsMarked(p, v, t, sw) && t == []
    ensures var args := p + [v] + t + sw;
      forall i :: 0 <= i < |args| ==> |args[i]| > 1 && args[i][1] != 't'
  {
    ConcatSections(p, v, t, sw);
  }

  /** Each switch is on the command line exactly when its box is "true". */
  lemma SwitchPresentIff(c: Config)
    ensures FileLoggerSwitch in MSBuildArguments(c) <==> IsTrue(GetValue(c, MSBuildTask.FileLogger))
    ensures DetailedSummarySwitch in MSBuildArguments(c) <==> IsTrue(GetValue(c, MSBuildTask.DetailedSummary))
    ensures NoLogoSwitch in MSBuildArguments(c) <==> IsTrue(GetValue(c, MSBuildTask.NoLogo))
    ensures NoAutoResponseSwitch in MSBuildArguments(c) <==> IsTrue(GetValue(c, MSBuildTask.NoAutoResponse))
  {
    SwitchesIff(c);
    SwitchOnlyAmongSwitches(c, FileLoggerSwitch);
    SwitchOnlyAmongSwitches(c, DetailedSummarySwitch);
    SwitchOnlyAmongSwitches(c, NoLogoSwitch);
    SwitchOnlyAmongSwitches(c, NoAutoResponseSwitch);
  }

  lemma SwitchOnlyAmongSwitches(c: Config, x: string)
    requires SwitchMarked(x)
    ensures x in MSBuildArguments(c) <==> x in SwitchArguments(c)
  {
    PropertyFlagsMarked(c);
    OtherFlagsMarked(c);
    assert MSBuildArguments(c) == PropertyArguments(c) + [VerbosityArgument(c)] + TargetsArguments(c) + SwitchArguments(c);
    MarkedSections(PropertyArguments(c), VerbosityArgument(c), TargetsArguments(c), SwitchArguments(c));
  }

  predicate SectionsMarked(p: seq<string>, v: string, t: seq<string>, sw: seq<string>) {
    (forall i :: 0 <= i < |p| ==> Marked(p[i], 'p'))
    && Marked(v, 'v')
    && (forall i :: 0 <= i < |t| ==> Marked(t[i], 't'))
    && (forall i :: 0 <= i < |sw| ==> SwitchMarked(sw[i]))
  }

  /** Arguments of different kinds differ, so a switch can only come from the switches and
      a repeated argument only from the property flags. */
  lemma MarkedSections(p: seq<string>, v: string, t: seq<string>, sw: seq<string>)
    requires SectionsMarked(p, v, t, sw)
    ensures forall x :: SwitchMarked(x) ==> (x in p + [v] + t + sw <==> x in sw)
    ensures |t| <= 1 && (forall i, j :: 0 <= i < j < |sw| ==> sw[i] != sw[j]) ==>
      forall i, j :: 0 <= i < j < |p + [v] + t + sw| && (p + [v] + t + sw)[i] == (p + [v] + t + sw)[j] ==> j < |p|
  {
    var args := p + [v] + t + sw;
    ConcatSections(p, v, t, sw);
    forall x | SwitchMarked(x) && x in args ensures x in sw {
      var i :| 0 <= i < |args| && args[i] == x;
      assert args[i] == sw[i - |p| - 1 - |t|];
    }
  }

  /** Only property flags can repeat: the verbosity, the targets and each switch occur at
      most once. */
  lemma OnlyPropertyFlagsRepeat(c: Config)
    ensures var args := MSBuildArguments(c);
      forall i, j :: 0 <= i < j < |args| && args[i] == args[j] ==> StartsWith(args[i], PropertyPrefix)
  {
    PropertyFlagsMarked(c);
    OtherFlagsMarked(c);
    SwitchesIff(c);
    PropertyFlagsSpaceFree(c);
    var args := MSBuildArguments(c);
    assert args == PropertyArguments(c) + [VerbosityArgument(c)] + TargetsArguments(c) + SwitchArguments(c);
    MarkedSections(PropertyArguments(c), VerbosityArgument(c), TargetsArguments(c), SwitchArguments(c));
    ConcatSections(PropertyArguments(c), VerbosityArgument(c), TargetsArguments(c), SwitchArguments(c));
  }

  /** AdditionalParameters: absent raises a NullPointerException; present, every line
      becomes one argument without its whitespace, so a value without line breaks is one
      argument and an empty value adds one empty argument. */
  lemma AdditionalArgumentsCases(c: Config)
    ensures AdditionalArguments(c).Thrown? <==> MSBuildTask.AdditionalParameters !in c
    ensures AdditionalArguments(c).Thrown? ==> AdditionalArguments(c).exception == NullPointerException
    ensures AdditionalArguments(c).Ok? ==>
      forall i :: 0 <= i < |AdditionalArguments(c).value| ==> NoRegexSpace(AdditionalArguments(c).value[i])
    ensures MSBuildTask.AdditionalParameters in c && NoLineBreak(c[MSBuildTask.AdditionalParameters]) ==>
      AdditionalArguments(c) == Ok([RemoveRegexSpaces(c[MSBuildTask.AdditionalParameters])])
    ensures GetValue(c, MSBuildTask.AdditionalParameters) == Some("") ==> AdditionalArguments(c) == Ok([""])
  {
    if MSBuildTask.AdditionalParameters in c {
      var value := c[MSBuildTask.AdditionalParameters];
      var extra := AdditionalArguments(c).value;
      var pieces := SplitLineRuns(value);
      assert extra == Stripped(pieces);
      forall i | 0 <= i < |extra| ensures NoRegexSpace(extra[i]) {
        assert extra[i] == RemoveRegexSpaces(pieces[i]);
      }
      if NoLineBreak(value) {
        assert pieces == [value];
        assert extra == [RemoveRegexSpaces(value)];
        if value == "" {
          assert RemoveRegexSpaces("") == "";
        }
      }
    }
  }

  /** Parameters written one per line give one argument per line, in order. */
  lemma AdditionalArgumentsFollowLines(c: Config, lines: seq<string>)
    requires MSBuildTask.AdditionalParameters in c && c[MSBuildTask.AdditionalParameters] == JoinLines(lines)
    requires |lines| >= 1
    requires forall i :: 0 <= i < |lines| ==> NoLineBreak(lines[i])
    requires forall i :: 0 < i < |lines| ==> lines[i] != ""
    ensures AdditionalArguments(c) == Ok(Stripped(lines))
  {
    SplitLineRunsOfJoin(lines);
  }

  /** The command starts with the program and ends with SolutionFile exactly as configured;
      everything in between is an argument, never `null`. */
  lemma CommandShape(c: Config)
    requires MSBuildTask.AdditionalParameters in c
    ensures var cmd := Command(c).value;
      |cmd| >= 3
      && (IsTrue(GetValue(c, MSBuildTask.CustomizeMSBuildPath)) ==> cmd[0] == GetValue(c, MSBuildTask.MSBuildPath))
      && (!IsTrue(GetValue(c, MSBuildTask.CustomizeMSBuildPath)) ==> cmd[0] == Some(DefaultMSBuildPath))
      && cmd[|cmd| - 1] == GetValue(c, MSBuildTask.SolutionFile)
      && (forall i :: 0 < i < |cmd| - 1 ==> cmd[i].Some?)
  {
    assert |MSBuildArguments(c)| >= 1 by { ArgumentSections(c); }
    FramedArguments(ToolPath(c), MSBuildArguments(c), AdditionalArguments(c).value,
                    GetValue(c, MSBuildTask.SolutionFile));
  }

  /** Arguments lifted between a first and a last element: none of them is `null`. */
  lemma FramedArguments(first: Option<string>, args: seq<string>, extra: seq<string>, last: Option<string>)
    requires |args| >= 1
    ensures var cmd := [first] + NonNull(args) + NonNull(extra) + [last];
      |cmd| >= 3 && cmd[0] == first && cmd[|cmd| - 1] == last
      && (forall i :: 0 < i < |cmd| - 1 ==> cmd[i].Some?)
  {
    var cmd := [first] + NonNull(args) + NonNull(extra) + [last];
    NonNullAppend(args, extra);
    forall i | 0 < i < |cmd| - 1 ensures cmd[i].Some? {
      assert cmd[i] == NonNull(args + extra)[i - 1];
      NonNullIndex(args + extra, i - 1);
    }
  }

  /** The command holds a `null` exactly when a customised MSBuildPath or the SolutionFile
      is missing. */
  lemma CommandNullIff(c: Config)
    requires MSBuildTask.AdditionalParameters in c
    ensures None in Command(c).value <==>
      (IsTrue(GetValue(c, MSBuildTask.CustomizeMSBuildPath)) && MSBuildTask.MSBuildPath !in c)
      || MSBuildTask.SolutionFile !in c
  {
    var cmd := Command(c).value;
    CommandShape(c);
    if None in cmd {
      var i :| 0 <= i < |cmd| && cmd[i] == None;
      assert i == 0 || i == |cmd| - 1;
    }
  }

  /** The task reports success exactly when the command has no `null` element and the
      process exits with code 0; a `null` element makes the launch fail with the
      NullPointerException as the cause. */
  lemma BuildSucceedsIff(c: Config, outcome: ProcessOutcome)
    requires MSBuildTask.AdditionalParameters in c
    ensures Verdict(Start(Command(c).value, outcome)).Success? <==>
      outcome == Exited(0)
      && !(IsTrue(GetValue(c, MSBuildTask.CustomizeMSBuildPath)) && MSBuildTask.MSBuildPath !in c)
      && MSBuildTask.SolutionFile in c
    ensures MSBuildTask.SolutionFile !in c ==>
      Verdict(Start(Command(c).value, outcome)) == Failure(LaunchFailure, Some(NullPointerException))
  {
    CommandNullIff(c);
  }

  // ---------------------------------------------------------------------------
  // What validation guarantees about the command line
  // ---------------------------------------------------------------------------

  /** When validation accepts Properties, and the text is empty or not blank and has no
      carriage return outside a "\r\n" pair, every property flag carries a well-formed
      `name=value`. The two splits then cut the text at the same places. */
  lemma AcceptedPropertiesGiveNameValueFlags(c: Config)
    requires MSBuildTask.ValidationErrors(c).Ok?
    requires !MSBuildTask.HasErrorFor(MSBuildTask.ValidationErrors(c).value, MSBuildTask.Properties)
    requires IsEmpty(GetValue(c, MSBuildTask.Properties)) || !IsBlank(GetValue(c, MSBuildTask.Properties))
    requires MSBuildTask.Properties in c ==> NoLoneCarriageReturn(c[MSBuildTask.Properties])
    ensures forall i :: 0 <= i < |PropertyArguments(c)| ==>
      StartsWith(PropertyArguments(c)[i], PropertyPrefix)
      && MatchesNameValue(PropertyArguments(c)[i][|PropertyPrefix|..])
  {
    if !IsEmpty(GetValue(c, MSBuildTask.Properties)) {
      var text := c[MSBuildTask.Properties];
      MSBuildTask.ErrorForFieldIff(c);
      assert MSBuildTask.PropertyLinesWellFormed(text);
      var lines := SplitNewlines(text);
      forall i | 0 <= i < |lines| ensures lines[i] != "" {
        MatchesNameValueNonEmpty(RemoveRegexSpaces(lines[i]));
      }
      SplitsAgree(text);
      var props := PropertyArguments(c);
      forall i | 0 <= i < |props|
        ensures StartsWith(props[i], PropertyPrefix) && MatchesNameValue(props[i][|PropertyPrefix|..])
      {
        PrefixStarts(PropertyPrefix, RemoveRegexSpaces(lines[i]));
      }
    }
  }

  /** Without the carriage-return condition the guarantee fails: validation splits
      "a\r=b" only at newlines and accepts it as `a=b`, while the command splits it at the
      carriage return too and passes `/property:a` and `/property:=b` to MSBuild. */
  lemma LoneCarriageReturnSplitsProperty()
    ensures var c := map[MSBuildTask.Properties := "a\r=b"];
      MSBuildTask.PropertyLinesWellFormed(c[MSBuildTask.Properties])
      && PropertyArguments(c) == ["/property:a", "/property:=b"]
      && !MatchesNameValue(PropertyArguments(c)[1][|PropertyPrefix|..])
  {
    var c := map[MSBuildTask.Properties := "a\r=b"];
    LoneCarriageReturnAccepted();
    LoneCarriageReturnSplits();
    assert NoRegexSpace("a") && NoRegexSpace("=b");
    assert PropertyArguments(c) == Flags(PropertyPrefix, ["a", "=b"]);
    assert PropertyArguments(c) == [PropertyPrefix + "a", PropertyPrefix + "=b"];
    assert PropertyPrefix + "a" == "/property:a" && PropertyPrefix + "=b" == "/property:=b";
    PrefixStarts(PropertyPrefix, "=b");
  }

  /** Validation: no newline, so one line, which loses its carriage return. */
  lemma LoneCarriageReturnAccepted()
    ensures MSBuildTask.PropertyLinesWellFormed("a\r=b")
  {
    var text := "a\r=b";
    assert text[1] == '\r';
    assert SplitNewlines(text) == [text];
    assert text == "a\r" + "=b";
    RemoveRegexSpacesConcat("a\r", "=b");
    RemoveRegexSpacesConcat("a", "\r");
    assert "\r"[1..] == "";
    assert RemoveRegexSpaces("\r") == "";
    assert RemoveRegexSpaces(text) == "a=b";
    var line := "a=b";
    assert line[1] == '=' && line[..1] == "a" && line[2..] == "b";
    assert AllWordChars(line[..1]) && AllWordChars(line[2..]);
  }

  /** The command: the carriage return separates two pieces. */
  lemma LoneCarriageReturnSplits()
    ensures SplitLineRuns("a\r=b") == ["a", "=b"]
  {
    var text := "a\r=b";
    assert text[1..] == "\r=b" && "\r=b"[1..] == "=b" && "=b"[1..] == "b" && "b"[1..] == "";
    assert LineRunPieces("") == [""];
    assert [""][1..] == [] && ['b'] + "" == "b";
    assert LineRunPieces("b") == ["b"];
    assert ['='] + "b" == "=b";
    assert LineRunPieces("=b") == ["=b"];
    assert SkipLineBreaks("=b") == "=b";
    assert LineRunPieces("\r=b") == ["", "=b"];
    assert ["", "=b"][1..] == ["=b"] && ['a'] + "" == "a";
    assert LineRunPieces(text) == ["a", "=b"];
    DropTrailingEmptyKeeps(["a", "=b"]);
    assert text[1] == '\r';
  }

  /** Nor does it hold for a blank text: validation skips a Properties text made only of
      whitespace, while the command gets one empty `/property:` per `[\r\n]+` piece of it
      (none for a text of line breaks only, exactly one for a text without a line break). */
  lemma BlankPropertiesGiveEmptyFlags(c: Config)
    requires MSBuildTask.Properties in c
    requires c[MSBuildTask.Properties] != "" && AllRegexSpaces(c[MSBuildTask.Properties])
    ensures var text, args := c[MSBuildTask.Properties], PropertyArguments(c);
      !MSBuildTask.PropertiesRuleFires(c)
      && |args| == |SplitLineRuns(text)|
      && (forall i :: 0 <= i < |args| ==> args[i] == "/property:")
      && (NoLineBreak(text) ==> args == ["/property:"])
  {
    var text, args := c[MSBuildTask.Properties], PropertyArguments(c);
    RegexSpacesAreBlank(text);
    SplitLineRunsAllSpaces(text);
    var pieces := SplitLineRuns(text);
    forall i | 0 <= i < |args| ensures args[i] == "/property:" {
      RemoveAllRegexSpaces(pieces[i]);
      assert args[i] == PropertyPrefix + "";
    }
  }

  /** Two blank texts with line breaks: `\n` gives no flag, and ` \n ` gives two empty ones. */
  lemma LineBreakBlankProperties()
    ensures PropertyArguments(map[MSBuildTask.Properties := "\n"]) == []
    ensures PropertyArguments(map[MSBuildTask.Properties := " \n "]) == ["/property:", "/property:"]
  {
    assert "\n"[1..] == "" && " \n "[1..] == "\n " && "\n "[1..] == " " && " "[1..] == "";
    assert LineRunPieces("") == [""];
    assert [""][1..] == [];
    assert SkipLineBreaks("") == "" && SkipLineBreaks(" ") == " ";
    assert LineRunPieces("\n") == ["", ""];
    assert DropTrailingEmpty([""]) == [];
    assert ["", ""][1..] == [""];
    assert DropTrailingEmpty(["", ""]) == [];
    assert !NoLineBreak("\n");
    assert SplitLineRuns("\n") == [];
    assert [' '] + "" == " ";
    assert LineRunPieces(" ") == [" "];
    assert LineRunPieces("\n ") == ["", " "];
    assert PrependToFirst(' ', ["", " "]) == [" ", " "];
    assert LineRunPieces(" \n ") == [" ", " "];
    DropTrailingEmptyKeeps([" ", " "]);
    assert !NoLineBreak(" \n ");
    assert SplitLineRuns(" \n ") == [" ", " "];
    BlankPropertiesGiveEmptyFlags(map[MSBuildTask.Properties := " \n "]);
  }

  /** A blank text need not be whitespace to `\s`: U+2000 is skipped by validation and kept,
      unchanged, in its `/property:` flag. */
  lemma UnicodeBlankPropertyKept()
    ensures var c := map[MSBuildTask.Properties := "\U{2000}"];
      !MSBuildTask.PropertiesRuleFires(c) && PropertyArguments(c) == ["/property:\U{2000}"]
  {
    var c := map[MSBuildTask.Properties := "\U{2000}"];
    assert "\U{2000}"[1..] == "";
    assert RemoveRegexSpaces("\U{2000}") == "\U{2000}";
    assert SplitLineRuns("\U{2000}") == ["\U{2000}"];
    assert PropertyArguments(c) == [PropertyPrefix + "\U{2000}"];
    assert PropertyPrefix + "\U{2000}" == "/property:\U{2000}";
  }

  /** A typical command: only SolutionFile, NoLogo and an empty AdditionalParameters set. */
  lemma MinimalCommand()
    ensures var c := map[MSBuildTask.SolutionFile := "app.sln", MSBuildTask.NoLogo := "true",
                         MSBuildTask.AdditionalParameters := ""];
      Command(c) == Ok([Some(DefaultMSBuildPath), Some("/verbosity:normal"), Some("/nologo"), Some(""), Some("app.sln")])
  {
    var full := [Some(DefaultMSBuildPath)] + [Some("/verbosity:normal"), Some("/nologo")] + [Some("")] + [Some("app.sln")];
    assert |full| == 5 && full[0] == Some(DefaultMSBuildPath) && full[1] == Some("/verbosity:normal")
        && full[2] == Some("/nologo") && full[3] == Some("") && full[4] == Some("app.sln");
    assert full == [Some(DefaultMSBuildPath), Some("/verbosity:normal"), Some("/nologo"), Some(""), Some("app.sln")];
    MinimalNonNull();
    MinimalParts();
    var c := map[MSBuildTask.SolutionFile := "app.sln", MSBuildTask.NoLogo := "true",
                 MSBuildTask.AdditionalParameters := ""];
    CommandOfParts(c, DefaultMSBuildPath, ["/verbosity:normal", "/nologo"], [""], "app.sln");
  }

  lemma MinimalNonNull()
    ensures NonNull(["/verbosity:normal", "/nologo"]) == [Some("/verbosity:normal"), Some("/nologo")]
    ensures NonNull([""]) == [Some("")]
  {
    assert ["/verbosity:normal", "/nologo"][1..] == ["/nologo"];
    assert ["/nologo"][1..] == [];
    assert [""][1..] == [];
  }

  lemma MinimalParts()
    ensures var c := map[MSBuildTask.SolutionFile := "app.sln", MSBuildTask.NoLogo := "true",
                         MSBuildTask.AdditionalParameters := ""];
      MSBuildArguments(c) == ["/verbosity:normal", "/nologo"]
      && AdditionalArguments(c) == Ok([""])
      && ToolPath(c) == Some(DefaultMSBuildPath)
      && GetValue(c, MSBuildTask.SolutionFile) == Some("app.sln")
  {
    assert VerbosityPrefix + "normal" == "/verbosity:normal";
    var c := map[MSBuildTask.SolutionFile := "app.sln", MSBuildTask.NoLogo := "true",
                 MSBuildTask.AdditionalParameters := ""];
    assert PropertyArguments(c) == [];
    assert TargetsArguments(c) == [];
    assert SwitchArguments(c) == [NoLogoSwitch];
    assert VerbosityArgument(c) == "/verbosity:normal";
    assert MSBuildArguments(c) == [] + ["/verbosity:normal"] + [] + ["/nologo"];
    AdditionalArgumentsCases(c);
  }

  /** The command assembled from its parts. */
  lemma CommandOfParts(c: Config, path: string, args: seq<string>, extra: seq<string>, solution: string)
    requires ToolPath(c) == Some(path) && MSBuildArguments(c) == args
    requires AdditionalArguments(c) == Ok(extra) && GetValue(c, MSBuildTask.SolutionFile) == Some(solution)
    ensures Command(c) == Ok([Some(path)] + NonNull(args) + NonNull(extra) + [Some(solution)])
  {
  }
}
