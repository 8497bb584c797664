# gocd-msbuild-taskplugin in Dafny

A model of the GoCD task plugin that runs MSBuild. The model covers two Java classes:

- `MSBuildTask` declares the task's configuration keys with `config()`. `validate()` checks a
  configuration: a customised MSBuild path must be given, a solution file must be given, every
  Properties line must be `name=value`, and Targets must be given when SpecifyTargets is ticked.
- `MSBuildTaskExecutor` builds the MSBuild command line: the program, then `/property:`,
  `/verbosity:`, `/targets:`, the check-box switches, the additional parameters and the solution
  file. `execute()` runs the command and turns its exit code into `Build Success`,
  `Build Failure`, or a failure carrying the exception that stopped the launch.

Files and modules:

- `java_lang.dfy` (module `JavaLang`) holds Java `null` (`Option`), the exceptions the code
  raises or catches, and a `Result` that is either a normal return or a thrown exception.
- `java_text.dfy` (module `JavaText`) holds the Java and commons-lang string operations the
  plugin uses:
  - `replaceAll("\\s+", "")` and `replaceAll("\\s", "")`, which are the same function;
  - `split("[\r\n]+")` and `split("\\r?\\n")`, with Java's limit-0 rules: trailing empty
    pieces are dropped, a leading separator leaves a leading `""`, and a text with no
    separator is its own only piece;
  - `matches("\\w+=\\w+")`;
  - `StringUtils.isEmpty` and `StringUtils.isBlank`. `isBlank` uses `Character.isWhitespace`,
    which is not the regex `\s` class.
- `go_api.dfy` (module `GoApi`) holds the parts of the GoCD plugin API the plugin uses:
  - a configuration is a `map<string, string>`, and a missing key is what `getValue` answers
    `null` to;
  - `TaskConfig` and `ValidationResult` are classes whose `addProperty` and `addError` append
    to a list;
  - `ValidationError` and `ExecutionResult` are values.
- `msbuild_task.dfy` (module `MSBuildTask`) models `config()`, `validate()` and
  `propertiesValid()`.
- `msbuild_task_executor.dfy` (module `MSBuildTaskExecutor`) models `createMSBuildCommand()`,
  its three helpers, and the verdict `execute()` returns.

Each method is proved against a specification function: `ValidationErrors` gives the errors
`validate` collects, `Command` gives the full command line, and `Verdict` gives the result of
`execute`. The lemmas state what the plugin promises about those functions.

The model takes these details from the code:

- The tool-path keys are `CustomizeMSBuildPath` and `MSBuildPath`.
- The working directory is not joined onto the solution path: SolutionFile is added verbatim,
  and the directory is only where the ProcessBuilder starts the process.
- Properties and AdditionalParameters are split on runs of `\r` and `\n` (`[\r\n]+`).
  Validation splits on `\r?\n`. Both splits take `\r\n` line endings as one separator
  (`CrlfNewlines`, `CrlfLineRuns`).
- Java's `split` drops trailing empty pieces, so `propertiesValid` ignores empty lines at the
  end of the text: `foo=bar\n` is accepted although `""` is not `name=value`
  (`TrailingBreakIgnored`, `TrailingBreakExample`). An empty line before a non-empty one is
  still checked, and rejected. A text that starts with a line break gives the command a
  bare `/property:` first (`LeadingBreakGivesEmptyFlag`).
- Verbosity and Targets are tested with `isEmpty`, not `isBlank`. So when SpecifyTargets is
  "true", Targets `"  "` gives `/targets:` with nothing after it.
- An AdditionalParameters of `""` adds one empty argument. A missing AdditionalParameters
  raises a `NullPointerException` outside the `try`, so it escapes `execute`. A missing
  SpecifyTargets raises one inside `validate`.
- The constants `FILELOGGER` and `ADDITIONALPARAMETERS` that the executor reads are not
  defined in `MSBuildTask`, and `config()` does not declare them. The model uses the key names
  `FileLogger` and `AdditionalParameters` that the constant names spell.
- The messages are exactly `Build Success`, `Build Failure` and
  `Failed while running MSBuild task ` (with a trailing space).

Two behaviours follow from the code and are proved rather than assumed away:

- A Properties text that `propertiesValid` accepts can still give malformed `/property:` flags
  when it holds a carriage return that is not followed by a newline. For `"a\r=b"`,
  `propertiesValid` sees one line `a=b`, but the command gets `/property:a` and `/property:=b`
  (`LoneCarriageReturnSplitsProperty`).
- Validation skips a blank Properties text (`isBlank`), but the command only skips an empty
  one (`isEmpty`). For a non-empty text made only of regex `\s` characters, the command gets
  one empty `/property:` flag per `[\r\n]+` piece (`BlankPropertiesGiveEmptyFlags`). That is
  exactly one flag when the text has no line break, as for `" "`. It is none for `"\n"`, and
  two for `" \n "` (`LineBreakBlankProperties`). A character that `isBlank` counts as
  whitespace but `\s` does not, such as U+2000, is not removed, so `"\u2000"` gives the flag
  `/property:\u2000` (`UnicodeBlankPropertyKept`).

`AcceptedPropertiesGiveNameValueFlags` proves that without these two cases every property flag
carries a well-formed `name=value`.

The uniqueness results about verbosity, targets and switches (`VerbosityExactlyOnce`,
`SwitchPresentIff`, `OnlyPropertyFlagsRepeat`) are about the arguments `AddMSBuildArguments`
appends. The additional parameters come after them and are copied as written, so they can
repeat any flag: an AdditionalParameters of `/verbosity:q` gives a second verbosity argument.

## Model

| member | source | states |
|---|---|---|
| JavaText.EmptyIsBlank | gocd-msbuild-taskplugin/src/com/go/plugin/task/msbuild/MSBuildTask.java:90 | an empty value is blank, but `" "` is blank without being empty, so the two tests differ |
| JavaText.RemoveRegexSpaces | gocd-msbuild-taskplugin/src/com/go/plugin/task/msbuild/MSBuildTaskExecutor.java:77 | deleting whitespace leaves no `\s` character, never lengthens the text, and leaves whitespace-free text unchanged |
| JavaText.RemoveRegexSpacesConcat | gocd-msbuild-taskplugin/src/com/go/plugin/task/msbuild/MSBuildTask.java:111 | deleting whitespace from a concatenation is deleting it from each part |
| JavaText.SplitLineRuns | gocd-msbuild-taskplugin/src/com/go/plugin/task/msbuild/MSBuildTaskExecutor.java:74 | no piece of `split("[\r\n]+")` holds a line break, and only the first piece can be empty |
| JavaText.SplitLineRunsOfJoin | gocd-msbuild-taskplugin/src/com/go/plugin/task/msbuild/MSBuildTaskExecutor.java:121 | splitting break-free lines joined by newlines, none empty after the first, gives back exactly those lines |
| JavaText.SplitNewlines | gocd-msbuild-taskplugin/src/com/go/plugin/task/msbuild/MSBuildTask.java:107 | no piece of `split("\\r?\\n")` holds a newline, and the last piece is not empty unless the text had no separator |
| JavaText.SplitNewlinesOfJoin | gocd-msbuild-taskplugin/src/com/go/plugin/task/msbuild/MSBuildTask.java:107 | splitting break-free lines joined by newlines, the last one non-empty, gives back exactly those lines, empty interior lines included |
| JavaText.SplitNewlinesOfJoinWithBreak | gocd-msbuild-taskplugin/src/com/go/plugin/task/msbuild/MSBuildTask.java:107 | splitting `\n`-joined break-free lines, the last non-empty, with one more `\n` at the end, gives back exactly those lines |
| JavaText.CrlfNewlines | gocd-msbuild-taskplugin/src/com/go/plugin/task/msbuild/MSBuildTask.java:107 | `split("\\r?\\n")` cuts `a=b\r\nc=d` into `a=b` and `c=d` |
| JavaText.CrlfLineRuns | gocd-msbuild-taskplugin/src/com/go/plugin/task/msbuild/MSBuildTaskExecutor.java:74 | `split("[\r\n]+")` cuts `a\r\n\r\nb` into `a` and `b`, leaving no empty piece |
| JavaText.SplitsAgree | gocd-msbuild-taskplugin/src/com/go/plugin/task/msbuild/MSBuildTaskExecutor.java:74 | the two splits give the same pieces for a text with no lone `\r` whose `\r?\n` pieces are all non-empty |
| JavaText.MatchesNameValue | gocd-msbuild-taskplugin/src/com/go/plugin/task/msbuild/MSBuildTask.java:108-114 | a line matches `\w+=\w+` exactly when some `=` has one or more word characters before it and after it, and nothing else |
| JavaText.EqualsSignIsSeparator | gocd-msbuild-taskplugin/src/com/go/plugin/task/msbuild/MSBuildTask.java:108 | in a matching line every `=` is the separator, so there is only one |
| JavaText.MatchesNameValueNonEmpty | gocd-msbuild-taskplugin/src/com/go/plugin/task/msbuild/MSBuildTask.java:108 | a matching line is at least three characters long |
| GoApi.TaskConfig.constructor | gocd-msbuild-taskplugin/src/com/go/plugin/task/msbuild/MSBuildTask.java:31 | a new TaskConfig declares no keys |
| GoApi.TaskConfig.AddProperty | gocd-msbuild-taskplugin/src/com/go/plugin/task/msbuild/MSBuildTask.java:32 | `addProperty` appends the key to the declared keys |
| GoApi.ValidationResult.constructor | gocd-msbuild-taskplugin/src/com/go/plugin/task/msbuild/MSBuildTask.java:74 | a new ValidationResult holds no errors |
| GoApi.ValidationResult.AddError | gocd-msbuild-taskplugin/src/com/go/plugin/task/msbuild/MSBuildTask.java:80 | `addError` appends the error |
| MSBuildTask.Config | gocd-msbuild-taskplugin/src/com/go/plugin/task/msbuild/MSBuildTask.java:29-45 | `config()` returns a fresh TaskConfig declaring the ten keys in source order |
| MSBuildTask.DeclaredKeysSchema | gocd-msbuild-taskplugin/src/com/go/plugin/task/msbuild/MSBuildTask.java:18-43 | the ten declared keys are distinct, and FileLogger and AdditionalParameters are not among them |
| MSBuildTask.PropertiesValid | gocd-msbuild-taskplugin/src/com/go/plugin/task/msbuild/MSBuildTask.java:105-118 | the answer is true exactly when every `\r?\n` piece, with its whitespace removed, matches `name=value` |
| MSBuildTask.JoinedLinesWellFormed | gocd-msbuild-taskplugin/src/com/go/plugin/task/msbuild/MSBuildTask.java:105-118 | text written as lines, the last one not empty, passes the check exactly when each line, with its whitespace removed, is `name=value` |
| MSBuildTask.TrailingBreakIgnored | gocd-msbuild-taskplugin/src/com/go/plugin/task/msbuild/MSBuildTask.java:107-117 | a line break after a non-empty last line does not change whether the text passes the check |
| MSBuildTask.TrailingBreakExample | gocd-msbuild-taskplugin/src/com/go/plugin/task/msbuild/MSBuildTask.java:107-117 | `foo=bar\n` passes the check, its trailing empty line unseen |
| MSBuildTask.BlankLineRejected | gocd-msbuild-taskplugin/src/com/go/plugin/task/msbuild/MSBuildTask.java:107-115 | when the last line is not empty, a line that is empty once its whitespace is removed makes the check fail |
| MSBuildTask.LineWithoutEqualsRejected | gocd-msbuild-taskplugin/src/com/go/plugin/task/msbuild/MSBuildTask.java:108-115 | when the last line is not empty, a line with no `=` makes the check fail |
| MSBuildTask.EqualsSurvivesSpaceRemoval | gocd-msbuild-taskplugin/src/com/go/plugin/task/msbuild/MSBuildTask.java:111 | removing whitespace never creates an `=` |
| MSBuildTask.Validate | gocd-msbuild-taskplugin/src/com/go/plugin/task/msbuild/MSBuildTask.java:72-103 | `validate` raises a NullPointerException exactly when SpecifyTargets is absent; otherwise it returns a fresh result holding the rule errors in order |
| MSBuildTask.ValidateThrowsIff | gocd-msbuild-taskplugin/src/com/go/plugin/task/msbuild/MSBuildTask.java:94-95 | validation raises exactly when SpecifyTargets is absent |
| MSBuildTask.ErrorForFieldIff | gocd-msbuild-taskplugin/src/com/go/plugin/task/msbuild/MSBuildTask.java:76-100 | each field gets an error exactly when its rule fires: a customised blank path, a blank solution file, a non-blank malformed Properties, blank Targets with SpecifyTargets "true" |
| MSBuildTask.ErrorsInFieldOrder | gocd-msbuild-taskplugin/src/com/go/plugin/task/msbuild/MSBuildTask.java:74-102 | the errors come in field order with at most one error per field |
| MSBuildTask.AcceptedIff | gocd-msbuild-taskplugin/src/com/go/plugin/task/msbuild/MSBuildTask.java:72-103 | the configuration is accepted exactly when no rule fires |
| MSBuildTask.SpacedPropertyAccepted | gocd-msbuild-taskplugin/src/com/go/plugin/task/msbuild/MSBuildTask.java:109-115 | `foo = bar` passes the check |
| MSBuildTask.SpacesAroundEqualsRemoved | gocd-msbuild-taskplugin/src/com/go/plugin/task/msbuild/MSBuildTask.java:111 | spaces around the `=` of a property line vanish, leaving `name=value` |
| MSBuildTask.SpacedPropertyNormalised | gocd-msbuild-taskplugin/src/com/go/plugin/task/msbuild/MSBuildTask.java:111 | `foo = bar` becomes `foo=bar` once its whitespace is removed |
| MSBuildTask.NameValueExample | gocd-msbuild-taskplugin/src/com/go/plugin/task/msbuild/MSBuildTask.java:108 | `foo=bar` matches `\w+=\w+` |
| MSBuildTask.LineWithoutEqualsExample | gocd-msbuild-taskplugin/src/com/go/plugin/task/msbuild/MSBuildTask.java:114 | `foo bar` fails the check |
| MSBuildTask.EmptyLineExample | gocd-msbuild-taskplugin/src/com/go/plugin/task/msbuild/MSBuildTask.java:107 | an empty line between two good ones makes the check fail |
| MSBuildTaskExecutor.CommandList.constructor | gocd-msbuild-taskplugin/src/com/go/plugin/task/msbuild/MSBuildTaskExecutor.java:46 | the command list starts empty |
| MSBuildTaskExecutor.CommandList.Add | gocd-msbuild-taskplugin/src/com/go/plugin/task/msbuild/MSBuildTaskExecutor.java:53 | `add` appends one element, which may be `null` |
| MSBuildTaskExecutor.CreateMSBuildCommand | gocd-msbuild-taskplugin/src/com/go/plugin/task/msbuild/MSBuildTaskExecutor.java:44-63 | building the command raises a NullPointerException exactly when AdditionalParameters is absent; otherwise the ProcessBuilder holds the full command and the working directory |
| MSBuildTaskExecutor.AddProjectFile | gocd-msbuild-taskplugin/src/com/go/plugin/task/msbuild/MSBuildTaskExecutor.java:65-68 | appends SolutionFile as configured, `null` when absent |
| MSBuildTaskExecutor.AddMSBuildArguments | gocd-msbuild-taskplugin/src/com/go/plugin/task/msbuild/MSBuildTaskExecutor.java:70-117 | appends the property flags, the verbosity, the targets and the switches, in that order |
| MSBuildTaskExecutor.AddPropertyArguments | gocd-msbuild-taskplugin/src/com/go/plugin/task/msbuild/MSBuildTaskExecutor.java:71-80 | appends one `/property:` flag per `[\r\n]+` piece, without its whitespace, and nothing for an empty or absent value |
| MSBuildTaskExecutor.AddVerbosityArgument | gocd-msbuild-taskplugin/src/com/go/plugin/task/msbuild/MSBuildTaskExecutor.java:82-87 | appends `/verbosity:` with the value, or `normal` when it is absent or empty |
| MSBuildTaskExecutor.AddTargetsArgument | gocd-msbuild-taskplugin/src/com/go/plugin/task/msbuild/MSBuildTaskExecutor.java:89-96 | appends `/targets:` with Targets without its whitespace, only when SpecifyTargets is "true" and Targets is not empty |
| MSBuildTaskExecutor.AddSwitch | gocd-msbuild-taskplugin/src/com/go/plugin/task/msbuild/MSBuildTaskExecutor.java:98-116 | appends the switch exactly when its key's value is "true" |
| MSBuildTaskExecutor.AddAdditionalParameters | gocd-msbuild-taskplugin/src/com/go/plugin/task/msbuild/MSBuildTaskExecutor.java:119-127 | raises a NullPointerException and adds nothing when the key is absent; otherwise appends each `[\r\n]+` piece without its whitespace |
| MSBuildTaskExecutor.Verdict | gocd-msbuild-taskplugin/src/com/go/plugin/task/msbuild/MSBuildTaskExecutor.java:23-41 | success exactly on exit code 0; `Build Failure` with no cause on another code; a launch or wait exception gives the launch failure message with that exception as the cause |
| MSBuildTaskExecutor.Execute | gocd-msbuild-taskplugin/src/com/go/plugin/task/msbuild/MSBuildTaskExecutor.java:14-42 | `execute` raises a NullPointerException exactly when AdditionalParameters is absent; otherwise it reports the verdict for the started command |
| MSBuildTaskExecutor.PropertyFlagsSpaceFree | gocd-msbuild-taskplugin/src/com/go/plugin/task/msbuild/MSBuildTaskExecutor.java:74-79 | every property argument is `/property:` followed by a payload with no whitespace |
| MSBuildTaskExecutor.PropertyFlagsFollowLines | gocd-msbuild-taskplugin/src/com/go/plugin/task/msbuild/MSBuildTaskExecutor.java:73-79 | properties written one per line, none empty after the first, give one flag per line, in line order; an empty first line gives a bare `/property:` |
| MSBuildTaskExecutor.LeadingBreakGivesEmptyFlag | gocd-msbuild-taskplugin/src/com/go/plugin/task/msbuild/MSBuildTaskExecutor.java:72-79 | a Properties of `\na=b` gives `/property:` and then `/property:a=b` |
| MSBuildTaskExecutor.SwitchesIff | gocd-msbuild-taskplugin/src/com/go/plugin/task/msbuild/MSBuildTaskExecutor.java:98-116 | each switch is among the switch arguments exactly when its key is "true"; nothing else is, and none repeats |
| MSBuildTaskExecutor.ArgumentSections | gocd-msbuild-taskplugin/src/com/go/plugin/task/msbuild/MSBuildTaskExecutor.java:70-117 | the arguments are the property flags, then one verbosity argument, then the targets, then the switches, each kind told apart by its second character |
| MSBuildTaskExecutor.VerbosityExactlyOnce | gocd-msbuild-taskplugin/src/com/go/plugin/task/msbuild/MSBuildTaskExecutor.java:82-87 | among the arguments `AddMSBuildArguments` appends, exactly one starts with `/verbosity:`, right after the property flags; it is `/verbosity:normal` for an absent or empty value |
| MSBuildTaskExecutor.TargetsFlagIff | gocd-msbuild-taskplugin/src/com/go/plugin/task/msbuild/MSBuildTaskExecutor.java:89-96 | a `/targets:` argument exists exactly when SpecifyTargets is "true" and Targets is not empty; it follows the verbosity and its payload has no whitespace |
| MSBuildTaskExecutor.SwitchPresentIff | gocd-msbuild-taskplugin/src/com/go/plugin/task/msbuild/MSBuildTaskExecutor.java:98-116 | among the arguments `AddMSBuildArguments` appends, `/fileLogger`, `/detailedsummary`, `/nologo` and `/noautoResponse` each appear exactly when their key is "true" |
| MSBuildTaskExecutor.OnlyPropertyFlagsRepeat | gocd-msbuild-taskplugin/src/com/go/plugin/task/msbuild/MSBuildTaskExecutor.java:70-117 | among the arguments `AddMSBuildArguments` appends, only property flags can occur twice, so the verbosity, the targets and each switch occur at most once |
| MSBuildTaskExecutor.AdditionalArgumentsCases | gocd-msbuild-taskplugin/src/com/go/plugin/task/msbuild/MSBuildTaskExecutor.java:119-127 | an absent key raises a NullPointerException; otherwise no token contains whitespace, a value without line breaks is one token, and `""` gives one empty token |
| MSBuildTaskExecutor.AdditionalArgumentsFollowLines | gocd-msbuild-taskplugin/src/com/go/plugin/task/msbuild/MSBuildTaskExecutor.java:120-126 | parameters written one per line give those lines, without their whitespace, in order |
| MSBuildTaskExecutor.CommandShape | gocd-msbuild-taskplugin/src/com/go/plugin/task/msbuild/MSBuildTaskExecutor.java:46-57 | the command has at least three elements; it starts with the customised path or the built-in one and ends with SolutionFile; nothing in between is `null` |
| MSBuildTaskExecutor.CommandNullIff | gocd-msbuild-taskplugin/src/com/go/plugin/task/msbuild/MSBuildTaskExecutor.java:44-68 | the command holds a `null` exactly when a customised MSBuildPath or the SolutionFile is missing |
| MSBuildTaskExecutor.BuildSucceedsIff | gocd-msbuild-taskplugin/src/com/go/plugin/task/msbuild/MSBuildTaskExecutor.java:23-41 | the task succeeds exactly when the process exits with 0 and neither the program nor the solution file is missing; a missing solution file fails the launch with a NullPointerException cause |
| MSBuildTaskExecutor.AcceptedPropertiesGiveNameValueFlags | gocd-msbuild-taskplugin/src/com/go/plugin/task/msbuild/MSBuildTaskExecutor.java:74-78 | when validation accepts a Properties text that is empty or not blank and has no lone `\r`, every property flag carries a well-formed `name=value` |
| MSBuildTaskExecutor.LoneCarriageReturnSplitsProperty | gocd-msbuild-taskplugin/src/com/go/plugin/task/msbuild/MSBuildTaskExecutor.java:74 | `propertiesValid` accepts `a\r=b`, yet the command splits it into `/property:a` and `/property:=b`, and the second payload is malformed |
| MSBuildTaskExecutor.LoneCarriageReturnAccepted | gocd-msbuild-taskplugin/src/com/go/plugin/task/msbuild/MSBuildTask.java:107-111 | `propertiesValid` reads `a\r=b` as the single line `a=b` and accepts it |
| MSBuildTaskExecutor.LoneCarriageReturnSplits | gocd-msbuild-taskplugin/src/com/go/plugin/task/msbuild/MSBuildTaskExecutor.java:74 | the command's split cuts `a\r=b` into `a` and `=b` |
| MSBuildTaskExecutor.BlankPropertiesGiveEmptyFlags | gocd-msbuild-taskplugin/src/com/go/plugin/task/msbuild/MSBuildTaskExecutor.java:72-79 | a non-empty Properties made only of `\s` characters gets no Properties error, yet gives one `/property:` flag with an empty payload per `[\r\n]+` piece, exactly one when it has no line break |
| MSBuildTaskExecutor.LineBreakBlankProperties | gocd-msbuild-taskplugin/src/com/go/plugin/task/msbuild/MSBuildTaskExecutor.java:72-79 | a Properties of `\n` gives no property flag, and one of ` \n ` gives two empty `/property:` flags |
| MSBuildTaskExecutor.UnicodeBlankPropertyKept | gocd-msbuild-taskplugin/src/com/go/plugin/task/msbuild/MSBuildTaskExecutor.java:72-79 | a Properties of U+2000 gets no Properties error, since `isBlank` counts it as whitespace, yet gives the flag `/property:` followed by U+2000, since `\s` does not remove it |
| MSBuildTaskExecutor.MinimalCommand | gocd-msbuild-taskplugin/src/com/go/plugin/task/msbuild/MSBuildTaskExecutor.java:44-63 | with only SolutionFile, NoLogo and an empty AdditionalParameters set, the command is the built-in path, `/verbosity:normal`, `/nologo`, `""` and the solution file |

## Left out

- Launching the process is not modelled. `ProcessBuilder.start`, reading the error and output streams, `waitFor` and `destroy` are replaced by a `ProcessOutcome` parameter of `Execute`, which is either the exit code or the exception raised. The one outcome the model derives itself is the NullPointerException that `start` raises for a `null` command element.
- Nothing written to the console is modelled: the banner, the launched command line, and the exception message in the `catch`. They do not affect the result.
- The working directory is kept as the string `taskContext.workingDir()` gives. It is not resolved into a `File`.
- `view()` is not modelled. It reads an HTML template from the class path, so it is I/O.
- `executor()` is not modelled. It only creates a `MSBuildTaskExecutor`. The `@Extension` registration is left out with it.
- The GoCD API types are reduced to the fields the plugin uses. `TaskExecutionContext` is reduced to the working directory.
- `JavaText.IsJavaWhitespace` follows a current JDK's `Character.isWhitespace`. Older JDKs also counted U+180E as whitespace, and that version difference is not modelled.
- `MSBuildTaskExecutor.AddMSBuildArguments` is split into one method per block of the Java method (properties, verbosity, targets, each switch). Each block's contract is proved on its own, and the composed method appends their results in the Java order.
