/** MSBuildTask: the configuration keys the task declares, and the validation the server runs
    on a configuration before it lets the task execute. */
module MSBuildTask {
  import opened JavaLang
  import opened JavaText
  import opened GoApi

  // ---------------------------------------------------------------------------
  // Configuration keys
  // ---------------------------------------------------------------------------

  const CustomizeMSBuildPath := "CustomizeMSBuildPath"
  const MSBuildPath := "MSBuildPath"
  const SolutionFile := "SolutionFile"
  const Properties := "Properties"
  const Verbosity := "Verbosity"
  const SpecifyTargets := "SpecifyTargets"
  const Targets := "Targets"
  const DetailedSummary := "DetailedSummary"
  const NoLogo := "NoLogo"
  const NoAutoResponse := "NoAutoResponse"

  /** Read by the executor but neither defined among the task's constants nor declared by
      `config()`; the key names are the ones the constant names spell. */
  const FileLogger := "FileLogger"
  const AdditionalParameters := "AdditionalParameters"

  /** The keys `config()` declares, in declaration order. */
  const DeclaredKeys: seq<string> := [
    CustomizeMSBuildPath, MSBuildPath, SolutionFile,
    Properties, Verbosity, SpecifyTargets, Targets,
    DetailedSummary, NoLogo, NoAutoResponse
  ]

  /** `config()`: a fresh TaskConfig with the ten keys added one after the other. */
  method Config() returns (config: TaskConfig)
    ensures fresh(config)
    ensures config.keys == DeclaredKeys
  {
    config := new TaskConfig();
    config.AddProperty(CustomizeMSBuildPath);
    config.AddProperty(MSBuildPath);
    config.AddProperty(SolutionFile);

    config.AddProperty(Properties);
    config.AddProperty(Verbosity);
    config.AddProperty(SpecifyTargets);
    config.AddProperty(Targets);

    config.AddProperty(DetailedSummary);
    config.AddProperty(NoLogo);
    config.AddProperty(NoAutoResponse);
  }

  /** The schema has ten distinct keys, and the two keys only the executor reads are not
      among them. */
  lemma DeclaredKeysSchema()
    ensures |DeclaredKeys| == 10
    ensures forall i, j :: 0 <= i < j < |DeclaredKeys| ==> DeclaredKeys[i] != DeclaredKeys[j]
    ensures FileLogger !in DeclaredKeys && AdditionalParameters !in DeclaredKeys
  {
  }

  // ---------------------------------------------------------------------------
  // propertiesValid
  // ---------------------------------------------------------------------------

  /** Every `\r?\n` piece of the text, with its whitespace removed, is `name=value` made of
      word characters. */
  predicate PropertyLinesWellFormed(properties: string) {
    var props := SplitNewlines(properties);
    forall i :: 0 <= i < |props| ==> MatchesNameValue(RemoveRegexSpaces(props[i]))
  }

  /** `propertiesValid`: checks the pieces in order and answers false at the first one that
      does not match. */
  method PropertiesValid(properties: string) returns (valid: bool)
    ensures valid <==> PropertyLinesWellFormed(properties)
  {
    var props := SplitNewlines(properties);
    for i := 0 to |props|
      invariant forall j :: 0 <= j < i ==> MatchesNameValue(RemoveRegexSpaces(props[j]))
    {
      var prop := RemoveRegexSpaces(props[i]);
      if !MatchesNameValue(prop) {
        return false;
      }
    }
    return true;
  }

  /** Break-free lines joined by newlines (the last line not empty) pass the check exactly
      when every line, with its whitespace removed, is `name=value`. So an empty or blank
      line between two others, or a line with no `=` such as "foo bar", fails it. */
  lemma JoinedLinesWellFormed(lines: seq<string>)
    requires |lines| >= 1
    requires forall i :: 0 <= i < |lines| ==> NoLineBreak(lines[i])
    requires lines[|lines| - 1] != ""
    ensures PropertyLinesWellFormed(JoinLines(lines))
        <==> forall i :: 0 <= i < |lines| ==> MatchesNameValue(RemoveRegexSpaces(lines[i]))
  {
    SplitNewlinesOfJoin(lines);
  }

  /** A text without a newline is one line, checked with its whitespace removed. */
  lemma SingleLineWellFormed(line: string)
    requires '\n' !in line
    ensures PropertyLinesWellFormed(line) <==> MatchesNameValue(RemoveRegexSpaces(line))
  {
    SingleLineSplit(line);
    assert SplitNewlines(line)[0] == line;
  }

  lemma SingleLineSplit(line: string)
    requires '\n' !in line
    ensures SplitNewlines(line) == [line]
  {
  }

  /** A line break after the last line changes nothing: the check never sees the empty line
      it would start. */
  lemma TrailingBreakIgnored(lines: seq<string>)
    requires |lines| >= 1
    requires forall i :: 0 <= i < |lines| ==> NoLineBreak(lines[i])
    requires lines[|lines| - 1] != ""
    ensures PropertyLinesWellFormed(JoinLines(lines) + "\n") <==> PropertyLinesWellFormed(JoinLines(lines))
  {
    SplitNewlinesOfJoinWithBreak(lines);
    SplitNewlinesOfJoin(lines);
  }

  /** A line (not the last) that is empty once its whitespace is removed fails the check. */
  lemma BlankLineRejected(lines: seq<string>, i: int)
    requires |lines| >= 1
    requires forall j :: 0 <= j < |lines| ==> NoLineBreak(lines[j])
    requires lines[|lines| - 1] != ""
    requires 0 <= i < |lines| && RemoveRegexSpaces(lines[i]) == ""
    ensures !PropertyLinesWellFormed(JoinLines(lines))
  {
    JoinedLinesWellFormed(lines);
  }

  /** A line with no `=` fails the check. */
  lemma LineWithoutEqualsRejected(lines: seq<string>, i: int)
    requires |lines| >= 1
    requires forall j :: 0 <= j < |lines| ==> NoLineBreak(lines[j])
    requires lines[|lines| - 1] != ""
    requires 0 <= i < |lines| && '=' !in lines[i]
    ensures !PropertyLinesWellFormed(JoinLines(lines))
  {
    JoinedLinesWellFormed(lines);
    var line := RemoveRegexSpaces(lines[i]);
    if MatchesNameValue(line) {
      var k :| 0 < k < |line| - 1 && line[k] == '=' && AllWordChars(line[..k]) && AllWordChars(line[k + 1..]);
      EqualsSurvivesSpaceRemoval(lines[i], k);
    }
  }

  /** Removing whitespace adds no `=`. */
  lemma {:induction false} EqualsSurvivesSpaceRemoval(s: string, k: int)
    requires 0 <= k < |RemoveRegexSpaces(s)| && RemoveRegexSpaces(s)[k] == '='
    ensures '=' in s
    decreases |s|
  {
    if IsRegexSpace(s[0]) {
      EqualsSurvivesSpaceRemoval(s[1..], k);
    } else if k > 0 {
      EqualsSurvivesSpaceRemoval(s[1..], k - 1);
    }
  }

  // ---------------------------------------------------------------------------
  // validate
  // ---------------------------------------------------------------------------

  const MSBuildPathMessage := "Path to MSBuild.exe must be specified"
  const SolutionFileMessage := "A Solution file must be specified"
  const PropertiesMessage := "Invalid entry for Properties - make sure one property per line formatted like propName=propValue"
  const TargetsMessage := "If SpecifyTargets is checked, Targets cannot be empty."

  /** The four rules; the first three never fail, the fourth needs SpecifyTargets present. */
  predicate MSBuildPathRuleFires(c: Config) {
    IsTrue(GetValue(c, CustomizeMSBuildPath)) && IsBlank(GetValue(c, MSBuildPath))
  }

  predicate SolutionFileRuleFires(c: Config) {
    IsBlank(GetValue(c, SolutionFile))
  }

  predicate PropertiesRuleFires(c: Config) {
    !IsBlank(GetValue(c, Properties)) && !PropertyLinesWellFormed(c[Properties])
  }

  predicate TargetsRuleFires(c: Config) {
    IsTrue(GetValue(c, SpecifyTargets)) && IsBlank(GetValue(c, Targets))
  }

  function ErrorIf(fires: bool, key: string, message: string): seq<ValidationError> {
    if fires then [ValidationError(key, message)] else []
  }

  /** The errors `validate` reports, or the NullPointerException it raises when
      SpecifyTargets is absent. */
  function ValidationErrors(c: Config): Result<seq<ValidationError>> {
    if SpecifyTargets !in c then Thrown(NullPointerException)
    else Ok(ErrorIf(MSBuildPathRuleFires(c), MSBuildPath, MSBuildPathMessage)
          + ErrorIf(SolutionFileRuleFires(c), SolutionFile, SolutionFileMessage)
          + ErrorIf(PropertiesRuleFires(c), Properties, PropertiesMessage)
          + ErrorIf(TargetsRuleFires(c), Targets, TargetsMessage))
  }

  /** `validate`: each rule in turn adds at most one error to a fresh ValidationResult. */
  method Validate(configuration: Config) returns (r: Result<ValidationResult>)
    ensures r.Thrown? <==> ValidationErrors(configuration).Thrown?
    ensures r.Thrown? ==> r.exception == NullPointerException
    ensures r.Ok? ==> fresh(r.value) && r.value.errors == ValidationErrors(configuration).value
  {
    var validationResult := new ValidationResult();
    ghost var c := configuration;

    var customizeMSBuildPath := GetValue(configuration, CustomizeMSBuildPath);
    if customizeMSBuildPath.Some? && customizeMSBuildPath.value == "true" {
      var msBuildPath := GetValue(configuration, MSBuildPath);
      if IsBlank(msBuildPath) {
        validationResult.AddError(ValidationError(MSBuildPath, MSBuildPathMessage));
      }
    }
    ghost var e1 := ErrorIf(MSBuildPathRuleFires(c), MSBuildPath, MSBuildPathMessage);
    assert validationResult.errors == e1;

    var solutionFile := GetValue(configuration, SolutionFile);
    if IsBlank(solutionFile) {
      validationResult.AddError(ValidationError(SolutionFile, SolutionFileMessage));
    }
    ghost var e2 := ErrorIf(SolutionFileRuleFires(c), SolutionFile, SolutionFileMessage);
    assert validationResult.errors == e1 + e2;

    var properties := GetValue(configuration, Properties);
    if !IsBlank(properties) {
      var valid := PropertiesValid(properties.value);
      if !valid {
        validationResult.AddError(ValidationError(Properties, PropertiesMessage));
      }
    }
    ghost var e3 := ErrorIf(PropertiesRuleFires(c), Properties, PropertiesMessage);
    assert validationResult.errors == e1 + e2 + e3;

    var specifyTargets := GetValue(configuration, SpecifyTargets);
    if specifyTargets.None? {
      return Thrown(NullPointerException);
    }
    if specifyTargets.value == "true" {
      var targets := GetValue(configuration, Targets);
      if IsBlank(targets) {
        validationResult.AddError(ValidationError(Targets, TargetsMessage));
      }
    }
    assert validationResult.errors == e1 + e2 + e3 + ErrorIf(TargetsRuleFires(c), Targets, TargetsMessage);

    return Ok(validationResult);
  }

  // ---------------------------------------------------------------------------
  // Properties of validate
  // ---------------------------------------------------------------------------

  predicate HasErrorFor(errors: seq<ValidationError>, key: string) {
    exists i :: 0 <= i < |errors| && errors[i].key == key
  }

  /** Position of a field in the order `validate` checks the fields. */
  function FieldRank(key: string): int {
    if key == MSBuildPath then 0
    else if key == SolutionFile then 1
    else if key == Properties then 2
    else if key == Targets then 3
    else 4
  }

  /** `validate` raises exactly when SpecifyTargets is absent. */
  lemma ValidateThrowsIff(c: Config)
    ensures ValidationErrors(c).Thrown? <==> SpecifyTargets !in c
  {
  }

  /** Each field gets an error exactly when its rule fires. */
  lemma ErrorForFieldIff(c: Config)
    requires SpecifyTargets in c
    ensures HasErrorFor(ValidationErrors(c).value, MSBuildPath)
        <==> IsTrue(GetValue(c, CustomizeMSBuildPath)) && IsBlank(GetValue(c, MSBuildPath))
    ensures HasErrorFor(ValidationErrors(c).value, SolutionFile)
        <==> IsBlank(GetValue(c, SolutionFile))
    ensures HasErrorFor(ValidationErrors(c).value, Properties)
        <==> !IsBlank(GetValue(c, Properties)) && !PropertyLinesWellFormed(c[Properties])
    ensures HasErrorFor(ValidationErrors(c).value, Targets)
        <==> c[SpecifyTargets] == "true" && IsBlank(GetValue(c, Targets))
  {
    var e1 := ErrorIf(MSBuildPathRuleFires(c), MSBuildPath, MSBuildPathMessage);
    var e2 := ErrorIf(SolutionFileRuleFires(c), SolutionFile, SolutionFileMessage);
    var e3 := ErrorIf(PropertiesRuleFires(c), Properties, PropertiesMessage);
    var e4 := ErrorIf(TargetsRuleFires(c), Targets, TargetsMessage);
    assert ValidationErrors(c).value == e1 + e2 + e3 + e4;
    KeysDistinct();
    ErrorIfHasError(MSBuildPathRuleFires(c), MSBuildPath, MSBuildPathMessage);
    ErrorIfHasError(SolutionFileRuleFires(c), SolutionFile, SolutionFileMessage);
    ErrorIfHasError(PropertiesRuleFires(c), Properties, PropertiesMessage);
    ErrorIfHasError(TargetsRuleFires(c), Targets, TargetsMessage);
    forall key ensures HasErrorFor(e1 + e2 + e3 + e4, key)
                   <==> HasErrorFor(e1, key) || HasErrorFor(e2, key) || HasErrorFor(e3, key) || HasErrorFor(e4, key)
    {
      HasErrorForConcat(e1, e2, key);
      HasErrorForConcat(e1 + e2, e3, key);
      HasErrorForConcat(e1 + e2 + e3, e4, key);
    }
  }

  lemma ErrorIfHasError(fires: bool, key: string, message: string)
    ensures forall k :: HasErrorFor(ErrorIf(fires, key, message), k) <==> fires && k == key
  {
    if fires {
      assert ErrorIf(fires, key, message)[0].key == key;
    }
  }

  /** The four field names differ. */
  lemma KeysDistinct()
    ensures FieldRank(MSBuildPath) == 0 && FieldRank(SolutionFile) == 1
    ensures FieldRank(Properties) == 2 && FieldRank(Targets) == 3
  {
    assert |MSBuildPath| == 11 && |SolutionFile| == 12 && |Properties| == 10 && |Targets| == 7;
  }

  lemma HasErrorForConcat(a: seq<ValidationError>, b: seq<ValidationError>, key: string)
    ensures HasErrorFor(a + b, key) <==> HasErrorFor(a, key) || HasErrorFor(b, key)
  {
    if HasErrorFor(a + b, key) {
      var i :| 0 <= i < |a + b| && (a + b)[i].key == key;
      if i >= |a| {
        assert b[i - |a|] == (a + b)[i];
      }
    }
    if HasErrorFor(a, key) {
      var i :| 0 <= i < |a| && a[i].key == key;
      assert (a + b)[i] == a[i];
    }
    if HasErrorFor(b, key) {
      var i :| 0 <= i < |b| && b[i].key == key;
      assert (a + b)[|a| + i] == b[i];
    }
  }

  predicate RanksIncrease(errors: seq<ValidationError>) {
    forall i, j :: 0 <= i < j < |errors| ==> FieldRank(errors[i].key) < FieldRank(errors[j].key)
  }

  predicate RanksWithin(errors: seq<ValidationError>, lo: int, hi: int) {
    forall i :: 0 <= i < |errors| ==> lo <= FieldRank(errors[i].key) < hi
  }

  lemma ErrorIfRank(fires: bool, key: string, message: string)
    ensures RanksIncrease(ErrorIf(fires, key, message))
    ensures RanksWithin(ErrorIf(fires, key, message), FieldRank(key), FieldRank(key) + 1)
  {
  }

  lemma RanksIncreaseConcat(a: seq<ValidationError>, b: seq<ValidationError>, lo: int, mid: int, hi: int)
    requires lo <= mid <= hi
    requires RanksIncrease(a) && RanksWithin(a, lo, mid)
    requires RanksIncrease(b) && RanksWithin(b, mid, hi)
    ensures RanksIncrease(a + b) && RanksWithin(a + b, lo, hi)
  {
    forall i, j | 0 <= i < j < |a + b|
      ensures FieldRank((a + b)[i].key) < FieldRank((a + b)[j].key)
    {
      if j < |a| {
        assert (a + b)[i] == a[i] && (a + b)[j] == a[j];
      } else if i < |a| {
        assert (a + b)[i] == a[i] && (a + b)[j] == b[j - |a|];
      } else {
        assert (a + b)[i] == b[i - |a|] && (a + b)[j] == b[j - |a|];
      }
    }
    forall i | 0 <= i < |a + b| ensures lo <= FieldRank((a + b)[i].key) < hi {
      if i < |a| {
        assert (a + b)[i] == a[i];
      } else {
        assert (a + b)[i] == b[i - |a|];
      }
    }
  }

  /** The errors come in the fixed field order MSBuildPath, SolutionFile, Properties,
      Targets, each field at most once, so a Properties text with many bad lines still
      gets a single error. */
  lemma ErrorsInFieldOrder(c: Config)
    requires SpecifyTargets in c
    ensures RanksWithin(ValidationErrors(c).value, 0, 4)
    ensures RanksIncrease(ValidationErrors(c).value)
  {
    RulesInFieldOrder(MSBuildPathRuleFires(c), SolutionFileRuleFires(c),
                      PropertiesRuleFires(c), TargetsRuleFires(c));
  }

  /** Whichever rules fire, their errors come in field order. */
  lemma RulesInFieldOrder(msbuildPath: bool, solutionFile: bool, properties: bool, targets: bool)
    ensures var errors := ErrorIf(msbuildPath, MSBuildPath, MSBuildPathMessage)
                        + ErrorIf(solutionFile, SolutionFile, SolutionFileMessage)
                        + ErrorIf(properties, Properties, PropertiesMessage)
                        + ErrorIf(targets, Targets, TargetsMessage);
      RanksWithin(errors, 0, 4) && RanksIncrease(errors)
  {
    var e1 := ErrorIf(msbuildPath, MSBuildPath, MSBuildPathMessage);
    var e2 := ErrorIf(solutionFile, SolutionFile, SolutionFileMessage);
    var e3 := ErrorIf(properties, Properties, PropertiesMessage);
    var e4 := ErrorIf(targets, Targets, TargetsMessage);
    KeysDistinct();
    ErrorIfRank(msbuildPath, MSBuildPath, MSBuildPathMessage);
    ErrorIfRank(solutionFile, SolutionFile, SolutionFileMessage);
    ErrorIfRank(properties, Properties, PropertiesMessage);
    ErrorIfRank(targets, Targets, TargetsMessage);
    RanksIncreaseConcat(e1, e2, 0, 1, 2);
    RanksIncreaseConcat(e1 + e2, e3, 0, 2, 3);
    RanksIncreaseConcat(e1 + e2 + e3, e4, 0, 3, 4);
  }

  /** The configuration is accepted exactly when no rule fires. */
  lemma AcceptedIff(c: Config)
    requires SpecifyTargets in c
    ensures ValidationErrors(c).value == []
        <==> !MSBuildPathRuleFires(c) && !SolutionFileRuleFires(c)
             && !PropertiesRuleFires(c) && !TargetsRuleFires(c)
  {
  }

  /** "foo = bar" passes the check: the spaces go, leaving foo=bar. */
  lemma SpacedPropertyAccepted()
    ensures PropertyLinesWellFormed("foo = bar")
  {
    SingleLineSplit("foo = bar");
    SpacedPropertyNormalised();
    NameValueExample();
    OnePieceWellFormed("foo = bar", "foo = bar");
  }

  /** Spaces around the `=` of a property line vanish. */
  lemma SpacesAroundEqualsRemoved(name: string, value: string)
    requires NoRegexSpace(name) && NoRegexSpace(value)
    ensures RemoveRegexSpaces(name + " = " + value) == name + "=" + value
  {
    RemoveRegexSpacesConcat(name + " = ", value);
    RemoveRegexSpacesConcat(name, " = ");
    assert " = "[1..] == "= " && "= "[1..] == " " && " "[1..] == "";
    assert RemoveRegexSpaces(" = ") == "=";
  }

  lemma SpacedPropertyNormalised()
    ensures RemoveRegexSpaces("foo = bar") == "foo=bar"
  {
    SpacesAroundEqualsRemoved("foo", "bar");
    assert "foo" + " = " + "bar" == "foo = bar";
    assert "foo" + "=" + "bar" == "foo=bar";
  }

  lemma NameValueExample()
    ensures MatchesNameValue("foo=bar")
  {
    var s := "foo=bar";
    assert s[3] == '=' && s[..3] == "foo" && s[4..] == "bar";
    assert AllWordChars(s[..3]) && AllWordChars(s[4..]);
  }

  /** "foo bar" fails the check. */
  lemma LineWithoutEqualsExample()
    ensures !PropertyLinesWellFormed("foo bar")
  {
    LineWithoutEqualsRejected(["foo bar"], 0);
    assert JoinLines(["foo bar"]) == "foo bar";
  }

  /** A trailing empty line passes: `foo=bar\n` is accepted although `""` is not
      `name=value`. */
  lemma TrailingBreakExample()
    ensures PropertyLinesWellFormed("foo=bar\n")
  {
    TrailingBreakSplit();
    FooBarSpaceFree();
    NameValueExample();
    OnePieceWellFormed("foo=bar\n", "foo=bar");
  }

  lemma TrailingBreakSplit()
    ensures SplitNewlines("foo=bar\n") == ["foo=bar"]
  {
    assert JoinLines(["foo=bar"]) + "\n" == "foo=bar\n";
    SplitNewlinesOfJoinWithBreak(["foo=bar"]);
  }

  lemma FooBarSpaceFree()
    ensures RemoveRegexSpaces("foo=bar") == "foo=bar"
  {
    SpacedPropertyNormalised();
    assert NoRegexSpace(RemoveRegexSpaces("foo = bar"));
  }

  /** A text that validation's split reads as one line passes when that line does. */
  lemma OnePieceWellFormed(text: string, line: string)
    requires SplitNewlines(text) == [line]
    requires MatchesNameValue(RemoveRegexSpaces(line))
    ensures PropertyLinesWellFormed(text)
  {
    assert SplitNewlines(text)[0] == line;
  }

  /** An interior empty line fails the check. */
  lemma EmptyLineExample()
    ensures !PropertyLinesWellFormed("a=b\n\nc=d")
  {
    BlankLineRejected(["a=b", "", "c=d"], 1);
    assert JoinLines(["a=b", "", "c=d"]) == "a=b\n\nc=d";
  }
}
