/**
 * The tool creation wizard: validates the settings for a new tool,
 * normalises class names and tool ids, and runs a creation that reports
 * progress through fixed stages and ends in exactly one completion. The
 * files, assets and registration the stages produce are recorded as
 * events, not performed.
 */
module ToolCreationWizard {
  import opened TwinTypes

  datatype ToolTemplateType =
    | BasicToolTemplate
    | UIToolTemplate
    | DataProcessorTemplate
    | AnalysisToolTemplate
    | MeasurementToolTemplate
    | SelectionToolTemplate
    | ImportExportToolTemplate
    | CustomTemplate

  datatype ToolCreationSettings = ToolCreationSettings(
    toolName: string,
    className: string,
    description: string,
    author: string,
    version: string,
    templateType: ToolTemplateType,
    createCppClass: bool,
    createBlueprintTemplate: bool,
    category: ToolCategory,
    scope: ToolScope,
    supportedModes: seq<AppMode>,
    requiresScene: bool,
    createUI: bool,
    uiLayer: UILayer,
    outputDirectory: string,
    blueprintPath: string,
    autoRegisterTool: bool)

  /** The outcome of ValidateSettings: success, or the error message it writes. */
  datatype Check = Pass | Fail(message: string)

  /** A settings value as default-constructed: no supported modes. */
  function SettingsStructDefaults(): (s: ToolCreationSettings)
    ensures s.toolName == "MyTool" && s.className == "UMyTool" && ValidClassName(s.className)
    ensures s.templateType == BasicToolTemplate && s.category == ToolCategory.Custom && s.scope == Global
    ensures s.supportedModes == [] && !s.createUI && s.uiLayer == Menu && s.autoRegisterTool
  {
    ToolCreationSettings("MyTool", "UMyTool", "A custom tool for Twin Framework", "Developer", "1.0.0",
                         BasicToolTemplate, true, true, ToolCategory.Custom, Global, [], false, false, Menu,
                         "Source/TwinPlusV2/Tools/", "/Game/Tools/", true)
  }

  /** GetDefaultSettings: the struct defaults with the InGame and Editor modes. */
  function GetDefaultSettings(): (s: ToolCreationSettings)
    ensures s.className == "UMyTool" && s.supportedModes == [InGame, Editor]
    ensures ValidateSettings(s) == Pass
  {
    SettingsStructDefaults().(supportedModes := [InGame, Editor])
  }

  /** The struct defaults alone fail validation, on the supported-modes rule. */
  lemma StructDefaultsNeedModes()
    ensures ValidateSettings(SettingsStructDefaults()) == Fail("At least one supported mode must be specified")
  {
    assert ValidClassName("UMyTool");
  }

  /** An ASCII letter, digit or underscore. */
  predicate ClassNameChar(c: char)
  {
    'a' <= c <= 'z' || 'A' <= c <= 'Z' || '0' <= c <= '9' || c == '_'
  }

  /** Starts with `U`, compared without regard to case. */
  predicate StartsWithU(s: string)
  {
    |s| > 0 && (s[0] == 'U' || s[0] == 'u')
  }

  /** A valid class name: starts with `U` (either case) and uses only letters, digits and underscores. */
  predicate ValidClassName(name: string)
  {
    StartsWithU(name) && forall i :: 0 <= i < |name| ==> ClassNameChar(name[i])
  }

  /** IsValidClassName: the prefix test, then a scan that stops at the first bad character. */
  method IsValidClassName(name: string) returns (valid: bool)
    ensures valid <==> ValidClassName(name)
  {
    if !StartsWithU(name) {
      return false;
    }
    var i := 0;
    while i < |name|
      invariant 0 <= i <= |name|
      invariant forall j :: 0 <= j < i ==> ClassNameChar(name[j])
    {
      if !ClassNameChar(name[i]) {
        return false;
      }
      i := i + 1;
    }
    return true;
  }

  /** ValidateSettings: the first rule broken, in the order tool name, class name, class name format, modes. */
  function ValidateSettings(s: ToolCreationSettings): (r: Check)
    ensures r == Pass <==> s.toolName != "" && ValidClassName(s.className) && s.supportedModes != []
    ensures s.toolName == "" ==> r == Fail("Tool name cannot be empty")
    ensures s.toolName != "" && s.className == "" ==> r == Fail("Class name cannot be empty")
    ensures s.toolName != "" && s.className != "" && !ValidClassName(s.className) ==>
              r == Fail("Invalid class name format")
    ensures s.toolName != "" && ValidClassName(s.className) && s.supportedModes == [] ==>
              r == Fail("At least one supported mode must be specified")
  {
    if s.toolName == "" then Fail("Tool name cannot be empty")
    else if s.className == "" then Fail("Class name cannot be empty")
    else if !ValidClassName(s.className) then Fail("Invalid class name format")
    else if s.supportedModes == [] then Fail("At least one supported mode must be specified")
    else Pass
  }

  /** Every occurrence of `c` removed. */
  function RemoveChar(s: string, c: char): (r: string)
    ensures |r| <= |s|
    ensures forall x :: x in r <==> x in s && x != c
  {
    if s == [] then []
    else (if s[0] == c then [] else [s[0]]) + RemoveChar(s[1..], c)
  }

  /** Removing a character that does not occur changes nothing. */
  lemma {:induction false} RemoveAbsentChar(s: string, c: char)
    requires c !in s
    ensures RemoveChar(s, c) == s
  {
    if s != [] {
      assert c !in s[1..];
      RemoveAbsentChar(s[1..], c);
    }
  }

  /** Removal keeps the order and multiplicity of the other characters: it distributes over concatenation. */
  lemma {:induction false} RemoveCharKeepsOrder(a: string, b: string, c: char)
    ensures RemoveChar(a + b, c) == RemoveChar(a, c) + RemoveChar(b, c)
  {
    if a == [] {
      assert a + b == b;
    } else {
      assert (a + b)[0] == a[0];
      assert (a + b)[1..] == a[1..] + b;
      RemoveCharKeepsOrder(a[1..], b, c);
    }
  }

  /** Each character is kept once, or dropped when it is the one removed. */
  lemma RemoveCharSnoc(s: string, x: char, c: char)
    ensures RemoveChar(s + [x], c) == RemoveChar(s, c) + (if x == c then [] else [x])
  {
    RemoveCharKeepsOrder(s, [x], c);
  }

  /** Removing a character keeps a first character that differs from it. */
  lemma RemoveCharKeepsHead(s: string, c: char)
    requires |s| > 0 && s[0] != c
    ensures |RemoveChar(s, c)| > 0 && RemoveChar(s, c)[0] == s[0]
  {
  }

  /**
   * SanitizeClassName: prefix `U` unless it starts with `U` (either case),
   * then drop spaces and dashes. The result starts with `U` and holds the
   * name's characters other than spaces and dashes, plus the added `U`.
   */
  function SanitizeClassName(name: string): (r: string)
    ensures StartsWithU(r)
    ensures forall x :: x in r <==> (x in name || (x == 'U' && !StartsWithU(name))) && x != ' ' && x != '-'
  {
    var prefixed := if StartsWithU(name) then name else "U" + name;
    RemoveCharKeepsHead(prefixed, ' ');
    RemoveCharKeepsHead(RemoveChar(prefixed, ' '), '-');
    RemoveChar(RemoveChar(prefixed, ' '), '-')
  }

  /**
   * Sanitising keeps the order and multiplicity of the kept characters:
   * past a non-empty start, the rest of the name only loses its spaces and
   * dashes.
   */
  lemma SanitizeKeepsOrder(name: string, rest: string)
    requires name != []
    ensures SanitizeClassName(name + rest) == SanitizeClassName(name) + RemoveChar(RemoveChar(rest, ' '), '-')
  {
    var prefixed := if StartsWithU(name) then name else "U" + name;
    assert StartsWithU(name + rest) == StartsWithU(name) by {
      assert (name + rest)[0] == name[0];
    }
    assert (if StartsWithU(name + rest) then name + rest else "U" + (name + rest)) == prefixed + rest;
    RemoveCharKeepsOrder(prefixed, rest, ' ');
    RemoveCharKeepsOrder(RemoveChar(prefixed, ' '), RemoveChar(rest, ' '), '-');
  }

  /** Sanitising twice is sanitising once. */
  lemma SanitizeIdempotent(name: string)
    ensures SanitizeClassName(SanitizeClassName(name)) == SanitizeClassName(name)
  {
    var once := SanitizeClassName(name);
    RemoveAbsentChar(once, ' ');
    RemoveAbsentChar(once, '-');
  }

  /** A valid class name is left as it is. */
  lemma SanitizeKeepsValidName(name: string)
    requires ValidClassName(name)
    ensures SanitizeClassName(name) == name
  {
    assert ' ' !in name && '-' !in name by {
      forall i | 0 <= i < |name|
        ensures name[i] != ' ' && name[i] != '-'
      {
        assert ClassNameChar(name[i]);
      }
    }
    RemoveAbsentChar(name, ' ');
    RemoveAbsentChar(name, '-');
  }

  /** Every `from` replaced by `to`. */
  function ReplaceChar(s: string, from: char, to: char): string
  {
    seq(|s|, i requires 0 <= i < |s| => if s[i] == from then to else s[i])
  }

  /** GenerateToolID: spaces and dashes become underscores, then all is lower-cased. */
  function GenerateToolID(toolName: string): (id: string)
    ensures |id| == |toolName|
    ensures forall i :: 0 <= i < |id| ==> id[i] != ' ' && id[i] != '-' && !('A' <= id[i] <= 'Z')
    ensures forall i :: 0 <= i < |id| && (toolName[i] == ' ' || toolName[i] == '-') ==> id[i] == '_'
    ensures forall i :: 0 <= i < |id| && toolName[i] != ' ' && toolName[i] != '-' ==> id[i] == LowerChar(toolName[i])
  {
    Fold(ReplaceChar(ReplaceChar(toolName, ' ', '_'), '-', '_'))
  }

  /** A generated id is its own id. */
  lemma GenerateToolIDIdempotent(toolName: string)
    ensures GenerateToolID(GenerateToolID(toolName)) == GenerateToolID(toolName)
  {
    var id := GenerateToolID(toolName);
    var again := GenerateToolID(id);
    forall i | 0 <= i < |id|
      ensures again[i] == id[i]
    {
      assert id[i] != ' ' && id[i] != '-' && !('A' <= id[i] <= 'Z');
    }
  }

  /** The base class each template extends; the four specialised tools and Custom use the basic template. */
  function GetBaseClassForTemplate(t: ToolTemplateType): (r: string)
    ensures ValidClassName(r)
    ensures r in {"UBasicToolTemplate", "UUIToolTemplate", "UDataProcessorTemplate"}
    ensures r == "UUIToolTemplate" <==> t == UIToolTemplate
    ensures r == "UDataProcessorTemplate" <==> t == DataProcessorTemplate
  {
    match t
    case UIToolTemplate => "UUIToolTemplate"
    case DataProcessorTemplate => "UDataProcessorTemplate"
    case _ => "UBasicToolTemplate"
  }

  /** Progress reports, the work of each stage, and the completion. */
  datatype WizardEvent =
    | ProgressReported(progress: real, status: string)
    | CppFilesWritten(className: string)
    | BlueprintAssetsCreated(className: string)
    | RegistryUpdated(className: string)
    | DocumentationGenerated(className: string)
    | CreationComplete(success: bool, message: string)

  /** An optional stage: its progress report and its work, or nothing when it is not requested. */
  function Stage(requested: bool, progress: real, status: string, work: WizardEvent): seq<WizardEvent>
  {
    if requested then [ProgressReported(progress, status), work] else []
  }

  /** The stages of a creation from valid settings, up to but excluding the completion. */
  function CreationStages(s: ToolCreationSettings): seq<WizardEvent>
  {
    [ProgressReported(0.1, "Validating settings...")] +
    Stage(s.createCppClass, 0.3, "Creating C++ files...", CppFilesWritten(s.className)) +
    Stage(s.createBlueprintTemplate, 0.6, "Creating Blueprint template...", BlueprintAssetsCreated(s.className)) +
    Stage(s.autoRegisterTool, 0.8, "Registering tool...", RegistryUpdated(s.className)) +
    [ProgressReported(0.9, "Generating documentation..."), DocumentationGenerated(s.className),
     ProgressReported(1.0, "Tool creation complete!")]
  }

  /** Everything one creation announces: a lone failure, or the stages and a success. */
  function CreationLog(s: ToolCreationSettings): seq<WizardEvent>
  {
    match ValidateSettings(s)
    case Fail(m) => [CreationComplete(false, m)]
    case Pass => CreationStages(s) + [CreationComplete(true, "Tool created successfully")]
  }

  /**
   * A creation ends in exactly one completion, as its last event, which
   * reports success exactly when the settings are valid, and with invalid
   * settings nothing else happens.
   */
  lemma CreationCompletesOnce(s: ToolCreationSettings)
    ensures var log := CreationLog(s);
      |log| > 0 &&
      log[|log| - 1] == CreationComplete(ValidateSettings(s) == Pass,
                                         if ValidateSettings(s) == Pass then "Tool created successfully"
                                         else ValidateSettings(s).message) &&
      (forall i :: 0 <= i < |log| - 1 ==> !log[i].CreationComplete?) &&
      (ValidateSettings(s) != Pass ==> |log| == 1)
  {
    if ValidateSettings(s) == Pass {
      var stages := CreationStages(s);
      assert forall i :: 0 <= i < |stages| ==> !stages[i].CreationComplete?;
    }
  }

  /** The progress reports of a log rise strictly. */
  ghost predicate Rises(log: seq<WizardEvent>)
  {
    forall i, j :: 0 <= i < j < |log| && log[i].ProgressReported? && log[j].ProgressReported? ==>
      log[i].progress < log[j].progress
  }

  /** Every progress report of a log lies in [lo, hi]. */
  ghost predicate Within(log: seq<WizardEvent>, lo: real, hi: real)
  {
    forall i :: 0 <= i < |log| && log[i].ProgressReported? ==> lo <= log[i].progress <= hi
  }

  /** Two rising logs, the first entirely below the second, rise together. */
  lemma {:induction false} RisesAppend(x: seq<WizardEvent>, y: seq<WizardEvent>, lo: real, xhi: real, ylo: real, hi: real)
    requires lo <= xhi < ylo <= hi
    requires Rises(x) && Rises(y) && Within(x, lo, xhi) && Within(y, ylo, hi)
    ensures Rises(x + y) && Within(x + y, lo, hi)
  {
    var xy := x + y;
    forall i, j | 0 <= i < j < |xy| && xy[i].ProgressReported? && xy[j].ProgressReported?
      ensures xy[i].progress < xy[j].progress
    {
      if j < |x| {
        assert xy[i] == x[i] && xy[j] == x[j];
      } else if i < |x| {
        assert xy[i] == x[i] && xy[j] == y[j - |x|];
      } else {
        assert xy[i] == y[i - |x|] && xy[j] == y[j - |x|];
      }
    }
    forall i | 0 <= i < |xy| && xy[i].ProgressReported?
      ensures lo <= xy[i].progress <= hi
    {
      if i < |x| {
        assert xy[i] == x[i];
      } else {
        assert xy[i] == y[i - |x|];
      }
    }
  }

  /** A stage reports its one progress value, if it runs at all. */
  lemma StageRises(requested: bool, progress: real, status: string, work: WizardEvent)
    requires !work.ProgressReported?
    ensures Rises(Stage(requested, progress, status, work))
    ensures Within(Stage(requested, progress, status, work), progress, progress)
  {
  }

  /** Progress only rises through a creation, from 0.1 to 1. */
  lemma CreationProgressRises(s: ToolCreationSettings)
    ensures var log := CreationStages(s);
      log[0] == ProgressReported(0.1, "Validating settings...") &&
      log[|log| - 1] == ProgressReported(1.0, "Tool creation complete!") &&
      Rises(log)
  {
    var a := [ProgressReported(0.1, "Validating settings...")];
    var b := Stage(s.createCppClass, 0.3, "Creating C++ files...", CppFilesWritten(s.className));
    var c := Stage(s.createBlueprintTemplate, 0.6, "Creating Blueprint template...", BlueprintAssetsCreated(s.className));
    var d := Stage(s.autoRegisterTool, 0.8, "Registering tool...", RegistryUpdated(s.className));
    var e := [ProgressReported(0.9, "Generating documentation..."), DocumentationGenerated(s.className),
              ProgressReported(1.0, "Tool creation complete!")];
    assert Rises(a) && Within(a, 0.1, 0.1);
    StageRises(s.createCppClass, 0.3, "Creating C++ files...", CppFilesWritten(s.className));
    StageRises(s.createBlueprintTemplate, 0.6, "Creating Blueprint template...", BlueprintAssetsCreated(s.className));
    StageRises(s.autoRegisterTool, 0.8, "Registering tool...", RegistryUpdated(s.className));
    assert Rises(e) && Within(e, 0.9, 1.0);
    RisesAppend(a, b, 0.1, 0.1, 0.3, 0.3);
    RisesAppend(a + b, c, 0.1, 0.3, 0.6, 0.6);
    RisesAppend(a + b + c, d, 0.1, 0.6, 0.8, 0.8);
    RisesAppend(a + b + c + d, e, 0.1, 0.8, 0.9, 1.0);
    var log := a + b + c + d + e;
    assert log == CreationStages(s);
    assert log[0] == a[0] && log[|log| - 1] == e[2];
  }

  class Wizard {
    var isCreating: bool
    var currentProgress: real
    ghost var events: seq<WizardEvent>

    constructor()
      ensures !isCreating && currentProgress == 0.0 && events == []
    {
      isCreating := false;
      currentProgress := 0.0;
      events := [];
    }

    method UpdateProgress(progress: real, status: string)
      modifies this
      ensures currentProgress == progress && isCreating == old(isCreating)
      ensures events == old(events) + [ProgressReported(progress, status)]
    {
      currentProgress := progress;
      events := events + [ProgressReported(progress, status)];
    }

    /** Ends a creation: not creating, progress back to 0, the outcome announced. */
    method CompleteCreation(success: bool, message: string)
      modifies this
      ensures !isCreating && currentProgress == 0.0
      ensures events == old(events) + [CreationComplete(success, message)]
    {
      isCreating := false;
      currentProgress := 0.0;
      events := events + [CreationComplete(success, message)];
    }

    /** One optional stage: its progress report, then its work. */
    method RunStage(requested: bool, progress: real, status: string, work: WizardEvent)
      modifies this
      ensures isCreating == old(isCreating)
      ensures events == old(events) + Stage(requested, progress, status, work)
    {
      if requested {
        UpdateProgress(progress, status);
        events := events + [work];
      }
    }

    /** The stages of a creation from valid settings. */
    method RunStages(s: ToolCreationSettings)
      modifies this
      ensures isCreating == old(isCreating)
      ensures events == old(events) + CreationStages(s)
    {
      ghost var start := events;
      UpdateProgress(0.1, "Validating settings...");
      RunStage(s.createCppClass, 0.3, "Creating C++ files...", CppFilesWritten(s.className));
      RunStage(s.createBlueprintTemplate, 0.6, "Creating Blueprint template...", BlueprintAssetsCreated(s.className));
      RunStage(s.autoRegisterTool, 0.8, "Registering tool...", RegistryUpdated(s.className));
      ghost var staged := events;
      UpdateProgress(0.9, "Generating documentation...");
      events := events + [DocumentationGenerated(s.className)];
      UpdateProgress(1.0, "Tool creation complete!");
      assert events == staged + [ProgressReported(0.9, "Generating documentation..."), DocumentationGenerated(s.className),
                                 ProgressReported(1.0, "Tool creation complete!")];
    }

    /**
     * Runs a creation: refused while one is in progress; invalid settings
     * complete at once with the validation message; valid settings go
     * through the requested stages and complete successfully.
     */
    method CreateTool(s: ToolCreationSettings)
      modifies this
      ensures old(isCreating) ==> isCreating && currentProgress == old(currentProgress) && events == old(events)
      ensures !old(isCreating) ==> !isCreating && currentProgress == 0.0 && events == old(events) + CreationLog(s)
    {
      if isCreating {
        return;
      }
      var check := ValidateSettings(s);
      if check.Fail? {
        CompleteCreation(false, check.message);
        return;
      }
      isCreating := true;
      currentProgress := 0.0;
      RunStages(s);
      CompleteCreation(true, "Tool created successfully");
    }
  }

  /**
   * The default settings create a tool through every stage; settings with
   * an empty tool name fail with that message, and either way the wizard
   * ends idle with progress 0.
   */
  method CreateWithDefaultsThenEmptyName() returns (idleAfterFirst: bool, progressAfterFirst: real, idleAfterSecond: bool)
    ensures idleAfterFirst && progressAfterFirst == 0.0 && idleAfterSecond
  {
    var wizard := new Wizard();
    wizard.CreateTool(GetDefaultSettings());
    idleAfterFirst := !wizard.isCreating;
    progressAfterFirst := wizard.currentProgress;
    wizard.CreateTool(GetDefaultSettings().(toolName := ""));
    idleAfterSecond := !wizard.isCreating;
  }
}
