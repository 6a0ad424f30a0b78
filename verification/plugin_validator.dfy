/**
 * The plugin validator: inspects a tool class and reports issues, each
 * with a severity, a category and a message. Error and Critical issues
 * make a result invalid, Warning issues are only counted, Info issues
 * neither. Validation of one class runs its checks with progress reports
 * and then broadcasts the result; it completes within the call, so the
 * in-progress flag is never seen set between calls.
 */
module PluginValidator {
  import opened TwinTypes

  /** EValidationSeverity. */
  datatype Severity = Info | Warning | Error | Critical

  /** FValidationIssue; no check fills in the source file or the line. */
  datatype ValidationIssue = ValidationIssue(
    severity: Severity,
    category: string,
    message: string,
    sourceFile: string,
    lineNumber: int,
    suggestion: string)

  /** FValidationResult (the elapsed time is not modelled). */
  datatype ValidationResult = ValidationResult(
    isValid: bool,
    errorCount: int,
    warningCount: int,
    issues: seq<ValidationIssue>)

  /** The two delegates the validator fires, in the order it fires them. */
  datatype ValidatorEvent =
    | ProgressReported(progress: real, check: string)
    | ValidationComplete(result: ValidationResult)

  /** An issue as the checks build it: no source file, line 0. */
  function Issue(severity: Severity, category: string, message: string, suggestion: string): ValidationIssue
  {
    ValidationIssue(severity, category, message, "", 0, suggestion)
  }

  predicate IsErrorSeverity(s: Severity)
  {
    s == Error || s == Critical
  }

  /** The number of Error and Critical issues. */
  function ErrorCount(issues: seq<ValidationIssue>): nat
  {
    if issues == [] then 0
    else ErrorCount(issues[..|issues| - 1]) + (if IsErrorSeverity(issues[|issues| - 1].severity) then 1 else 0)
  }

  /** The number of Warning issues. */
  function WarningCount(issues: seq<ValidationIssue>): nat
  {
    if issues == [] then 0
    else WarningCount(issues[..|issues| - 1]) + (if issues[|issues| - 1].severity == Warning then 1 else 0)
  }

  /** The result that tallies a list of issues: valid exactly when none is an error. */
  function ResultFor(issues: seq<ValidationIssue>): ValidationResult
  {
    ValidationResult(ErrorCount(issues) == 0, ErrorCount(issues), WarningCount(issues), issues)
  }

  /** Counts add up over concatenation. */
  lemma {:induction false} CountsAppend(a: seq<ValidationIssue>, b: seq<ValidationIssue>)
    ensures ErrorCount(a + b) == ErrorCount(a) + ErrorCount(b)
    ensures WarningCount(a + b) == WarningCount(a) + WarningCount(b)
  {
    if b != [] {
      var b' := b[..|b| - 1];
      assert (a + b)[..|a + b| - 1] == a + b';
      assert (a + b)[|a + b| - 1] == b[|b| - 1];
      CountsAppend(a, b');
    } else {
      assert a + b == a;
    }
  }

  /** No issue is counted twice: errors and warnings together are at most all issues. */
  lemma {:induction false} CountsBounded(issues: seq<ValidationIssue>)
    ensures ErrorCount(issues) + WarningCount(issues) <= |issues|
    ensures (forall i :: 0 <= i < |issues| ==> issues[i].severity == Info) ==>
              ErrorCount(issues) == 0 && WarningCount(issues) == 0
  {
    if issues != [] {
      var front := issues[..|issues| - 1];
      assert forall i :: 0 <= i < |front| ==> front[i] == issues[i];
      CountsBounded(front);
    }
  }

  /**
   * Tallies the issues, as the validator's counting loop does: an issue
   * is an error when it is Error or Critical, else a warning when it is
   * Warning.
   */
  method TallyIssues(issues: seq<ValidationIssue>) returns (errors: int, warnings: int)
    ensures errors == ErrorCount(issues) && warnings == WarningCount(issues)
  {
    errors, warnings := 0, 0;
    var i := 0;
    while i < |issues|
      invariant 0 <= i <= |issues|
      invariant errors == ErrorCount(issues[..i]) && warnings == WarningCount(issues[..i])
    {
      assert issues[..i + 1][..i] == issues[..i];
      if IsErrorSeverity(issues[i].severity) {
        errors := errors + 1;
      } else if issues[i].severity == Warning {
        warnings := warnings + 1;
      }
      i := i + 1;
    }
    assert issues[..i] == issues;
  }

  /** A missing class is an interface error; so is a class that does not implement the tool interface. */
  function CheckInterfaceImplementation(toolClass: Option<ToolClass>): (r: seq<ValidationIssue>)
    ensures |r| <= 1
    ensures r == [] <==> toolClass.Some? && toolClass.value.implementsInterface
    ensures forall i :: 0 <= i < |r| ==> r[i].severity == Error && r[i].category == "Interface"
    ensures toolClass.None? ==> r == [Issue(Error, "Interface", "Tool class is null", "")]
    ensures toolClass.Some? && !toolClass.value.implementsInterface ==>
              r == [Issue(Error, "Interface", "Tool class must implement ITwinToolInterface",
                          "Add ITwinToolInterface to your class inheritance")]
  {
    if toolClass.None? then
      [Issue(Error, "Interface", "Tool class is null", "")]
    else if !toolClass.value.implementsInterface then
      [Issue(Error, "Interface", "Tool class must implement ITwinToolInterface",
             "Add ITwinToolInterface to your class inheritance")]
    else
      []
  }

  /** Metadata without a tool name is an error; nothing else about metadata is checked. */
  function CheckMetadataValidity(metadata: ToolMetadata): (r: seq<ValidationIssue>)
    ensures r == [] <==> metadata.toolName != ""
    ensures r != [] ==> r == [Issue(Error, "Metadata", "Tool name is required", "")]
  {
    if metadata.toolName == "" then [Issue(Error, "Metadata", "Tool name is required", "")] else []
  }

  /** Only a missing class is a UI integration error. */
  function CheckUIIntegration(toolClass: Option<ToolClass>): (r: seq<ValidationIssue>)
    ensures r == [] <==> toolClass.Some?
    ensures r != [] ==> r == [Issue(Error, "UI Integration", "Tool class is null", "")]
  {
    if toolClass.None? then [Issue(Error, "UI Integration", "Tool class is null", "")] else []
  }

  /** Only a missing class draws a performance issue, and it is a warning. */
  function CheckPerformance(toolClass: Option<ToolClass>): (r: seq<ValidationIssue>)
    ensures r == [] <==> toolClass.Some?
    ensures r != [] ==> r == [Issue(Warning, "Performance", "Cannot check performance on null class", "")]
  {
    if toolClass.None? then [Issue(Warning, "Performance", "Cannot check performance on null class", "")] else []
  }

  /** The documentation check always reports one informational issue, which never counts. */
  function CheckDocumentation(toolClass: Option<ToolClass>): (r: seq<ValidationIssue>)
    ensures |r| == 1 && r[0].severity == Info && r[0].category == "Documentation"
    ensures ErrorCount(r) == 0 && WarningCount(r) == 0
  {
    [Issue(Info, "Documentation", "Documentation check completed", "")]
  }

  /**
   * Validates a class at once. A missing class gives one class error,
   * one error and no warning; a present class is checked for the tool
   * interface only. Either way the result is valid exactly when a class is
   * present and implements the interface.
   */
  method ValidateToolSync(toolClass: Option<ToolClass>) returns (r: ValidationResult)
    ensures r == ResultFor(r.issues)
    ensures r.isValid <==> toolClass.Some? && toolClass.value.implementsInterface
    ensures r.errorCount == (if r.isValid then 0 else 1) && r.warningCount == 0
    ensures toolClass.None? ==> r.issues == [Issue(Error, "Class Validation", "Tool class is null", "")]
    ensures toolClass.Some? ==> r.issues == CheckInterfaceImplementation(toolClass)
  {
    if toolClass.None? {
      var issues := [Issue(Error, "Class Validation", "Tool class is null", "")];
      assert issues[..0] == [];
      return ValidationResult(false, 1, 0, issues);
    }
    var issues := CheckInterfaceImplementation(toolClass);
    var errors, warnings := TallyIssues(issues);
    if issues != [] {
      assert issues[..0] == [];
    }
    r := ValidationResult(errors == 0, errors, warnings, issues);
  }

  /** The issues of an asynchronous validation: interface, then UI integration, then performance. */
  function AsyncIssues(toolClass: Option<ToolClass>): seq<ValidationIssue>
  {
    CheckInterfaceImplementation(toolClass) + CheckUIIntegration(toolClass) + CheckPerformance(toolClass)
  }

  /**
   * The asynchronous validation reaches the same verdict as the
   * synchronous one, but a missing class costs it two errors and a
   * warning.
   */
  lemma AsyncValidationOutcome(toolClass: Option<ToolClass>)
    ensures ResultFor(AsyncIssues(toolClass)).isValid <==> toolClass.Some? && toolClass.value.implementsInterface
    ensures toolClass.None? ==> ErrorCount(AsyncIssues(toolClass)) == 2 && WarningCount(AsyncIssues(toolClass)) == 1
    ensures toolClass.Some? ==> WarningCount(AsyncIssues(toolClass)) == 0
  {
    var a, b, c := CheckInterfaceImplementation(toolClass), CheckUIIntegration(toolClass), CheckPerformance(toolClass);
    CountsAppend(a, b);
    CountsAppend(a + b, c);
    if a != [] {
      assert a[..0] == [];
    }
    if b != [] {
      assert b[..0] == [];
    }
    if c != [] {
      assert c[..0] == [];
    }
  }

  /** A count over a larger count is a fraction in [0, 1). */
  lemma FractionBelowOne(x: real, n: real)
    requires 0.0 <= x < n
    ensures 0.0 <= x / n < 1.0
  {
    var q := x / n;
    assert q * n == x;
    assert (1.0 - q) * n == n - x;
  }

  /** The progress report for the tool at index `i` of the available tools. */
  function ToolReport(tools: seq<string>, i: nat): (r: ValidatorEvent)
    requires i < |tools|
    ensures r.ProgressReported? && 0.0 <= r.progress < 1.0
  {
    FractionBelowOne(i as real, |tools| as real);
    ProgressReported(i as real / |tools| as real,
                     "Validating tool " + IntText(i + 1) + "/" + IntText(|tools|) + ": " + tools[i])
  }

  /** The progress reports for the first `k` available tools. */
  function ToolReports(tools: seq<string>, k: nat): (r: seq<ValidatorEvent>)
    requires k <= |tools|
    ensures |r| == k
    ensures forall j :: 0 <= j < k ==> r[j] == ToolReport(tools, j)
  {
    if k == 0 then [] else ToolReports(tools, k - 1) + [ToolReport(tools, k - 1)]
  }

  /** The progress reports announcing the three checks of an asynchronous validation. */
  function CheckReports(): seq<ValidatorEvent>
  {
    [ProgressReported(0.2, "Checking interface implementation"),
     ProgressReported(0.5, "Checking UI integration"),
     ProgressReported(0.8, "Checking performance")]
  }

  /** Everything an asynchronous validation broadcasts, given the issues it ends with. */
  function AsyncBroadcasts(issues: seq<ValidationIssue>): (r: seq<ValidatorEvent>)
    ensures |r| == 5 && r[..3] == CheckReports() && r[3] == ProgressReported(1.0, "Validation complete")
    ensures r[4].ValidationComplete? && r[4].result.issues == issues
    ensures r[4].result.isValid <==> ErrorCount(issues) == 0
  {
    CheckReports() + [ProgressReported(1.0, "Validation complete"), ValidationComplete(ResultFor(issues))]
  }

  class TwinPluginValidator {
    var isValidating: bool
    var currentIssues: seq<ValidationIssue>
    var currentProgress: real
    /** Every delegate broadcast, in order. */
    ghost var broadcasts: seq<ValidatorEvent>

    ghost predicate Valid()
      reads this
    {
      0.0 <= currentProgress <= 1.0
    }

    constructor()
      ensures Valid()
      ensures !isValidating && currentIssues == [] && currentProgress == 0.0 && broadcasts == []
    {
      isValidating := false;
      currentIssues := [];
      currentProgress := 0.0;
      broadcasts := [];
    }

    /** Whether a validation started by ValidateTool has not yet completed or been cancelled. */
    function IsValidationInProgress(): (r: bool)
      reads this
      ensures r <==> isValidating
    {
      isValidating
    }

    /** Records the progress and announces it. */
    method UpdateProgress(progress: real, check: string)
      modifies this
      ensures currentProgress == progress && broadcasts == old(broadcasts) + [ProgressReported(progress, check)]
      ensures isValidating == old(isValidating) && currentIssues == old(currentIssues)
    {
      currentProgress := progress;
      broadcasts := broadcasts + [ProgressReported(progress, check)];
    }

    /** Tallies the current issues, ends the validation and broadcasts the result. */
    method CompleteValidation()
      modifies this
      ensures !isValidating && broadcasts == old(broadcasts) + [ValidationComplete(ResultFor(currentIssues))]
      ensures currentIssues == old(currentIssues) && currentProgress == old(currentProgress)
    {
      var errors, warnings := TallyIssues(currentIssues);
      var result := ValidationResult(errors == 0, errors, warnings, currentIssues);
      isValidating := false;
      broadcasts := broadcasts + [ValidationComplete(result)];
    }

    /** Runs the three checks with their progress reports, then completes. */
    method PerformAsyncValidation(toolClass: Option<ToolClass>)
      modifies this
      ensures Valid()
      ensures !isValidating && currentIssues == old(currentIssues) + AsyncIssues(toolClass) && currentProgress == 1.0
      ensures broadcasts == old(broadcasts) + AsyncBroadcasts(currentIssues)
    {
      RunChecks(toolClass);
      UpdateProgress(1.0, "Validation complete");
      CompleteValidation();
    }

    /** The three checks of PerformAsyncValidation, each announced before it runs. */
    method RunChecks(toolClass: Option<ToolClass>)
      modifies this
      ensures currentIssues == old(currentIssues) + AsyncIssues(toolClass)
      ensures broadcasts == old(broadcasts) + CheckReports()
      ensures currentProgress == 0.8 && isValidating == old(isValidating)
    {
      var interfaceIssues := CheckInterfaceImplementation(toolClass);
      var uiIssues := CheckUIIntegration(toolClass);
      var performanceIssues := CheckPerformance(toolClass);
      ghost var issues, reports := currentIssues, broadcasts;
      UpdateProgress(0.2, "Checking interface implementation");
      currentIssues := currentIssues + interfaceIssues;
      UpdateProgress(0.5, "Checking UI integration");
      currentIssues := currentIssues + uiIssues;
      UpdateProgress(0.8, "Checking performance");
      currentIssues := currentIssues + performanceIssues;
      assert currentIssues == issues + (interfaceIssues + uiIssues + performanceIssues);
      assert broadcasts == reports + CheckReports();
    }

    /**
     * Validates one class, unless a validation is in progress: starts from
     * no issues and zero progress and ends with the class's issues
     * broadcast in the result.
     */
    method ValidateTool(toolClass: Option<ToolClass>)
      requires Valid()
      modifies this
      ensures Valid()
      ensures old(isValidating) ==>
                isValidating && currentIssues == old(currentIssues) &&
                currentProgress == old(currentProgress) && broadcasts == old(broadcasts)
      ensures !old(isValidating) ==> !isValidating && currentProgress == 1.0
      ensures !old(isValidating) ==> currentIssues == AsyncIssues(toolClass)
      ensures !old(isValidating) ==> broadcasts == old(broadcasts) + AsyncBroadcasts(currentIssues)
    {
      if isValidating {
        return;
      }
      ghost var before := broadcasts;
      isValidating := true;
      currentIssues := [];
      currentProgress := 0.0;
      assert broadcasts == before;
      PerformAsyncValidation(toolClass);
      assert currentIssues == [] + AsyncIssues(toolClass);
      assert broadcasts == before + AsyncBroadcasts(currentIssues);
    }

    /** Ends a validation in progress; otherwise does nothing. */
    method CancelValidation()
      modifies this
      ensures !isValidating
      ensures currentIssues == old(currentIssues) && currentProgress == old(currentProgress) &&
              broadcasts == old(broadcasts)
    {
      if isValidating {
        isValidating := false;
      }
    }

    /**
     * With a plugin manager (`availableTools` is its list of available
     * tool ids), reports progress through the list, one report per tool
     * with the fraction of tools before it, and then completes, which
     * broadcasts a result over the issues left by the previous validation:
     * no tool is actually checked. Without a manager nothing happens.
     */
    method ValidateAllTools(availableTools: Option<seq<string>>)
      requires Valid()
      modifies this
      ensures Valid()
      ensures availableTools.None? ==>
                isValidating == old(isValidating) && currentIssues == old(currentIssues) &&
                currentProgress == old(currentProgress) && broadcasts == old(broadcasts)
      ensures availableTools.Some? ==>
                var tools := availableTools.value;
                !isValidating && currentIssues == old(currentIssues) &&
                currentProgress == (if tools == [] then 0.0 else ToolReport(tools, |tools| - 1).progress) &&
                broadcasts == old(broadcasts) + [ProgressReported(0.0, "Starting validation of all tools")] +
                              ToolReports(tools, |tools|) + [ValidationComplete(ResultFor(old(currentIssues)))]
    {
      if availableTools.None? {
        return;
      }
      var tools := availableTools.value;
      UpdateProgress(0.0, "Starting validation of all tools");
      ghost var start := broadcasts;
      var i := 0;
      while i < |tools|
        invariant 0 <= i <= |tools|
        invariant Valid()
        invariant currentIssues == old(currentIssues) && broadcasts == start + ToolReports(tools, i)
        invariant currentProgress == (if i == 0 then 0.0 else ToolReport(tools, i - 1).progress)
      {
        var report := ToolReport(tools, i);
        UpdateProgress(report.progress, report.check);
        i := i + 1;
      }
      CompleteValidation();
    }
  }

  /**
   * A conformant class validates with no issue; a missing class, on a
   * fresh validator, is invalid with two errors and a warning, and the
   * synchronous check of it finds one error.
   */
  method ValidateThreeWays() returns (conformantValid: bool, nullErrors: int, nullWarnings: int, syncErrors: int, idle: bool)
    ensures conformantValid && nullErrors == 2 && nullWarnings == 1 && syncErrors == 1 && idle
  {
    var v := new TwinPluginValidator();
    var conformant := Some(ToolClass("UMeasureTool", true));
    v.ValidateTool(conformant);
    AsyncValidationOutcome(conformant);
    var errors, warnings := TallyIssues(v.currentIssues);
    conformantValid := errors == 0;
    v.ValidateTool(None);
    AsyncValidationOutcome(None);
    nullErrors, nullWarnings := TallyIssues(v.currentIssues);
    var sync := ValidateToolSync(None);
    syncErrors := sync.errorCount;
    idle := !v.IsValidationInProgress();
  }
}
