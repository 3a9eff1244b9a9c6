/**
 * The Visual Studio package that runs the pre-build step: it tracks the build
 * command the user is about to run and, when the solution build starts,
 * builds `after.<solution file name>.targets` and promotes the `Custom`
 * properties it defines into the global properties of the main build.
 */
module Package {
  import opened Wrappers
  import opened BuildCommands
  import opened SolutionPath
  import opened MSBuild
  import opened Harvest
  import opened Diagnostics
  import opened PreBuild

  class CommonSolutionTargets {
    /** Numeric IDs of the recognised build commands. */
    const commandIds: BuildType -> int
    /** `{...}` GUIDs of the VSStd97 and VSStd2K command sets; null when initialisation stopped early. */
    const std97CmdIdGuid: Option<string>
    const std2kCmdIdGuid: Option<string>
    /** Whether the build output pane was obtained. */
    const hasOutputPane: bool
    /** The process-wide project collection whose global properties the main build uses. */
    const globalCollection: ProjectCollection

    /** The build target of the last recognised build command, null when none is pending. */
    var activeBuildTarget: Option<BuildTarget>
    /** MSBuild output verbosity as last read from the environment (0 = Quiet .. 4 = Diagnostic). */
    var currentLoggerVerbosity: int
    /** The lines written to the build output pane so far. */
    var paneOutput: seq<Message>

    /**
     * The package as it stands once the shell has sited and initialised it.
     * `initialVerbosity` is the setting `Initialize` read before it advised any
     * event; it is the Minimal default only when `Initialize` stopped earlier.
     */
    constructor (commandIds: BuildType -> int, std97CmdIdGuid: Option<string>, std2kCmdIdGuid: Option<string>,
                 hasOutputPane: bool, globalCollection: ProjectCollection, initialVerbosity: int)
      requires DistinctIds(commandIds)
      ensures this.commandIds == commandIds && this.std97CmdIdGuid == std97CmdIdGuid
      ensures this.std2kCmdIdGuid == std2kCmdIdGuid && this.hasOutputPane == hasOutputPane
      ensures this.globalCollection == globalCollection
      ensures activeBuildTarget == None && currentLoggerVerbosity == initialVerbosity && paneOutput == []
    {
      this.commandIds := commandIds;
      this.std97CmdIdGuid := std97CmdIdGuid;
      this.std2kCmdIdGuid := std2kCmdIdGuid;
      this.hasOutputPane := hasOutputPane;
      this.globalCollection := globalCollection;
      activeBuildTarget := None;
      currentLoggerVerbosity := initialVerbosity;
      paneOutput := [];
    }

    /** Records the build target of a build command that is about to execute. */
    method CommandEventsBeforeExecute(guid: string, id: int)
      modifies this`activeBuildTarget
      ensures activeBuildTarget == Observe(old(activeBuildTarget), std97CmdIdGuid, std2kCmdIdGuid, commandIds, guid, id)
    {
      if !MatchesCommandSet(guid, std97CmdIdGuid) && !MatchesCommandSet(guid, std2kCmdIdGuid) {
        return;
      }
      match Classify(commandIds, id) {
        case Some(t) => activeBuildTarget := Some(ActionOf(t));
        case None =>
      }
    }

    method UpdateSolutionBegin() returns (hr: int)
      modifies this`paneOutput
      ensures hr == S_OK
      ensures paneOutput == old(paneOutput) + Emitted(hasOutputPane, currentLoggerVerbosity, Diagnostic, SolutionBegin)
    {
      WriteLine(Diagnostic, SolutionBegin);
      return 0;
    }

    /** The solution build finished: no build target is pending any more. */
    method UpdateSolutionDone(succeeded: int, modified: int, cancelCommand: int) returns (hr: int)
      modifies this`activeBuildTarget, this`paneOutput
      ensures hr == S_OK && activeBuildTarget == None
      ensures paneOutput == old(paneOutput) + Emitted(hasOutputPane, currentLoggerVerbosity, Detailed, SolutionDone)
    {
      WriteLine(Detailed, SolutionDone);
      activeBuildTarget := None;
      return 0;
    }

    /**
     * The solution build starts: run the pre-build targets file, if there is
     * one, and promote the `Custom` properties its build appended.
     */
    method UpdateSolutionStartUpdate(solutionFullName: string, fileExists: string -> bool, configurationName: string,
                                     verbositySetting: int, load: string -> LoadOutcome, engine: BuildEngine)
      returns (hr: int)
      modifies this`currentLoggerVerbosity, this`paneOutput, globalCollection
      ensures var c := RunCycle(solutionFullName, fileExists, load, engine, configurationName, TargetName(activeBuildTarget));
        && hr == Status(c)
        && globalCollection.globalProperties == CycleGlobals(c, old(globalCollection.globalProperties))
        && currentLoggerVerbosity == (if MakesLogger(c) then verbositySetting else old(currentLoggerVerbosity))
        && paneOutput == old(paneOutput) + CycleLog(hasOutputPane, old(currentLoggerVerbosity), verbositySetting,
                                                   configurationName, TargetName(activeBuildTarget), c)
    {
      ghost var c := RunCycle(solutionFullName, fileExists, load, engine, configurationName, TargetName(activeBuildTarget));
      ghost var before := currentLoggerVerbosity;
      WriteLine(Detailed, SolutionStartUpdate);

      var solutionFolder := DirectoryName(solutionFullName);
      var solutionFileName := FileName(solutionFullName);
      var targetsFileName := TargetsFileName(solutionFileName);
      ghost var log0 := paneOutput;
      ghost var start := Emitted(hasOutputPane, before, Detailed, SolutionStartUpdate);
      assert log0 == old(paneOutput) + start;
      if solutionFolder.None? {
        assert c == NoSolutionFolder;
        assert CycleLog(hasOutputPane, before, verbositySetting, configurationName, TargetName(activeBuildTarget), c)
            == start;
        return E_UNEXPECTED;
      }

      var targetsFilePath := Combine(solutionFolder.value, targetsFileName);
      assert TargetsPath(solutionFullName) == Some(targetsFilePath);
      if !fileExists(targetsFilePath) {
        assert c == NoTargetsFile(targetsFilePath);
        assert CycleLog(hasOutputPane, before, verbositySetting, configurationName, TargetName(activeBuildTarget), c)
            == start;
        return S_OK;
      }

      assert c == BuildTargets(targetsFilePath, load, engine, configurationName, TargetName(activeBuildTarget));
      hr := BuildTargetsFile(targetsFilePath, configurationName, verbositySetting, load, engine);
      ghost var located := LocatedLog(hasOutputPane, before, verbositySetting, configurationName, TargetName(activeBuildTarget), c);
      assert paneOutput == log0 + located;
      assert CycleLog(hasOutputPane, before, verbositySetting, configurationName, TargetName(activeBuildTarget), c)
          == start + located;
      ConcatAssociates3(old(paneOutput), start, located);
    }

    /** The rest of the start-update handler once the targets file exists: load, seed, build and harvest it. */
    method BuildTargetsFile(targetsFilePath: string, configurationName: string, verbositySetting: int,
                            load: string -> LoadOutcome, engine: BuildEngine) returns (hr: int)
      modifies this`currentLoggerVerbosity, this`paneOutput, globalCollection
      ensures var c := BuildTargets(targetsFilePath, load, engine, configurationName, TargetName(activeBuildTarget));
        && hr == Status(c)
        && globalCollection.globalProperties == CycleGlobals(c, old(globalCollection.globalProperties))
        && currentLoggerVerbosity == verbositySetting
        && paneOutput == old(paneOutput) + LocatedLog(hasOutputPane, old(currentLoggerVerbosity), verbositySetting,
                                                     configurationName, TargetName(activeBuildTarget), c)
    {
      ghost var c := BuildTargets(targetsFilePath, load, engine, configurationName, TargetName(activeBuildTarget));
      ghost var before := currentLoggerVerbosity;
      ghost var log0 := paneOutput;
      WriteLine(Detailed, ActiveConfiguration(configurationName));
      MakeBuildLogger(verbositySetting);
      ghost var logger := LoggerLog(hasOutputPane, before, verbositySetting, configurationName);
      assert paneOutput == log0 + logger;

      var loaded := load(targetsFilePath);
      if loaded.LoadError? {
        WriteLine(Detailed, TargetsLoadFailed(targetsFilePath, loaded.message));
        assert c == LoadFailed(targetsFilePath, loaded.message);
        assert paneOutput == log0 + LocatedLog(hasOutputPane, before, verbositySetting, configurationName,
                                               TargetName(activeBuildTarget), c);
        return E_FAIL;
      }
      var solutionInitProjectInstance := new ProjectInstance(loaded.properties);
      solutionInitProjectInstance.SetProperty("Configuration", configurationName);
      solutionInitProjectInstance.SetProperty("BuildingInsideVisualStudio", "true");
      var numberOfPropertiesBeforeBuild := |solutionInitProjectInstance.properties|;
      WriteLine(Detailed, BuildingTargets(targetsFilePath, TargetName(activeBuildTarget)));
      solutionInitProjectInstance.Build(TargetName(activeBuildTarget), engine);

      assert c == Built(targetsFilePath, Seed(loaded.properties, configurationName), solutionInitProjectInstance.properties);
      ghost var building := Emitted(hasOutputPane, verbositySetting, Detailed, BuildingTargets(targetsFilePath, TargetName(activeBuildTarget)));
      assert paneOutput == (log0 + logger) + building;
      PromoteCustomProperties(solutionInitProjectInstance, numberOfPropertiesBeforeBuild);
      ghost var harvested := HarvestLog(hasOutputPane, verbositySetting, NewProperties(c));
      assert paneOutput == ((log0 + logger) + building) + harvested;
      assert LocatedLog(hasOutputPane, before, verbositySetting, configurationName, TargetName(activeBuildTarget), c)
          == (logger + building) + harvested;
      ConcatAssociates(log0, logger, building, harvested);
      assert paneOutput == log0 + LocatedLog(hasOutputPane, before, verbositySetting, configurationName,
                                             TargetName(activeBuildTarget), c);
      return S_OK;
    }

    /**
     * The harvest loop: every property the build appended at or after
     * `watermark` whose name starts with `Custom` becomes a global property.
     */
    method PromoteCustomProperties(instance: ProjectInstance, watermark: nat)
      modifies this`paneOutput, globalCollection
      ensures globalCollection.globalProperties == PromoteAll(old(globalCollection.globalProperties), Appended(instance.properties, watermark))
      ensures paneOutput == old(paneOutput) + HarvestLog(hasOutputPane, currentLoggerVerbosity, Appended(instance.properties, watermark))
    {
      ghost var post := instance.properties;
      ghost var globals0 := globalCollection.globalProperties;
      ghost var log0 := paneOutput;
      ghost var done: seq<Property> := [];
      var propertyNumber := watermark;
      while propertyNumber < |instance.properties|
        invariant instance.properties == post
        invariant watermark <= propertyNumber
        invariant propertyNumber == watermark ==> done == []
        invariant propertyNumber > watermark ==> propertyNumber <= |post| && done == post[watermark..propertyNumber]
        invariant globalCollection.globalProperties == PromoteAll(globals0, done)
        invariant paneOutput == log0 + HarvestLog(hasOutputPane, currentLoggerVerbosity, done)
        decreases |post| - propertyNumber
      {
        var property := instance.properties[propertyNumber];
        PromoteAllSnoc(globals0, done, property);
        HarvestLogSnoc(hasOutputPane, currentLoggerVerbosity, done, property);
        if IsCustom(property.name) {
          WriteLine(Detailed, DefinedGlobalProperty(property.name, property.value));
          globalCollection.SetGlobalProperty(property.name, property.value);
        }
        assert post[watermark..propertyNumber + 1] == done + [property];
        done := done + [property];
        propertyNumber := propertyNumber + 1;
      }
      assert done == Appended(post, watermark);
    }

    method UpdateSolutionCancel() returns (hr: int)
      ensures hr == S_OK
    {
      return 0;
    }

    method OnActiveProjectCfgChange() returns (hr: int)
      modifies this`paneOutput
      ensures hr == S_OK
      ensures paneOutput == old(paneOutput) + Emitted(hasOutputPane, currentLoggerVerbosity, Detailed, ProjectConfigurationChanged)
    {
      WriteLine(Detailed, ProjectConfigurationChanged);
      return 0;
    }

    /** Writes `m` to the build output pane if the pane exists and the current verbosity admits it. */
    method WriteLine(verbosity: LoggerVerbosity, m: Message)
      modifies this`paneOutput
      ensures paneOutput == old(paneOutput) + Emitted(hasOutputPane, currentLoggerVerbosity, verbosity, m)
    {
      if !hasOutputPane {
        return;
      }
      if currentLoggerVerbosity < Level(verbosity) {
        return;
      }
      paneOutput := paneOutput + [m];
    }

    /** Re-reads the verbosity setting and announces the logger the build will use. */
    method MakeBuildLogger(verbositySetting: int)
      modifies this`currentLoggerVerbosity, this`paneOutput
      ensures currentLoggerVerbosity == verbositySetting
      ensures paneOutput == old(paneOutput) + Emitted(hasOutputPane, verbositySetting, Diagnostic, CreatingBuildLogger(verbositySetting))
    {
      currentLoggerVerbosity := verbositySetting;
      WriteLine(Diagnostic, CreatingBuildLogger(currentLoggerVerbosity));
    }
  }

  /** Regrouping three pane segments; kept as a lemma so the large handler contexts need not prove it. */
  lemma ConcatAssociates3<T>(a: seq<T>, b: seq<T>, c: seq<T>)
    ensures (a + b) + c == a + (b + c)
  {
  }

  /** Regrouping four pane segments, for the same reason. */
  lemma ConcatAssociates<T>(a: seq<T>, b: seq<T>, c: seq<T>, d: seq<T>)
    ensures ((a + b) + c) + d == a + ((b + c) + d)
  {
  }
}
