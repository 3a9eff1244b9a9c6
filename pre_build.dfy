/**
 * One start-update cycle of the pre-build step, as a function of what the
 * outside world answers: locate `after.<solution file name>.targets` next to
 * the solution, load it, seed it, build it with the tracked target, and
 * harvest its new `Custom` properties. The package's `UpdateSolutionStartUpdate`
 * is proved to do exactly this.
 */
module PreBuild {
  import opened Wrappers
  import opened SolutionPath
  import opened MSBuild
  import opened Harvest
  import opened Diagnostics
  import IgnoreCase

  /** HRESULT status codes, as signed 32-bit values. */
  const S_OK: int := 0
  const E_FAIL: int := -0x7FFF_BFFB            // 0x80004005
  const E_UNEXPECTED: int := -0x7FFF_0001      // 0x8000FFFF

  /** How far a cycle got, with what it saw on the way. */
  datatype Cycle =
    | NoSolutionFolder
    | NoTargetsFile(targetsPath: string)
    | LoadFailed(targetsPath: string, error: string)
    | Built(targetsPath: string, seeded: seq<Property>, post: seq<Property>)

  /** The two properties set on the loaded targets file before it is built. */
  function Seed(loaded: seq<Property>, configuration: string): seq<Property>
  {
    WithProperty(WithProperty(loaded, "Configuration", configuration), "BuildingInsideVisualStudio", "true")
  }

  /** The targets file a solution's pre-build step looks for, if the solution has a folder. */
  function TargetsPath(solutionFullName: string): Option<string>
  {
    match DirectoryName(solutionFullName)
    case None => None
    case Some(folder) => Some(Combine(folder, TargetsFileName(FileName(solutionFullName))))
  }

  function RunCycle(solutionFullName: string, fileExists: string -> bool, load: string -> LoadOutcome,
                    engine: BuildEngine, configuration: string, target: Option<string>): Cycle
  {
    match TargetsPath(solutionFullName)
    case None => NoSolutionFolder
    case Some(path) =>
      if !fileExists(path) then NoTargetsFile(path)
      else BuildTargets(path, load, engine, configuration, target)
  }

  /** The part of a cycle that runs once the targets file was found at `path`. */
  function BuildTargets(path: string, load: string -> LoadOutcome, engine: BuildEngine,
                        configuration: string, target: Option<string>): (c: Cycle)
    ensures c.LoadFailed? || c.Built?
  {
    match load(path)
    case LoadError(e) => LoadFailed(path, e)
    case Loaded(ps) =>
      var seeded := Seed(ps, configuration);
      Built(path, seeded, engine(seeded, target))
  }

  /** The status code the cycle returns to Visual Studio. */
  function Status(c: Cycle): int
  {
    match c
    case NoSolutionFolder => E_UNEXPECTED
    case NoTargetsFile(_) => S_OK
    case LoadFailed(_, _) => E_FAIL
    case Built(_, _, _) => S_OK
  }

  /** The properties the build appended after the two seeded ones. */
  function NewProperties(c: Cycle): seq<Property>
    requires c.Built?
  {
    Appended(c.post, |c.seeded|)
  }

  /** The global property table after the cycle. */
  function CycleGlobals(c: Cycle, globals: map<string, string>): map<string, string>
  {
    if c.Built? then PromoteAll(globals, NewProperties(c)) else globals
  }

  /** The cycle reaches the point where the build logger is made (and the verbosity re-read). */
  predicate MakesLogger(c: Cycle)
  {
    c.LoadFailed? || c.Built?
  }

  /** The lines the harvest loop writes at verbosity `current`. */
  function HarvestLog(hasPane: bool, current: int, props: seq<Property>): seq<Message>
    decreases |props|
  {
    if props == [] then []
    else
      var p := props[|props| - 1];
      HarvestLog(hasPane, current, props[..|props| - 1])
        + (if IsCustom(p.name) then Emitted(hasPane, current, Detailed, DefinedGlobalProperty(p.name, p.value)) else [])
  }

  lemma HarvestLogSnoc(hasPane: bool, current: int, props: seq<Property>, p: Property)
    ensures HarvestLog(hasPane, current, props + [p]) == HarvestLog(hasPane, current, props)
      + (if IsCustom(p.name) then Emitted(hasPane, current, Detailed, DefinedGlobalProperty(p.name, p.value)) else [])
  {
    assert (props + [p])[..|props|] == props;
  }

  /**
   * The lines the cycle writes: `before` is the verbosity when it starts,
   * `setting` the verbosity read from the environment when the logger is made.
   */
  function CycleLog(hasPane: bool, before: int, setting: int, configuration: string,
                    target: Option<string>, c: Cycle): seq<Message>
  {
    Emitted(hasPane, before, Detailed, SolutionStartUpdate) + LocatedLog(hasPane, before, setting, configuration, target, c)
  }

  /** The lines written once the targets file was found. */
  function LocatedLog(hasPane: bool, before: int, setting: int, configuration: string,
                      target: Option<string>, c: Cycle): seq<Message>
  {
    match c
    case NoSolutionFolder => []
    case NoTargetsFile(_) => []
    case LoadFailed(path, e) =>
      LoggerLog(hasPane, before, setting, configuration)
        + Emitted(hasPane, setting, Detailed, TargetsLoadFailed(path, e))
    case Built(path, _, _) =>
      LoggerLog(hasPane, before, setting, configuration)
        + Emitted(hasPane, setting, Detailed, BuildingTargets(path, target))
        + HarvestLog(hasPane, setting, NewProperties(c))
  }

  /** The configuration line, then the logger line at the re-read verbosity. */
  function LoggerLog(hasPane: bool, before: int, setting: int, configuration: string): seq<Message>
  {
    Emitted(hasPane, before, Detailed, ActiveConfiguration(configuration))
      + Emitted(hasPane, setting, Diagnostic, CreatingBuildLogger(setting))
  }

  /** The four outcomes and their status codes; only a built cycle touches the global table. */
  lemma CycleOutcomes(solutionFullName: string, fileExists: string -> bool, load: string -> LoadOutcome,
                      engine: BuildEngine, configuration: string, target: Option<string>,
                      globals: map<string, string>)
    ensures var c := RunCycle(solutionFullName, fileExists, load, engine, configuration, target);
      && (Status(c) == E_UNEXPECTED <==> solutionFullName == [])
      && (c.NoTargetsFile? <==> solutionFullName != [] && !fileExists(TargetsPath(solutionFullName).value))
      && (Status(c) == E_FAIL <==> solutionFullName != [] && fileExists(TargetsPath(solutionFullName).value)
                                   && load(TargetsPath(solutionFullName).value).LoadError?)
      && (Status(c) == S_OK <==> c.NoTargetsFile? || c.Built?)
      && (!c.Built? ==> CycleGlobals(c, globals) == globals)
  {
  }

  /** The targets file sits in the solution's folder and is named after the solution file. */
  lemma TargetsPathIsNextToSolution(folder: string, solutionFileName: string)
    requires folder != [] && !IsSeparator(folder[|folder| - 1])
    requires forall j :: 0 <= j < |solutionFileName| ==> !IsSeparator(solutionFileName[j])
    ensures var path := Combine(folder, solutionFileName);
      TargetsPath(path) == Some(Combine(folder, "after." + solutionFileName + ".targets"))
  {
    CombineThenSplit(folder, solutionFileName);
  }

  /** Seeding sets `Configuration` and `BuildingInsideVisualStudio`, keeps every other property and adds at most two. */
  lemma SeedSetsContext(loaded: seq<Property>, configuration: string, other: string)
    ensures Lookup(Seed(loaded, configuration), "Configuration") == Some(configuration)
    ensures Lookup(Seed(loaded, configuration), "BuildingInsideVisualStudio") == Some("true")
    ensures !SameName(other, "Configuration") && !SameName(other, "BuildingInsideVisualStudio")
            ==> Lookup(Seed(loaded, configuration), other) == Lookup(loaded, other)
    ensures |loaded| <= |Seed(loaded, configuration)| <= |loaded| + 2
  {
    var once := WithProperty(loaded, "Configuration", configuration);
    var twice := WithProperty(once, "BuildingInsideVisualStudio", "true");
    assert twice == Seed(loaded, configuration);
    SeededNamesDiffer();
    EqualsIgnoreCaseFacts("Configuration", "Configuration");
    EqualsIgnoreCaseFacts("BuildingInsideVisualStudio", "BuildingInsideVisualStudio");
    LookupAfterSet(loaded, "Configuration", configuration, "Configuration");
    LookupAfterSet(once, "BuildingInsideVisualStudio", "true", "Configuration");
    LookupAfterSet(once, "BuildingInsideVisualStudio", "true", "BuildingInsideVisualStudio");
    LookupAfterSet(loaded, "Configuration", configuration, other);
    LookupAfterSet(once, "BuildingInsideVisualStudio", "true", other);
  }

  /** The two seeded names are different names, whatever the case. */
  lemma SeededNamesDiffer()
    ensures !SameName("Configuration", "BuildingInsideVisualStudio")
  {
    var a, b := "Configuration", "BuildingInsideVisualStudio";
    assert |a| != |b|;
    if SameName(a, b) {
      IgnoreCase.EqualsIgnoreCaseNeedsSameLength(a, b);
    }
  }

  /**
   * A built cycle ran the engine on the seeded properties with the tracked
   * target, and when the build keeps the seeded list as its prefix, what is
   * harvested is exactly what the build appended: the seeded entries are
   * below the watermark and never harvested.
   */
  lemma BuiltCycleHarvestsOnlyAppended(solutionFullName: string, fileExists: string -> bool,
                                      load: string -> LoadOutcome, engine: BuildEngine,
                                      configuration: string, target: Option<string>)
    requires RunCycle(solutionFullName, fileExists, load, engine, configuration, target).Built?
    ensures var c := RunCycle(solutionFullName, fileExists, load, engine, configuration, target);
      && c.seeded == Seed(load(c.targetsPath).properties, configuration)
      && c.post == engine(c.seeded, target)
      && (c.seeded <= c.post ==> c.post == c.seeded + NewProperties(c))
  {
    var c := RunCycle(solutionFullName, fileExists, load, engine, configuration, target);
    if c.seeded <= c.post {
      assert c.post == c.seeded + c.post[|c.seeded|..];
    }
  }

  /** Every line the harvest writes names a promoted property, and there is one per promoted property when the gate is open. */
  lemma {:induction false} HarvestLogMatchesPromotion(hasPane: bool, current: int, props: seq<Property>)
    ensures ShouldWrite(hasPane, current, Detailed) ==>
      HarvestLog(hasPane, current, props) ==
        seq(|CustomOnly(props)|, i requires 0 <= i < |CustomOnly(props)| => DefinedGlobalProperty(CustomOnly(props)[i].name, CustomOnly(props)[i].value))
    ensures !ShouldWrite(hasPane, current, Detailed) ==> HarvestLog(hasPane, current, props) == []
    decreases |props|
  {
    if props != [] {
      HarvestLogMatchesPromotion(hasPane, current, props[..|props| - 1]);
    }
  }

  /** Without an output pane the cycle writes nothing, whatever happens. */
  lemma CycleLogSilentWithoutPane(before: int, setting: int, configuration: string,
                                  target: Option<string>, c: Cycle)
    ensures CycleLog(false, before, setting, configuration, target, c) == []
  {
    if c.Built? {
      HarvestLogMatchesPromotion(false, setting, NewProperties(c));
    }
  }

  /** Below Detailed, both at the start and after the re-read, the cycle writes nothing. */
  lemma CycleLogBelowDetailed(hasPane: bool, before: int, setting: int, configuration: string,
                              target: Option<string>, c: Cycle)
    requires before < Level(Detailed) && setting < Level(Detailed)
    ensures CycleLog(hasPane, before, setting, configuration, target, c) == []
  {
    if c.Built? {
      HarvestLogMatchesPromotion(hasPane, setting, NewProperties(c));
    }
  }

  /**
   * With the pane present, Detailed verbosity at the start and Diagnostic
   * after the re-read, every line of the cycle is written, in the handler's
   * order, and which lines there are depends only on how far the cycle got.
   */
  lemma CycleLogAtFullVerbosity(before: int, setting: int, configuration: string,
                                target: Option<string>, c: Cycle)
    requires before >= Level(Detailed) && setting >= Level(Diagnostic)
    ensures c.NoSolutionFolder? || c.NoTargetsFile? ==>
      CycleLog(true, before, setting, configuration, target, c) == [SolutionStartUpdate]
    ensures c.LoadFailed? ==>
      CycleLog(true, before, setting, configuration, target, c) ==
        [SolutionStartUpdate, ActiveConfiguration(configuration), CreatingBuildLogger(setting),
         TargetsLoadFailed(c.targetsPath, c.error)]
    ensures c.Built? ==>
      var promoted := CustomOnly(NewProperties(c));
      CycleLog(true, before, setting, configuration, target, c) ==
        [SolutionStartUpdate, ActiveConfiguration(configuration), CreatingBuildLogger(setting),
         BuildingTargets(c.targetsPath, target)]
        + seq(|promoted|, i requires 0 <= i < |promoted| => DefinedGlobalProperty(promoted[i].name, promoted[i].value))
  {
    if c.Built? {
      HarvestLogMatchesPromotion(true, setting, NewProperties(c));
    }
  }

  /** The `Custom` properties of `props`, in order. */
  function CustomOnly(props: seq<Property>): (r: seq<Property>)
    ensures |r| <= |props|
    ensures forall k :: 0 <= k < |r| ==> IsCustom(r[k].name) && r[k] in props
    decreases |props|
  {
    if props == [] then []
    else
      var p := props[|props| - 1];
      CustomOnly(props[..|props| - 1]) + (if IsCustom(p.name) then [p] else [])
  }
}
