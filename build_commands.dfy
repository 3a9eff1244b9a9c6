/**
 * The build-intent tracker's pure part: which command sets are watched, how
 * command IDs map onto the build target that a pre-build targets file is
 * asked to run, and the transition of the tracked target on one command.
 */
module BuildCommands {
  import opened Wrappers
  import IgnoreCase

  /** The command IDs of the `BuildType` enumeration that the tracker recognises. */
  datatype BuildType =
    | Build | BuildSelection | BuildOnlyProject | BuildCtx
    | Rebuild | RebuildSelection | RebuildOnlyProject | RebuildCtx
    | Clean | CleanSelection | CleanOnlyProject | CleanCtx
    | Deploy | DeploySelection | DeployCtx

  /** The four values the tracked build target can take besides null. */
  datatype BuildTarget = TargetBuild | TargetRebuild | TargetClean | TargetDeploy

  /** The numeric command ID of each `BuildType` is fixed but not known here; the IDs are distinct. */
  ghost predicate DistinctIds(ids: BuildType -> int)
  {
    forall a: BuildType, b: BuildType :: a != b ==> ids(a) != ids(b)
  }

  /** The string passed to MSBuild as the target name (null when no build command was seen). */
  function TargetName(action: Option<BuildTarget>): (r: Option<string>)
    ensures action.None? <==> r.None?
  {
    match action
    case None => None
    case Some(TargetBuild) => Some("Build")
    case Some(TargetRebuild) => Some("Rebuild")
    case Some(TargetClean) => Some("Clean")
    case Some(TargetDeploy) => Some("Deploy")
  }

  /** Which action each recognised command ID stands for: four build, four rebuild, four clean and three deploy variants. */
  function ActionOf(t: BuildType): BuildTarget
  {
    match t
    case Build | BuildSelection | BuildOnlyProject | BuildCtx => TargetBuild
    case Rebuild | RebuildSelection | RebuildOnlyProject | RebuildCtx => TargetRebuild
    case Clean | CleanSelection | CleanOnlyProject | CleanCtx => TargetClean
    case Deploy | DeploySelection | DeployCtx => TargetDeploy
  }

  /** The case label of the `switch (ID)` that a command ID hits, if any. */
  function Classify(ids: BuildType -> int, id: int): (r: Option<BuildType>)
    ensures r.Some? ==> ids(r.value) == id
  {
    if id == ids(Build) then Some(Build)
    else if id == ids(BuildSelection) then Some(BuildSelection)
    else if id == ids(BuildOnlyProject) then Some(BuildOnlyProject)
    else if id == ids(BuildCtx) then Some(BuildCtx)
    else if id == ids(Rebuild) then Some(Rebuild)
    else if id == ids(RebuildSelection) then Some(RebuildSelection)
    else if id == ids(RebuildOnlyProject) then Some(RebuildOnlyProject)
    else if id == ids(RebuildCtx) then Some(RebuildCtx)
    else if id == ids(Clean) then Some(Clean)
    else if id == ids(CleanSelection) then Some(CleanSelection)
    else if id == ids(CleanOnlyProject) then Some(CleanOnlyProject)
    else if id == ids(CleanCtx) then Some(CleanCtx)
    else if id == ids(Deploy) then Some(Deploy)
    else if id == ids(DeploySelection) then Some(DeploySelection)
    else if id == ids(DeployCtx) then Some(DeployCtx)
    else None
  }

  /** A command-set GUID field that was set (not null) and equals `guid` ignoring case. */
  predicate MatchesCommandSet(guid: string, commandSet: Option<string>)
  {
    commandSet.Some? && IgnoreCase.EqualsIgnoreCase(guid, commandSet.value)
  }

  /** The command comes from one of the two standard command sets. */
  predicate IsStandardCommandSet(guid: string, std97: Option<string>, std2k: Option<string>)
  {
    MatchesCommandSet(guid, std97) || MatchesCommandSet(guid, std2k)
  }

  /** The tracked build target after the command `(guid, id)` is about to execute. */
  function Observe(current: Option<BuildTarget>, std97: Option<string>, std2k: Option<string>,
                   ids: BuildType -> int, guid: string, id: int): (r: Option<BuildTarget>)
    ensures r != current ==> r.Some?
  {
    if !IsStandardCommandSet(guid, std97, std2k) then current
    else match Classify(ids, id)
      case Some(t) => Some(ActionOf(t))
      case None => current
  }

  /** The switch misses exactly the IDs that are none of the recognised commands. */
  lemma ClassifyMissesOnlyUnknownIds(ids: BuildType -> int, id: int)
    ensures Classify(ids, id).None? <==> forall t: BuildType :: ids(t) != id
  {
    if Classify(ids, id).None? {
      forall t: BuildType ensures ids(t) != id {
        match t
        case Build => case BuildSelection => case BuildOnlyProject => case BuildCtx =>
        case Rebuild => case RebuildSelection => case RebuildOnlyProject => case RebuildCtx =>
        case Clean => case CleanSelection => case CleanOnlyProject => case CleanCtx =>
        case Deploy => case DeploySelection => case DeployCtx =>
      }
    }
  }

  /** A command from any other command set leaves the tracked target as it was. */
  lemma OtherCommandSetIgnored(current: Option<BuildTarget>, std97: Option<string>, std2k: Option<string>,
                               ids: BuildType -> int, guid: string, id: int)
    requires !IsStandardCommandSet(guid, std97, std2k)
    ensures Observe(current, std97, std2k, ids, guid, id) == current
  {
  }

  /** Within a standard command set, every recognised command sets the target to its action. */
  lemma RecognisedCommandSetsAction(current: Option<BuildTarget>, std97: Option<string>, std2k: Option<string>,
                                    ids: BuildType -> int, guid: string, t: BuildType)
    requires DistinctIds(ids)
    requires IsStandardCommandSet(guid, std97, std2k)
    ensures Observe(current, std97, std2k, ids, guid, ids(t)) == Some(ActionOf(t))
    ensures TargetName(Observe(current, std97, std2k, ids, guid, ids(t))).Some?
  {
    ClassifyMissesOnlyUnknownIds(ids, ids(t));
  }

  /** Within a standard command set, any other command ID leaves the target as it was (the switch has no default). */
  lemma UnknownCommandIgnored(current: Option<BuildTarget>, std97: Option<string>, std2k: Option<string>,
                              ids: BuildType -> int, guid: string, id: int)
    requires forall t: BuildType :: ids(t) != id
    ensures Observe(current, std97, std2k, ids, guid, id) == current
  {
    ClassifyMissesOnlyUnknownIds(ids, id);
  }

  /** Conversely, a command that changes the target is a recognised command of a standard command set. */
  lemma ChangeComesFromRecognisedCommand(current: Option<BuildTarget>, std97: Option<string>, std2k: Option<string>,
                                         ids: BuildType -> int, guid: string, id: int)
    requires Observe(current, std97, std2k, ids, guid, id) != current
    ensures IsStandardCommandSet(guid, std97, std2k)
    ensures exists t: BuildType :: ids(t) == id && Observe(current, std97, std2k, ids, guid, id) == Some(ActionOf(t))
  {
    var t := Classify(ids, id).value;
    assert ids(t) == id;
  }

  /** The command-set comparison ignores the case of the GUID text. */
  lemma CommandSetMatchIgnoresCase(guid: string, std97: Option<string>, std2k: Option<string>)
    requires IsStandardCommandSet(guid, std97, std2k)
    ensures IsStandardCommandSet(IgnoreCase.FoldCase(guid), std97, std2k)
  {
    var upper := IgnoreCase.FoldCase(guid);
    IgnoreCase.EqualsItsUpperCase(guid);
    var std := if MatchesCommandSet(guid, std97) then std97.value else std2k.value;
    IgnoreCase.EqualsIgnoreCaseIsEquivalence(guid, upper, std);
    IgnoreCase.EqualsIgnoreCaseIsEquivalence(upper, guid, std);
  }

  /** The action of each recognised command is named exactly as MSBuild's target. */
  lemma TargetNamesOfActions(t: BuildType)
    ensures TargetName(Some(ActionOf(t))) ==
      if t in {Build, BuildSelection, BuildOnlyProject, BuildCtx} then Some("Build")
      else if t in {Rebuild, RebuildSelection, RebuildOnlyProject, RebuildCtx} then Some("Rebuild")
      else if t in {Clean, CleanSelection, CleanOnlyProject, CleanCtx} then Some("Clean")
      else Some("Deploy")
  {
  }
}
