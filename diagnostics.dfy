/**
 * The verbosity gate of the package's diagnostic output: a line reaches the
 * build output pane only if the pane exists and the current MSBuild output
 * verbosity is at least the line's own verbosity.
 */
module Diagnostics {
  import opened Wrappers

  /** `LoggerVerbosity`, ordered from Quiet (0) to Diagnostic (4). */
  datatype LoggerVerbosity = Quiet | Minimal | Normal | Detailed | Diagnostic

  function Level(v: LoggerVerbosity): (n: int)
    ensures 0 <= n <= 4
  {
    match v
    case Quiet => 0
    case Minimal => 1
    case Normal => 2
    case Detailed => 3
    case Diagnostic => 4
  }

  /** The lines the package writes, with the values they format (the text itself is not modelled). */
  datatype Message =
    | SolutionBegin
    | SolutionDone
    | SolutionStartUpdate
    | ProjectConfigurationChanged
    | ActiveConfiguration(name: string)
    | CreatingBuildLogger(verbosity: int)
    | TargetsLoadFailed(path: string, error: string)
    | BuildingTargets(path: string, target: Option<string>)
    | DefinedGlobalProperty(name: string, value: string)

  /** `WriteLine`'s test: the pane exists and the current verbosity is not below the message's. */
  predicate ShouldWrite(hasPane: bool, current: int, verbosity: LoggerVerbosity)
  {
    hasPane && current >= Level(verbosity)
  }

  /** What one `WriteLine` call adds to the pane. */
  function Emitted(hasPane: bool, current: int, verbosity: LoggerVerbosity, m: Message): seq<Message>
  {
    if ShouldWrite(hasPane, current, verbosity) then [m] else []
  }

  /** `WriteLine` writes its line exactly when the pane exists and the current verbosity is at least the line's. */
  lemma WrittenIffGateOpen(hasPane: bool, current: int, verbosity: LoggerVerbosity, m: Message)
    ensures Emitted(hasPane, current, verbosity, m) == [m] <==> hasPane && current >= Level(verbosity)
    ensures Emitted(hasPane, current, verbosity, m) == [] <==> !hasPane || current < Level(verbosity)
  {
  }

  /** A line that is written at some verbosity is also written at every lower one. */
  lemma GateIsMonotonic(hasPane: bool, current: int, v: LoggerVerbosity, w: LoggerVerbosity)
    requires Level(w) <= Level(v)
    ensures ShouldWrite(hasPane, current, v) ==> ShouldWrite(hasPane, current, w)
  {
  }

  /** Raising the current verbosity never hides a line that was shown. */
  lemma GateGrowsWithVerbosity(hasPane: bool, current: int, higher: int, v: LoggerVerbosity)
    requires current <= higher
    ensures ShouldWrite(hasPane, current, v) ==> ShouldWrite(hasPane, higher, v)
  {
  }
}
