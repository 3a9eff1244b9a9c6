# CommonSolutionTargets pre-build step, modelled in Dafny

CommonSolutionTargets is a Visual Studio package. Just before a solution build runs, it looks next to the solution file for `after.<solution file name>.targets`. If that file exists, the package loads it into MSBuild and seeds two properties: `Configuration` (the active solution configuration) and `BuildingInsideVisualStudio=true`. It then builds the file with the target the user asked for (`Build`, `Rebuild`, `Clean` or `Deploy`, or none). Every property that build appended whose name starts with `Custom` is copied into the global properties of the process-wide MSBuild project collection, which the main build reads.

The model has three parts:

- `Package.CommonSolutionTargets` is a class with the package's mutable state:
  - the tracked build target;
  - the current MSBuild output verbosity;
  - the lines written to the build output pane.

  It also holds a reference to `MSBuild.ProjectCollection`, whose `globalProperties` map is the process-wide global property table. Each event handler of the package is a method of this class. Each method's `ensures` states the new state in terms of the specification functions below. The harvest's index `for` loop becomes a `while` loop over the same bounds, from the watermark up to the property count after the build.
- Pure specification modules:
  - `BuildCommands`: how commands map onto build targets;
  - `SolutionPath`: how the targets path is derived;
  - `MSBuild`: properties, `SetProperty` and the global table;
  - `Harvest`: which properties are promoted;
  - `PreBuild`: one start-update cycle with its status code, global table and output lines;
  - `Diagnostics`: the verbosity gate.

  Lemmas relate these functions to independent characterisations, for example "the table holds the last `Custom` value of each name and nothing else changes".
- Helper modules: `IgnoreCase` (ordinal case-insensitive comparison) and `Wrappers` (`Option`, standing for a C# reference that may be null).

External collaborators are parameters:

- `File.Exists` is `fileExists: string -> bool`.
- Loading a targets file is `load: string -> LoadOutcome`: either the evaluated property list, or the exception's message.
- `ProjectInstance.Build` is `engine: (seq<Property>, Option<string>) -> seq<Property>`. It gives the property list after the build. `None` is the null target.
- The verbosity setting read from the environment is `verbositySetting: int`.
- The active configuration name is `configurationName`.
- The solution's full path is `solutionFullName`.
- The numeric command IDs are an injective function `BuildType -> int`, because their values are not part of this model. The two command-set GUIDs are constructor arguments.

The model follows the code:

- A targets file that fails to load makes the handler return `E_FAIL` (`0x80004005`), not success (CommonSolutionTargets/CommonSolutionTargets/CommonSolutionTargets.cs:249-253).
- A solution path with no folder returns `E_UNEXPECTED` (`0x8000FFFF`). The build is not merely skipped.
- A solution path that is a bare file name has the folder `""`, which is not null. Its targets file is then probed as a relative name.
- Only the position matters for harvesting: entries at or after the count taken after seeding. The code does not compare names with the pre-build set.
- The active-configuration line and the logger line are written before the file is loaded, so they also appear when loading fails.
- Making the build logger re-reads the verbosity. From that point on, the cycle's diagnostics use the new value.

## Model

| member | source | states |
|---|---|---|
| `IgnoreCase.EqualsIgnoreCase` | CommonSolutionTargets/CommonSolutionTargets/CommonSolutionTargets.cs:141-142 | `OrdinalIgnoreCase` equality; `EqualsIgnoreCaseIsFoldedEquality` proves it is equality of the upper-cased strings, and `EqualsIgnoreCaseIsEquivalence` that it is an equivalence |
| `IgnoreCase.EqualsIgnoreCaseIsFoldedEquality` | CommonSolutionTargets/CommonSolutionTargets/CommonSolutionTargets.cs:141-142 | the character-by-character `OrdinalIgnoreCase` comparison holds iff the upper-cased strings are equal |
| `IgnoreCase.EqualsIgnoreCaseIsEquivalence` | CommonSolutionTargets/CommonSolutionTargets/CommonSolutionTargets.cs:141-142 | the GUID comparison is reflexive, symmetric and transitive |
| `IgnoreCase.EqualsItsUpperCase` | CommonSolutionTargets/CommonSolutionTargets/CommonSolutionTargets.cs:141-142 | a GUID string compares equal to its upper-cased spelling |
| `IgnoreCase.DifferentFoldedCharNotEqual` | CommonSolutionTargets/CommonSolutionTargets/CommonSolutionTargets.cs:141-142 | strings that differ at one position after upper-casing are not equal |
| `BuildCommands.Classify` | CommonSolutionTargets/CommonSolutionTargets/CommonSolutionTargets.cs:146-171 | the case label the switch selects has exactly the command's ID |
| `BuildCommands.ClassifyMissesOnlyUnknownIds` | CommonSolutionTargets/CommonSolutionTargets/CommonSolutionTargets.cs:146-171 | the switch selects no case iff the ID is none of the fifteen recognised command IDs |
| `BuildCommands.OtherCommandSetIgnored` | CommonSolutionTargets/CommonSolutionTargets/CommonSolutionTargets.cs:141-143 | a command whose GUID matches neither command set leaves the tracked target unchanged |
| `BuildCommands.RecognisedCommandSetsAction` | CommonSolutionTargets/CommonSolutionTargets/CommonSolutionTargets.cs:146-170 | within a recognised command set, each of the fifteen command IDs sets the target to its action (never null) |
| `BuildCommands.UnknownCommandIgnored` | CommonSolutionTargets/CommonSolutionTargets/CommonSolutionTargets.cs:146-171 | any other command ID leaves the tracked target unchanged, because the switch has no default |
| `BuildCommands.ChangeComesFromRecognisedCommand` | CommonSolutionTargets/CommonSolutionTargets/CommonSolutionTargets.cs:139-171 | conversely, a command that changes the target comes from a recognised set and has a recognised ID, and the new target is that ID's action |
| `BuildCommands.CommandSetMatchIgnoresCase` | CommonSolutionTargets/CommonSolutionTargets/CommonSolutionTargets.cs:141-142 | a GUID recognised in one spelling is recognised in upper case too |
| `BuildCommands.MatchesCommandSet` | CommonSolutionTargets/CommonSolutionTargets/CommonSolutionTargets.cs:141-142 | a command-set GUID field matches iff it was set and equals the command's GUID ignoring case; `CommandSetMatchIgnoresCase` proves the spelling does not matter |
| `BuildCommands.IsStandardCommandSet` | CommonSolutionTargets/CommonSolutionTargets/CommonSolutionTargets.cs:141-143 | the early return's test: the command comes from VSStd97 or VSStd2K; `OtherCommandSetIgnored` proves any other GUID leaves the target unchanged |
| `BuildCommands.TargetName` | CommonSolutionTargets/CommonSolutionTargets/CommonSolutionTargets.cs:152-169 | the target passed to MSBuild is null exactly when no build command is pending |
| `BuildCommands.TargetNamesOfActions` | CommonSolutionTargets/CommonSolutionTargets/CommonSolutionTargets.cs:148-169 | the four Build, four Rebuild and four Clean variants and the three Deploy variants give exactly `"Build"`, `"Rebuild"`, `"Clean"` and `"Deploy"` |
| `BuildCommands.ActionOf` | CommonSolutionTargets/CommonSolutionTargets/CommonSolutionTargets.cs:148-169 | groups the fifteen recognised commands into the four build targets; `TargetNamesOfActions` proves each group's target name |
| `BuildCommands.Observe` | CommonSolutionTargets/CommonSolutionTargets/CommonSolutionTargets.cs:139-172 | a command never clears the tracked target: any change is to a non-null target; `OtherCommandSetIgnored`, `RecognisedCommandSetsAction`, `UnknownCommandIgnored` and `ChangeComesFromRecognisedCommand` characterise it in both directions |
| `SolutionPath.FileName` | CommonSolutionTargets/CommonSolutionTargets/CommonSolutionTargets.cs:229 | the solution file name has no separator and is no longer than the path |
| `SolutionPath.DirectoryName` | CommonSolutionTargets/CommonSolutionTargets/CommonSolutionTargets.cs:228 | the folder is null exactly when the path is empty, and otherwise shorter than the path |
| `SolutionPath.Combine` | CommonSolutionTargets/CommonSolutionTargets/CommonSolutionTargets.cs:234 | `Path.Combine` of a folder and a file name is the inverse of splitting a path into folder and file name, as `SplitThenCombine` and `CombineThenSplit` prove |
| `SolutionPath.TargetsFileName` | CommonSolutionTargets/CommonSolutionTargets/CommonSolutionTargets.cs:230 | the targets file name wraps the solution file name, which `SplitPartsOfPath` shows is the separator-free tail of the path |
| `SolutionPath.SplitPartsOfPath` | CommonSolutionTargets/CommonSolutionTargets/CommonSolutionTargets.cs:228-230 | the file name is a suffix and the folder a prefix of the path, separated by one separator; the targets name is `after.` + file name + `.targets` |
| `SolutionPath.SplitThenCombine` | CommonSolutionTargets/CommonSolutionTargets/CommonSolutionTargets.cs:228-234 | for a path whose last separator is a single `\`, combining its folder with its file name gives back the path |
| `SolutionPath.CombineThenSplit` | CommonSolutionTargets/CommonSolutionTargets/CommonSolutionTargets.cs:228-234 | splitting a combined folder and file name gives back both parts |
| `Diagnostics.Level` | CommonSolutionTargets/CommonSolutionTargets/CommonSolutionTargets.cs:313 | the `(int)` value of a `LoggerVerbosity` the gate compares, which lies between 0 (Quiet) and 4 (Diagnostic) |
| `Diagnostics.ShouldWrite` | CommonSolutionTargets/CommonSolutionTargets/CommonSolutionTargets.cs:310-314 | the `WriteLine` gate: a line is shown iff the pane exists and the current verbosity is at least the line's; `WrittenIffGateOpen`, `GateIsMonotonic` and `GateGrowsWithVerbosity` prove it |
| `Diagnostics.Emitted` | CommonSolutionTargets/CommonSolutionTargets/CommonSolutionTargets.cs:308-318 | what one `WriteLine` call adds to the pane: `WrittenIffGateOpen` proves it is the one line iff the gate is open, and nothing otherwise |
| `Diagnostics.WrittenIffGateOpen` | CommonSolutionTargets/CommonSolutionTargets/CommonSolutionTargets.cs:308-318 | a line is written iff the pane exists and the current verbosity is at least the line's (Quiet=0 … Diagnostic=4) |
| `Diagnostics.GateIsMonotonic` | CommonSolutionTargets/CommonSolutionTargets/CommonSolutionTargets.cs:313 | a line shown at some verbosity would also be shown at any lower verbosity |
| `Diagnostics.GateGrowsWithVerbosity` | CommonSolutionTargets/CommonSolutionTargets/CommonSolutionTargets.cs:313 | raising the current verbosity never hides a line |
| `MSBuild.FindName` | CommonSolutionTargets/CommonSolutionTargets/CommonSolutionTargets.cs:254-255 | finds the first property whose name matches ignoring case, or reports that none does |
| `MSBuild.WithProperty` | CommonSolutionTargets/CommonSolutionTargets/CommonSolutionTargets.cs:254-255 | `SetProperty` replaces an existing entry in place or appends one, and other entries keep their positions |
| `MSBuild.LookupAfterSet` | CommonSolutionTargets/CommonSolutionTargets/CommonSolutionTargets.cs:254-255 | after `SetProperty`, its name (in any case) reads the new value and every other name reads what it did before |
| `MSBuild.ProjectInstance.constructor` | CommonSolutionTargets/CommonSolutionTargets/CommonSolutionTargets.cs:247 | a loaded instance holds the evaluated properties |
| `MSBuild.ProjectInstance.SetProperty` | CommonSolutionTargets/CommonSolutionTargets/CommonSolutionTargets.cs:254-255 | the instance's properties become `WithProperty` of the old ones |
| `MSBuild.ProjectInstance.Build` | CommonSolutionTargets/CommonSolutionTargets/CommonSolutionTargets.cs:258 | the instance's properties become what the engine yields for the old ones and the target |
| `MSBuild.ProjectCollection.SetGlobalProperty` | CommonSolutionTargets/CommonSolutionTargets/CommonSolutionTargets.cs:270 | the global table gains or overwrites one entry and nothing else changes |
| `Harvest.IsCustom` | CommonSolutionTargets/CommonSolutionTargets/CommonSolutionTargets.cs:267 | a property is promoted iff its name starts with `Custom`, as `NonCustomNeverPromoted` and `PromoteAllKeys` prove |
| `Harvest.PromoteAll` | CommonSolutionTargets/CommonSolutionTargets/CommonSolutionTargets.cs:262-272 | the harvest's effect on the global table: `PromoteAllKeys`, `LastValueWins` and `OthersUnchanged` characterise it completely |
| `Harvest.Appended` | CommonSolutionTargets/CommonSolutionTargets/CommonSolutionTargets.cs:262-264 | the loop's index range from the watermark up to the property count; `AppendedAt` proves it holds the post-build properties from the watermark on, in order |
| `Harvest.Promote` | CommonSolutionTargets/CommonSolutionTargets/CommonSolutionTargets.cs:267-270 | one loop iteration: `PromoteAllSnoc` proves the loop is a sequence of these steps, and `NonCustomNeverPromoted` that a non-`Custom` property leaves the table alone |
| `Harvest.AppendedAt` | CommonSolutionTargets/CommonSolutionTargets/CommonSolutionTargets.cs:262-266 | the harvested slice is the post-build properties from the watermark on, in order |
| `Harvest.PromoteAllSnoc` | CommonSolutionTargets/CommonSolutionTargets/CommonSolutionTargets.cs:262-272 | harvesting one more property is one more step of the loop |
| `Harvest.PromoteAllKeys` | CommonSolutionTargets/CommonSolutionTargets/CommonSolutionTargets.cs:262-272 | after harvesting, the table's keys are the old keys plus the `Custom` names, so no entry is ever removed |
| `Harvest.LastValueWins` | CommonSolutionTargets/CommonSolutionTargets/CommonSolutionTargets.cs:262-272 | a promoted name holds the value of its last `Custom` property, so later ones overwrite earlier ones and the table |
| `Harvest.OthersUnchanged` | CommonSolutionTargets/CommonSolutionTargets/CommonSolutionTargets.cs:262-272 | every name not promoted keeps its entry, or stays absent |
| `Harvest.NonCustomNeverPromoted` | CommonSolutionTargets/CommonSolutionTargets/CommonSolutionTargets.cs:267 | a name without the `Custom` prefix never enters or changes the table |
| `Harvest.PromoteAllConcat` | CommonSolutionTargets/CommonSolutionTargets/CommonSolutionTargets.cs:262-272 | two cycles' harvests equal one harvest of both lists, so a later cycle's value overwrites the earlier one |
| `Harvest.PromotesOnlyCustomExample` | CommonSolutionTargets/CommonSolutionTargets/CommonSolutionTargets.cs:267-270 | for any global table, of `CustomFoo=1` and `BarBaz=2` only `CustomFoo` is promoted, and `BarBaz` is present afterwards iff it was before |
| `PreBuild.Seed` | CommonSolutionTargets/CommonSolutionTargets/CommonSolutionTargets.cs:254-255 | seeds `Configuration` and `BuildingInsideVisualStudio`; `SeedSetsContext` proves both read their values, other names are unaffected and at most two entries are added |
| `PreBuild.TargetsPath` | CommonSolutionTargets/CommonSolutionTargets/CommonSolutionTargets.cs:227-234 | null exactly when the solution path has no folder; otherwise the folder combined with `after.<solution file name>.targets`, as `TargetsPathIsNextToSolution` proves |
| `PreBuild.RunCycle` | CommonSolutionTargets/CommonSolutionTargets/CommonSolutionTargets.cs:222-275 | one start-update cycle ends in one of four outcomes, each with its status and global table, as `CycleOutcomes` proves |
| `PreBuild.Status` | CommonSolutionTargets/CommonSolutionTargets/CommonSolutionTargets.cs:232-274 | the status the handler returns for each outcome: `E_UNEXPECTED` for no folder, `E_FAIL` for a load failure, `S_OK` otherwise, as `CycleOutcomes` proves |
| `PreBuild.NewProperties` | CommonSolutionTargets/CommonSolutionTargets/CommonSolutionTargets.cs:256-264 | the properties past the watermark taken after seeding; `BuiltCycleHarvestsOnlyAppended` proves they are exactly what the build appended when it keeps the seeded list |
| `PreBuild.CycleGlobals` | CommonSolutionTargets/CommonSolutionTargets/CommonSolutionTargets.cs:231-272 | the cycle's effect on the global table: `CycleOutcomes` proves only a built cycle changes it, and the `Harvest` lemmas say how |
| `PreBuild.BuildTargets` | CommonSolutionTargets/CommonSolutionTargets/CommonSolutionTargets.cs:244-258 | once the targets file exists, the cycle either fails to load or is built |
| `PreBuild.HarvestLogSnoc` | CommonSolutionTargets/CommonSolutionTargets/CommonSolutionTargets.cs:267-269 | one more harvested property adds its line only if it is a `Custom` property |
| `PreBuild.CycleOutcomes` | CommonSolutionTargets/CommonSolutionTargets/CommonSolutionTargets.cs:227-253 | no folder gives `E_UNEXPECTED`, a missing file gives `S_OK`, a load failure gives `E_FAIL`, and a built file gives `S_OK`; only a built cycle can change the global table |
| `PreBuild.TargetsPathIsNextToSolution` | CommonSolutionTargets/CommonSolutionTargets/CommonSolutionTargets.cs:227-234 | the probed path is the solution folder combined with `after.<solution file name>.targets` |
| `PreBuild.SeedSetsContext` | CommonSolutionTargets/CommonSolutionTargets/CommonSolutionTargets.cs:254-255 | after seeding, `Configuration` reads the configuration name and `BuildingInsideVisualStudio` reads `"true"`; other names are unaffected and at most two entries are added |
| `PreBuild.BuiltCycleHarvestsOnlyAppended` | CommonSolutionTargets/CommonSolutionTargets/CommonSolutionTargets.cs:254-264 | the build runs on the seeded properties with the tracked target, and the seeded entries lie below the watermark, so when the build keeps them only what it appended is harvested |
| `PreBuild.HarvestLogMatchesPromotion` | CommonSolutionTargets/CommonSolutionTargets/CommonSolutionTargets.cs:267-269 | with the gate open, the harvest writes one line per promoted property, in order; with it closed, none |
| `PreBuild.HarvestLog` | CommonSolutionTargets/CommonSolutionTargets/CommonSolutionTargets.cs:267-269 | the loop's lines at the re-read verbosity; `HarvestLogMatchesPromotion` proves there is one per promoted property, in order, when the gate is open and none when it is closed |
| `PreBuild.LoggerLog` | CommonSolutionTargets/CommonSolutionTargets/CommonSolutionTargets.cs:240-242 | the configuration line at the starting verbosity, then the logger line at the re-read one; `CycleLogAtFullVerbosity` shows both in order |
| `PreBuild.LocatedLog` | CommonSolutionTargets/CommonSolutionTargets/CommonSolutionTargets.cs:240-269 | the lines written once the targets file is found, in the handler's order; `CycleLogAtFullVerbosity` lists them per outcome |
| `PreBuild.CycleLog` | CommonSolutionTargets/CommonSolutionTargets/CommonSolutionTargets.cs:225-269 | the start line, then the located lines; `CycleLogSilentWithoutPane`, `CycleLogBelowDetailed` and `CycleLogAtFullVerbosity` characterise it |
| `PreBuild.CycleLogSilentWithoutPane` | CommonSolutionTargets/CommonSolutionTargets/CommonSolutionTargets.cs:308-311 | without a build output pane the cycle writes nothing, whatever the outcome |
| `PreBuild.CycleLogBelowDetailed` | CommonSolutionTargets/CommonSolutionTargets/CommonSolutionTargets.cs:225-269 | when the verbosity is below Detailed both at the start and after the re-read, the cycle writes nothing |
| `PreBuild.CycleLogAtFullVerbosity` | CommonSolutionTargets/CommonSolutionTargets/CommonSolutionTargets.cs:225-269 | with the pane present, Detailed at the start and Diagnostic after the re-read, the cycle writes: only the start line when no targets file is found; start, configuration, logger and load-failure lines when loading fails; start, configuration, logger and building lines, then one line per promoted property in order, when it builds |
| `Package.CommonSolutionTargets.constructor` | CommonSolutionTargets/CommonSolutionTargets/CommonSolutionTargets.cs:62-102 | a new package has no pending target, an empty pane and the verbosity `Initialize` read at line 102, before any handler can run |
| `Package.CommonSolutionTargets.CommandEventsBeforeExecute` | CommonSolutionTargets/CommonSolutionTargets/CommonSolutionTargets.cs:139-172 | the tracked target becomes `Observe` of the old target and the command, and nothing else changes |
| `Package.CommonSolutionTargets.UpdateSolutionBegin` | CommonSolutionTargets/CommonSolutionTargets/CommonSolutionTargets.cs:193-197 | returns 0; only a gated Diagnostic line is written, and the target and the global table are unchanged |
| `Package.CommonSolutionTargets.UpdateSolutionDone` | CommonSolutionTargets/CommonSolutionTargets/CommonSolutionTargets.cs:206-213 | returns 0 and resets the target to null whatever its arguments; the global table is unchanged |
| `Package.CommonSolutionTargets.UpdateSolutionStartUpdate` | CommonSolutionTargets/CommonSolutionTargets/CommonSolutionTargets.cs:222-275 | the status, the new global table, the verbosity and the pane lines are exactly those of the cycle `RunCycle` describes, with the tracked target as the build target |
| `Package.CommonSolutionTargets.BuildTargetsFile` | CommonSolutionTargets/CommonSolutionTargets/CommonSolutionTargets.cs:239-274 | once the file exists: re-reads the verbosity, loads, seeds, builds and harvests as `BuildTargets` describes |
| `Package.CommonSolutionTargets.PromoteCustomProperties` | CommonSolutionTargets/CommonSolutionTargets/CommonSolutionTargets.cs:260-272 | the loop leaves the global table equal to `PromoteAll` of the properties from the watermark on, and writes one gated line per promoted property |
| `Package.CommonSolutionTargets.UpdateSolutionCancel` | CommonSolutionTargets/CommonSolutionTargets/CommonSolutionTargets.cs:280-283 | returns 0 and changes nothing |
| `Package.CommonSolutionTargets.OnActiveProjectCfgChange` | CommonSolutionTargets/CommonSolutionTargets/CommonSolutionTargets.cs:292-296 | returns 0; only a gated Detailed line is written |
| `Package.CommonSolutionTargets.WriteLine` | CommonSolutionTargets/CommonSolutionTargets/CommonSolutionTargets.cs:308-318 | appends the line to the pane iff the pane exists and the current verbosity is at least the line's |
| `Package.CommonSolutionTargets.MakeBuildLogger` | CommonSolutionTargets/CommonSolutionTargets/CommonSolutionTargets.cs:320-325 | the current verbosity becomes the re-read setting, and the logger line is gated by that new value |

## Left out

- Package registration, `Initialize`, `Dispose`, service lookups and event subscription (lines 44-137 and 174-181) are shell plumbing. The constructor takes what `Initialize` would have obtained: the command-set GUIDs, which are null if `Initialize` stopped early, whether the output pane exists, and the verbosity setting `Initialize` read at line 102 before it advised the update-solution events (line 108) and subscribed to the command events (line 135). That value is the Minimal default of line 66 only when `Initialize` stopped before line 102, in which case no handler is ever registered. The constructor's other two arguments are not obtained by `Initialize`: `commandIds` stands for the `BuildType` constants of the `switch` (lines 146-171), and `globalCollection` stands for the static `ProjectCollection.GlobalProjectCollection` that the handler reads at line 270.
- `IDEBuildLogger` and the text of each output line are not modelled. A line is a `Message` value carrying the values it formats, and the MSBuild logger's own output is not recorded.
- `RefreshMSBuildOutputVerbositySetting` reads the Visual Studio settings store. The value it reads is the parameter `verbositySetting`, and any integer is accepted, as the C# cast accepts any integer.
- MSBuild project evaluation and target execution are the `load` and `engine` parameters. An exception thrown by `ProjectInstance.Build` escapes the handler in the source; the model's engine always returns. The `bool` that `Build` returns is ignored in the source and is not modelled.
- `File.Exists` is the parameter `fileExists`. Paths are split at the last `\` or `/`, and `Path.Combine` inserts `\`. The model's split is simpler than .NET's in these cases:
  - A root path, for which .NET returns a null folder, gets a non-null folder in the model.
  - An empty path gets a null folder, where .NET Framework would throw.
  - .NET normalises the folder it returns: `/` becomes `\` and doubled separators collapse. The model keeps the folder as written, so `C:/d/x.sln` has the folder `C:/d` and the probed path `C:/d\after.x.sln.targets`, where .NET uses `C:\d\after.x.sln.targets`.
  - .NET treats a drive's `:` as a separator. For the drive-relative `C:x.sln`, .NET gives the folder `C:`, the file name `x.sln` and the probed path `C:after.x.sln.targets`. The model gives the folder `""`, the file name `C:x.sln` and the probed path `after.C:x.sln.targets`.
- Case-insensitive comparison folds ASCII letters only. The GUIDs and the seeded property names are ASCII.
- MSBuild compares global property names ignoring case. The model's global table uses exact keys.
- The `StartsWith("Custom")` test uses the current culture in the source. The model uses an ordinal prefix test.
- The numeric values of the `BuildType` command IDs and of the two command-set GUIDs are not modelled. The model only needs the IDs to be distinct, as C# case labels must be.
- The `ref` and `object` parameters that the handlers ignore are not modelled: `pfCancelUpdate`, `CustomIn`, `CustomOut`, `CancelDefault` and the hierarchy argument.
