# IoPS in Dafny

IoPS is a Windows service that lets an Azure IoT Hub run PowerShell scripts on a device. The hub calls two direct methods on the device:

- `ListScripts` answers with the names of the scripts the device may run.
- `ExecuteScript` takes a JSON request holding a script name, an unused execution policy and a dictionary of named parameters. It runs the script and answers with a JSON result: `Completed`, `Output` and `Errors`.

This project models the decision logic of the service and proves properties of it. The foreign runtimes are modelled as values:

- The filesystem is a snapshot (`FileSystem.Snapshot`):
  - a map from each existing directory to the file names that enumerating `*.ps1` yields there, in enumeration order;
  - the set of files that `File.Exists` reports.
- The PowerShell engine is an oracle (`Executor.Host`). It says whether opening the runspace or setting the execution policy raises. It also says what invoking a script with a map of named parameters does: the script runs and gives output and error strings, or it raises.
- JSON decoding of a request is an oracle (`decode`) that returns a request document, a null document, or an exception. The JSON a response carries is an abstract `Models.Json` value.
- The IoT client (`Broker.DeviceClient`) records every call made on it. It also keeps the state those calls establish:
  - the registered method handlers;
  - the status handler;
  - the retry policy;
  - how many times it was opened and how many times it was closed.

The model is organised by the program's own structure:

| module | file | models |
|---|---|---|
| `Configuration` | configuration.dfy | `ConfigurationService`: settings with a default for missing or blank values |
| `AsciiText` | ascii_text.dfy | `Split(',', ';')`, `Trim`, `ToLower`, ordinal ignore-case comparison (ASCII) |
| `ScriptNames` | script_names.dfy | the script-name pattern `^[a-z0-9\-.]+\.ps1$` and the ".ps1" normalisation |
| `FileSystem` | file_system.dfy | the snapshot and the enumeration queries both locators run |
| `FileService` | ps_file_service.dfy | `PSFileService`: the multi-directory locator |
| `Models` | models.dfy | `PSExecutionParameters`, `PSExecutionResults` and its JSON shape |
| `Executor` | ps_executor.dfy | `PSExecutor`: single-directory listing and script execution |
| `Broker` | broker.dfy | the IoT device client as a call recorder |
| `Dispatch` | dispatch.dfy | handler table, double-case registration, status codes and bodies |
| `IoTHubDevices` | iot_hub_device.dfy | `IoTHubDevice` (retry policy, reopens after a hard disconnect) |
| `IoTDevices` | iot_device.dfy | `IoTDevice` (same dispatch, status handler only logs) |
| `CommandLine` | command_line.dfy | `Program.Main`'s install / uninstall / conflict / run decision |

Case handling is ASCII only. Lower-casing, `OrdinalIgnoreCase` comparison and the `IgnoreCase` regex class all fold only 'A'..'Z'. Whitespace is space and '\t'..'\r'.

The regex is modelled with .NET's `$` rule. Without `RegexOptions.Multiline`, `$` also matches just before one final '\n', so `ScriptNames.IsValidScriptName` accepts "run.ps1\n". Both lookups test only normalised names, and a normalised name always ends in ".ps1" (in some case). So the quirk cannot be reached through them (`ScriptNames.NormalizedNameEndsInExtension`, `ScriptNames.TrailingNewlineQuirk`).

Three points of the code's behaviour are easy to get wrong:

- Dispatch is by exact method name. The client registers "ListScripts", "listscripts", "ExecuteScript" and "executescript" and nothing else. Any other casing, such as "LISTSCRIPTS", reaches no handler.
- The 400 body is "Bad Json Provided" (IoPS/IoTServices/IoTHubDevice.cs:119).
- Script names have no length bound, in the code or in the model.

Application settings are looked up ignoring the case of the key. The settings are therefore a map from the lower-cased key to its value, and `Configuration.GetSetting` lower-cases the requested key.

Program.cs registers `IoTDevice` with its container. `IoTService`, which the container resolves, needs an `IIoTDevice`, and only `IoTHubDevice` implements that interface. The two device classes are modelled separately, each as written.

## Model

| member | source | states |
|---|---|---|
| Configuration.GetSetting | IoPS/ConfigurationService.cs:7 | a value comes back exactly when the key is present, in any case, and it is the value stored under it |
| Configuration.GetSettingIgnoresCase | IoPS/ConfigurationService.cs:7 | two keys that differ only in case give the same answer |
| Configuration.GetSettingOr | IoPS/ConfigurationService.cs:9-19 | the default when the key (in any case) is absent or its value is empty or whitespace; otherwise the stored value, untrimmed |
| AsciiText.Trim | IoPS/PowershellServices/FileService/PSFileService.cs:24 | the result is empty iff the input is blank; it has no surrounding whitespace; it is the input's middle, with only whitespace cut from either end |
| AsciiText.SplitJoinRoundTrip | IoPS/PowershellServices/FileService/PSFileService.cs:22 | splitting on ',' and ';' gives one more piece than there are separators, and re-joining the pieces with the separators gives back the input |
| AsciiText.SplitPiecesHaveNoSeparator | IoPS/PowershellServices/FileService/PSFileService.cs:22 | no piece of the split contains ',' or ';' |
| FileService.NonBlankTrimmed | IoPS/PowershellServices/FileService/PSFileService.cs:23-24 | never more entries than pieces |
| FileService.NonBlankTrimmedKeepsEach | IoPS/PowershellServices/FileService/PSFileService.cs:23-24 | every non-blank piece is kept, trimmed |
| FileService.NonBlankTrimmedComesFromPieces | IoPS/PowershellServices/FileService/PSFileService.cs:23-24 | every entry is some non-blank piece, trimmed: nothing is made up |
| FileService.NonBlankTrimmedWellFormed | IoPS/PowershellServices/FileService/PSFileService.cs:23-24 | every entry is non-empty with no whitespace at either end |
| FileService.NonBlankTrimmedAppend | IoPS/PowershellServices/FileService/PSFileService.cs:23-24 | the filter works piece by piece in order: the entries of two runs of pieces are those of the first run followed by those of the second |
| FileService.ScriptPathListWellFormed | IoPS/PowershellServices/FileService/PSFileService.cs:22-25 | every configured directory is non-empty, has no surrounding whitespace and contains no ',' or ';' |
| FileService.PSFileService.constructor | IoPS/PowershellServices/FileService/PSFileService.cs:16-28 | the directories are those of the "scriptpath" setting (default: the executable's directory), split, filtered and trimmed |
| ScriptNames.ValidNameCharacters | IoPS/PowershellServices/FileService/PSFileService.cs:30 | for a name without a line feed: valid iff longer than ".ps1", made only of letters, digits, '-' and '.', and ending in ".ps1" in any case |
| ScriptNames.ValidityIgnoresCase | IoPS/PowershellServices/FileService/PSFileService.cs:12 | two names equal ignoring case are both valid or both invalid |
| ScriptNames.TrailingNewlineQuirk | IoPS/PowershellServices/FileService/PSFileService.cs:12 | the pattern accepts "run.ps1\n", but rejects its normalised form "run.ps1\n.ps1" |
| ScriptNames.NormalizedNameEndsInExtension | IoPS/PowershellServices/FileService/PSFileService.cs:34-39 | after normalisation, validity is the whole-string match: the '\n' quirk cannot apply |
| ScriptNames.Normalize | IoPS/PowershellServices/FileService/PSFileService.cs:34-37 | the result ends in ".ps1" ignoring case and extends the name; it is the name itself iff the name already ends in ".ps1" ignoring case (so "X.PS1" stays), else the name plus ".ps1" |
| ScriptNames.NormalizeIdempotent | IoPS/PowershellServices/FileService/PSFileService.cs:34-37 | normalising twice equals normalising once |
| FileSystem.EnumerateFiles | IoPS/PowershellServices/PSExecutor.cs:68 | the files of one existing directory, one per listed name, in enumeration order |
| FileSystem.EnumerateAll | IoPS/PowershellServices/FileService/PSFileService.cs:51 | every enumerated file belongs to one of the given directories and is listed there |
| FileSystem.EnumerateAllComplete | IoPS/PowershellServices/FileService/PSFileService.cs:51 | every listed file of every given directory is enumerated |
| FileSystem.EnumerateAllAppend | IoPS/PowershellServices/FileService/PSFileService.cs:51 | enumeration goes directory by directory, in the given order |
| FileSystem.FirstNamed | IoPS/PowershellServices/FileService/PSFileService.cs:51-53 | the index of the first file whose name equals the request ignoring case: no earlier file matches, and the end index means no file matches |
| FileSystem.FileNames | IoPS/PowershellServices/FileService/PSFileService.cs:77 | the file names of the files, position by position |
| FileSystem.ValidNames | IoPS/PowershellServices/FileService/PSFileService.cs:78 | only names matching the pattern are kept |
| FileSystem.ValidNamesCounts | IoPS/PowershellServices/FileService/PSFileService.cs:76-79 | each valid name is kept as often as it occurs (duplicates across directories are listed twice), and each invalid name never |
| FileSystem.NoneNamedIffNoListedName | IoPS/PowershellServices/PSExecutor.cs:68-72 | the first-match search runs off the end of a directory's enumeration iff no listed name equals the request ignoring case |
| FileSystem.ValidNamesAppend | IoPS/PowershellServices/FileService/PSFileService.cs:76-79 | the pattern filter keeps enumeration order: filtering two runs of names gives the first run's valid names, then the second's |
| FileSystem.FileNamesAppend | IoPS/PowershellServices/FileService/PSFileService.cs:77 | taking file names keeps order across two runs of files |
| FileService.ExistingPaths | IoPS/PowershellServices/FileService/PSFileService.cs:94-109 | a directory is kept iff it is configured and exists |
| FileService.ExistingPathsAppend | IoPS/PowershellServices/FileService/PSFileService.cs:94-109 | the filter keeps configured order and repeats: on two lists it keeps those of the first, then those of the second |
| FileService.CandidatesAppend | IoPS/PowershellServices/FileService/PSFileService.cs:44-53 | the candidate files come in configured order, then enumeration order within each directory |
| FileService.PSFileService.GetValidScriptPaths | IoPS/PowershellServices/FileService/PSFileService.cs:94-109 | the loop returns exactly the configured directories that exist, in configured order |
| FileService.PSFileService.GetScript | IoPS/PowershellServices/FileService/PSFileService.cs:32-61 | exactly one of path and error is non-null; errors come in a fixed order: invalid name first (no directory touched), then no existing directory, then not found |
| FileService.LocateFoundIsExistingFile | IoPS/PowershellServices/FileService/PSFileService.cs:51-60 | a found script lies in a configured, existing directory, is listed there, exists, and its name equals the normalised request ignoring case |
| FileService.LocateFoundIsFirstMatch | IoPS/PowershellServices/FileService/PSFileService.cs:51-53 | the found script is the first match, directories in configured order then enumeration order |
| FileService.LocatePresentIsFound | IoPS/PowershellServices/FileService/PSFileService.cs:32-61 | a valid name that some existing configured directory lists, in any case, always has a first match, and it is found unless File.Exists denies that match |
| FileService.LocateNotFound | IoPS/PowershellServices/FileService/PSFileService.cs:55-58 | "Script file does not exist" is answered iff the name is valid, a directory exists, and no file matches or the first match fails File.Exists |
| FileService.LocateFoundIsListed | IoPS/PowershellServices/FileService/PSFileService.cs:63-79 | every script the locator finds is one that ListAvailableScripts lists |
| FileService.PSFileService.ListAvailableScripts | IoPS/PowershellServices/FileService/PSFileService.cs:63-92 | an empty list when no configured directory exists; otherwise the pattern-matching names of all existing directories, all of them valid |
| FileService.AvailableScriptsAppend | IoPS/PowershellServices/FileService/PSFileService.cs:63-92 | the listing goes directory by directory in configured order: the scripts listed for two runs of configured paths are those of the first followed by those of the second |
| Models.ExecutionParameters.constructor | IoPS/PowershellServices/Models/PSExecutionParameters.cs:5-10 | the request object holds the decoded ScriptName, ExecutionPolicy and Parameters as given |
| Models.StringArray | IoPS/PowershellServices/Models/PSExecutionResults.cs:8 | a string array becomes a JSON array of the same strings in the same order |
| Models.SerializedMembers | IoPS/PowershellServices/Models/PSExecutionResults.cs:5-12 | Completed is always written; Output is always written, as null when null; Errors is left out exactly when null and is written when non-null, even when empty |
| Models.SerializeRoundTrip | IoPS/PowershellServices/Models/PSExecutionResults.cs:5-12 | reading a serialised result back gives the same result: leaving out a null Errors loses nothing |
| Executor.PSExecutor.constructor | IoPS/PowershellServices/PSExecutor.cs:21-25 | the directory is the "scriptpath" setting (default: the executable's directory), used unsplit |
| Executor.PSExecutor.ListAvailableScripts | IoPS/PowershellServices/PSExecutor.cs:27-46 | the answer is the listing specification: the sentinel for a missing directory, else the valid names in enumeration order |
| Executor.ListingSentinelIffMissing | IoPS/PowershellServices/PSExecutor.cs:31-45 | the answer is ["Script directory does not exist"] iff the directory is missing (the sentinel is not a valid name); otherwise every listed name is valid |
| Executor.FoundScriptIsListed | IoPS/PowershellServices/PSExecutor.cs:38-41 | every script the executor would run is in its own listing |
| Executor.PSExecutor.BindParameters | IoPS/PowershellServices/PSExecutor.cs:105-109 | the loop adds one named parameter per entry of a non-null, non-empty dictionary and none otherwise; names are distinct and the parameters are exactly the dictionary |
| Executor.PSExecutor.ExecuteScript | IoPS/PowershellServices/PSExecutor.cs:48-155 | ScriptName is normalised in place (a null one raises first); the result, escaping exception and runspace calls are those of the execution specification |
| Executor.OutputStrings | IoPS/PowershellServices/PSExecutor.cs:128 | the string forms of the output objects, position by position, or none exactly when some output object is null |
| Executor.OutputStringsPresent | IoPS/PowershellServices/PSExecutor.cs:128 | a run whose outputs are all present keeps every string, in order: the conversion inverts wrapping each string as a present object |
| Executor.FoundScript | IoPS/PowershellServices/PSExecutor.cs:68-70 | the file run lies in the configured directory and its name equals the normalised request ignoring case |
| Executor.RunScriptAsWrittenDiffers | IoPS/PowershellServices/PSExecutor.cs:113-148 | as written, a run that reported errors lets an ArgumentNullException out, with the runspace still closed, where the intended reading completes with its outputs and errors (or raises a NullReferenceException on a null output); on every other run the two agree |
| Executor.ExecuteSplits | IoPS/PowershellServices/PSExecutor.cs:48-155 | an execution either stops with no runspace, or is the runspace part run on the found script with the request's parameters |
| Executor.InvalidNameAnswer | IoPS/PowershellServices/PSExecutor.cs:57-66 | Completed=false, Errors=["Script name is invalid"] with no runspace iff the given name is invalid once normalised |
| Executor.NotFoundAnswer | IoPS/PowershellServices/PSExecutor.cs:68-81 | Completed=false, Errors=["Script file does not exist"] with no runspace iff the normalised name is valid, the directory exists and none of its files has that name ignoring case |
| Executor.MissingDirectoryAnswer | IoPS/PowershellServices/PSExecutor.cs:68 | a DirectoryNotFoundException escapes, with no runspace, iff the normalised name is valid and the directory is missing |
| Executor.RuntimeExceptionAnswer | IoPS/PowershellServices/PSExecutor.cs:113-148 | a RuntimeException from the found script gives Completed=false with the exception's message as the one error, after the full open, policy, invoke, close sequence |
| Executor.NormalRunAnswer | IoPS/PowershellServices/PSExecutor.cs:113-137 | a found script that runs with no null output and no reported errors gives Completed=true, Output = the string forms of the pipeline's outputs in order, no Errors, after the full open, policy, invoke, close sequence |
| Executor.NullOutputAnswer | IoPS/PowershellServices/PSExecutor.cs:117-128 | a found script that emits a null output object lets a NullReferenceException out (taking its string form), after the full open, policy, invoke, close sequence |
| Executor.ResultShape | IoPS/PowershellServices/PSExecutor.cs:61-147 | a failed result has null Output and exactly one error; a completed one has an Output array, and Errors only when the pipeline reported errors, never empty |
| Executor.RunScriptCompleted | IoPS/PowershellServices/PSExecutor.cs:113-148 | the runspace part completes iff opening and the policy succeed, the invocation runs and no output object is null; only the found script is ever invoked |
| Executor.CompletedIffRan | IoPS/PowershellServices/PSExecutor.cs:117-148 | Completed=true iff a script was found, nothing raised, and the pipeline ran the invoked script without a null output |
| Executor.RunScriptCloses | IoPS/PowershellServices/PSExecutor.cs:85-154 | the runspace part creates and opens first and closes last, exactly once, on every path |
| Executor.RunspaceAlwaysClosed | IoPS/PowershellServices/PSExecutor.cs:85-154 | a runspace exists iff a script was found, and then it is closed last, exactly once |
| Executor.RunScriptInvokes | IoPS/PowershellServices/PSExecutor.cs:91-117 | the script is invoked only as the fourth call, after the policy is set to RemoteSigned, with the given script and parameters |
| Executor.InvocationIsTheRequestedScript | IoPS/PowershellServices/PSExecutor.cs:68-117 | the invoked script is the directory's file named like the request, and its parameters are the request's bound parameters |
| Executor.ExecutorAgreesWithLocator | IoPS/PowershellServices/PSExecutor.cs:68-70 | for one existing directory, the executor invokes the same file that the multi-directory locator finds when configured with that directory alone, with exactly the create, open, policy, invoke and close calls |
| Broker.DeviceClient.CreateFromConnectionString | IoPS/IoTServices/IoTHubDevice.cs:35 | a new client with no calls made |
| Broker.DeviceClient.SetRetryPolicy | IoPS/IoTServices/IoTHubDevice.cs:42 | the call is recorded and the policy set; the state stays the one the log establishes |
| Broker.DeviceClient.SetConnectionStatusChangesHandler | IoPS/IoTServices/IoTHubDevice.cs:49 | the call is recorded and the status handler set |
| Broker.DeviceClient.SetMethodHandler | IoPS/IoTServices/IoTHubDevice.cs:69-70 | the call is recorded and the handler registered under exactly the given name |
| Broker.DeviceClient.Open | IoPS/IoTServices/IoTHubDevice.cs:60 | the call is recorded and the open count grows by one |
| Broker.DeviceClient.Close | IoPS/IoTServices/IoTHubDevice.cs:75 | the call is recorded and the close count grows by one |
| Dispatch.Registrations | IoPS/IoTServices/IoTHubDevice.cs:53-71 | two registrations per table entry, in table order: the exact name, then the lower-cased name, both with the entry's callback |
| Dispatch.HandlerTableRegistrations | IoPS/IoTServices/IoTHubDevice.cs:27-31 | the table yields exactly "ListScripts", "listscripts", "ExecuteScript", "executescript", in that order |
| Dispatch.ConnectRegisters | IoPS/IoTServices/IoTHubDevice.cs:45-71 | connecting adds exactly the four handler entries, sets the status handler, keeps the retry policy and opens once |
| Dispatch.ConnectedNames | IoPS/IoTServices/IoTHubDevice.cs:63-71 | on a client without handlers, the registered names are exactly the four; both spellings reach the same callback and "LISTSCRIPTS" reaches none |
| Dispatch.Route | IoPS/IoTServices/IoTHubDevice.cs:69-70 | a call reaches a handler iff one is registered under exactly its name |
| Dispatch.StatusLogLevel | IoPS/IoTServices/IoTHubDevice.cs:140-147 | a status change is logged as a warning iff the status is not Connected |
| Dispatch.ResponseFor | IoPS/IoTServices/IoTHubDevice.cs:107-126 | the status is 200, 400 or 500: 200 iff a result came back, 400 iff a JsonException was raised |
| Dispatch.ResponseBodyReadsBack | IoPS/IoTServices/IoTHubDevice.cs:129-136 | a 200 body reads back as exactly the result; the 400 and 500 bodies read back as no result |
| Dispatch.ListScriptsBodyReadsBack | IoPS/IoTServices/IoTHubDevice.cs:93-98 | ListScripts answers 200 and its body reads back as exactly the listed names |
| Dispatch.ExecuteRaisesNoJsonException | IoPS/PowershellServices/PSExecutor.cs:139-148 | the executor lets out a JsonException only when the engine raised one |
| Dispatch.RunScriptRaisesNoJsonException | IoPS/PowershellServices/PSExecutor.cs:113-148 | the runspace part lets out a JsonException only when the engine raised one |
| Dispatch.ExecuteScriptStatus | IoPS/IoTServices/IoTHubDevice.cs:103-127 | 400 iff decoding raised a JsonException; 200 iff a request was decoded and the executor returned, whatever Completed is |
| Dispatch.ReportedErrorsAnswered500AsWritten | IoPS/PowershellServices/PSExecutor.cs:121-125 | as written, a script that writes errors and ends normally is answered 500 "Unknown Exception", with no result to read back |
| Dispatch.ReportedErrorsReachCaller | IoPS/PowershellServices/PSExecutor.cs:119-137 | in the intended reading, such a script is answered 200 and the caller reads back Completed=true with its outputs and its errors; a null output still makes it 500 |
| Dispatch.NullOutputAnswered500 | IoPS/PowershellServices/PSExecutor.cs:128 | a script that emits a null output object is answered 500 "Unknown Exception" in both readings |
| Dispatch.InvalidNameAnsweredOk | IoPS/IoTServices/IoTHubDevice.cs:107-113 | an invalid script name is answered 200, carrying the failed result |
| IoTHubDevices.ShouldReopenCases | IoPS/IoTServices/IoTHubDevice.cs:149-154 | a reopen happens iff the status is Disconnected and the reason is RetryExpired, NoNetwork, CommunicationError or ClientClose; never for an expired token, a disabled device, a bad credential or a normal connection |
| IoTHubDevices.IoTHubDevice.constructor | IoPS/IoTServices/IoTHubDevice.cs:22-43 | the client is created from the "iothub" setting (null when absent) and given ExponentialBackoff(int.MaxValue, 1 s, 30 s, 1 s); the handler table is ListScripts then ExecuteScript |
| IoTHubDevices.IoTHubDevice.ConnectAsync | IoPS/IoTServices/IoTHubDevice.cs:45-61 | the loop makes exactly these calls: the status handler, then each handler of the device's table registered under its name and its lower-cased name, then Open |
| IoTHubDevices.IoTHubDevice.DoubleCaseRegisterHandler | IoPS/IoTServices/IoTHubDevice.cs:63-71 | registers the callback under the name and then under its lower-cased form |
| IoTHubDevices.IoTHubDevice.ShutdownAsync | IoPS/IoTServices/IoTHubDevice.cs:73-76 | one Close call |
| IoTHubDevices.IoTHubDevice.ListScripts | IoPS/IoTServices/IoTHubDevice.cs:93-98 | always 200 with the executor's listing; the call is logged before and after with its status |
| IoTHubDevices.IoTHubDevice.ExecuteScriptAsyncWrapper | IoPS/IoTServices/IoTHubDevice.cs:78-101 | returns exactly the inner response, status and body unchanged, and logs the call and its status |
| IoTHubDevices.IoTHubDevice.ExecuteScript | IoPS/IoTServices/IoTHubDevice.cs:103-127 | the answer for the decoded payload, running the executor on a fresh request object |
| IoTHubDevices.IoTHubDevice.StatusChangeHandler | IoPS/IoTServices/IoTHubDevice.cs:138-161 | logs at the status level and opens the client exactly once when the hard-retry rule holds, otherwise makes no call |
| IoTHubDevices.ReopensCountHardDisconnects | IoPS/IoTServices/IoTHubDevice.cs:138-161 | over any series of status changes the client is opened exactly once per hard disconnect, and its handlers, status handler, retry policy and close count do not change |
| IoTHubDevices.ConnectedHubDevice | IoPS/IoTServices/IoTHubDevice.cs:22-71 | a new, connected hub device has the four names, its reopening status handler and its retry policy, and was opened once |
| IoTDevices.IoTDevice.constructor | IoPS/IoTServices/IoTDevice.cs:22-36 | the client is created from the "iothub" setting, with no retry policy set; the handler table is ListScripts then ExecuteScript |
| IoTDevices.IoTDevice.ConnectAsync | IoPS/IoTServices/IoTDevice.cs:38-54 | the loop makes exactly these calls: the status handler, then each handler of the device's table registered under its name and its lower-cased name, then Open |
| IoTDevices.IoTDevice.DoubleCaseRegisterHandler | IoPS/IoTServices/IoTDevice.cs:56-64 | registers the callback under the name and then under its lower-cased form |
| IoTDevices.IoTDevice.ShutdownAsync | IoPS/IoTServices/IoTDevice.cs:66-69 | one Close call |
| IoTDevices.IoTDevice.ListScripts | IoPS/IoTServices/IoTDevice.cs:86-91 | always 200 with the executor's listing, logged before and after |
| IoTDevices.IoTDevice.ExecuteScriptAsyncWrapper | IoPS/IoTServices/IoTDevice.cs:71-94 | returns exactly the inner response and logs the call and its status |
| IoTDevices.IoTDevice.ExecuteScript | IoPS/IoTServices/IoTDevice.cs:96-120 | 200 with the serialised result when the executor returns, 400 on a JsonException, 500 on any other exception |
| IoTDevices.IoTDevice.StatusChangeHandler | IoPS/IoTServices/IoTDevice.cs:131-141 | only returns the log level (a warning iff not Connected); it may not touch the client, so it never reopens |
| IoTDevices.ConnectedDevice | IoPS/IoTServices/IoTDevice.cs:22-64 | a new, connected device has the four names and its logging status handler, sets no retry policy, and was opened once |
| CommandLine.ContainsAny | IoPS/Program.cs:16-17 | true iff some argument equals one of the flags exactly, in any position |
| CommandLine.ContainsAnyAppend | IoPS/Program.cs:16-17 | a flag occurs in a concatenation iff it occurs in one of the parts |
| CommandLine.Classify | IoPS/Program.cs:16-27 | refuse iff both kinds of flag occur; modify the service iff exactly one kind occurs, uninstalling iff it is an uninstall flag; run iff neither occurs |
| CommandLine.ClassifyIgnoresPosition | IoPS/Program.cs:16-17 | swapping two blocks of arguments never changes the decision |
| CommandLine.FlagExamples | IoPS/Program.cs:11-12 | flags are case-sensitive: "--INSTALL" and "-I" run the service; "-u" uninstalls; "-i" with "--uninstall" is refused |
| CommandLine.ExitCode | IoPS/Program.cs:14-44 | 1 for the conflict, the installer's own code when installing or uninstalling, 0 after running the service |

## Findings

| source | as written | input that shows it | evidently intended | confidence | as-written member | corrected member |
|---|---|---|---|---|---|---|
| IoPS/PowershellServices/PSExecutor.cs:121-125 | `pipeline.Error.Read()` returns one error object; `as Collection<ErrorRecord>` makes it null, and `Select` on null raises an ArgumentNullException. That is not a RuntimeException, so it escapes; the handler answers 500 | a script that calls `Write-Error` and then ends normally: the engine gives `Ran(["out"], ["err"])` | Completed=true with Output ["out"] and Errors ["err"], answered 200 | high, from the types; not executed | Executor.RunScriptAsWritten, Dispatch.ReportedErrorsAnswered500AsWritten | Executor.RunScript, Dispatch.ReportedErrorsReachCaller |

## Left out

- Logging through Serilog is not modelled, except two observable parts: the wrappers' before/after call log and the level of the status-change log. This leaves out PSFileService's warning about duplicate names and its warnings about missing directories.
- Stopwatch timing is not modelled: the elapsed time in the wrapper's log is nondeterministic.
- `Task`, `await` and the blocking `.Wait()` in the status handler are not modelled. Neither is concurrent delivery of callbacks: every call runs to completion, one at a time.
- JSON text and its UTF-8 bytes are not modelled. A response body is the `Json` value it encodes. Newtonsoft's request decoding is the `decode` oracle. `Models.Deserialize` is a reader written only to state the round trip.
- Newtonsoft's other failures are not modelled: a payload field of the wrong type, or JSON parsing errors. Each is whatever exception the `decode` oracle returns.
- The PowerShell engine is an oracle: `PSObject.ToString`, `ErrorRecord.ToString`, and what `Set-ExecutionPolicy` does. A null element of the results collection is modelled, as an absent output object.
- A fault in `RunspaceConfiguration.Create`, `CreateRunspace` or the first `new RunspaceInvoke` is not modelled. These run before the `try` block. Faults inside the `try` block in `CreatePipeline`, the second `new RunspaceInvoke`, `new Command` or `Parameters.Add` are not modelled either; each would escape with the runspace closed, as an opening fault does. Disposal of the pipeline and the `RunspaceInvoke` objects is not modelled either; only `runspace.Close` is recorded.
- A null value in the request's Parameters dictionary is not modelled: parameters are a map from strings to strings, and the source would pass that null on as the value of `new CommandParameter` (IoPS/PowershellServices/PSExecutor.cs:108), whose effect is up to the engine.
- Executor.PSExecutor.BindParameters: parameters are added in whatever order the dictionary enumerates. The engine receives them as a map, because named parameters bind by name. The order of the command's parameter list is therefore not captured.
- The real filesystem is a snapshot. Windows' `*.ps1` pattern also matches 8.3 short names and `*.ps1xml` files; that is not modelled, and a listed name is whatever the snapshot holds.
- A full path is modelled as the pair (directory, file name). The executor's `string.IsNullOrWhiteSpace(safeFullPath)` test can only fail for a missing match, and it is modelled that way.
- Culture-sensitive `ToLower`, Unicode case folding under `IgnoreCase`, and `Char.IsWhiteSpace` beyond ASCII are not modelled. Only ASCII letters fold, and only ASCII whitespace trims.
- FileService.PSFileService.GetScript: a null script name is not modelled. The name is a non-null string, though the source would throw a NullReferenceException at `EndsWith`. The executor's null name is modelled.
- The IoT SDK's own behaviour is not modelled. That includes the exception `CreateFromConnectionString` raises for a null or malformed connection string, the retry policy's timing, and the SDK's answer to a method name with no handler.
- `Dispose` on both device classes is not modelled. It only releases the SDK client.
- Executor.PSExecutor.ExecuteScript: follows the intended reading of the finding above. A run that reported errors completes with its errors, where the source as written raises an ArgumentNullException (`Executor.RunScriptAsWritten`).
- Executor.ResultShape: describes the intended reading. As written, no completed result carries Errors, because a run that reported errors raises instead (see the finding above).
- Executor.RunScriptCompleted: describes the intended reading. As written, a run that reported errors does not complete; it raises (see the finding above).
- Executor.CompletedIffRan: describes the intended reading. As written, Completed=true needs a run that reported no errors (see the finding above).
- Configuration.GetSetting: keys fold only ASCII letters, where the settings collection compares keys with invariant-culture case folding. Merging of settings whose keys differ only in case is not modelled either: the map holds at most one value per folded key.
- CommandLine.ExitCode: exceptions on the run path are not modelled. `container.Resolve<IoTService>()` (IoPS/Program.cs:31) needs an `IIoTDevice`, and the container registers none, so as written Main raises there instead of returning 0. The Autofac container is not part of this model.
- Dispatch.ExecuteScriptStatus: the 400 equivalence is stated for an engine that never raises a JsonException. If the engine raises one, the answer is also 400; `Dispatch.ResponseFor` states that case.
- Program.cs is not modelled beyond the exit-code decision:
  - the console message for the conflict;
  - the Autofac container;
  - the choice between `RunAsConsole` and `ServiceBase.Run`;
  - the installer, whose exit code is the `modifyService` oracle.
- Not modelled because they are service plumbing or type-only files: IoTService.cs, IoTServiceInstaller.cs, ExecutionPolicyEnum.cs, IPSFileService.cs and IIoTDevice.cs. The request's `ExecutionPolicy` is carried but never read.
