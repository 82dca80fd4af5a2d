/** PSExecutor: lists and runs the scripts of one configured directory. The directory setting is
    used as it stands (no splitting). Running a script builds a PowerShell runspace, sets the
    process execution policy, invokes the script with its named parameters and closes the
    runspace. The PowerShell engine is an oracle `Host` given to each call. */
module Executor {
  import opened Wrappers
  import opened AsciiText
  import opened Configuration
  import opened ScriptNames
  import opened FileSystem
  import opened Models
  import opened FileService

  const MissingDirectoryMessage: string := "Script directory does not exist"

  /** The execution policy the runspace is given before every script. */
  const Policy: string := "RemoteSigned"

  /** A named parameter added to the script command. */
  datatype CommandParameter = CommandParameter(name: string, value: string)

  /** What the pipeline did with an invocation: it ran, giving each output object (None for a
      null element, whose string form cannot be taken) and the string form of each error record,
      or it raised. */
  datatype Invocation = Ran(outputs: seq<Option<string>>, errors: seq<string>) | Fault(exception: Exception)

  /** results.Select(x => x.ToString()).ToArray(): the string form of every output object, or
      None when some element is null, where ToString raises a NullReferenceException. */
  function OutputStrings(outputs: seq<Option<string>>): (r: Option<seq<string>>)
    ensures r.None? <==> exists i :: 0 <= i < |outputs| && outputs[i].None?
    ensures r.Some? ==> |r.value| == |outputs| && forall i :: 0 <= i < |outputs| ==> outputs[i] == Some(r.value[i])
  {
    if outputs == [] then Some([])
    else
      var n := |outputs| - 1;
      var init := OutputStrings(outputs[..n]);
      assert forall i :: 0 <= i < n ==> outputs[..n][i] == outputs[i];
      if init.None? || outputs[n].None? then None
      else
        var r := init.value + [outputs[n].value];
        assert forall i :: 0 <= i < n ==> r[i] == init.value[i];
        Some(r)
  }

  /** The output objects of a run that emitted no null: one present object per string. */
  function Present(strings: seq<string>): (outputs: seq<Option<string>>)
    ensures |outputs| == |strings|
  {
    seq(|strings|, i requires 0 <= i < |strings| => Some(strings[i]))
  }

  /** A run without nulls keeps every output's string form, in order. */
  lemma OutputStringsPresent(strings: seq<string>)
    ensures OutputStrings(Present(strings)) == Some(strings)
  {
    var outputs := Present(strings);
    assert forall i :: 0 <= i < |strings| ==> outputs[i] == Some(strings[i]);
    var r := OutputStrings(outputs);
    assert r.Some?;
    assert r.value == strings;
  }

  /** The PowerShell engine as seen by one execution: whether opening the runspace or setting the
      execution policy raises, and what invoking a script with given named parameters yields.
      Named parameters bind by name, so the engine receives them as a map. */
  datatype Host = Host(
    openFault: Option<Exception>,
    policyFault: Option<Exception>,
    invoke: (ScriptPath, map<string, string>) -> Invocation)

  /** The calls made on the runspace, in order. */
  datatype RunspaceCall =
    | CreateRunspace
    | OpenRunspace
    | SetExecutionPolicy(policy: string)
    | InvokeScript(script: ScriptPath, parameters: map<string, string>)
    | CloseRunspace

  /** What one ExecuteScript call does: its result or the exception it lets out, and the calls it
      made on the runspace. */
  datatype Execution = Execution(outcome: Completion<ExecutionResults>, runspace: seq<RunspaceCall>)

  /** A result that did not complete: one error message, no output. */
  function Failure(message: string): ExecutionResults {
    ExecutionResults(false, None, Some([message]))
  }

  /** The parameters the command receives: those of a non-null, non-empty dictionary, else none. */
  function BoundParameters(parameters: Option<map<string, string>>): map<string, string> {
    if parameters.Some? && |parameters.value| > 0 then parameters.value else map[]
  }

  /** The named parameters of a command as a map, a later parameter overriding an earlier one. */
  function ParameterMap(command: seq<CommandParameter>): map<string, string> {
    if command == [] then map[]
    else
      var last := command[|command| - 1];
      ParameterMap(command[..|command| - 1])[last.name := last.value]
  }

  /** The runspace part of ExecuteScript, once the script is found: open, set the policy, invoke,
      with the runspace closed however that ends. Only a RuntimeException raised by the
      invocation is caught, and it becomes a failed result carrying its message. A null output
      object makes taking its string form raise a NullReferenceException, which escapes. */
  function RunScript(script: ScriptPath, bound: map<string, string>, host: Host): Execution {
    if host.openFault.Some? then
      Execution(Threw(host.openFault.value), [CreateRunspace, OpenRunspace, CloseRunspace])
    else if host.policyFault.Some? then
      Execution(Threw(host.policyFault.value),
                [CreateRunspace, OpenRunspace, SetExecutionPolicy(Policy), CloseRunspace])
    else
      var calls := [CreateRunspace, OpenRunspace, SetExecutionPolicy(Policy), InvokeScript(script, bound), CloseRunspace];
      match host.invoke(script, bound)
      case Ran(outputs, errors) =>
        var strings := OutputStrings(outputs);
        if strings.None? then Execution(Threw(NullReferenceException), calls)
        else Execution(Returned(ExecutionResults(true, Some(strings.value), if errors == [] then None else Some(errors))), calls)
      case Fault(e) =>
        if e.RuntimeException? then Execution(Returned(Failure(e.message)), calls)
        else Execution(Threw(e), calls)
  }

  /** The runspace part exactly as the source is written. When the pipeline reported errors,
      the source reads a single object from the error stream and casts it to a collection of
      error records; the cast gives null, and selecting over null raises an
      ArgumentNullException, which the RuntimeException handler does not catch. */
  function RunScriptAsWritten(script: ScriptPath, bound: map<string, string>, host: Host): Execution {
    if host.openFault.Some? then
      Execution(Threw(host.openFault.value), [CreateRunspace, OpenRunspace, CloseRunspace])
    else if host.policyFault.Some? then
      Execution(Threw(host.policyFault.value),
                [CreateRunspace, OpenRunspace, SetExecutionPolicy(Policy), CloseRunspace])
    else
      var calls := [CreateRunspace, OpenRunspace, SetExecutionPolicy(Policy), InvokeScript(script, bound), CloseRunspace];
      match host.invoke(script, bound)
      case Ran(outputs, errors) =>
        if errors != [] then Execution(Threw(ArgumentNullException("source")), calls)
        else
          var strings := OutputStrings(outputs);
          if strings.None? then Execution(Threw(NullReferenceException), calls)
          else Execution(Returned(ExecutionResults(true, Some(strings.value), None)), calls)
      case Fault(e) =>
        if e.RuntimeException? then Execution(Returned(Failure(e.message)), calls)
        else Execution(Threw(e), calls)
  }

  /** The two readings differ only for a run that reported errors: there the source as written
      lets an ArgumentNullException out (still closing the runspace), where the intended reading
      completes with the outputs and the errors. Everywhere else they agree. */
  lemma RunScriptAsWrittenDiffers(script: ScriptPath, bound: map<string, string>, host: Host)
    ensures RunScriptAsWritten(script, bound, host).runspace == RunScript(script, bound, host).runspace
    ensures var reported := host.openFault.None? && host.policyFault.None?
                            && host.invoke(script, bound).Ran? && host.invoke(script, bound).errors != [];
            && (!reported ==> RunScriptAsWritten(script, bound, host) == RunScript(script, bound, host))
            && (reported ==>
                  && RunScriptAsWritten(script, bound, host).outcome == Threw(ArgumentNullException("source"))
                  && var strings := OutputStrings(host.invoke(script, bound).outputs);
                     && (strings.Some? ==>
                           RunScript(script, bound, host).outcome
                             == Returned(ExecutionResults(true, Some(strings.value), Some(host.invoke(script, bound).errors))))
                     && (strings.None? ==> RunScript(script, bound, host).outcome == Threw(NullReferenceException)))
  {
  }

  /** What ExecuteScript computes from the request's ScriptName and Parameters: a null name
      raises; the name is normalised and checked; the directory is enumerated (raising when it
      is missing); the first file named like the request, ignoring case, is run. */
  function Execute(scriptPath: string, scriptName: Option<string>, parameters: Option<map<string, string>>,
                   fs: Snapshot, host: Host): Execution
  {
    if scriptName.None? then Execution(Threw(NullReferenceException), [])
    else
      var name := Normalize(scriptName.value);
      if !IsValidScriptName(name) then Execution(Returned(Failure(InvalidNameMessage)), [])
      else if scriptPath !in fs.listing then Execution(Threw(DirectoryNotFoundException(scriptPath)), [])
      else
        var candidates := EnumerateFiles(fs, scriptPath);
        var k := FirstNamed(candidates, name);
        if k == |candidates| then Execution(Returned(Failure(NotFoundMessage)), [])
        else RunScript(candidates[k], BoundParameters(parameters), host)
  }

  /** Whether a script is found for the request: the name is given, valid once normalised, and
      a file of the existing directory has it. */
  predicate ScriptFound(scriptPath: string, scriptName: Option<string>, fs: Snapshot) {
    && scriptName.Some?
    && IsValidScriptName(Normalize(scriptName.value))
    && scriptPath in fs.listing
    && FirstNamed(EnumerateFiles(fs, scriptPath), Normalize(scriptName.value)) < |fs.listing[scriptPath]|
  }

  /** Adding a parameter whose name is new extends the map by exactly that entry. */
  lemma ParameterMapAppend(command: seq<CommandParameter>, p: CommandParameter)
    ensures ParameterMap(command + [p]) == ParameterMap(command)[p.name := p.value]
  {
    assert (command + [p])[..|command|] == command;
  }

  /** The file run for a found request: the first file of the directory named like it. */
  function FoundScript(scriptPath: string, scriptName: Option<string>, fs: Snapshot): (script: ScriptPath)
    requires ScriptFound(scriptPath, scriptName, fs)
    ensures script.directory == scriptPath && script.fileName in fs.listing[scriptPath]
    ensures EqualsIgnoreCase(script.fileName, Normalize(scriptName.value))
  {
    var candidates := EnumerateFiles(fs, scriptPath);
    assert candidates[FirstNamed(candidates, Normalize(scriptName.value))] in candidates;
    candidates[FirstNamed(candidates, Normalize(scriptName.value))]
  }

  /** An execution either stops before any runspace exists, or is the runspace part run on the
      found script with the request's parameters. */
  lemma ExecuteSplits(scriptPath: string, scriptName: Option<string>, parameters: Option<map<string, string>>,
                      fs: Snapshot, host: Host)
    ensures !ScriptFound(scriptPath, scriptName, fs) ==> Execute(scriptPath, scriptName, parameters, fs, host).runspace == []
    ensures ScriptFound(scriptPath, scriptName, fs) ==>
              Execute(scriptPath, scriptName, parameters, fs, host)
                == RunScript(FoundScript(scriptPath, scriptName, fs), BoundParameters(parameters), host)
  {
  }

  /** The runspace part opens first and closes last, and exactly once, whatever happens. */
  lemma RunScriptCloses(script: ScriptPath, bound: map<string, string>, host: Host)
    ensures var calls := RunScript(script, bound, host).runspace;
            && |calls| >= 3 && calls[0] == CreateRunspace && calls[1] == OpenRunspace
            && calls[|calls| - 1] == CloseRunspace
            && (forall i :: 0 <= i < |calls| - 1 ==> calls[i] != CloseRunspace)
  {
  }

  /** The runspace is created only for a script that was found, and then it is opened first and
      closed last whatever happens in between. */
  lemma RunspaceAlwaysClosed(scriptPath: string, scriptName: Option<string>, parameters: Option<map<string, string>>,
                             fs: Snapshot, host: Host)
    ensures var calls := Execute(scriptPath, scriptName, parameters, fs, host).runspace;
            && (calls != [] <==> ScriptFound(scriptPath, scriptName, fs))
            && (calls != [] ==> |calls| >= 3 && calls[0] == CreateRunspace && calls[1] == OpenRunspace
                                && calls[|calls| - 1] == CloseRunspace)
            && (forall i :: 0 <= i < |calls| - 1 ==> calls[i] != CloseRunspace)
  {
    ExecuteSplits(scriptPath, scriptName, parameters, fs, host);
    if ScriptFound(scriptPath, scriptName, fs) {
      RunScriptCloses(FoundScript(scriptPath, scriptName, fs), BoundParameters(parameters), host);
    }
  }

  /** In the runspace part the script is invoked only as the fourth call, after the policy is
      set, and with exactly the given script and parameters. */
  lemma RunScriptInvokes(script: ScriptPath, bound: map<string, string>, host: Host, i: nat)
    requires i < |RunScript(script, bound, host).runspace|
    requires RunScript(script, bound, host).runspace[i].InvokeScript?
    ensures i == 3 && RunScript(script, bound, host).runspace[2] == SetExecutionPolicy(Policy)
    ensures RunScript(script, bound, host).runspace[i] == InvokeScript(script, bound)
  {
  }

  /** A script is invoked at most once, only after the policy is set, and with the parameters of
      the request: the found file of the configured directory, named like the request. */
  lemma InvocationIsTheRequestedScript(scriptPath: string, scriptName: Option<string>,
                                       parameters: Option<map<string, string>>, fs: Snapshot, host: Host,
                                       i: nat)
    requires i < |Execute(scriptPath, scriptName, parameters, fs, host).runspace|
    requires Execute(scriptPath, scriptName, parameters, fs, host).runspace[i].InvokeScript?
    ensures var calls := Execute(scriptPath, scriptName, parameters, fs, host).runspace;
            && i == 3 && calls[2] == SetExecutionPolicy(Policy)
            && calls[i].script.directory == scriptPath
            && calls[i].script.fileName in fs.listing[scriptPath]
            && scriptName.Some? && EqualsIgnoreCase(calls[i].script.fileName, Normalize(scriptName.value))
            && calls[i].parameters == BoundParameters(parameters)
  {
    ExecuteSplits(scriptPath, scriptName, parameters, fs, host);
    assert ScriptFound(scriptPath, scriptName, fs);
    RunScriptInvokes(FoundScript(scriptPath, scriptName, fs), BoundParameters(parameters), host, i);
  }

  /** In the runspace part the result is a completed one exactly when nothing raised and the
      pipeline ran the script. */
  lemma RunScriptCompleted(script: ScriptPath, bound: map<string, string>, host: Host)
    ensures var e := RunScript(script, bound, host);
            (e.outcome.Returned? && e.outcome.value.completed) <==>
              && host.openFault.None? && host.policyFault.None? && host.invoke(script, bound).Ran?
              && OutputStrings(host.invoke(script, bound).outputs).Some?
    ensures forall s :: InvokeScript(s, bound) in RunScript(script, bound, host).runspace ==>
              s == script && host.openFault.None? && host.policyFault.None?
    ensures host.openFault.None? && host.policyFault.None? ==>
              InvokeScript(script, bound) in RunScript(script, bound, host).runspace
  {
  }

  /** A result reports Completed exactly when the pipeline ran the script to its end. */
  lemma CompletedIffRan(scriptPath: string, scriptName: Option<string>, parameters: Option<map<string, string>>,
                        fs: Snapshot, host: Host)
    ensures var e := Execute(scriptPath, scriptName, parameters, fs, host);
            (e.outcome.Returned? && e.outcome.value.completed) <==>
              && ScriptFound(scriptPath, scriptName, fs)
              && host.openFault.None? && host.policyFault.None?
              && exists script :: InvokeScript(script, BoundParameters(parameters)) in e.runspace
                                  && host.invoke(script, BoundParameters(parameters)).Ran?
                                  && OutputStrings(host.invoke(script, BoundParameters(parameters)).outputs).Some?
  {
    ExecuteSplits(scriptPath, scriptName, parameters, fs, host);
    if ScriptFound(scriptPath, scriptName, fs) {
      RunScriptCompleted(FoundScript(scriptPath, scriptName, fs), BoundParameters(parameters), host);
    }
  }

  /** The shape of a result of the runspace part. */
  lemma RunScriptShape(script: ScriptPath, bound: map<string, string>, host: Host)
    ensures var o := RunScript(script, bound, host).outcome;
            o.Returned? ==>
              && (!o.value.completed ==> o.value.output.None? && o.value.errors.Some? && |o.value.errors.value| == 1)
              && (o.value.completed ==> o.value.output.Some? && (o.value.errors.Some? ==> o.value.errors.value != []))
  {
  }

  /** The shape of a returned result: one that did not complete has no output and exactly one
      error; one that completed has an output array and an error array only when the pipeline
      reported errors, never an empty one. */
  lemma ResultShape(scriptPath: string, scriptName: Option<string>, parameters: Option<map<string, string>>,
                    fs: Snapshot, host: Host)
    ensures var o := Execute(scriptPath, scriptName, parameters, fs, host).outcome;
            o.Returned? ==>
              && (!o.value.completed ==> o.value.output.None? && o.value.errors.Some? && |o.value.errors.value| == 1)
              && (o.value.completed ==> o.value.output.Some? && (o.value.errors.Some? ==> o.value.errors.value != []))
  {
    ExecuteSplits(scriptPath, scriptName, parameters, fs, host);
    if ScriptFound(scriptPath, scriptName, fs) {
      RunScriptShape(FoundScript(scriptPath, scriptName, fs), BoundParameters(parameters), host);
    }
  }

  /** An invalid name is answered before the directory is looked at, with no runspace; and only
      an invalid name gets that answer without a runspace. */
  lemma InvalidNameAnswer(scriptPath: string, scriptName: Option<string>, parameters: Option<map<string, string>>,
                          fs: Snapshot, host: Host)
    ensures var e := Execute(scriptPath, scriptName, parameters, fs, host);
            (e.outcome == Returned(Failure(InvalidNameMessage)) && e.runspace == []) <==>
              scriptName.Some? && !IsValidScriptName(Normalize(scriptName.value))
  {
    var e := Execute(scriptPath, scriptName, parameters, fs, host);
    if scriptName.Some? && IsValidScriptName(Normalize(scriptName.value)) {
      if ScriptFound(scriptPath, scriptName, fs) {
        RunspaceAlwaysClosed(scriptPath, scriptName, parameters, fs, host);
        assert e.runspace != [];
      } else if scriptPath in fs.listing {
        assert InvalidNameMessage[7] != NotFoundMessage[7];
      }
    }
  }

  /** "Script file does not exist" is answered, with no runspace, exactly when the name is valid
      once normalised, the directory exists, and none of its files has that name ignoring case. */
  lemma NotFoundAnswer(scriptPath: string, scriptName: Option<string>, parameters: Option<map<string, string>>,
                       fs: Snapshot, host: Host)
    ensures var e := Execute(scriptPath, scriptName, parameters, fs, host);
            (e.outcome == Returned(Failure(NotFoundMessage)) && e.runspace == []) <==>
              && scriptName.Some? && IsValidScriptName(Normalize(scriptName.value))
              && scriptPath in fs.listing
              && forall f :: f in fs.listing[scriptPath] ==> !EqualsIgnoreCase(f, Normalize(scriptName.value))
  {
    var e := Execute(scriptPath, scriptName, parameters, fs, host);
    if scriptName.Some? {
      var name := Normalize(scriptName.value);
      if !IsValidScriptName(name) {
        assert InvalidNameMessage[7] != NotFoundMessage[7];
      } else if scriptPath in fs.listing {
        NoneNamedIffNoListedName(fs, scriptPath, name);
        if ScriptFound(scriptPath, scriptName, fs) {
          RunspaceAlwaysClosed(scriptPath, scriptName, parameters, fs, host);
          assert e.runspace != [];
        }
      }
    }
  }

  /** A valid name in a directory that does not exist lets a DirectoryNotFoundException out
      before any runspace is made; nothing else does. */
  lemma MissingDirectoryAnswer(scriptPath: string, scriptName: Option<string>,
                               parameters: Option<map<string, string>>, fs: Snapshot, host: Host)
    ensures var e := Execute(scriptPath, scriptName, parameters, fs, host);
            (e.outcome == Threw(DirectoryNotFoundException(scriptPath)) && e.runspace == []) <==>
              scriptName.Some? && IsValidScriptName(Normalize(scriptName.value)) && scriptPath !in fs.listing
  {
    var e := Execute(scriptPath, scriptName, parameters, fs, host);
    if scriptName.Some? && IsValidScriptName(Normalize(scriptName.value)) && scriptPath in fs.listing {
      if ScriptFound(scriptPath, scriptName, fs) {
        RunspaceAlwaysClosed(scriptPath, scriptName, parameters, fs, host);
        assert e.runspace != [];
      } else {
        assert e.outcome == Returned(Failure(NotFoundMessage));
      }
    }
  }

  /** A RuntimeException raised by the found script is caught: the answer is a failed result
      carrying the exception's message, and the runspace was still closed. */
  lemma RuntimeExceptionAnswer(scriptPath: string, scriptName: Option<string>,
                               parameters: Option<map<string, string>>, fs: Snapshot, host: Host, message: string)
    requires ScriptFound(scriptPath, scriptName, fs)
    requires host.openFault.None? && host.policyFault.None?
    requires host.invoke(FoundScript(scriptPath, scriptName, fs), BoundParameters(parameters))
               == Fault(RuntimeException(message))
    ensures var e := Execute(scriptPath, scriptName, parameters, fs, host);
            && e.outcome == Returned(ExecutionResults(false, None, Some([message])))
            && e.runspace == [CreateRunspace, OpenRunspace, SetExecutionPolicy(Policy),
                              InvokeScript(FoundScript(scriptPath, scriptName, fs), BoundParameters(parameters)),
                              CloseRunspace]
  {
    ExecuteSplits(scriptPath, scriptName, parameters, fs, host);
  }

  /** A found script that runs and reports no errors completes with the pipeline's outputs as
      Output and no Errors, and the runspace was closed after the one invocation. */
  lemma NormalRunAnswer(scriptPath: string, scriptName: Option<string>,
                        parameters: Option<map<string, string>>, fs: Snapshot, host: Host, outputs: seq<string>)
    requires ScriptFound(scriptPath, scriptName, fs)
    requires host.openFault.None? && host.policyFault.None?
    requires host.invoke(FoundScript(scriptPath, scriptName, fs), BoundParameters(parameters)) == Ran(Present(outputs), [])
    ensures var e := Execute(scriptPath, scriptName, parameters, fs, host);
            && e.outcome == Returned(ExecutionResults(true, Some(outputs), None))
            && e.runspace == [CreateRunspace, OpenRunspace, SetExecutionPolicy(Policy),
                              InvokeScript(FoundScript(scriptPath, scriptName, fs), BoundParameters(parameters)),
                              CloseRunspace]
  {
    ExecuteSplits(scriptPath, scriptName, parameters, fs, host);
    OutputStringsPresent(outputs);
  }

  /** A found script that emits a null output object: taking its string form raises a
      NullReferenceException, which no handler catches, and the runspace is still closed. */
  lemma NullOutputAnswer(scriptPath: string, scriptName: Option<string>,
                         parameters: Option<map<string, string>>, fs: Snapshot, host: Host,
                         outputs: seq<Option<string>>, errors: seq<string>, i: nat)
    requires ScriptFound(scriptPath, scriptName, fs)
    requires host.openFault.None? && host.policyFault.None?
    requires host.invoke(FoundScript(scriptPath, scriptName, fs), BoundParameters(parameters)) == Ran(outputs, errors)
    requires i < |outputs| && outputs[i].None?
    ensures var e := Execute(scriptPath, scriptName, parameters, fs, host);
            && e.outcome == Threw(NullReferenceException)
            && e.runspace == [CreateRunspace, OpenRunspace, SetExecutionPolicy(Policy),
                              InvokeScript(FoundScript(scriptPath, scriptName, fs), BoundParameters(parameters)),
                              CloseRunspace]
  {
    ExecuteSplits(scriptPath, scriptName, parameters, fs, host);
  }

  /** The locator configured with one existing directory enumerates exactly that directory. */
  lemma SingleDirectoryCandidates(scriptPath: string, fs: Snapshot)
    requires scriptPath in fs.listing
    ensures ExistingPaths([scriptPath], fs) == [scriptPath]
    ensures Candidates([scriptPath], fs) == EnumerateFiles(fs, scriptPath)
  {
    assert [scriptPath][..0] == [];
    assert EnumerateAll(fs, [scriptPath]) == EnumerateFiles(fs, scriptPath) + EnumerateAll(fs, []);
  }

  /** What the locator finds in one existing directory is what the executor runs. */
  lemma LocatedIsFound(scriptPath: string, fs: Snapshot, name: string)
    requires scriptPath in fs.listing
    requires Locate([scriptPath], fs, name).Found?
    ensures ScriptFound(scriptPath, Some(name), fs)
    ensures FoundScript(scriptPath, Some(name), fs) == Locate([scriptPath], fs, name).path
  {
    SingleDirectoryCandidates(scriptPath, fs);
  }

  /** For a directory that exists, the single-directory executor runs the very file the
      multi-directory locator finds when configured with that directory alone (the locator also
      asks File.Exists, so it may find nothing where the executor still runs a file). */
  lemma ExecutorAgreesWithLocator(scriptPath: string, name: string, parameters: Option<map<string, string>>,
                                  fs: Snapshot, host: Host)
    requires scriptPath in fs.listing
    requires host.openFault.None? && host.policyFault.None?
    requires Locate([scriptPath], fs, name).Found?
    ensures Execute(scriptPath, Some(name), parameters, fs, host).runspace
              == [CreateRunspace, OpenRunspace, SetExecutionPolicy(Policy),
                  InvokeScript(Locate([scriptPath], fs, name).path, BoundParameters(parameters)), CloseRunspace]
  {
    LocatedIsFound(scriptPath, fs, name);
    ExecuteSplits(scriptPath, Some(name), parameters, fs, host);
  }

  /** What ListAvailableScripts answers: a one-element sentinel when the directory is missing,
      otherwise the valid names among its "*.ps1" files, in enumeration order. */
  function Listing(scriptPath: string, fs: Snapshot): seq<string> {
    if scriptPath !in fs.listing then [MissingDirectoryMessage]
    else ValidNames(fs.listing[scriptPath])
  }

  /** The sentinel cannot be confused with a listing: it is not a valid script name, so the
      answer is the sentinel exactly when the directory is missing. */
  lemma ListingSentinelIffMissing(scriptPath: string, fs: Snapshot)
    ensures Listing(scriptPath, fs) == [MissingDirectoryMessage] <==> scriptPath !in fs.listing
    ensures scriptPath in fs.listing ==> forall n :: n in Listing(scriptPath, fs) ==> IsValidScriptName(n)
  {
    assert !InNameClass(MissingDirectoryMessage[6]);
    assert MissingDirectoryMessage[|MissingDirectoryMessage| - 1] != '\n';
    assert !IsValidScriptName(MissingDirectoryMessage);
  }

  /** Every script the executor can run is listed: a found script's file name is in the listing. */
  lemma FoundScriptIsListed(scriptPath: string, scriptName: Option<string>, fs: Snapshot)
    requires ScriptFound(scriptPath, scriptName, fs)
    ensures var candidates := EnumerateFiles(fs, scriptPath);
            candidates[FirstNamed(candidates, Normalize(scriptName.value))].fileName in Listing(scriptPath, fs)
  {
    var name := Normalize(scriptName.value);
    var candidates := EnumerateFiles(fs, scriptPath);
    var k := FirstNamed(candidates, name);
    var fileName := candidates[k].fileName;
    ValidityIgnoresCase(fileName, name);
    ValidNamesCounts(fs.listing[scriptPath]);
    assert fs.listing[scriptPath][k] == fileName;
    assert multiset(fs.listing[scriptPath])[fileName] > 0;
  }

  class PSExecutor {
    const scriptPath: string

    /** Reads "scriptpath", defaulting to the directory of the executable; no splitting. */
    constructor (config: map<string, string>, assemblyDirectory: string)
      ensures scriptPath == GetSettingOr(config, "scriptpath", assemblyDirectory)
    {
      scriptPath := GetSettingOr(config, "scriptpath", assemblyDirectory);
    }

    /** The scripts of the directory, or the sentinel when it is missing. */
    method ListAvailableScripts(fs: Snapshot) returns (scripts: seq<string>)
      ensures scripts == Listing(scriptPath, fs)
    {
      if scriptPath !in fs.listing {
        return [MissingDirectoryMessage];
      }
      scripts := ValidNames(FileNames(EnumerateFiles(fs, scriptPath)));
      assert FileNames(EnumerateFiles(fs, scriptPath)) == fs.listing[scriptPath];
    }

    /** Adds the request's parameters to the command one by one, in the dictionary's order. */
    method BindParameters(parameters: Option<map<string, string>>) returns (command: seq<CommandParameter>)
      ensures ParameterMap(command) == BoundParameters(parameters)
      ensures |command| == |BoundParameters(parameters)|
      ensures forall i, j :: 0 <= i < j < |command| ==> command[i].name != command[j].name
    {
      command := [];
      if parameters.Some? && |parameters.value| > 0 {
        var bound := parameters.value;
        var remaining := bound.Keys;
        while remaining != {}
          invariant remaining <= bound.Keys
          invariant |command| + |remaining| == |bound.Keys|
          invariant forall i :: 0 <= i < |command| ==> command[i].name in bound && command[i].name !in remaining
          invariant forall i, j :: 0 <= i < j < |command| ==> command[i].name != command[j].name
          invariant ParameterMap(command) == map k | k in bound && k !in remaining :: bound[k]
          decreases |remaining|
        {
          var key :| key in remaining;
          ParameterMapAppend(command, CommandParameter(key, bound[key]));
          command := command + [CommandParameter(key, bound[key])];
          remaining := remaining - {key};
        }
        assert ParameterMap(command) == bound;
      }
    }

    /** Runs the requested script. ScriptName is normalised in place first (a null one raises);
        every other effect is the result, the exception let out, and the runspace calls. */
    method ExecuteScript(parameters: ExecutionParameters, fs: Snapshot, host: Host)
      returns (outcome: Completion<ExecutionResults>, runspace: seq<RunspaceCall>)
      modifies parameters`scriptName
      ensures Execution(outcome, runspace) == Execute(scriptPath, old(parameters.scriptName), parameters.parameters, fs, host)
      ensures old(parameters.scriptName).None? ==> parameters.scriptName.None?
      ensures old(parameters.scriptName).Some? ==> parameters.scriptName == Some(Normalize(old(parameters.scriptName).value))
    {
      runspace := [];
      if parameters.scriptName.None? {
        return Threw(NullReferenceException), [];
      }
      if !EndsWithIgnoreCase(parameters.scriptName.value, Extension) {
        parameters.scriptName := Some(parameters.scriptName.value + Extension);
      }
      var name := parameters.scriptName.value;
      if !IsValidScriptName(name) {
        return Returned(Failure(InvalidNameMessage)), [];
      }
      if scriptPath !in fs.listing {
        return Threw(DirectoryNotFoundException(scriptPath)), [];
      }
      var candidates := EnumerateFiles(fs, scriptPath);
      var k := FirstNamed(candidates, name);
      if k == |candidates| {
        return Returned(Failure(NotFoundMessage)), [];
      }
      var script := candidates[k];
      runspace := [CreateRunspace, OpenRunspace];
      if host.openFault.Some? {
        outcome := Threw(host.openFault.value);
      } else {
        runspace := runspace + [SetExecutionPolicy(Policy)];
        if host.policyFault.Some? {
          outcome := Threw(host.policyFault.value);
        } else {
          var command := BindParameters(parameters.parameters);
          var bound := ParameterMap(command);
          runspace := runspace + [InvokeScript(script, bound)];
          var invocation := host.invoke(script, bound);
          match invocation
          case Ran(outputs, errors) =>
            var errorArray := if |errors| > 0 then Some(errors) else None;
            var strings := OutputStrings(outputs);
            if strings.None? {
              outcome := Threw(NullReferenceException);
            } else {
              outcome := Returned(ExecutionResults(true, Some(strings.value), errorArray));
            }
          case Fault(e) =>
            if e.RuntimeException? {
              outcome := Returned(Failure(e.message));
            } else {
              outcome := Threw(e);
            }
        }
      }
      runspace := runspace + [CloseRunspace];
    }
  }
}
