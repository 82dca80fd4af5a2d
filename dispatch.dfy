/** The direct-method side shared by both device classes: the fixed handler table registered
    under two spellings of each name, routing by exact name, the call log of the wrapper, and
    the answer each direct method gives (status code and JSON body). */
module Dispatch {
  import opened Wrappers
  import opened AsciiText
  import opened ScriptNames
  import opened FileSystem
  import opened Models
  import opened Executor
  import opened Broker

  const BadJsonBody: string := "Bad Json Provided"
  const UnknownExceptionBody: string := "Unknown Exception"

  /** The handler dictionary, in insertion order: each method under its C# member name. */
  const HandlerTable: seq<(string, Callback)> := [("ListScripts", ListScriptsCallback), ("ExecuteScript", ExecuteScriptCallback)]

  /** DoubleCaseRegisterHandler over a table: each entry registered under its exact name and
      then under its lower-cased name, entries in table order. */
  function Registrations(table: seq<(string, Callback)>): (r: seq<ClientCall>)
    ensures |r| == 2 * |table|
    ensures forall i :: 0 <= i < |table| ==>
              r[2 * i] == SetMethodHandler(table[i].0, table[i].1)
              && r[2 * i + 1] == SetMethodHandler(Lower(table[i].0), table[i].1)
  {
    if table == [] then []
    else
      var last := table[|table| - 1];
      Registrations(table[..|table| - 1]) + [SetMethodHandler(last.0, last.1), SetMethodHandler(Lower(last.0), last.1)]
  }

  /** Registering one more entry appends its two registrations. */
  lemma RegistrationsStep(table: seq<(string, Callback)>, i: nat)
    requires i < |table|
    ensures Registrations(table[..i + 1])
              == Registrations(table[..i]) + [SetMethodHandler(table[i].0, table[i].1), SetMethodHandler(Lower(table[i].0), table[i].1)]
  {
    assert table[..i + 1][..i] == table[..i];
  }

  /** The calls ConnectAsync makes: the status handler first, then every registration, then
      OpenAsync. */
  function ConnectCalls(handler: StatusHandler): seq<ClientCall> {
    [SetConnectionStatusChangesHandler(handler)] + Registrations(HandlerTable) + [OpenClient]
  }

  /** The SDK delivers a direct method to the handler registered under exactly its name. */
  function Route(handlers: map<string, Callback>, methodName: string): (r: Option<Callback>)
    ensures r.Some? <==> methodName in handlers
    ensures r.Some? ==> r.value == handlers[methodName]
  {
    if methodName in handlers then Some(handlers[methodName]) else None
  }

  /** The handler table yields four registrations: "ListScripts", "listscripts",
      "ExecuteScript" and "executescript", in that order. */
  lemma HandlerTableRegistrations()
    ensures Registrations(HandlerTable) == [
              SetMethodHandler("ListScripts", ListScriptsCallback), SetMethodHandler("listscripts", ListScriptsCallback),
              SetMethodHandler("ExecuteScript", ExecuteScriptCallback), SetMethodHandler("executescript", ExecuteScriptCallback)]
  {
    assert Lower("ListScripts") == "listscripts";
    assert Lower("ExecuteScript") == "executescript";
    var r := Registrations(HandlerTable);
    assert r[0] == SetMethodHandler(HandlerTable[0].0, HandlerTable[0].1);
    assert r[1] == SetMethodHandler(Lower(HandlerTable[0].0), HandlerTable[0].1);
    assert r[2] == SetMethodHandler(HandlerTable[1].0, HandlerTable[1].1);
    assert r[3] == SetMethodHandler(Lower(HandlerTable[1].0), HandlerTable[1].1);
  }

  /** Connecting adds exactly four handler entries to whatever was registered before: both
      spellings of each method name, each bound to its own callback. */
  lemma ConnectRegisters(before: seq<ClientCall>, handler: StatusHandler)
    ensures HandlersOf(before + ConnectCalls(handler))
              == HandlersOf(before)["ListScripts" := ListScriptsCallback]["listscripts" := ListScriptsCallback]
                                   ["ExecuteScript" := ExecuteScriptCallback]["executescript" := ExecuteScriptCallback]
    ensures StatusHandlerOf(before + ConnectCalls(handler)) == Some(handler)
    ensures Occurrences(before + ConnectCalls(handler), OpenClient) == Occurrences(before, OpenClient) + 1
    ensures RetryPolicyOf(before + ConnectCalls(handler)) == RetryPolicyOf(before)
  {
    HandlerTableRegistrations();
    var c0 := before + [SetConnectionStatusChangesHandler(handler)];
    var c1 := c0 + [SetMethodHandler("ListScripts", ListScriptsCallback)];
    var c2 := c1 + [SetMethodHandler("listscripts", ListScriptsCallback)];
    var c3 := c2 + [SetMethodHandler("ExecuteScript", ExecuteScriptCallback)];
    var c4 := c3 + [SetMethodHandler("executescript", ExecuteScriptCallback)];
    LogAppend(before, SetConnectionStatusChangesHandler(handler));
    LogAppend(c0, SetMethodHandler("ListScripts", ListScriptsCallback));
    LogAppend(c1, SetMethodHandler("listscripts", ListScriptsCallback));
    LogAppend(c2, SetMethodHandler("ExecuteScript", ExecuteScriptCallback));
    LogAppend(c3, SetMethodHandler("executescript", ExecuteScriptCallback));
    LogAppend(c4, OpenClient);
    assert before + ConnectCalls(handler) == c4 + [OpenClient];
  }

  /** On a client with no handler yet, connecting registers exactly the four names; any other
      spelling, such as "LISTSCRIPTS", reaches no handler, while both registered spellings of a
      method reach the same callback. */
  lemma ConnectedNames(before: seq<ClientCall>, handler: StatusHandler)
    requires HandlersOf(before) == map[]
    ensures HandlersOf(before + ConnectCalls(handler)).Keys == {"ListScripts", "listscripts", "ExecuteScript", "executescript"}
    ensures Route(HandlersOf(before + ConnectCalls(handler)), "ListScripts") == Some(ListScriptsCallback)
    ensures Route(HandlersOf(before + ConnectCalls(handler)), "listscripts") == Some(ListScriptsCallback)
    ensures Route(HandlersOf(before + ConnectCalls(handler)), "ExecuteScript") == Some(ExecuteScriptCallback)
    ensures Route(HandlersOf(before + ConnectCalls(handler)), "executescript") == Some(ExecuteScriptCallback)
    ensures Route(HandlersOf(before + ConnectCalls(handler)), "LISTSCRIPTS").None?
  {
    ConnectRegisters(before, handler);
  }

  /** The log levels the devices write at. */
  datatype LogLevel = Information | Warning

  /** What WrapWithTaskLogging logs around a call (the elapsed time is left out). */
  datatype LogEvent = Called(methodName: string) | Completed(methodName: string, status: int)

  /** The wrapper's log for a call that answered with the given status. */
  function CallLog(methodName: string, status: int): seq<LogEvent> {
    [Called(methodName), Completed(methodName, status)]
  }

  /** The level a status change is logged at: a warning unless the client is connected. */
  function StatusLogLevel(status: ConnectionStatus): (level: LogLevel)
    ensures level == Warning <==> status != Connected
  {
    if status != Connected then Warning else Information
  }

  /** The ListScripts answer: always 200, the body the array of listed names. */
  function ListScriptsResponse(scripts: seq<string>): MethodResponse {
    MethodResponse(200, StringArray(scripts))
  }

  /** BuildJsonMethodResponse for the three ExecuteScript outcomes: a result is answered with
      200 and the serialised result, a JsonException with 400, any other exception with 500. */
  function ResponseFor(outcome: Completion<ExecutionResults>): (response: MethodResponse)
    ensures response.status == 200 || response.status == 400 || response.status == 500
    ensures response.status == 200 <==> outcome.Returned?
    ensures response.status == 400 <==> outcome.Threw? && outcome.exception.JsonException?
  {
    match outcome
    case Returned(results) => MethodResponse(200, Serialize(results))
    case Threw(JsonException(_)) => MethodResponse(400, JString(BadJsonBody))
    case Threw(_) => MethodResponse(500, JString(UnknownExceptionBody))
  }

  /** What the ExecuteScript handler's try block yields: decoding may raise, a "null" payload
      decodes to a null request (whose ScriptName then raises), otherwise the executor runs. */
  function ExecuteOutcome(scriptPath: string, decoded: Completion<Option<ParametersDocument>>,
                          fs: Snapshot, host: Host): Completion<ExecutionResults>
  {
    match decoded
    case Threw(e) => Threw(e)
    case Returned(None) => Threw(NullReferenceException)
    case Returned(Some(document)) => Execute(scriptPath, document.scriptName, document.parameters, fs, host).outcome
  }

  /** The ExecuteScript answer for a decoded payload. */
  function ExecuteScriptResponse(scriptPath: string, decoded: Completion<Option<ParametersDocument>>,
                                 fs: Snapshot, host: Host): MethodResponse
  {
    ResponseFor(ExecuteOutcome(scriptPath, decoded, fs, host))
  }

  /** The caller can tell the answers apart by their body: a 200 body reads back as exactly the
      execution result, and the 400 and 500 bodies (plain strings) read back as no result. */
  lemma ResponseBodyReadsBack(outcome: Completion<ExecutionResults>)
    ensures ResponseFor(outcome).status == 200 ==> Deserialize(ResponseFor(outcome).body) == Some(outcome.value)
    ensures ResponseFor(outcome).status != 200 <==> Deserialize(ResponseFor(outcome).body).None?
  {
    if outcome.Returned? {
      SerializeRoundTrip(outcome.value);
    }
  }

  /** The ListScripts body reads back as exactly the listed names. */
  lemma ListScriptsBodyReadsBack(scripts: seq<string>)
    ensures ListScriptsResponse(scripts).status == 200
    ensures ReadStringArray(ListScriptsResponse(scripts).body) == Some(scripts)
  {
    StringArrayRoundTrip(scripts);
  }

  /** The engine never raises a JsonException, in any step. */
  ghost predicate RaisesNoJsonException(host: Host) {
    && (host.openFault.Some? ==> !host.openFault.value.JsonException?)
    && (host.policyFault.Some? ==> !host.policyFault.value.JsonException?)
    && (forall script, parameters :: host.invoke(script, parameters).Fault? ==>
          !host.invoke(script, parameters).exception.JsonException?)
  }

  /** An exception the executor lets out is a JsonException only when the engine raised it. */
  lemma ExecuteRaisesNoJsonException(scriptPath: string, scriptName: Option<string>,
                                     parameters: Option<map<string, string>>, fs: Snapshot, host: Host)
    requires RaisesNoJsonException(host)
    ensures Execute(scriptPath, scriptName, parameters, fs, host).outcome.Threw? ==>
              !Execute(scriptPath, scriptName, parameters, fs, host).outcome.exception.JsonException?
  {
    ExecuteSplits(scriptPath, scriptName, parameters, fs, host);
    if ScriptFound(scriptPath, scriptName, fs) {
      RunScriptRaisesNoJsonException(FoundScript(scriptPath, scriptName, fs), BoundParameters(parameters), host);
    }
  }

  /** The runspace part raises a JsonException only when the engine does. */
  lemma RunScriptRaisesNoJsonException(script: ScriptPath, bound: map<string, string>, host: Host)
    requires RaisesNoJsonException(host)
    ensures RunScript(script, bound, host).outcome.Threw? ==>
              !RunScript(script, bound, host).outcome.exception.JsonException?
  {
    assert host.invoke(script, bound).Fault? ==> !host.invoke(script, bound).exception.JsonException?;
  }

  /** With an engine that never raises a JsonException, the answer is 400 exactly when the
      payload is not valid JSON for the request, 200 exactly when a request was decoded and the
      executor returned (completed or not), and 500 otherwise. */
  lemma ExecuteScriptStatus(scriptPath: string, decoded: Completion<Option<ParametersDocument>>,
                            fs: Snapshot, host: Host)
    requires RaisesNoJsonException(host)
    ensures ExecuteScriptResponse(scriptPath, decoded, fs, host).status == 400 <==>
              decoded.Threw? && decoded.exception.JsonException?
    ensures ExecuteScriptResponse(scriptPath, decoded, fs, host).status == 200 <==>
              && decoded.Returned? && decoded.value.Some?
              && Execute(scriptPath, decoded.value.value.scriptName, decoded.value.value.parameters, fs, host).outcome.Returned?
  {
    if decoded.Returned? && decoded.value.Some? {
      var document := decoded.value.value;
      ExecuteRaisesNoJsonException(scriptPath, document.scriptName, document.parameters, fs, host);
    }
  }

  /** A request whose name is invalid is still answered 200, carrying the failed result. */
  lemma InvalidNameAnsweredOk(scriptPath: string, document: ParametersDocument, fs: Snapshot, host: Host)
    requires document.scriptName.Some? && !IsValidScriptName(Normalize(document.scriptName.value))
    ensures ExecuteScriptResponse(scriptPath, Returned(Some(document)), fs, host)
              == MethodResponse(200, Serialize(Failure(InvalidNameMessage)))
  {
  }

  /** A script that writes errors and then ends normally. As the source is written the handler
      answers 500 "Unknown Exception", so the caller never sees the output or the errors. */
  lemma ReportedErrorsAnswered500AsWritten(script: ScriptPath, bound: map<string, string>, host: Host)
    requires host.openFault.None? && host.policyFault.None?
    requires host.invoke(script, bound).Ran? && host.invoke(script, bound).errors != []
    ensures ResponseFor(RunScriptAsWritten(script, bound, host).outcome)
              == MethodResponse(500, JString(UnknownExceptionBody))
    ensures Deserialize(ResponseFor(RunScriptAsWritten(script, bound, host).outcome).body).None?
  {
    RunScriptAsWrittenDiffers(script, bound, host);
    ResponseBodyReadsBack(RunScriptAsWritten(script, bound, host).outcome);
  }

  /** The intended behaviour: a script that writes errors and then ends normally is answered
      200, and the caller reads back a completed result carrying its outputs and its errors;
      only a null output object still makes it 500. */
  lemma ReportedErrorsReachCaller(script: ScriptPath, bound: map<string, string>, host: Host)
    requires host.openFault.None? && host.policyFault.None?
    requires host.invoke(script, bound).Ran? && host.invoke(script, bound).errors != []
    ensures var strings := OutputStrings(host.invoke(script, bound).outputs);
            && (strings.Some? ==>
                  && ResponseFor(RunScript(script, bound, host).outcome).status == 200
                  && Deserialize(ResponseFor(RunScript(script, bound, host).outcome).body)
                       == Some(ExecutionResults(true, Some(strings.value), Some(host.invoke(script, bound).errors))))
            && (strings.None? ==>
                  ResponseFor(RunScript(script, bound, host).outcome) == MethodResponse(500, JString(UnknownExceptionBody)))
  {
    RunScriptAsWrittenDiffers(script, bound, host);
    ResponseBodyReadsBack(RunScript(script, bound, host).outcome);
  }

  /** A script that emits a null output object is answered 500 "Unknown Exception" in both
      readings: taking the null's string form raises a NullReferenceException. */
  lemma NullOutputAnswered500(script: ScriptPath, bound: map<string, string>, host: Host, i: nat)
    requires host.openFault.None? && host.policyFault.None? && host.invoke(script, bound).Ran?
    requires i < |host.invoke(script, bound).outputs| && host.invoke(script, bound).outputs[i].None?
    ensures ResponseFor(RunScript(script, bound, host).outcome) == MethodResponse(500, JString(UnknownExceptionBody))
    ensures ResponseFor(RunScriptAsWritten(script, bound, host).outcome)
              == MethodResponse(500, JString(UnknownExceptionBody))
  {
  }
}
