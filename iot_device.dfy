/** IoTDevice: the same direct methods and registration as IoTHubDevice, with the SDK's default
    retry policy and a status handler that only logs. */
module IoTDevices {
  import opened Wrappers
  import opened AsciiText
  import opened Configuration
  import opened FileSystem
  import opened Models
  import opened Executor
  import opened Broker
  import opened Dispatch

  class IoTDevice {
    const executor: PSExecutor
    const handlers: seq<(string, Callback)>
    const client: DeviceClient

    /** Reads the "iothub" connection string (null when absent) and creates the client from it;
        the SDK's default retry policy is left in place. */
    constructor (psExecutor: PSExecutor, config: map<string, string>)
      ensures executor == psExecutor && handlers == HandlerTable
      ensures fresh(client) && client.Valid()
      ensures client.connectionString == GetSetting(config, "iothub")
      ensures client.calls == []
    {
      executor := psExecutor;
      handlers := HandlerTable;
      var connectionString := GetSetting(config, "iothub");
      client := new DeviceClient.CreateFromConnectionString(connectionString);
    }

    /** Sets the status handler, registers every handler under both spellings, then opens. */
    method ConnectAsync()
      requires client.Valid()
      modifies client
      ensures client.Valid()
      ensures client.calls == old(client.calls) + [SetConnectionStatusChangesHandler(LoggingStatusHandler)] + Registrations(handlers) + [OpenClient]
    {
      client.SetConnectionStatusChangesHandler(LoggingStatusHandler);
      ghost var start := old(client.calls) + [SetConnectionStatusChangesHandler(LoggingStatusHandler)];
      assert handlers[..0] == [];
      for i := 0 to |handlers|
        invariant client.Valid()
        invariant client.calls == start + Registrations(handlers[..i])
      {
        var name, callback := handlers[i].0, handlers[i].1;
        ghost var pair := [SetMethodHandler(name, callback), SetMethodHandler(Lower(name), callback)];
        DoubleCaseRegisterHandler(name, callback);
        RegistrationsStep(handlers, i);
        AppendAssociates(start, Registrations(handlers[..i]), pair);
      }
      assert handlers[..|handlers|] == handlers;
      ghost var registered := client.calls;
      client.Open();
      assert client.calls == registered + [OpenClient];
    }

    /** Registers the callback under the name as given and under its lower-cased form. */
    method DoubleCaseRegisterHandler(name: string, callback: Callback)
      requires client.Valid()
      modifies client
      ensures client.Valid()
      ensures client.calls == old(client.calls) + [SetMethodHandler(name, callback), SetMethodHandler(Lower(name), callback)]
      ensures client.handlers == old(client.handlers)[name := callback][Lower(name) := callback]
    {
      var lowerName := Lower(name);
      client.SetMethodHandler(name, callback);
      client.SetMethodHandler(lowerName, callback);
    }

    /** Closes the session. */
    method ShutdownAsync()
      requires client.Valid()
      modifies client
      ensures client.Valid()
      ensures client.calls == old(client.calls) + [CloseClient]
      ensures client.closeCount == old(client.closeCount) + 1
    {
      client.Close();
    }

    /** The ListScripts direct method: always 200 with the executor's list, logged around. */
    method ListScripts(request: MethodRequest, fs: Snapshot) returns (response: MethodResponse, log: seq<LogEvent>)
      ensures response == ListScriptsResponse(Listing(executor.scriptPath, fs))
      ensures response.status == 200
      ensures log == CallLog(request.name, response.status)
    {
      var scripts := executor.ListAvailableScripts(fs);
      response := MethodResponse(200, StringArray(scripts));
      log := CallLog(request.name, response.status);
    }

    /** The ExecuteScript direct method, logged around. */
    method ExecuteScriptAsyncWrapper(request: MethodRequest, fs: Snapshot, host: Host,
                                     decode: string -> Completion<Option<ParametersDocument>>)
      returns (response: MethodResponse, log: seq<LogEvent>)
      ensures response == ExecuteScriptResponse(executor.scriptPath, decode(request.dataAsJson), fs, host)
      ensures log == CallLog(request.name, response.status)
    {
      response := ExecuteScript(request, fs, host, decode);
      log := CallLog(request.name, response.status);
    }

    /** Decodes the payload (JSON decoding is the oracle `decode`), runs the executor on the
        request built from it, and answers 200, 400 or 500. */
    method ExecuteScript(request: MethodRequest, fs: Snapshot, host: Host,
                         decode: string -> Completion<Option<ParametersDocument>>)
      returns (response: MethodResponse)
      ensures response == ExecuteScriptResponse(executor.scriptPath, decode(request.dataAsJson), fs, host)
    {
      var decoded := decode(request.dataAsJson);
      match decoded
      case Threw(e) =>
        response := ResponseFor(Threw(e));
      case Returned(None) =>
        response := ResponseFor(Threw(NullReferenceException));
      case Returned(Some(document)) =>
        var parameters := new ExecutionParameters(document);
        var outcome, _ := executor.ExecuteScript(parameters, fs, host);
        response := ResponseFor(outcome);
    }

    /** Only logs the change: the client is never touched, whatever the status or reason. */
    method StatusChangeHandler(status: ConnectionStatus, reason: ConnectionStatusChangeReason)
      returns (level: LogLevel)
      ensures level == StatusLogLevel(status)
      ensures level == Information <==> status == Connected
    {
      level := StatusLogLevel(status);
    }
  }

  /** A freshly built device that connects has exactly the four spellings registered, its
      logging status handler set, no retry policy of its own and the session opened once. */
  lemma ConnectedDevice()
    ensures var calls := ConnectCalls(LoggingStatusHandler);
            && HandlersOf(calls).Keys == {"ListScripts", "listscripts", "ExecuteScript", "executescript"}
            && StatusHandlerOf(calls) == Some(LoggingStatusHandler)
            && RetryPolicyOf(calls).None?
            && Occurrences(calls, OpenClient) == 1
  {
    var before: seq<ClientCall> := [];
    assert before + ConnectCalls(LoggingStatusHandler) == ConnectCalls(LoggingStatusHandler);
    ConnectedNames(before, LoggingStatusHandler);
    ConnectRegisters(before, LoggingStatusHandler);
  }
}
