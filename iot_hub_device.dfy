/** IoTHubDevice: connects to the hub with a retry policy, serves the two direct methods, and
    reopens the session itself after a hard disconnect. */
module IoTHubDevices {
  import opened Wrappers
  import opened AsciiText
  import opened Configuration
  import opened FileSystem
  import opened Models
  import opened Executor
  import opened Broker
  import opened Dispatch

  /** ExponentialBackoff(int.MaxValue, 1 s, 30 s, 1 s). */
  const HubRetryPolicy: RetryPolicy := ExponentialBackoff(0x7FFF_FFFF, 1, 30, 1)

  /** The hard-retry rule: reopen when the client reports Disconnected for an expired retry, no
      network, a communication error or a client close. */
  predicate ShouldReopen(status: ConnectionStatus, reason: ConnectionStatusChangeReason) {
    && status == Disconnected
    && (reason == RetryExpired || reason == NoNetwork || reason == CommunicationError || reason == ClientClose)
  }

  /** The reasons for which a hard retry is attempted. */
  const HardRetryReasons: set<ConnectionStatusChangeReason> := {RetryExpired, NoNetwork, CommunicationError, ClientClose}

  /** The rule only ever reopens a disconnected client, and for a disconnected one it reopens
      exactly on the four hard-retry reasons: never for an expired token, a disabled device or a
      bad credential, nor after a normal connection. */
  lemma ShouldReopenCases(status: ConnectionStatus, reason: ConnectionStatusChangeReason)
    ensures ShouldReopen(status, reason) <==> status == Disconnected && reason in HardRetryReasons
    ensures (reason == ExpiredSasToken || reason == DeviceDisabled || reason == BadCredential || reason == ConnectionOk) ==>
              !ShouldReopen(status, reason)
  {
  }

  /** How many of a series of status changes are hard disconnects. */
  function HardDisconnects(changes: seq<(ConnectionStatus, ConnectionStatusChangeReason)>): (n: nat)
    ensures n <= |changes|
  {
    if changes == [] then 0
    else
      var last := changes[|changes| - 1];
      HardDisconnects(changes[..|changes| - 1]) + (if ShouldReopen(last.0, last.1) then 1 else 0)
  }

  /** The calls the status handler makes over a series of status changes, one change after the
      other: an Open for each hard disconnect, nothing otherwise. */
  function ReopenCalls(changes: seq<(ConnectionStatus, ConnectionStatusChangeReason)>): seq<ClientCall> {
    if changes == [] then []
    else
      var last := changes[|changes| - 1];
      ReopenCalls(changes[..|changes| - 1]) + (if ShouldReopen(last.0, last.1) then [OpenClient] else [])
  }

  /** Over any series of status changes the session is reopened exactly once per hard
      disconnect, and the registered handlers, the status handler, the retry policy and the
      close count stay as they were. */
  lemma {:induction false} ReopensCountHardDisconnects(calls: seq<ClientCall>,
                                                       changes: seq<(ConnectionStatus, ConnectionStatusChangeReason)>)
    ensures Occurrences(calls + ReopenCalls(changes), OpenClient) == Occurrences(calls, OpenClient) + HardDisconnects(changes)
    ensures Occurrences(calls + ReopenCalls(changes), CloseClient) == Occurrences(calls, CloseClient)
    ensures HandlersOf(calls + ReopenCalls(changes)) == HandlersOf(calls)
    ensures StatusHandlerOf(calls + ReopenCalls(changes)) == StatusHandlerOf(calls)
    ensures RetryPolicyOf(calls + ReopenCalls(changes)) == RetryPolicyOf(calls)
  {
    if changes != [] {
      var last := changes[|changes| - 1];
      var before := changes[..|changes| - 1];
      ReopensCountHardDisconnects(calls, before);
      if ShouldReopen(last.0, last.1) {
        assert calls + ReopenCalls(changes) == (calls + ReopenCalls(before)) + [OpenClient];
        LogAppend(calls + ReopenCalls(before), OpenClient);
      } else {
        assert calls + ReopenCalls(changes) == calls + ReopenCalls(before);
      }
    } else {
      assert calls + ReopenCalls(changes) == calls;
    }
  }

  class IoTHubDevice {
    const executor: PSExecutor
    const handlers: seq<(string, Callback)>
    const client: DeviceClient

    /** Reads the "iothub" connection string (null when absent), creates the client from it and
        gives the client its retry policy. */
    constructor (psExecutor: PSExecutor, config: map<string, string>)
      ensures executor == psExecutor && handlers == HandlerTable
      ensures fresh(client) && client.Valid()
      ensures client.connectionString == GetSetting(config, "iothub")
      ensures client.calls == [ClientCall.SetRetryPolicy(HubRetryPolicy)]
      ensures client.retryPolicy == Some(HubRetryPolicy)
    {
      executor := psExecutor;
      handlers := HandlerTable;
      var connectionString := GetSetting(config, "iothub");
      client := new DeviceClient.CreateFromConnectionString(connectionString);
      new;
      client.SetRetryPolicy(HubRetryPolicy);
    }

    /** Sets the status handler, registers every handler under both spellings, then opens. */
    method ConnectAsync()
      requires client.Valid()
      modifies client
      ensures client.Valid()
      ensures client.calls == old(client.calls) + [SetConnectionStatusChangesHandler(ReopeningStatusHandler)] + Registrations(handlers) + [OpenClient]
    {
      client.SetConnectionStatusChangesHandler(ReopeningStatusHandler);
      ghost var start := old(client.calls) + [SetConnectionStatusChangesHandler(ReopeningStatusHandler)];
      assert handlers[..0] == [];
      for i := 0 to |handlers|
        invariant client.Valid()
        invariant client.calls == start + Registrations(handlers[..i])
      {
        var name, callback := handlers[i].0, handlers[i].1;
        ghost var pair := [SetMethodHandler(name, callback), SetMethodHandler(Lower(name), callback)];
        DoubleCaseRegisterHandler(name, callback);
        RegistrationsStep(handlers, i);
        AppendAssociates(start, Registrations(handlers[..i]), pair);
      }
      assert handlers[..|handlers|] == handlers;
      ghost var registered := client.calls;
      client.Open();
      assert client.calls == registered + [OpenClient];
    }

    /** Registers the callback under the name as given and under its lower-cased form. */
    method DoubleCaseRegisterHandler(name: string, callback: Callback)
      requires client.Valid()
      modifies client
      ensures client.Valid()
      ensures client.calls == old(client.calls) + [SetMethodHandler(name, callback), SetMethodHandler(Lower(name), callback)]
      ensures client.handlers == old(client.handlers)[name := callback][Lower(name) := callback]
    {
      var lowerName := Lower(name);
      client.SetMethodHandler(name, callback);
      client.SetMethodHandler(lowerName, callback);
    }

    /** Closes the session. */
    method ShutdownAsync()
      requires client.Valid()
      modifies client
      ensures client.Valid()
      ensures client.calls == old(client.calls) + [CloseClient]
      ensures client.closeCount == old(client.closeCount) + 1
    {
      client.Close();
    }

    /** The ListScripts direct method: always 200 with the executor's list, logged around. */
    method ListScripts(request: MethodRequest, fs: Snapshot) returns (response: MethodResponse, log: seq<LogEvent>)
      ensures response == ListScriptsResponse(Listing(executor.scriptPath, fs))
      ensures response.status == 200
      ensures log == CallLog(request.name, response.status)
    {
      var scripts := executor.ListAvailableScripts(fs);
      response := MethodResponse(200, StringArray(scripts));
      log := CallLog(request.name, response.status);
    }

    /** The ExecuteScript direct method, logged around. */
    method ExecuteScriptAsyncWrapper(request: MethodRequest, fs: Snapshot, host: Host,
                                     decode: string -> Completion<Option<ParametersDocument>>)
      returns (response: MethodResponse, log: seq<LogEvent>)
      ensures response == ExecuteScriptResponse(executor.scriptPath, decode(request.dataAsJson), fs, host)
      ensures log == CallLog(request.name, response.status)
    {
      response := ExecuteScript(request, fs, host, decode);
      log := CallLog(request.name, response.status);
    }

    /** Decodes the payload (JSON decoding is the oracle `decode`), runs the executor on the
        request built from it, and answers 200, 400 or 500. */
    method ExecuteScript(request: MethodRequest, fs: Snapshot, host: Host,
                         decode: string -> Completion<Option<ParametersDocument>>)
      returns (response: MethodResponse)
      ensures response == ExecuteScriptResponse(executor.scriptPath, decode(request.dataAsJson), fs, host)
    {
      var decoded := decode(request.dataAsJson);
      match decoded
      case Threw(e) =>
        response := ResponseFor(Threw(e));
      case Returned(None) =>
        response := ResponseFor(Threw(NullReferenceException));
      case Returned(Some(document)) =>
        var parameters := new ExecutionParameters(document);
        var outcome, _ := executor.ExecuteScript(parameters, fs, host);
        response := ResponseFor(outcome);
    }

    /** Logs the change and, after a hard disconnect, reopens the session once. */
    method StatusChangeHandler(status: ConnectionStatus, reason: ConnectionStatusChangeReason)
      returns (level: LogLevel)
      requires client.Valid()
      modifies client
      ensures client.Valid()
      ensures level == StatusLogLevel(status)
      ensures client.calls == old(client.calls) + (if ShouldReopen(status, reason) then [OpenClient] else [])
      ensures client.openCount == old(client.openCount) + (if ShouldReopen(status, reason) then 1 else 0)
      ensures client.calls == old(client.calls) + ReopenCalls([(status, reason)])
    {
      assert [(status, reason)][..0] == [];
      level := StatusLogLevel(status);
      if ShouldReopen(status, reason) {
        client.Open();
      }
    }
  }

  /** A freshly built hub device that connects has exactly the four spellings registered, its
      reopening status handler set, its retry policy kept and the session opened once. */
  lemma ConnectedHubDevice()
    ensures var calls := [ClientCall.SetRetryPolicy(HubRetryPolicy)] + ConnectCalls(ReopeningStatusHandler);
            && HandlersOf(calls).Keys == {"ListScripts", "listscripts", "ExecuteScript", "executescript"}
            && StatusHandlerOf(calls) == Some(ReopeningStatusHandler)
            && RetryPolicyOf(calls) == Some(HubRetryPolicy)
            && Occurrences(calls, OpenClient) == 1
  {
    var before := [ClientCall.SetRetryPolicy(HubRetryPolicy)];
    assert before[..0] == [];
    ConnectedNames(before, ReopeningStatusHandler);
    ConnectRegisters(before, ReopeningStatusHandler);
  }
}
