/** The device side of the IoT broker client (Microsoft.Azure.Devices.Client.DeviceClient) as
    the two device classes use it. The SDK itself is not modelled: the client records the calls
    made on it, in order, and keeps the state those calls establish. */
module Broker {
  import opened Wrappers
  import opened Models

  /** ConnectionStatus of the SDK. */
  datatype ConnectionStatus = Disconnected | Connected | DisconnectedRetrying | Disabled

  /** ConnectionStatusChangeReason of the SDK. */
  datatype ConnectionStatusChangeReason =
    | ConnectionOk
    | ExpiredSasToken
    | DeviceDisabled
    | BadCredential
    | RetryExpired
    | NoNetwork
    | CommunicationError
    | ClientClose

  /** ExponentialBackoff(retryCount, minBackoff, maxBackoff, deltaBackoff), times in seconds. */
  datatype RetryPolicy = ExponentialBackoff(retryCount: int, minBackoff: int, maxBackoff: int, deltaBackoff: int)

  /** The two direct-method callbacks a device registers. */
  datatype Callback = ListScriptsCallback | ExecuteScriptCallback

  /** The connection-status callback a device registers: the hub device's, which may reopen the
      session, or the plain device's, which only logs. */
  datatype StatusHandler = ReopeningStatusHandler | LoggingStatusHandler

  /** A direct-method call as delivered: the method name and the JSON payload text. */
  datatype MethodRequest = MethodRequest(name: string, dataAsJson: string)

  /** A direct-method answer: a status code and the JSON value its body encodes. */
  datatype MethodResponse = MethodResponse(status: int, body: Json)

  /** A call made on the client. */
  datatype ClientCall =
    | SetRetryPolicy(policy: RetryPolicy)
    | SetConnectionStatusChangesHandler(handler: StatusHandler)
    | SetMethodHandler(methodName: string, callback: Callback)
    | OpenClient
    | CloseClient

  /** The method handlers a sequence of calls leaves registered; a later registration under the
      same name replaces an earlier one. */
  function HandlersOf(calls: seq<ClientCall>): map<string, Callback> {
    if calls == [] then map[]
    else
      var last := calls[|calls| - 1];
      var before := HandlersOf(calls[..|calls| - 1]);
      if last.SetMethodHandler? then before[last.methodName := last.callback] else before
  }

  /** The status handler a sequence of calls leaves set, if any: the last one set. */
  function StatusHandlerOf(calls: seq<ClientCall>): Option<StatusHandler> {
    if calls == [] then None
    else
      var last := calls[|calls| - 1];
      if last.SetConnectionStatusChangesHandler? then Some(last.handler) else StatusHandlerOf(calls[..|calls| - 1])
  }

  /** The retry policy a sequence of calls leaves set, if any: the last one set. */
  function RetryPolicyOf(calls: seq<ClientCall>): Option<RetryPolicy> {
    if calls == [] then None
    else
      var last := calls[|calls| - 1];
      if last.SetRetryPolicy? then Some(last.policy) else RetryPolicyOf(calls[..|calls| - 1])
  }

  /** How many of the calls are the given one. */
  function Occurrences(calls: seq<ClientCall>, call: ClientCall): (n: nat)
    ensures n <= |calls|
    ensures n == 0 <==> call !in calls
  {
    if calls == [] then 0
    else Occurrences(calls[..|calls| - 1], call) + (if calls[|calls| - 1] == call then 1 else 0)
  }

  /** The five views of a log, one call longer. */
  lemma LogAppend(calls: seq<ClientCall>, call: ClientCall)
    ensures HandlersOf(calls + [call]) == if call.SetMethodHandler? then HandlersOf(calls)[call.methodName := call.callback] else HandlersOf(calls)
    ensures StatusHandlerOf(calls + [call]) == if call.SetConnectionStatusChangesHandler? then Some(call.handler) else StatusHandlerOf(calls)
    ensures RetryPolicyOf(calls + [call]) == if call.SetRetryPolicy? then Some(call.policy) else RetryPolicyOf(calls)
    ensures Occurrences(calls + [call], OpenClient) == Occurrences(calls, OpenClient) + (if call == OpenClient then 1 else 0)
    ensures Occurrences(calls + [call], CloseClient) == Occurrences(calls, CloseClient) + (if call == CloseClient then 1 else 0)
  {
    assert (calls + [call])[..|calls|] == calls;
  }

  /** Appending to a log in two steps is appending once. */
  lemma AppendAssociates(a: seq<ClientCall>, b: seq<ClientCall>, c: seq<ClientCall>)
    ensures a + (b + c) == (a + b) + c
  {
  }

  class DeviceClient {
    /** The connection string the client was created from (null when the setting is absent). */
    const connectionString: Option<string>
    /** Every call made on the client, in order. */
    var calls: seq<ClientCall>
    var handlers: map<string, Callback>
    var statusHandler: Option<StatusHandler>
    var retryPolicy: Option<RetryPolicy>
    var openCount: nat
    var closeCount: nat

    /** The client's state is the one its calls established. */
    predicate Valid()
      reads this
    {
      && handlers == HandlersOf(calls)
      && statusHandler == StatusHandlerOf(calls)
      && retryPolicy == RetryPolicyOf(calls)
      && openCount == Occurrences(calls, OpenClient)
      && closeCount == Occurrences(calls, CloseClient)
    }

    /** DeviceClient.CreateFromConnectionString: a client on which nothing has been called. */
    constructor CreateFromConnectionString(connectionString: Option<string>)
      ensures this.connectionString == connectionString
      ensures calls == [] && Valid()
    {
      this.connectionString := connectionString;
      calls := [];
      handlers := map[];
      statusHandler := None;
      retryPolicy := None;
      openCount := 0;
      closeCount := 0;
    }

    method SetRetryPolicy(policy: RetryPolicy)
      requires Valid()
      modifies this`calls, this`retryPolicy
      ensures Valid()
      ensures calls == old(calls) + [ClientCall.SetRetryPolicy(policy)]
      ensures retryPolicy == Some(policy)
    {
      LogAppend(calls, ClientCall.SetRetryPolicy(policy));
      calls := calls + [ClientCall.SetRetryPolicy(policy)];
      retryPolicy := Some(policy);
    }

    method SetConnectionStatusChangesHandler(handler: StatusHandler)
      requires Valid()
      modifies this`calls, this`statusHandler
      ensures Valid()
      ensures calls == old(calls) + [ClientCall.SetConnectionStatusChangesHandler(handler)]
      ensures statusHandler == Some(handler)
    {
      LogAppend(calls, ClientCall.SetConnectionStatusChangesHandler(handler));
      calls := calls + [ClientCall.SetConnectionStatusChangesHandler(handler)];
      statusHandler := Some(handler);
    }

    /** SetMethodHandlerAsync(methodName, callback, null): registers under exactly that name. */
    method SetMethodHandler(methodName: string, callback: Callback)
      requires Valid()
      modifies this`calls, this`handlers
      ensures Valid()
      ensures calls == old(calls) + [ClientCall.SetMethodHandler(methodName, callback)]
      ensures handlers == old(handlers)[methodName := callback]
    {
      LogAppend(calls, ClientCall.SetMethodHandler(methodName, callback));
      calls := calls + [ClientCall.SetMethodHandler(methodName, callback)];
      handlers := handlers[methodName := callback];
    }

    /** OpenAsync. */
    method Open()
      requires Valid()
      modifies this`calls, this`openCount
      ensures Valid()
      ensures calls == old(calls) + [OpenClient]
      ensures openCount == old(openCount) + 1
    {
      LogAppend(calls, OpenClient);
      calls := calls + [OpenClient];
      openCount := openCount + 1;
    }

    /** CloseAsync. */
    method Close()
      requires Valid()
      modifies this`calls, this`closeCount
      ensures Valid()
      ensures calls == old(calls) + [CloseClient]
      ensures closeCount == old(closeCount) + 1
    {
      LogAppend(calls, CloseClient);
      calls := calls + [CloseClient];
      closeCount := closeCount + 1;
    }
  }
}
