/** The `APN` adapter class: it owns one provider connection of the push
    library, or, when creating that connection threw, no connection and the
    thrown value. `sendAPN` encodes the notification, rejects at once when
    there is no connection, and otherwise hands the notification to the
    provider and reduces the provider's reply to a summary. */
module Apn {
  import opened Wrappers
  import opened Js
  import opened Encoder
  import opened Reducer

  const NotConfiguredMessage: string := "Unkown error: APN connection not configured properly"

  /** The reason `sendAPN` rejects with when there is no connection: the
      stored construction error when it is truthy, otherwise a generic Error.
      The reason is never falsy. */
  function NoConnectionReason(connectionError: Value): (e: Value)
    ensures Truthy(e)
    ensures Truthy(connectionError) ==> e == connectionError
    ensures !Truthy(connectionError) ==> e.ErrorObj? && e.message == Str(NotConfiguredMessage)
  {
    Or(connectionError, NewError(Str(NotConfiguredMessage)))
  }

  /** Stands for the library's provider object. Its behaviour is not part of
      this model; it records the calls the adapter makes on it. */
  class Provider {
    var requests: seq<(Notification, seq<Token>)>
    var shutdowns: nat

    constructor ()
      ensures requests == [] && shutdowns == 0
    {
      requests, shutdowns := [], 0;
    }

    /** `provider.send(message, regIds)` */
    method Send(message: Notification, regIds: seq<Token>)
      modifies this
      ensures requests == old(requests) + [(message, regIds)]
      ensures shutdowns == old(shutdowns)
    {
      requests := requests + [(message, regIds)];
    }

    /** `provider.shutdown()` */
    method Shutdown()
      modifies this
      ensures shutdowns == old(shutdowns) + 1
      ensures requests == old(requests)
    {
      shutdowns := shutdowns + 1;
    }
  }

  class APN {
    var connection: Provider?
    var connectionError: Value

    /** `created` is the outcome of creating the library's provider from the
        settings: the provider, or the value its constructor threw. The
        adapter's constructor itself never throws. */
    constructor (created: Result<Provider, Value>)
      ensures created.Success? ==> connection == created.value && connectionError == Undefined
      ensures created.Failure? ==> connection == null && connectionError == created.error
    {
      match created
      case Success(provider) =>
        connection := provider;
        connectionError := Undefined;
      case Failure(e) =>
        connectionError := e;
        connection := null;
    }

    /** Forwards to the provider's shutdown when there is a connection; does
        nothing otherwise. Each call forwards again. */
    method Shutdown()
      modifies if connection != null then {connection} else {}
      ensures connection != null ==>
        connection.shutdowns == old(connection.shutdowns) + 1 && connection.requests == old(connection.requests)
    {
      if connection != null {
        connection.Shutdown();
      }
    }

    /** `sendAPN(regIds, data)`. `now` is the current time in seconds and
        `reply` is how the provider's send promise settles: its response or
        its rejection reason. Without a connection the call rejects with the
        stored error or the generic one and the provider is never asked;
        with one, the provider receives exactly one send of the encoded
        notification and the reply is passed through the reducer. */
    method SendAPN(regIds: seq<Token>, data: Data, now: int, reply: Result<Response, Value>)
      returns (r: Result<Summary, Value>)
      modifies if connection != null then {connection} else {}
      ensures connection == null ==> r == Failure(NoConnectionReason(connectionError))
      ensures connection != null ==>
        && connection.requests == old(connection.requests) + [(Encode(data, now), regIds)]
        && connection.shutdowns == old(connection.shutdowns)
      ensures connection != null && reply.Failure? ==> r == Failure(reply.error)
      ensures connection != null && reply.Success? ==> r == Summarize(reply.value)
    {
      var message := Encode(data, now);
      if connection == null {
        return Failure(NoConnectionReason(connectionError));
      }
      connection.Send(message, regIds);
      match reply
      case Failure(e) =>
        r := Failure(e);
      case Success(response) =>
        r := Resume(response);
    }
  }
}
