/** The renderer-side client (`IPCClient`): it sends a request on the
    channel name the host scopes for its window and unwraps the envelope that
    comes back. The transport (`ipcRenderer.invoke`) is a function parameter;
    awaiting its promise is taking its result. */
module RendererIpc {
  import opened Shared
  import WindowIpc

  /** How `ipcRenderer.invoke` settles: with the envelope the host's wrapper
      returned, or rejected by the transport (for instance when no handler is
      registered on the channel). */
  datatype Reply = Replied(envelope: Envelope) | Rejected(reason: string)

  /** How the promise returned by `invoke` settles: with a value, or by
      throwing an `Error` carrying a message. */
  datatype CallResult = Resolved(value: Value) | Failed(message: string)

  /** JavaScript's `error || 'Unknown error'` on the envelope's optional
      error string: an absent or empty error falls back to the default. */
  function ErrorOrDefault(error: Option<string>): (r: string)
    ensures r == UnknownError <==> error.None? || error.value == "" || error.value == UnknownError
    ensures r != "" && (error.Some? && error.value != "" ==> r == error.value)
  {
    if error.Some? && error.value != "" then error.value else UnknownError
  }

  /** `invoke` after the transport settled: a rejection propagates, a failure
      envelope throws, a success envelope returns its `data` unchanged (an
      absent `data` is `undefined`). */
  function Unwrap(reply: Reply): (r: CallResult)
    ensures r.Resolved? <==> reply.Replied? && reply.envelope.success
    ensures r.Resolved? ==> r.value == reply.envelope.data.GetOr(Undefined)
    ensures reply.Rejected? ==> r == Failed(reply.reason)
    ensures reply.Replied? && !reply.envelope.success ==> r == Failed(ErrorOrDefault(reply.envelope.error))
  {
    match reply
    case Rejected(reason) => Failed(reason)
    case Replied(e) =>
      if !e.success then Failed(ErrorOrDefault(e.error)) else Resolved(e.data.GetOr(Undefined))
  }

  /** `IPCClient`. Both fields are set by the constructor and a datatype
      value never changes afterwards. */
  datatype IPCClient = IPCClient(windowId: string, windowName: string) {

    /** The client's own `getScopedChannelName`: the same string the host
        computes for this window id and name. */
    function ScopedChannelName(channelName: string): (r: string)
      ensures r == WindowIpc.Scoped(windowId, channelName)
      ensures |r| == |windowId| + 1 + |channelName| && r[|windowId|] == ':'
    {
      windowId + ":" + channelName
    }

    /** `getWindowName`: the name given to the constructor. */
    function GetWindowName(): (r: string)
      ensures r == windowName
    {
      windowName
    }

    /** `invoke(method, data)`: exactly one transport call, on the host's
        scoped name for the method name, carrying `data` as it is; its reply is
        unwrapped. */
    function Invoke(methodName: string, data: Value, transport: (string, Value) -> Reply): (r: CallResult)
      ensures r == Unwrap(transport(WindowIpc.Scoped(windowId, methodName), data))
    {
      Unwrap(transport(ScopedChannelName(methodName), data))
    }
  }

  /** What the renderer is handed once the host has dealt with a request: the
      wrapper's envelope, a transport rejection when the window has no handler
      on the channel (with the transport's `reason`), or nothing yet while the
      request is suspended on a response promise. */
  function Deliver(c: WindowIpc.Completion, reason: string): Option<Reply> {
    match c
    case Done(e) => Some(Replied(e))
    case NoHandler => Some(Rejected(reason))
    case Suspended(_) => None
  }

  /** What a caller of `invoke` is promised, stated from the handler's side
      alone: the handler's result comes back, or the response payload for a
      response handler once it has arrived; an `Error` with a non-empty
      message surfaces with that message; anything else thrown, or an empty
      message, surfaces as "Unknown error"; a rejected response promise
      surfaces like a thrown `Error` with the rejection's message. `None`
      while the call waits. */
  function Promised(outcome: Outcome, awaited: Option<WindowIpc.Awaited>): Option<CallResult> {
    match outcome
    case Threw(ErrorObject(m)) => Some(Failed(if m == "" then UnknownError else m))
    case Threw(NonError(_)) => Some(Failed(UnknownError))
    case Returned(v) =>
      match awaited
      case None => Some(Resolved(v))
      case Some(a) =>
        match a.state
        case Pending => None
        case Fulfilled(payload) => Some(Resolved(payload))
        case Rejected(m) => Some(Failed(if m == "" then UnknownError else m))
  }

  /** Wrap then unwrap: the host's wrapper followed by the client's `invoke`
      gives exactly what `Promised` says, for every outcome and every state
      of the awaited promise. */
  lemma WrapThenUnwrap(outcome: Outcome, awaited: Option<WindowIpc.Awaited>, reason: string)
    ensures var d := Deliver(WindowIpc.Settle(outcome, awaited), reason);
      && (d.None? <==> Promised(outcome, awaited).None?)
      && (d.Some? ==> Unwrap(d.value) == Promised(outcome, awaited).value)
  {
    match outcome
    case Threw(t) =>
      assert WindowIpc.Settle(outcome, awaited).envelope.error == Some(WindowIpc.ErrorMessage(t));
    case Returned(v) =>
  }

  /** Round trip of a value: a plain handler's result `v` comes back to the
      client as `v`. */
  lemma ValueRoundTrip(v: Value, reason: string)
    ensures Deliver(WindowIpc.Settle(Returned(v), None), reason) == Some(Replied(Envelope(true, Some(v), None)))
    ensures Unwrap(Replied(Envelope(true, Some(v), None))) == Resolved(v)
  {
  }

  /** Round trip of an error: an `Error` with non-empty message `m` thrown by
      the handler surfaces at the client as an error with message `m`; with
      an empty message, or a thrown non-`Error`, as "Unknown error". */
  lemma ErrorRoundTrip(m: string, other: Value, awaited: Option<WindowIpc.Awaited>, reason: string)
    ensures m != "" ==>
      Deliver(WindowIpc.Settle(Threw(ErrorObject(m)), awaited), reason) == Some(Replied(Envelope(false, None, Some(m))))
      && Unwrap(Replied(Envelope(false, None, Some(m)))) == Failed(m)
    ensures Unwrap(Deliver(WindowIpc.Settle(Threw(ErrorObject("")), awaited), reason).value) == Failed(UnknownError)
    ensures Unwrap(Deliver(WindowIpc.Settle(Threw(NonError(other)), awaited), reason).value) == Failed(UnknownError)
  {
  }

  /** Round trip of a response: for a response handler, whatever its own
      result, the client receives the payload the renderer sent on the
      response channel, which is what the promise was fulfilled with. */
  lemma ResponseRoundTrip(result: Value, p: nat, payload: Value, reason: string)
    ensures var a := WindowIpc.Awaited(p, WindowIpc.Fulfilled(payload));
      && Deliver(WindowIpc.Settle(Returned(result), Some(a)), reason).Some?
      && Unwrap(Deliver(WindowIpc.Settle(Returned(result), Some(a)), reason).value) == Resolved(payload)
  {
  }

  /** A response handler whose one-shot registration the transport refused
      awaits a rejected promise: whatever the handler returned, the client's
      call fails with the transport's message. */
  lemma RefusedRoundTrip(result: Value, p: nat, responseChannel: string, reason: string)
    ensures var a := WindowIpc.Awaited(p, WindowIpc.Rejected(WindowIpc.RefusedMessage(responseChannel)));
      && Deliver(WindowIpc.Settle(Returned(result), Some(a)), reason).Some?
      && Unwrap(Deliver(WindowIpc.Settle(Returned(result), Some(a)), reason).value)
         == Failed(WindowIpc.RefusedMessage(responseChannel))
  {
    assert |WindowIpc.RefusedMessage(responseChannel)| > 0;
  }

  /** A client and a host window agree on the channel for a method exactly
      when they agree on the window id (window ids are colon-free). */
  lemma ClientReachesItsWindow(client: IPCClient, hostId: string, methodName: string, name: string)
    requires ':' !in client.windowId && ':' !in hostId
    ensures client.ScopedChannelName(methodName) == WindowIpc.Scoped(hostId, name)
            <==> client.windowId == hostId && methodName == name
  {
    WindowIpc.ScopedPairInjective(client.windowId, methodName, hostId, name);
  }
}
