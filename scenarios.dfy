/** Concrete runs of the model that replay the repository's own test cases
    and one request end to end: a window class declared with decorators, its
    controller constructed, requests answered and handlers torn down. */
module Scenarios {
  import opened Shared
  import Decorators
  import WindowIpc
  import RendererIpc

  /** A window id as `Math.random().toString(36).substring(2, 7)` makes one. */
  const TestId: string := "k3j9x"

  /** The test's window class: `@mainHandler('test')` on `testHandler`, then
      `@windowName('exampleWindow')` on the class (TypeScript applies the
      method decorator first, so the handler goes through the pending list). */
  method DeclareTestWindow() returns (registry: Decorators.Registry, cls: Decorators.HandlerClass)
    ensures fresh(registry) && fresh(cls)
    ensures cls.windowName == Some("exampleWindow")
    ensures Decorators.GetClassHandlers(cls) == map["test" := Fn(1)]
    ensures registry.windows == map["exampleWindow" := map["test" := Decorators.Entry(Fn(1), None)]]
    ensures cls.responseHandlers == Some({})
  {
    registry := new Decorators.Registry();
    cls := new Decorators.HandlerClass();
    var _ := Decorators.MainHandler(registry, cls, "testHandler", "test", Fn(1));
    ghost var pending := cls.pending;
    assert pending == [Decorators.HandlerMetadata("test", Fn(1), None)];
    assert pending[..0] == [];
    Decorators.WindowName(registry, cls, "exampleWindow");
  }

  /** What the constructor's postcondition says about the test window,
      worked out for its one class handler. */
  lemma FixtureTable(marks: Option<set<string>>, hs: map<string, Handler>, ch: map<string, WindowIpc.Channel>,
                     promises: seq<WindowIpc.Promise>, responders: map<string, nat>, h: map<string, WindowIpc.Wrapper>)
    requires hs == map["test" := Fn(1)] && marks == Some({})
    requires var close := WindowIpc.CloseChannel(TestId);
      && WindowIpc.HoldsClassHandlers(TestId, ch, hs, hs.Keys)
      && WindowIpc.AllScopedFrom(TestId, ch.Keys, hs.Keys + {close})
      && WindowIpc.Scoped(TestId, close) in ch
      && responders.Keys == WindowIpc.ResponseChannels(TestId, marks, hs.Keys + {close})
      && |promises| == |responders|
      && WindowIpc.WrappersAsMarked(TestId, marks, h, responders, hs.Keys + {close})
    ensures var test, close := WindowIpc.Scoped(TestId, "test"), WindowIpc.Scoped(TestId, WindowIpc.CloseChannel(TestId));
      && ch.Keys == {test, close}
      && ch[test].handler == Bound(Fn(1))
      && test in h && h[test].awaits == None
      && promises == [] && responders == map[]
  {
    var close := WindowIpc.CloseChannel(TestId);
    var names := {"test", close};
    assert hs.Keys + {close} == names;
    WindowIpc.ScopedKeysExactly(TestId, ch.Keys, names);
    assert !WindowIpc.Marked(marks, "test") && !WindowIpc.Marked(marks, close);
    assert WindowIpc.ResponseChannels(TestId, marks, names) == {};
  }

  /** The test window's transport log: the class handler's registration,
      then the close handler's, and no one-shot registration. */
  lemma FixtureLog(hs: map<string, Handler>, marks: Option<set<string>>, error: Option<string>,
                   order: seq<string>, log: seq<WindowIpc.Call>)
    requires hs == map["test" := Fn(1)] && marks == Some({})
    requires var close := WindowIpc.CloseChannel(TestId);
      && (error.Some? <==> close in hs)
      && WindowIpc.Enumerates(order, hs.Keys)
      && log == [] + WindowIpc.Registrations(TestId, marks, if error.None? then order + [close] else order)
    ensures log == [WindowIpc.Call.Handle(WindowIpc.Scoped(TestId, "test")),
                    WindowIpc.Call.Handle(WindowIpc.Scoped(TestId, WindowIpc.CloseChannel(TestId)))]
  {
    var close := WindowIpc.CloseChannel(TestId);
    assert close != "test";
    WindowIpc.EnumeratesMembers(order, hs.Keys);
    assert order == ["test"];
    assert (order + [close])[..1] == ["test"] && ["test"][..0] == [];
  }

  /** Nothing of the test window is registered under the unscoped close
      name. */
  lemma FixtureUnscoped(ch: map<string, WindowIpc.Channel>, h: map<string, WindowIpc.Wrapper>)
    requires ch.Keys == {WindowIpc.Scoped(TestId, "test"), WindowIpc.Scoped(TestId, WindowIpc.CloseChannel(TestId))}
    requires WindowIpc.KeepsOthers(map[], h, ch.Keys)
    ensures WindowIpc.CloseChannel(TestId) !in h
  {
    var close := WindowIpc.CloseChannel(TestId);
    assert close !in ch.Keys by {
      assert |close| == 18 && |WindowIpc.Scoped(TestId, "test")| == 10 && |WindowIpc.Scoped(TestId, close)| == 24;
    }
  }

  /** The test fixture: constructing the controller registers `test` at
      `<id>:test` and the close handler at its scoped name, both as plain
      (non-response) wrappers, and nothing else. */
  method ConstructTestWindow() returns (ipc: WindowIpc.IpcMain, w: WindowIpc.WindowIPC)
    ensures fresh(ipc) && fresh(w) && w.Valid() && w.ipc == ipc && w.windowId == TestId
    ensures var test, close := WindowIpc.Scoped(TestId, "test"), WindowIpc.Scoped(TestId, WindowIpc.CloseChannel(TestId));
      && w.channels.Keys == {test, close}
      && w.channels[test].handler == Bound(Fn(1))
      && w.channels[close].handler == CloseWindow
      && ipc.handlers[test] == WindowIpc.Wrapper(Bound(Fn(1)), None)
      && ipc.log == [WindowIpc.Call.Handle(test), WindowIpc.Call.Handle(close)]
    ensures WindowIpc.CloseChannel(TestId) !in ipc.handlers
    ensures w.promises == [] && w.responders == map[] && w.cls.responseHandlers == Some({})
  {
    var registry, cls := DeclareTestWindow();
    ipc := new WindowIpc.IpcMain();
    var error;
    ghost var order;
    w, error, order := WindowIpc.WindowIPC.Create(ipc, cls, TestId);
    FixtureTable(cls.responseHandlers, Decorators.GetClassHandlers(cls), w.channels, w.promises, w.responders, ipc.handlers);
    FixtureLog(Decorators.GetClassHandlers(cls), cls.responseHandlers, error, order, ipc.log);
    FixtureUnscoped(w.channels, ipc.handlers);
  }

  /** `handle` of a fresh, unmarked name in a valid window adds exactly its
      scoped channel. */
  method AddPlain(w: WindowIpc.WindowIPC, name: string, handler: Handler)
    requires w.Valid() && WindowIpc.Scoped(w.windowId, name) !in w.channels
    requires !Decorators.IsResponseHandler(w.cls, name)
    modifies w, w.ipc
    ensures w.Valid() && w.channels.Keys == old(w.channels.Keys) + {WindowIpc.Scoped(w.windowId, name)}
    ensures w.promises == old(w.promises) && w.responders == old(w.responders)
  {
    var _ := w.Handle(name, handler);
  }

  /** A second `handle` of the same name fails with the duplicate message and
      changes nothing; the first registration survives. */
  method DuplicateRejected() returns (first: Option<string>, second: Option<string>,
                                       ghost tableBefore: map<string, WindowIpc.Channel>,
                                       ghost tableAfter: map<string, WindowIpc.Channel>,
                                       ghost registeredBefore: map<string, WindowIpc.Wrapper>,
                                       ghost registeredAfter: map<string, WindowIpc.Wrapper>,
                                       ghost logBefore: seq<WindowIpc.Call>, ghost logAfter: seq<WindowIpc.Call>)
    ensures first == None
    ensures second == Some(WindowIpc.DuplicateMessage("test-channel"))
    ensures tableAfter == tableBefore && registeredAfter == registeredBefore && logAfter == logBefore
    ensures WindowIpc.Scoped(TestId, "test-channel") in tableAfter
    ensures tableAfter[WindowIpc.Scoped(TestId, "test-channel")].handler == Fn(2)
  {
    var ipc, w := ConstructTestWindow();
    WindowIpc.ScopedInjective(TestId, "test-channel", "test");
    WindowIpc.ScopedInjective(TestId, "test-channel", WindowIpc.CloseChannel(TestId));
    first := w.Handle("test-channel", Fn(2));
    tableBefore, registeredBefore, logBefore := w.channels, ipc.handlers, ipc.log;
    second := w.Handle("test-channel", Fn(3));
    tableAfter, registeredAfter, logAfter := w.channels, ipc.handlers, ipc.log;
  }

  /** `removeHandler` of a registered name: exactly one transport removal,
      of its scoped name. */
  method RemoveOne() returns (calls: seq<WindowIpc.Call>)
    ensures calls == [WindowIpc.Call.RemoveHandler(WindowIpc.Scoped(TestId, "test-channel"))]
  {
    var ipc, w := ConstructTestWindow();
    WindowIpc.ScopedInjective(TestId, "test-channel", "test");
    WindowIpc.ScopedInjective(TestId, "test-channel", WindowIpc.CloseChannel(TestId));
    var _ := w.Handle("test-channel", Fn(2));
    var before := ipc.log;
    w.RemoveHandler("test-channel");
    calls := ipc.log[|before|..];
    assert ipc.log == before + calls;
  }

  /** The test window after `handle('channel1')` and `handle('channel2')`:
      four channels. */
  method FourChannelWindow() returns (ipc: WindowIpc.IpcMain, w: WindowIpc.WindowIPC)
    ensures fresh(ipc) && w.Valid() && w.ipc == ipc && w.windowId == TestId
    ensures |w.channels.Keys| == 4
  {
    ipc, w := ConstructTestWindow();
    FourKeys(w.channels.Keys);
    AddPlain(w, "channel1", Fn(2));
    AddPlain(w, "channel2", Fn(3));
  }

  /** What `RemovesEachThen` says about the number and kind of calls. */
  lemma RemovalCount(calls: seq<WindowIpc.Call>, cs: set<string>, last: string)
    requires WindowIpc.RemovesEachThen(calls, cs, last)
    ensures |calls| == |cs| + 1
    ensures forall i :: 0 <= i < |calls| ==> calls[i].RemoveHandler?
    ensures cs == {} ==> calls == [WindowIpc.Call.RemoveHandler(last)]
  {
  }

  /** With four channels (`test`, close, `channel1`, `channel2`),
      `removeAllHandlers` makes five removals and empties the table; a
      second call makes only the removal of the unscoped close name. */
  method RemoveAllTwice() returns (firstCalls: seq<WindowIpc.Call>, secondCalls: seq<WindowIpc.Call>)
    ensures |firstCalls| == 5
    ensures forall i :: 0 <= i < |firstCalls| ==> firstCalls[i].RemoveHandler?
    ensures secondCalls == [WindowIpc.Call.RemoveHandler(WindowIpc.CloseChannel(TestId))]
  {
    var ipc, w := FourChannelWindow();
    var log0 := ipc.log;
    ghost var keys := w.channels.Keys;
    w.RemoveAllHandlers();
    firstCalls := ipc.log[|log0|..];
    RemovalCount(firstCalls, keys, WindowIpc.CloseChannel(TestId));
    var log1 := ipc.log;
    w.RemoveAllHandlers();
    secondCalls := ipc.log[|log1|..];
    RemovalCount(secondCalls, {}, WindowIpc.CloseChannel(TestId));
  }

  /** The names `channel1` and `channel2` scope to two new, distinct
      channels of the test window. */
  lemma FourKeys(k0: set<string>)
    requires k0 == {WindowIpc.Scoped(TestId, "test"), WindowIpc.Scoped(TestId, WindowIpc.CloseChannel(TestId))}
    ensures var c1, c2 := WindowIpc.Scoped(TestId, "channel1"), WindowIpc.Scoped(TestId, "channel2");
      c1 !in k0 && c2 !in k0 + {c1} && |k0 + {c1} + {c2}| == 4
  {
    var close := WindowIpc.CloseChannel(TestId);
    WindowIpc.ScopedInjective(TestId, "channel1", "test");
    WindowIpc.ScopedInjective(TestId, "channel1", close);
    WindowIpc.ScopedInjective(TestId, "channel2", "test");
    WindowIpc.ScopedInjective(TestId, "channel2", close);
    WindowIpc.ScopedInjective(TestId, "channel2", "channel1");
    WindowIpc.ScopedInjective(TestId, "test", close);
  }

  /** What the constructor's postcondition says about a window whose class
      has no main handler and marks only `confirm`. */
  lemma ConfirmTable(marks: Option<set<string>>, hs: map<string, Handler>, ch: map<string, WindowIpc.Channel>,
                     promises: seq<WindowIpc.Promise>, responders: map<string, nat>)
    requires hs == map[] && marks == Some({"confirm"})
    requires var close := WindowIpc.CloseChannel(TestId);
      && WindowIpc.AllScopedFrom(TestId, ch.Keys, hs.Keys + {close})
      && responders.Keys == WindowIpc.ResponseChannels(TestId, marks, hs.Keys + {close})
      && |promises| == |responders|
    ensures WindowIpc.Scoped(TestId, "confirm") !in ch
    ensures promises == [] && responders == map[]
  {
    var close := WindowIpc.CloseChannel(TestId);
    assert hs.Keys + {close} == {close};
    WindowIpc.ScopedOutside(TestId, ch.Keys, {close}, "confirm");
    assert !WindowIpc.Marked(marks, close);
    assert WindowIpc.ResponseChannels(TestId, marks, {close}) == {};
  }

  /** A window class with `@responseHandler()` on `confirm` and no main
      handler: the controller holds only the close channel and no promise
      yet. */
  method ConstructConfirmWindow() returns (ipc: WindowIpc.IpcMain, w: WindowIpc.WindowIPC)
    ensures fresh(ipc) && w.Valid() && w.ipc == ipc && w.windowId == TestId
    ensures Decorators.IsResponseHandler(w.cls, "confirm")
    ensures WindowIpc.Scoped(TestId, "confirm") !in w.channels
    ensures w.promises == [] && w.responders == map[]
  {
    var registry := new Decorators.Registry();
    var cls := new Decorators.HandlerClass();
    var _ := Decorators.ResponseHandler(cls, "confirm", Fn(4));
    assert cls.pending == [] && cls.responseHandlers.value == {} + {"confirm"} == {"confirm"};
    Decorators.WindowName(registry, cls, "confirmWindow");
    assert cls.responseHandlers == Some({"confirm"}) && cls.handlers == None;
    ipc := new WindowIpc.IpcMain();
    var error;
    ghost var order;
    w, error, order := WindowIpc.WindowIPC.Create(ipc, cls, TestId);
    ConfirmTable(cls.responseHandlers, Decorators.GetClassHandlers(cls), w.channels, w.promises, w.responders);
  }

  /** The confirm window after `handle('confirm')`: one pending promise,
      awaited by the wrapper and resolved by the one-shot registration on
      the response channel. */
  method ConfirmRegistered() returns (ipc: WindowIpc.IpcMain, w: WindowIpc.WindowIPC)
    ensures fresh(ipc) && fresh(w) && w.Valid() && w.ipc == ipc && w.windowId == TestId
    ensures Decorators.IsResponseHandler(w.cls, "confirm")
    ensures var channel := WindowIpc.Scoped(TestId, "confirm");
      && channel in w.channels && ipc.handlers[channel].awaits == Some(0)
    ensures w.promises == [WindowIpc.Pending]
    ensures w.responders == map[WindowIpc.ResponseChannel(TestId, "confirm") := 0]
  {
    ipc, w := ConstructConfirmWindow();
    var _ := w.Handle("confirm", Fn(4));
  }

  /** A response handler: the promise exists from registration on; a request
      is suspended on it until the renderer's payload arrives, then answered
      with it whatever the handler returned; the one-shot response
      registration takes no second payload, and since the wrapper keeps the
      promise it captured, a later request is answered with the first
      payload again. */
  method ResponseHandlerRun() returns (c1: WindowIpc.Completion, delivered: bool, c2: WindowIpc.Completion,
                                       again: bool, c3: WindowIpc.Completion)
    ensures c1 == WindowIpc.Suspended(0)
    ensures delivered
    ensures c2 == WindowIpc.Done(Envelope(true, Some(Str("yes")), None))
    ensures !again
    ensures c3 == c2
  {
    var ipc, w := ConfirmRegistered();
    var channel := WindowIpc.Scoped(TestId, "confirm");
    var rc := WindowIpc.ResponseChannel(TestId, "confirm");
    c1 := w.Dispatch(channel, Returned(Str("ignored")));
    delivered := w.DeliverResponse(rc, Str("yes"));
    c2 := w.Resume(c1.on);
    again := w.DeliverResponse(rc, Str("no"));
    c3 := w.Dispatch(channel, Returned(Str("other")));
  }

  /** Every `handleResponse` makes a promise of its own. Once the first
      payload has arrived, a direct `handleResponse('confirm')` registers a
      new one-shot with a new pending promise, while the wrapper `handle`
      installed keeps its captured promise: a request is answered with the
      first payload at once. */
  method LaterPromiseSeparate() returns (made: WindowIpc.Promise, live: bool, c: WindowIpc.Completion)
    ensures made == WindowIpc.Pending && live
    ensures c == WindowIpc.Done(Envelope(true, Some(Str("yes")), None))
  {
    var ipc, w := ConfirmRegistered();
    var channel := WindowIpc.Scoped(TestId, "confirm");
    var rc := WindowIpc.ResponseChannel(TestId, "confirm");
    var delivered := w.DeliverResponse(rc, Str("yes"));
    var rc2, p := w.HandleResponse("confirm");
    made := w.promises[p];
    live := rc in w.responders && w.responders[rc] == p;
    c := w.Dispatch(channel, Returned(Str("ignored")));
  }

  /** A request suspended on its promise completes even when its handler is
      removed meanwhile, by `removeHandler` or, when `all` holds, by
      `removeAllHandlers`: both drop the channel and its transport
      registration, but neither touches the promise nor the one-shot
      registration that resolves it. */
  method SuspendedOutlivesRemoval(all: bool) returns (c1: WindowIpc.Completion, removed: bool,
                                                     delivered: bool, c2: WindowIpc.Completion)
    ensures c1 == WindowIpc.Suspended(0)
    ensures removed && delivered
    ensures c2 == WindowIpc.Done(Envelope(true, Some(Str("yes")), None))
  {
    var ipc, w := ConfirmRegistered();
    var channel := WindowIpc.Scoped(TestId, "confirm");
    var rc := WindowIpc.ResponseChannel(TestId, "confirm");
    c1 := w.Dispatch(channel, Returned(Str("ignored")));
    if all {
      w.RemoveAllHandlers();
    } else {
      w.RemoveHandler("confirm");
    }
    removed := channel !in w.channels;
    delivered := w.DeliverResponse(rc, Str("yes"));
    c2 := w.Resume(c1.on);
  }

  /** `handle('confirm')` again after `removeHandler('confirm')`: the
      earlier one-shot registration on the response channel has not fired,
      so the transport refuses the new one and the new promise is rejected.
      A request on the new wrapper fails with the transport's message, and
      the renderer's payload goes to the earlier promise. */
  method ReregisteredResponseRefused() returns (c: WindowIpc.Completion, delivered: bool, earlier: WindowIpc.Promise)
    ensures c == WindowIpc.Done(Envelope(false, None, Some(WindowIpc.RefusedMessage(WindowIpc.ResponseChannel(TestId, "confirm")))))
    ensures delivered && earlier == WindowIpc.Fulfilled(Str("yes"))
  {
    var ipc, w := ConfirmRegistered();
    var channel := WindowIpc.Scoped(TestId, "confirm");
    var rc := WindowIpc.ResponseChannel(TestId, "confirm");
    w.RemoveHandler("confirm");
    var _ := w.Handle("confirm", Fn(4));
    c := w.Dispatch(channel, Returned(Str("ignored")));
    delivered := w.DeliverResponse(rc, Str("yes"));
    earlier := w.promises[0];
  }

  /** The order of decorators matters when a method's name differs from its
      channel name: `@responseHandler` marks the method name `askUser`. If
      `windowName` flushes the handler, it marks the channel name `ask`; if
      the window name was already set, nothing marks `ask`, although both
      registry entries say the handler waits for a response. */
  method DecoratorOrder() returns (flushed: bool, direct: bool,
                                   flushedEntry: Decorators.Entry, directEntry: Decorators.Entry)
    ensures flushed && !direct
    ensures flushedEntry == directEntry == Decorators.Entry(Fn(7), Some(true))
  {
    var reg1 := new Decorators.Registry();
    var a := new Decorators.HandlerClass();
    var _ := Decorators.ResponseHandler(a, "askUser", Fn(7));
    var _ := Decorators.MainHandler(reg1, a, "askUser", "ask", Fn(7));
    ghost var pending := a.pending;
    assert pending == [Decorators.HandlerMetadata("ask", Fn(7), Some(true))];
    assert pending[..0] == [];
    Decorators.WindowName(reg1, a, "askWindow");
    flushedEntry := reg1.windows["askWindow"]["ask"];
    flushed := Decorators.IsResponseHandler(a, "ask");

    var reg2 := new Decorators.Registry();
    var b := new Decorators.HandlerClass();
    Decorators.WindowName(reg2, b, "askWindow");
    var _ := Decorators.ResponseHandler(b, "askUser", Fn(7));
    var _ := Decorators.MainHandler(reg2, b, "askUser", "ask", Fn(7));
    directEntry := reg2.windows["askWindow"]["ask"];
    direct := Decorators.IsResponseHandler(b, "ask");
  }

  /** End to end: the client in the test window invokes `test` with
      `test-data`; the host's wrapper answers with the handler's result, or
      with its error, and `invoke` unwraps the reply. The renderer's close
      request names the unscoped close channel, which neither the table nor
      the transport holds, so the transport rejects it. */
  method ClientRequests() returns (ok: RendererIpc.CallResult, failed: RendererIpc.CallResult,
                                   close: WindowIpc.Completion, closeRegistered: bool)
    ensures ok == RendererIpc.Resolved(Str("test result"))
    ensures failed == RendererIpc.Failed("test error")
    ensures close == WindowIpc.NoHandler && !closeRegistered
  {
    var ipc, w := ConstructTestWindow();
    var client := RendererIpc.IPCClient(TestId, "exampleWindow");
    var channel := client.ScopedChannelName("test");
    var c := w.Dispatch(channel, Returned(Str("test result")));
    var reply := RendererIpc.Deliver(c, "no handler").value;
    ok := client.Invoke("test", Str("test-data"),
                        (ch: string, d: Value) => if ch == channel then reply else RendererIpc.Rejected("no handler"));
    c := w.Dispatch(channel, Threw(ErrorObject("test error")));
    reply := RendererIpc.Deliver(c, "no handler").value;
    failed := client.Invoke("test", Str("test-data"),
                            (ch: string, d: Value) => if ch == channel then reply else RendererIpc.Rejected("no handler"));
    close := w.Dispatch(WindowIpc.CloseChannel(TestId), Returned(Undefined));
    closeRegistered := WindowIpc.CloseChannel(TestId) in ipc.handlers;
  }

  /** With the close handler registered under the unscoped name, the
      renderer's close request finds it, and `removeAllHandlers` removes
      exactly that registration at its end. */
  method CorrectedCloseLifecycle() returns (served: WindowIpc.Wrapper, removed: bool)
    ensures served == WindowIpc.Wrapper(CloseWindow, None)
    ensures removed
  {
    var registry, cls := DeclareTestWindow();
    var ipc := new WindowIpc.IpcMain();
    var close := WindowIpc.CloseChannel(TestId);
    assert close[..7] == "window:";
    var w, order := WindowIpc.WindowIPC.CreateWithUnscopedClose(ipc, cls, TestId);
    served := ipc.handlers[close];
    w.RemoveAllHandlers();
    removed := close !in ipc.handlers;
  }
}
