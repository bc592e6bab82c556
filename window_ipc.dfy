/** The host-side window controller: the per-window channel table, the
    envelope wrapper installed around every handler, and the response-wait
    pattern. The platform transport (`ipcMain`) is the class `IpcMain`, which
    records what is installed on it and every call made to it. Asynchronous
    events are sequential method calls: a request arriving is `Dispatch`, a
    renderer response arriving is `DeliverResponse`, a suspended request
    continuing is `Resume`. */
module WindowIpc {
  import opened Shared
  import Decorators

  /** `getScopedChannelName`: `${windowId}:${channelName}`. */
  function Scoped(windowId: string, channelName: string): (r: string)
    ensures |r| == |windowId| + 1 + |channelName|
  {
    windowId + ":" + channelName
  }

  /** `s` is a channel name scoped by `windowId`. */
  predicate IsScopedBy(windowId: string, s: string) {
    |s| > |windowId| && s[..|windowId|] == windowId && s[|windowId|] == ':'
  }

  /** A scoped name is laid out as the id, one colon, then the name. */
  lemma ScopedLayout(windowId: string, channelName: string)
    ensures var r := Scoped(windowId, channelName);
      && |r| == |windowId| + 1 + |channelName|
      && IsScopedBy(windowId, r) && r[|windowId| + 1..] == channelName
  {
    var r := Scoped(windowId, channelName);
    assert r[..|windowId|] == windowId;
    assert r[|windowId| + 1..] == channelName;
  }

  /** For one window, distinct names give distinct scoped names. */
  lemma ScopedInjective(windowId: string, a: string, b: string)
    ensures Scoped(windowId, a) == Scoped(windowId, b) <==> a == b
  {
    ScopedLayout(windowId, a);
    ScopedLayout(windowId, b);
  }

  /** Window ids are base-36 strings and contain no colon; for such ids the
      scoped name determines both the id and the name, so channels of
      different windows never collide. */
  lemma ScopedPairInjective(id1: string, a: string, id2: string, b: string)
    requires ':' !in id1 && ':' !in id2
    ensures Scoped(id1, a) == Scoped(id2, b) <==> id1 == id2 && a == b
  {
    var s1, s2 := Scoped(id1, a), Scoped(id2, b);
    ScopedLayout(id1, a);
    ScopedLayout(id2, b);
    if s1 == s2 {
      if |id1| != |id2| {
        assert false;
      }
    }
  }

  /** Without that restriction the scheme is ambiguous. */
  lemma ColonInIdMakesScopingAmbiguous()
    ensures Scoped("a", "b:c") == Scoped("a:b", "c")
  {
  }

  /** The close channel's name before scoping, `window:${windowId}:close`. */
  function CloseChannel(windowId: string): (r: string)
    ensures |r| == |windowId| + 13
    ensures r[..7] == "window:" && r[7..7 + |windowId|] == windowId && r[7 + |windowId|..] == ":close"
  {
    "window:" + windowId + ":close"
  }

  /** The channel `handleResponse` waits on: the scoped name of the handler's
      own scoped name followed by `Response` (scoped twice, as in the source). */
  function ResponseChannel(windowId: string, channelName: string): (r: string)
    ensures IsScopedBy(windowId, r)
    ensures var inner := Unscoped(windowId, r);
      && |inner| == |windowId| + 1 + |channelName| + 8
      && inner[..|inner| - 8] == Scoped(windowId, channelName) && inner[|inner| - 8..] == "Response"
  {
    var inner := Scoped(windowId, channelName) + "Response";
    ScopedLayout(windowId, inner);
    assert inner[..|inner| - 8] == Scoped(windowId, channelName);
    Scoped(windowId, inner)
  }

  /** The error `handle` throws for a name already in the table: the fixed
      text followed by the unscoped name. */
  function DuplicateMessage(channelName: string): (r: string)
    ensures |r| == 40 + |channelName|
    ensures r[..40] == "Handler already registered for channel: " && r[40..] == channelName
  {
    "Handler already registered for channel: " + channelName
  }

  /** The calls made on the transport. */
  datatype Call = Handle(channel: string) | HandleOnce(channel: string) | RemoveHandler(channel: string)

  /** What `handle` installs on the transport: the wrapped handler and, for a
      response handler, the promise the wrapper captured when it was made
      (promises are identified by the order `handleResponse` made them). */
  datatype Wrapper = Wrapper(handler: Handler, awaits: Option<nat>)

  /** The transport calls that remove the channels `cs`, in that order. */
  ghost function Removals(cs: seq<string>): (r: seq<Call>)
    ensures |r| == |cs|
    ensures forall i :: 0 <= i < |cs| ==> r[i] == Call.RemoveHandler(cs[i])
  {
    seq(|cs|, i requires 0 <= i < |cs| => Call.RemoveHandler(cs[i]))
  }

  lemma RemovalsSnoc(cs: seq<string>, c: string)
    ensures Removals(cs + [c]) == Removals(cs) + [Call.RemoveHandler(c)]
  {
  }

  lemma RemovalsContain(cs: seq<string>, c: string)
    requires c in cs
    ensures Call.RemoveHandler(c) in Removals(cs)
  {
    var i :| 0 <= i < |cs| && cs[i] == c;
    assert Removals(cs)[i] == Call.RemoveHandler(c);
  }

  /** `order` lists each element of `cs` exactly once. */
  ghost predicate Enumerates(order: seq<string>, cs: set<string>) {
    multiset(order) == multiset(cs)
  }

  /** Spelled out: as many entries as elements, each entry an element, each
      element an entry. */
  lemma EnumeratesMembers(order: seq<string>, cs: set<string>)
    requires Enumerates(order, cs)
    ensures |order| == |cs|
    ensures forall i :: 0 <= i < |order| ==> order[i] in cs
    ensures forall c :: c in cs ==> c in order
  {
    assert |multiset(order)| == |order|;
    forall i | 0 <= i < |order| ensures order[i] in cs {
      assert order[i] in multiset(order);
    }
    forall c | c in cs ensures c in order {
      assert c in multiset(cs);
    }
  }

  lemma EnumeratesSnoc(order: seq<string>, cs: set<string>, c: string)
    requires Enumerates(order, cs) && c !in cs
    ensures Enumerates(order + [c], cs + {c})
  {
    assert multiset(cs + {c}) == multiset(cs) + multiset{c};
  }

  /** Moving one element from the to-do set to the done set keeps the two
      a partition of `all`. */
  lemma MoveOne(todo: set<string>, done: set<string>, all: set<string>, n: string)
    requires n in todo && todo + done == all && todo !! done
    ensures n !in done && (todo - {n}) + (done + {n}) == all && (todo - {n}) !! (done + {n})
  {
  }

  /** Adding an element already present leaves a set as it is. */
  lemma AddPresent(s: set<string>, x: string)
    requires x in s
    ensures s + {x} == s
  {
  }

  /** One step of removing the channels one by one: the removed set, the map
      and the log all grow by `c`. */
  lemma RemoveStep(h0: map<string, Wrapper>, l0: seq<Call>, done: set<string>, order: seq<string>, c: string,
                   h1: map<string, Wrapper>, l1: seq<Call>)
    requires Enumerates(order, done) && c !in done
    requires h1 == h0 - done - {c}
    requires l1 == l0 + Removals(order) + [Call.RemoveHandler(c)]
    ensures h1 == h0 - (done + {c})
    ensures l1 == l0 + Removals(order + [c])
    ensures Enumerates(order + [c], done + {c})
  {
    RemovalsSnoc(order, c);
    EnumeratesSnoc(order, done, c);
  }

  /** `calls` removes each channel of `cs` exactly once, in some order, and
      then `last`. */
  ghost predicate RemovesEachThen(calls: seq<Call>, cs: set<string>, last: string) {
    && |calls| == |cs| + 1
    && calls[|calls| - 1] == Call.RemoveHandler(last)
    && (forall i :: 0 <= i < |calls| - 1 ==> calls[i].RemoveHandler? && calls[i].channel in cs)
    && (forall c :: c in cs ==> Call.RemoveHandler(c) in calls[..|calls| - 1])
  }

  lemma RemovalCalls(order: seq<string>, cs: set<string>, last: string)
    requires Enumerates(order, cs)
    ensures RemovesEachThen(Removals(order) + [Call.RemoveHandler(last)], cs, last)
  {
    var calls := Removals(order) + [Call.RemoveHandler(last)];
    EnumeratesMembers(order, cs);
    assert calls[..|calls| - 1] == Removals(order);
    forall c | c in cs ensures Call.RemoveHandler(c) in Removals(order) {
      RemovalsContain(order, c);
    }
  }

  /** The calls of `removeAllHandlers`: the table's channels removed one by
      one, then `last`. */
  lemma RemoveAllSteps(h0: map<string, Wrapper>, l0: seq<Call>, cs: set<string>, order: seq<string>, last: string,
                       h1: map<string, Wrapper>, l1: seq<Call>)
    requires Enumerates(order, cs)
    requires h1 == h0 - cs - {last}
    requires l1 == l0 + Removals(order) + [Call.RemoveHandler(last)]
    ensures |l1| > |l0| && l1[..|l0|] == l0
    ensures RemovesEachThen(l1[|l0|..], cs, last)
  {
    assert l1[..|l0|] == l0;
    assert l1[|l0|..] == Removals(order) + [Call.RemoveHandler(last)];
    RemovalCalls(order, cs, last);
  }

  /** The host side of the transport: the wrappers installed per channel and
      the log of calls made on it. One-shot (`handleOnce`) registrations are
      kept by the window that made them, in its `responders`. */
  class IpcMain {
    var handlers: map<string, Wrapper>
    var log: seq<Call>

    constructor ()
      ensures handlers == map[] && log == []
    {
      handlers := map[];
      log := [];
    }

    method Handle(channel: string, wrapper: Wrapper)
      modifies this
      ensures handlers == old(handlers)[channel := wrapper]
      ensures log == old(log) + [Call.Handle(channel)]
    {
      handlers := handlers[channel := wrapper];
      log := log + [Call.Handle(channel)];
    }

    method HandleOnce(channel: string)
      modifies this`log
      ensures log == old(log) + [Call.HandleOnce(channel)]
    {
      log := log + [Call.HandleOnce(channel)];
    }

    method RemoveHandler(channel: string)
      modifies this
      ensures handlers == old(handlers) - {channel}
      ensures log == old(log) + [Call.RemoveHandler(channel)]
    {
      handlers := handlers - {channel};
      log := log + [Call.RemoveHandler(channel)];
    }

    /** `removeHandler` on every channel of `channels`, one call each, in
        some order; `order` is that order. */
    method RemoveEach(channels: set<string>) returns (ghost order: seq<string>)
      modifies this
      ensures handlers == old(handlers) - channels
      ensures log == old(log) + Removals(order)
      ensures Enumerates(order, channels)
    {
      var todo := channels;
      ghost var done: set<string> := {};
      order := [];
      while todo != {}
        invariant todo + done == channels && todo !! done
        invariant handlers == old(handlers) - done
        invariant log == old(log) + Removals(order)
        invariant Enumerates(order, done)
        decreases todo
      {
        var c :| c in todo;
        assert (todo - {c}) + (done + {c}) == channels;
        RemoveHandler(c);
        RemoveStep(old(handlers), old(log), done, order, c, handlers, log);
        order := order + [c];
        todo := todo - {c};
        done := done + {c};
      }
    }
  }

  /** The message the wrapper's catch block reports: an `Error`'s message,
      "Unknown error" for anything else thrown. */
  function ErrorMessage(t: Thrown): (r: string)
    ensures t.ErrorObject? ==> r == t.message
    ensures t.NonError? ==> r == UnknownError
  {
    match t
    case ErrorObject(m) => m
    case NonError(_) => UnknownError
  }

  /** The error the transport throws when `handleOnce` names a channel that
      still holds a registration: Electron's `ipcMain` keeps one invoke
      handler per channel. */
  function RefusedMessage(channel: string): (r: string)
    ensures |r| == 45 + |channel|
    ensures r[..44] == "Attempted to register a second handler for '" && r[44..44 + |channel|] == channel
    ensures r[44 + |channel|..] == "'"
  {
    "Attempted to register a second handler for '" + channel + "'"
  }

  /** A promise made by `handleResponse`: pending, fulfilled with the
      renderer's payload, or rejected because the transport refused its
      one-shot registration (the executor threw). */
  datatype Promise = Pending | Fulfilled(payload: Value) | Rejected(reason: string)

  /** The promise a response handler's wrapper awaits, and its state. */
  datatype Awaited = Awaited(promise: nat, state: Promise)

  /** Where a request stands: answered with an envelope, suspended on the
      pending response promise `on`, or with no channel of this window's
      table on its channel name. In the last case the renderer's call is
      rejected when the transport holds no registration under that name
      either. */
  datatype Completion = Done(envelope: Envelope) | Suspended(on: nat) | NoHandler

  /** The wrapper `handle` installs, run on one request. `awaited` is the
      response promise the wrapper awaits, `None` for a plain handler. A
      throw, or a rejected response promise, becomes a failure envelope and
      never escapes; a plain handler's result is the data; a response
      handler's result is dropped and the data is the response payload, once
      it has arrived. */
  function Settle(outcome: Outcome, awaited: Option<Awaited>): (c: Completion)
    ensures !c.NoHandler?
    ensures c.Done? ==> WellFormed(c.envelope)
    ensures c.Done? ==> (c.envelope.success <==> outcome.Returned? && !(awaited.Some? && awaited.value.state.Rejected?))
    ensures c.Suspended? <==> outcome.Returned? && awaited.Some? && awaited.value.state == Pending
    ensures c.Suspended? ==> c.on == awaited.value.promise
    ensures outcome.Threw? ==> c.Done? && c.envelope.error == Some(ErrorMessage(outcome.thrown))
    ensures outcome.Returned? && awaited.None? ==> c.Done? && c.envelope.data == Some(outcome.result)
    ensures outcome.Returned? && awaited.Some? && awaited.value.state.Fulfilled? ==>
              c.Done? && c.envelope.data == Some(awaited.value.state.payload)
    ensures outcome.Returned? && awaited.Some? && awaited.value.state.Rejected? ==>
              c.Done? && c.envelope.error == Some(awaited.value.state.reason)
  {
    match outcome
    case Threw(t) => Done(Envelope(false, None, Some(ErrorMessage(t))))
    case Returned(result) =>
      match awaited
      case None => Done(Envelope(true, Some(result), None))
      case Some(Awaited(p, Pending)) => Suspended(p)
      case Some(Awaited(_, Fulfilled(response))) => Done(Envelope(true, Some(response), None))
      case Some(Awaited(_, Rejected(reason))) => Done(Envelope(false, None, Some(reason)))
  }

  /** A response handler's completion does not depend on its own result. */
  lemma ResponseHandlerResultDiscarded(r1: Value, r2: Value, a: Awaited)
    ensures Settle(Returned(r1), Some(a)) == Settle(Returned(r2), Some(a))
  {
  }

  /** `WindowIPCChannel`: a channel record of the table. */
  datatype Channel = Channel(name: string, handler: Handler)

  /** The close name is `window:` followed by the id; for a colon-free id
      other than `window` (window ids are base-36 strings), it is never a
      name scoped by that id. So the final removal made by
      `removeAllHandlers` names no channel of the window's table. */
  lemma CloseChannelNotScoped(windowId: string)
    requires ':' !in windowId && windowId != "window"
    ensures !IsScopedBy(windowId, CloseChannel(windowId))
  {
    var s := CloseChannel(windowId);
    assert s[..7] == "window:";
  }

  /** The window registers its close handler under the scoped name of the
      close name, which is longer than the close name itself. */
  lemma ScopedCloseDiffers(windowId: string)
    ensures Scoped(windowId, CloseChannel(windowId)) != CloseChannel(windowId)
  {
    assert |Scoped(windowId, CloseChannel(windowId))| > |CloseChannel(windowId)|;
  }

  /** The name a channel scoped by `windowId` was scoped from. */
  function Unscoped(windowId: string, s: string): string
    requires IsScopedBy(windowId, s)
  {
    s[|windowId| + 1..]
  }

  lemma UnscopedScoped(windowId: string, s: string)
    requires IsScopedBy(windowId, s)
    ensures Scoped(windowId, Unscoped(windowId, s)) == s
  {
    assert s == s[..|windowId|] + [s[|windowId|]] + s[|windowId| + 1..];
  }

  /** Channels scoped from `names` = every key is the scoped name of one of
      `names`. */
  ghost predicate AllScopedFrom(windowId: string, keys: set<string>, names: set<string>) {
    forall c :: c in keys ==> IsScopedBy(windowId, c) && Unscoped(windowId, c) in names
  }

  /** A name outside `names` scopes to a channel outside those keys. */
  lemma ScopedOutside(windowId: string, keys: set<string>, names: set<string>, n: string)
    requires AllScopedFrom(windowId, keys, names) && n !in names
    ensures Scoped(windowId, n) !in keys
  {
    ScopedLayout(windowId, n);
  }

  lemma UnscopedOutside(windowId: string, keys: set<string>, names: set<string>, c: string)
    requires AllScopedFrom(windowId, keys, names) && !IsScopedBy(windowId, c)
    ensures c !in keys
  {
  }

  lemma ScopedFromAdd(windowId: string, keys: set<string>, names: set<string>, n: string)
    requires AllScopedFrom(windowId, keys, names)
    ensures AllScopedFrom(windowId, keys + {Scoped(windowId, n)}, names + {n})
  {
    ScopedLayout(windowId, n);
  }

  /** Keys that are all scoped from `names` and include every name's
      scoped form are exactly the scoped names of `names`. */
  lemma ScopedKeysExactly(windowId: string, keys: set<string>, names: set<string>)
    requires AllScopedFrom(windowId, keys, names)
    requires forall n :: n in names ==> Scoped(windowId, n) in keys
    ensures keys == set n | n in names :: Scoped(windowId, n)
  {
    forall c | c in keys ensures c in set n | n in names :: Scoped(windowId, n) {
      UnscopedScoped(windowId, c);
    }
  }

  /** `n` is marked as a response handler in a class's `RESPONSE_HANDLERS`
      set `marks` (`isResponseHandler`, on the set itself). */
  predicate Marked(marks: Option<set<string>>, n: string) {
    marks.Some? && n in marks.value
  }

  /** The response channels of the names in `names` that `marks` marks as
      response handlers. */
  ghost function ResponseChannels(windowId: string, marks: Option<set<string>>, names: set<string>): set<string>
  {
    set n | n in names && Marked(marks, n) :: ResponseChannel(windowId, n)
  }

  /** Each name of `names` has its record in `channels`, under its scoped
      name, holding the class handler bound to the controller. */
  ghost predicate HoldsClassHandlers(windowId: string, channels: map<string, Channel>,
                                     hs: map<string, Handler>, names: set<string>)
    requires names <= hs.Keys
  {
    forall n :: n in names ==>
      Scoped(windowId, n) in channels && channels[Scoped(windowId, n)].handler == Bound(hs[n])
  }

  /** Every promise of `promises` is still pending. */
  ghost predicate AllPending(promises: seq<Promise>) {
    forall i :: 0 <= i < |promises| ==> promises[i] == Pending
  }

  /** A record added under a free key keeps the class records already
      held. */
  lemma HoldsFreshKey(windowId: string, hs: map<string, Handler>, names: set<string>,
                      ch0: map<string, Channel>, ch1: map<string, Channel>, k: string, v: Channel)
    requires names <= hs.Keys && HoldsClassHandlers(windowId, ch0, hs, names)
    requires k !in ch0 && ch1 == ch0[k := v]
    ensures HoldsClassHandlers(windowId, ch1, hs, names)
  {
  }

  /** One class handler `n` registered by `handle` under its free scoped
      name: the constructor's loop keeps its invariants on the table. */
  lemma InstallChannel(windowId: string, hs: map<string, Handler>, done: set<string>, n: string,
                       ch0: map<string, Channel>, ch1: map<string, Channel>)
    requires n in hs && done <= hs.Keys
    requires HoldsClassHandlers(windowId, ch0, hs, done) && AllScopedFrom(windowId, ch0.Keys, done)
    requires ch1 == ch0[Scoped(windowId, n) := Channel(Scoped(windowId, n), Bound(hs[n]))]
    ensures HoldsClassHandlers(windowId, ch1, hs, done + {n}) && AllScopedFrom(windowId, ch1.Keys, done + {n})
  {
    assert ch1.Keys == ch0.Keys + {Scoped(windowId, n)};
    ScopedFromAdd(windowId, ch0.Keys, done, n);
  }

  /** The wrapper `handle` installs for `n` awaits the promise `p` it has
      just made exactly when `n` was marked as a response handler. */
  function MarkedWrapper(marks: Option<set<string>>, n: string, handler: Handler, p: nat): Wrapper
  {
    Wrapper(handler, if Marked(marks, n) then Some(p) else None)
  }

  /** Each name of `names` has a wrapper installed under its scoped name;
      it awaits a promise exactly when the name is marked, and then the very
      promise the one-shot registration on the name's response channel
      resolves. */
  ghost predicate WrappersAsMarked(windowId: string, marks: Option<set<string>>, h: map<string, Wrapper>,
                                   responders: map<string, nat>, names: set<string>)
  {
    forall n :: n in names ==>
      && Scoped(windowId, n) in h
      && (h[Scoped(windowId, n)].awaits.Some? <==> Marked(marks, n))
      && (h[Scoped(windowId, n)].awaits.Some? ==>
            ResponseChannel(windowId, n) in responders
            && responders[ResponseChannel(windowId, n)] == h[Scoped(windowId, n)].awaits.value)
  }

  /** Installing the marked wrapper of a name outside `names` keeps the
      wrappers of `names`. */
  lemma InstallWrapper(windowId: string, marks: Option<set<string>>, names: set<string>, n: string, handler: Handler,
                       h0: map<string, Wrapper>, h1: map<string, Wrapper>, r0: map<string, nat>, r1: map<string, nat>, p: nat)
    requires WrappersAsMarked(windowId, marks, h0, r0, names) && n !in names
    requires h1 == h0[Scoped(windowId, n) := MarkedWrapper(marks, n, handler, p)]
    requires r1 == if Marked(marks, n) then r0[ResponseChannel(windowId, n) := p] else r0
    ensures WrappersAsMarked(windowId, marks, h1, r1, names + {n})
  {
    forall m | m in names
      ensures Scoped(windowId, m) != Scoped(windowId, n) && ResponseChannel(windowId, m) != ResponseChannel(windowId, n)
    {
      ScopedInjective(windowId, m, n);
      ResponseChannelInjective(windowId, m, n);
    }
  }

  /** A registration under a name the window never scopes leaves the
      window's wrappers alone. */
  lemma WrappersKeptByUnscoped(windowId: string, marks: Option<set<string>>, names: set<string>, r: map<string, nat>,
                               h0: map<string, Wrapper>, h1: map<string, Wrapper>, k: string, v: Wrapper)
    requires WrappersAsMarked(windowId, marks, h0, r, names) && !IsScopedBy(windowId, k)
    requires h1 == h0[k := v]
    ensures WrappersAsMarked(windowId, marks, h1, r, names)
  {
    forall n | n in names ensures Scoped(windowId, n) != k {
      ScopedLayout(windowId, n);
    }
  }

  /** `handle` of a name `n` outside `names`, when it adds a record, makes
      one promise exactly when `n` is a response handler; its response
      channel is free then, so the promise is pending and its one-shot
      registration is accepted. */
  lemma InstallWait(windowId: string, marks: Option<set<string>>, names: set<string>, n: string,
                    p0: seq<Promise>, r0: map<string, nat>, p1: seq<Promise>, r1: map<string, nat>)
    requires n !in names
    requires r0.Keys == ResponseChannels(windowId, marks, names) && AllPending(p0) && |p0| == |r0|
    requires var rc := ResponseChannel(windowId, n);
      if Marked(marks, n) then
        p1 == p0 + [if rc in r0 then Rejected(RefusedMessage(rc)) else Pending]
        && r1 == (if rc in r0 then r0 else r0[rc := |p0|])
      else p1 == p0 && r1 == r0
    ensures r1.Keys == ResponseChannels(windowId, marks, names + {n}) && AllPending(p1) && |p1| == |r1|
    ensures r1 == if Marked(marks, n) then r0[ResponseChannel(windowId, n) := |p0|] else r0
  {
    ResponseChannelsAdd(windowId, marks, names, n);
    if Marked(marks, n) {
      var rc := ResponseChannel(windowId, n);
      ResponseChannelOutside(windowId, marks, names, n);
      PendingAdded(p0, r0, rc);
    }
  }

  /** A pending promise made under a free response channel keeps every
      promise pending and one registration per promise. */
  lemma PendingAdded(p0: seq<Promise>, r0: map<string, nat>, rc: string)
    requires AllPending(p0) && |p0| == |r0| && rc !in r0
    ensures AllPending(p0 + [Pending]) && |p0 + [Pending]| == |r0[rc := |p0|]|
    ensures r0[rc := |p0|].Keys == r0.Keys + {rc}
  {
    var p1 := p0 + [Pending];
    assert forall i :: 0 <= i < |p1| ==> p1[i] == if i < |p0| then p0[i] else Pending;
  }

  /** For one window, distinct names have distinct response channels. */
  lemma ResponseChannelInjective(windowId: string, a: string, b: string)
    ensures ResponseChannel(windowId, a) == ResponseChannel(windowId, b) <==> a == b
  {
    var ia, ib := Scoped(windowId, a) + "Response", Scoped(windowId, b) + "Response";
    ScopedInjective(windowId, ia, ib);
    if ia == ib {
      assert ia[..|ia| - 8] == Scoped(windowId, a) && ib[..|ib| - 8] == Scoped(windowId, b);
      ScopedInjective(windowId, a, b);
    }
  }

  /** The response channel of a name outside `names` is not among theirs. */
  lemma ResponseChannelOutside(windowId: string, marks: Option<set<string>>, names: set<string>, n: string)
    requires n !in names
    ensures ResponseChannel(windowId, n) !in ResponseChannels(windowId, marks, names)
  {
    forall m | m in names ensures ResponseChannel(windowId, m) != ResponseChannel(windowId, n) {
      ResponseChannelInjective(windowId, m, n);
    }
  }

  /** `after` keeps every registration of `before` outside `own`, and gains
      registrations only inside `own`. */
  ghost predicate KeepsOthers(before: map<string, Wrapper>, after: map<string, Wrapper>, own: set<string>) {
    && (forall c :: c in before && c !in own ==> c in after && after[c] == before[c])
    && (forall c :: c in after ==> c in before || c in own)
  }

  lemma KeepsOthersAdd(before: map<string, Wrapper>, h0: map<string, Wrapper>, h1: map<string, Wrapper>,
                       own: set<string>, k: string)
    requires KeepsOthers(before, h0, own)
    requires k in h1 && h1 == h0[k := h1[k]]
    ensures KeepsOthers(before, h1, own + {k})
  {
  }

  /** The close registration at the end of the constructor is refused
      exactly when a class handler holds its scoped name. */
  lemma CloseRefused(windowId: string, hs: map<string, Handler>, ch0: map<string, Channel>)
    requires HoldsClassHandlers(windowId, ch0, hs, hs.Keys) && AllScopedFrom(windowId, ch0.Keys, hs.Keys)
    ensures Scoped(windowId, CloseChannel(windowId)) in ch0 <==> CloseChannel(windowId) in hs
  {
    ScopedLayout(windowId, CloseChannel(windowId));
  }

  /** The close registration at the end of the constructor, from the state
      the class handlers left: refused exactly when a class handler holds the
      scoped close name, otherwise one more record, one more installed
      wrapper, and a pending promise if the close name is marked as a
      response handler. */
  lemma CloseStep(windowId: string, marks: Option<set<string>>, hs: map<string, Handler>,
                  before: map<string, Wrapper>, error: Option<string>,
                  ch0: map<string, Channel>, ch1: map<string, Channel>,
                  p0: seq<Promise>, p1: seq<Promise>, r0: map<string, nat>, r1: map<string, nat>,
                  h0: map<string, Wrapper>, h1: map<string, Wrapper>)
    requires HoldsClassHandlers(windowId, ch0, hs, hs.Keys) && AllScopedFrom(windowId, ch0.Keys, hs.Keys)
    requires r0.Keys == ResponseChannels(windowId, marks, hs.Keys) && AllPending(p0) && |p0| == |r0|
    requires KeepsOthers(before, h0, ch0.Keys) && WrappersAsMarked(windowId, marks, h0, r0, hs.Keys)
    requires var close := CloseChannel(windowId);
      var scoped := Scoped(windowId, close);
      var rc := ResponseChannel(windowId, close);
      if scoped in ch0 then
        error == Some(DuplicateMessage(close)) && ch1 == ch0 && p1 == p0 && r1 == r0 && h1 == h0
      else
        && error == None
        && ch1 == ch0[scoped := Channel(scoped, CloseWindow)]
        && h1 == h0[scoped := MarkedWrapper(marks, close, CloseWindow, |p0|)]
        && if Marked(marks, close) then
             p1 == p0 + [if rc in r0 then Rejected(RefusedMessage(rc)) else Pending]
             && r1 == (if rc in r0 then r0 else r0[rc := |p0|])
           else p1 == p0 && r1 == r0
    ensures var close := CloseChannel(windowId);
      && (error.Some? <==> close in hs)
      && (error.Some? ==> error.value == DuplicateMessage(close))
      && HoldsClassHandlers(windowId, ch1, hs, hs.Keys)
      && Scoped(windowId, close) in ch1
      && (error.None? ==> ch1[Scoped(windowId, close)].handler == CloseWindow)
      && AllScopedFrom(windowId, ch1.Keys, hs.Keys + {close})
      && r1.Keys == ResponseChannels(windowId, marks, hs.Keys + {close})
      && AllPending(p1) && |p1| == |r1|
      && KeepsOthers(before, h1, ch1.Keys)
      && WrappersAsMarked(windowId, marks, h1, r1, hs.Keys + {close})
  {
    var close := CloseChannel(windowId);
    var scoped := Scoped(windowId, close);
    CloseRefused(windowId, hs, ch0);
    if scoped in ch0 {
      AddPresent(hs.Keys, close);
    } else {
      CloseAcceptedTable(windowId, hs, before, ch0, ch1, h0, h1);
      CloseAcceptedWait(windowId, marks, hs, p0, p1, r0, r1, h0, h1);
    }
  }

  /** The close registration when no class handler holds its name: one
      more record in the table and one more installed wrapper. */
  lemma CloseAcceptedTable(windowId: string, hs: map<string, Handler>, before: map<string, Wrapper>,
                           ch0: map<string, Channel>, ch1: map<string, Channel>,
                           h0: map<string, Wrapper>, h1: map<string, Wrapper>)
    requires HoldsClassHandlers(windowId, ch0, hs, hs.Keys) && AllScopedFrom(windowId, ch0.Keys, hs.Keys)
    requires KeepsOthers(before, h0, ch0.Keys)
    requires var scoped := Scoped(windowId, CloseChannel(windowId));
      && scoped !in ch0 && ch1 == ch0[scoped := Channel(scoped, CloseWindow)]
      && scoped in h1 && h1 == h0[scoped := h1[scoped]]
    ensures HoldsClassHandlers(windowId, ch1, hs, hs.Keys)
    ensures AllScopedFrom(windowId, ch1.Keys, hs.Keys + {CloseChannel(windowId)})
    ensures KeepsOthers(before, h1, ch1.Keys)
  {
    var close := CloseChannel(windowId);
    var scoped := Scoped(windowId, close);
    HoldsFreshKey(windowId, hs, hs.Keys, ch0, ch1, scoped, Channel(scoped, CloseWindow));
    assert ch1.Keys == ch0.Keys + {scoped};
    ScopedFromAdd(windowId, ch0.Keys, hs.Keys, close);
    KeepsOthersAdd(before, h0, h1, ch0.Keys, scoped);
  }

  /** The close registration when no class handler holds its name: a
      pending promise and its one-shot registration if the close name is
      marked, and the close wrapper awaiting that promise. */
  lemma CloseAcceptedWait(windowId: string, marks: Option<set<string>>, hs: map<string, Handler>,
                          p0: seq<Promise>, p1: seq<Promise>, r0: map<string, nat>, r1: map<string, nat>,
                          h0: map<string, Wrapper>, h1: map<string, Wrapper>)
    requires r0.Keys == ResponseChannels(windowId, marks, hs.Keys) && AllPending(p0) && |p0| == |r0|
    requires WrappersAsMarked(windowId, marks, h0, r0, hs.Keys)
    requires var close := CloseChannel(windowId);
      var rc := ResponseChannel(windowId, close);
      && close !in hs
      && h1 == h0[Scoped(windowId, close) := MarkedWrapper(marks, close, CloseWindow, |p0|)]
      && if Marked(marks, close) then
           p1 == p0 + [if rc in r0 then Rejected(RefusedMessage(rc)) else Pending]
           && r1 == (if rc in r0 then r0 else r0[rc := |p0|])
         else p1 == p0 && r1 == r0
    ensures r1.Keys == ResponseChannels(windowId, marks, hs.Keys + {CloseChannel(windowId)})
    ensures AllPending(p1) && |p1| == |r1|
    ensures WrappersAsMarked(windowId, marks, h1, r1, hs.Keys + {CloseChannel(windowId)})
  {
    var close := CloseChannel(windowId);
    InstallWait(windowId, marks, hs.Keys, close, p0, r0, p1, r1);
    InstallWrapper(windowId, marks, hs.Keys, close, CloseWindow, h0, h1, r0, r1, |p0|);
  }

  lemma ResponseChannelsAdd(windowId: string, marks: Option<set<string>>, names: set<string>, n: string)
    ensures ResponseChannels(windowId, marks, names + {n}) ==
            ResponseChannels(windowId, marks, names) +
            (if Marked(marks, n) then {ResponseChannel(windowId, n)} else {})
  {
  }

  /** The transport calls `handle` makes for a name it accepts, given the
      class's `RESPONSE_HANDLERS` set (`marks`): first the one-shot
      registration of the response channel when the name is marked, then
      the registration of the scoped name. */
  function RegistrationOf(windowId: string, marks: Option<set<string>>, n: string): (r: seq<Call>)
    ensures |r| == if marks.Some? && n in marks.value then 2 else 1
    ensures r[|r| - 1] == Call.Handle(Scoped(windowId, n))
    ensures |r| == 2 ==> r[0] == Call.HandleOnce(ResponseChannel(windowId, n))
  {
    (if marks.Some? && n in marks.value then [Call.HandleOnce(ResponseChannel(windowId, n))] else [])
    + [Call.Handle(Scoped(windowId, n))]
  }

  /** The transport calls of accepting the names `order`, one after another. */
  function Registrations(windowId: string, marks: Option<set<string>>, order: seq<string>): seq<Call>
    decreases |order|
  {
    if order == [] then []
    else Registrations(windowId, marks, order[..|order| - 1]) + RegistrationOf(windowId, marks, order[|order| - 1])
  }

  /** Each accepted name contributes its registration calls, and so
      `Call.Handle` of its scoped name. */
  lemma {:induction false} RegistrationsHandle(windowId: string, marks: Option<set<string>>, order: seq<string>, n: string)
    requires n in order
    ensures Call.Handle(Scoped(windowId, n)) in Registrations(windowId, marks, order)
    decreases |order|
  {
    var last := order[|order| - 1];
    var r := RegistrationOf(windowId, marks, last);
    if n == last {
      assert r[|r| - 1] in Registrations(windowId, marks, order);
    } else {
      assert n in order[..|order| - 1];
      RegistrationsHandle(windowId, marks, order[..|order| - 1], n);
    }
  }

  /** One more accepted name `n`: its calls follow those of the names
      before it. */
  lemma RegistrationStep(windowId: string, marks: Option<set<string>>, l0: seq<Call>, order: seq<string>,
                         n: string, l1: seq<Call>, l2: seq<Call>)
    requires l1 == l0 + Registrations(windowId, marks, order)
    requires l2 == l1 + RegistrationOf(windowId, marks, n)
    ensures l2 == l0 + Registrations(windowId, marks, order + [n])
  {
    assert (order + [n])[..|order|] == order;
  }

  class WindowIPC {
    const ipc: IpcMain
    const cls: Decorators.HandlerClass
    const windowId: string
    var channels: map<string, Channel>
    /** Every promise `handleResponse` has made, in the order it made them;
        a promise is named by its index. */
    var promises: seq<Promise>
    /** The one-shot registrations this window has made on the transport
        and that have not fired yet: for each response channel, the promise
        whose `resolve` its callback calls. */
    var responders: map<string, nat>

    /** Every channel record is keyed by its own name, is scoped by this
        window's id, and is installed on the transport wrapped around the same
        handler; a wrapper that awaits a response awaits a promise this window
        made. Each one-shot registration resolves its own promise, still
        pending, since only that registration can settle it. */
    ghost predicate Valid()
      reads this, ipc
    {
      && (forall c :: c in channels ==>
            && channels[c].name == c
            && IsScopedBy(windowId, c)
            && c in ipc.handlers
            && ipc.handlers[c].handler == channels[c].handler
            && (ipc.handlers[c].awaits.Some? ==> ipc.handlers[c].awaits.value < |promises|))
      && (forall r :: r in responders ==> responders[r] < |promises| && promises[responders[r]] == Pending)
      && (forall r1, r2 :: r1 in responders && r2 in responders && responders[r1] == responders[r2] ==> r1 == r2)
    }

    /** The fields as the constructor initialises them; the random id is a
        parameter. */
    constructor Init(ipc: IpcMain, cls: Decorators.HandlerClass, windowId: string)
      ensures this.ipc == ipc && this.cls == cls && this.windowId == windowId
      ensures channels == map[] && promises == [] && responders == map[]
      ensures Valid()
    {
      this.ipc := ipc;
      this.cls := cls;
      this.windowId := windowId;
      channels := map[];
      promises := [];
      responders := map[];
    }

    /** The constructor's loop over `getClassHandlers`: each class handler is
        registered through `handle`, bound to this controller. Scoped names of
        distinct names differ, so none of these registrations is refused, and
        neither is any one-shot registration. The map's iteration order is not
        fixed here. */
    method InstallClassHandlers(hs: map<string, Handler>) returns (ghost order: seq<string>)
      requires Valid() && channels == map[] && promises == [] && responders == map[]
      modifies this, ipc
      ensures Enumerates(order, hs.Keys) && ipc.log == old(ipc.log) + Registrations(windowId, cls.responseHandlers, order)
      ensures Valid() && HoldsClassHandlers(windowId, channels, hs, hs.Keys)
      ensures AllScopedFrom(windowId, channels.Keys, hs.Keys)
      ensures responders.Keys == ResponseChannels(windowId, cls.responseHandlers, hs.Keys) && AllPending(promises) && |promises| == |responders|
      ensures KeepsOthers(old(ipc.handlers), ipc.handlers, channels.Keys)
      ensures WrappersAsMarked(windowId, cls.responseHandlers, ipc.handlers, responders, hs.Keys)
    {
      var todo := hs.Keys;
      ghost var done: set<string> := {};
      order := [];
      InstalledNone(hs);
      while todo != {}
        invariant todo + done == hs.Keys && todo !! done
        invariant Installed(hs, done, order, old(ipc.handlers), old(ipc.log))
        decreases todo
      {
        var n :| n in todo;
        MoveOne(todo, done, hs.Keys, n);
        order := InstallOne(hs, n, done, order, old(ipc.handlers), old(ipc.log));
        todo := todo - {n};
        done := done + {n};
      }
    }

    /** What the installation loop keeps once the class handlers `done`
        are registered, in the order `order`, on a transport that held
        `before` and had logged `log0`. */
    ghost predicate Installed(hs: map<string, Handler>, done: set<string>, order: seq<string>,
                              before: map<string, Wrapper>, log0: seq<Call>)
      reads this, ipc, cls
    {
      && done <= hs.Keys
      && Enumerates(order, done) && ipc.log == log0 + Registrations(windowId, cls.responseHandlers, order)
      && Valid() && HoldsClassHandlers(windowId, channels, hs, done)
      && AllScopedFrom(windowId, channels.Keys, done)
      && responders.Keys == ResponseChannels(windowId, cls.responseHandlers, done) && AllPending(promises) && |promises| == |responders|
      && KeepsOthers(before, ipc.handlers, channels.Keys)
      && WrappersAsMarked(windowId, cls.responseHandlers, ipc.handlers, responders, done)
    }

    /** Before the installation loop nothing is installed yet. */
    lemma InstalledNone(hs: map<string, Handler>)
      requires Valid() && channels == map[] && promises == [] && responders == map[]
      ensures Installed(hs, {}, [], ipc.handlers, ipc.log)
    {
      assert ResponseChannels(windowId, cls.responseHandlers, {}) == {};
      assert ipc.log == ipc.log + Registrations(windowId, cls.responseHandlers, []);
    }

    /** One pass of the installation loop: `handle` of the class handler `n`. */
    method InstallOne(hs: map<string, Handler>, n: string, ghost done: set<string>, ghost order: seq<string>,
                      ghost before: map<string, Wrapper>, ghost log0: seq<Call>)
      returns (ghost order': seq<string>)
      requires n in hs && n !in done && Installed(hs, done, order, before, log0)
      modifies this, ipc
      ensures order' == order + [n] && Installed(hs, done + {n}, order', before, log0)
    {
      ScopedOutside(windowId, channels.Keys, done, n);
      ghost var ch0, p0, r0, h0, l0 := channels, promises, responders, ipc.handlers, ipc.log;
      ghost var marks := cls.responseHandlers;
      var e := Handle(n, Bound(hs[n]));
      assert cls.responseHandlers == marks;
      InstallChannel(windowId, hs, done, n, ch0, channels);
      InstallWait(windowId, cls.responseHandlers, done, n, p0, r0, promises, responders);
      InstallWrapper(windowId, cls.responseHandlers, done, n, Bound(hs[n]), h0, ipc.handlers, r0, responders, |p0|);
      KeepsOthersAdd(before, h0, ipc.handlers, ch0.Keys, Scoped(windowId, n));
      RegistrationStep(windowId, cls.responseHandlers, log0, order, n, l0, ipc.log);
      EnumeratesSnoc(order, done, n);
      order' := order + [n];
    }

    /** The constructor: the class handlers (`getClassHandlers`) are
        installed, then the close handler under the scoped name of
        `window:<id>:close`. If a class handler already took that name, the
        close registration throws and so does the constructor (`error`);
        in every case each name is registered at most once, and every
        promise made is pending and awaited by its own handler's wrapper. */
    static method Create(ipc: IpcMain, cls: Decorators.HandlerClass, windowId: string)
      returns (w: WindowIPC, error: Option<string>, ghost order: seq<string>)
      modifies ipc
      ensures Enumerates(order, Decorators.GetClassHandlers(cls).Keys)
      ensures ipc.log == old(ipc.log) +
        Registrations(windowId, cls.responseHandlers, if error.None? then order + [CloseChannel(windowId)] else order)
      ensures fresh(w) && w.Valid()
      ensures w.ipc == ipc && w.cls == cls && w.windowId == windowId
      ensures var hs := Decorators.GetClassHandlers(cls);
        var close := CloseChannel(windowId);
        && (error.Some? <==> close in hs)
        && (error.Some? ==> error.value == DuplicateMessage(close))
        && HoldsClassHandlers(windowId, w.channels, hs, hs.Keys)
        && Scoped(windowId, close) in w.channels
        && (error.None? ==> w.channels[Scoped(windowId, close)].handler == CloseWindow)
        && AllScopedFrom(windowId, w.channels.Keys, hs.Keys + {close})
        && w.responders.Keys == ResponseChannels(windowId, cls.responseHandlers, hs.Keys + {close})
        && AllPending(w.promises) && |w.promises| == |w.responders|
      ensures KeepsOthers(old(ipc.handlers), ipc.handlers, w.channels.Keys)
      ensures WrappersAsMarked(windowId, cls.responseHandlers, ipc.handlers, w.responders, Decorators.GetClassHandlers(cls).Keys + {CloseChannel(windowId)})
    {
      w := new WindowIPC.Init(ipc, cls, windowId);
      var hs := Decorators.GetClassHandlers(cls);
      order := w.InstallClassHandlers(hs);
      var close := CloseChannel(windowId);
      ghost var ch0, p0, r0, h0, l0 := w.channels, w.promises, w.responders, ipc.handlers, ipc.log;
      error := w.Handle(close, CloseWindow);
      CloseStep(windowId, cls.responseHandlers, hs, old(ipc.handlers), error, ch0, w.channels, p0, w.promises, r0, w.responders, h0, ipc.handlers);
      if error.None? {
        RegistrationStep(windowId, cls.responseHandlers, old(ipc.log), order, close, l0, ipc.log);
      }
    }

    /** The renderer's `closeWindow` invokes the unscoped close name, but the
        constructor registers the close handler through `handle`, under the
        scoped one: in a window whose id is colon-free and not `window`, no
        record of the table serves the renderer's close request, so
        `Dispatch` answers it with `NoHandler`. */
    lemma PreloadCloseUnhandled()
      requires Valid() && ':' !in windowId && windowId != "window"
      ensures CloseChannel(windowId) !in channels
    {
      CloseChannelNotScoped(windowId);
    }

    /** The constructor as its other parts expect it: the close handler
        registered on the transport under the unscoped close name, the name
        the renderer invokes and `removeAllHandlers` removes, and not in the
        window's table. Window ids have at most five base-36 characters, so
        they are colon-free and never `window`. */
    static method CreateWithUnscopedClose(ipc: IpcMain, cls: Decorators.HandlerClass, windowId: string)
      returns (w: WindowIPC, ghost order: seq<string>)
      requires ':' !in windowId && windowId != "window"
      modifies ipc
      ensures Enumerates(order, Decorators.GetClassHandlers(cls).Keys)
      ensures ipc.log == old(ipc.log) + Registrations(windowId, cls.responseHandlers, order) + [Call.Handle(CloseChannel(windowId))]
      ensures fresh(w) && w.Valid()
      ensures w.ipc == ipc && w.cls == cls && w.windowId == windowId
      ensures var hs := Decorators.GetClassHandlers(cls);
        && HoldsClassHandlers(windowId, w.channels, hs, hs.Keys)
        && AllScopedFrom(windowId, w.channels.Keys, hs.Keys)
        && w.responders.Keys == ResponseChannels(windowId, cls.responseHandlers, hs.Keys)
        && AllPending(w.promises) && |w.promises| == |w.responders|
      ensures CloseChannel(windowId) !in w.channels
      ensures CloseChannel(windowId) in ipc.handlers
      ensures ipc.handlers[CloseChannel(windowId)] == Wrapper(CloseWindow, None)
      ensures KeepsOthers(old(ipc.handlers), ipc.handlers, w.channels.Keys + {CloseChannel(windowId)})
      ensures WrappersAsMarked(windowId, cls.responseHandlers, ipc.handlers, w.responders, Decorators.GetClassHandlers(cls).Keys)
    {
      w := new WindowIPC.Init(ipc, cls, windowId);
      var hs := Decorators.GetClassHandlers(cls);
      order := w.InstallClassHandlers(hs);
      var close := CloseChannel(windowId);
      ghost var h0, marks := ipc.handlers, cls.responseHandlers;
      w.HandleUnscopedClose();
      assert cls.responseHandlers == marks;
      CloseChannelNotScoped(windowId);
      UnscopedOutside(windowId, w.channels.Keys, hs.Keys, close);
      KeepsOthersAdd(old(ipc.handlers), h0, ipc.handlers, w.channels.Keys, close);
      WrappersKeptByUnscoped(windowId, cls.responseHandlers, hs.Keys, w.responders, h0, ipc.handlers, close, Wrapper(CloseWindow, None));
    }

    /** The corrected close registration: `ipcMain.handle` called directly
        with the unscoped close name, leaving the table alone. */
    method HandleUnscopedClose()
      requires Valid() && ':' !in windowId && windowId != "window"
      modifies ipc
      ensures Valid()
      ensures ipc.handlers == old(ipc.handlers)[CloseChannel(windowId) := Wrapper(CloseWindow, None)]
      ensures ipc.log == old(ipc.log) + [Call.Handle(CloseChannel(windowId))]
    {
      CloseChannelNotScoped(windowId);
      ipc.Handle(CloseChannel(windowId), Wrapper(CloseWindow, None));
    }

    /** `getWindowId`: the id fixed at construction (`windowId` is a `const`). */
    function GetWindowId(): (r: string)
      ensures r == windowId
    {
      windowId
    }

    /** The promise the wrapper on `channel` awaits, if any, and its state. */
    function AwaitedBy(channel: string): Option<Awaited>
      reads this, ipc
      requires Valid() && channel in channels
    {
      var w := ipc.handlers[channel];
      if w.awaits.Some? then Some(Awaited(w.awaits.value, promises[w.awaits.value])) else None
    }

    /** `handleResponse`: makes a new promise, whose executor registers its
        `resolve` one-shot on the response channel. The transport refuses
        that registration while an earlier one-shot on the channel has not
        fired; the executor's throw then rejects the new promise, and the
        earlier registration stays. */
    method HandleResponse(channelName: string) returns (responseChannel: string, promise: nat)
      modifies this`promises, this`responders, ipc`log
      ensures old(Valid()) ==> Valid()
      ensures responseChannel == ResponseChannel(windowId, channelName)
      ensures promise == |old(promises)|
      ensures if responseChannel in old(responders) then
          && promises == old(promises) + [Rejected(RefusedMessage(responseChannel))]
          && responders == old(responders)
        else
          && promises == old(promises) + [Pending]
          && responders == old(responders)[responseChannel := promise]
      ensures ipc.log == old(ipc.log) + [Call.HandleOnce(responseChannel)]
    {
      responseChannel := Scoped(windowId, Scoped(windowId, channelName) + "Response");
      promise := |promises|;
      ipc.HandleOnce(responseChannel);
      if responseChannel in responders {
        promises := promises + [Rejected(RefusedMessage(responseChannel))];
      } else {
        promises := promises + [Pending];
        responders := responders[responseChannel := promise];
      }
    }

    /** `handle`. A scoped name already in the table is refused with an error
        before anything changes. Otherwise the record is added under the
        scoped name, a response handler gets its one response promise now, at
        registration, and exactly one wrapper is installed under the scoped
        name, awaiting that promise. */
    method Handle(channelName: string, handler: Handler) returns (error: Option<string>)
      requires Valid()
      modifies this, ipc
      ensures Valid()
      ensures var scoped := Scoped(windowId, channelName);
        if scoped in old(channels) then
          && error == Some(DuplicateMessage(channelName))
          && channels == old(channels) && promises == old(promises) && responders == old(responders)
          && ipc.handlers == old(ipc.handlers)
        else
          && error == None
          && channels == old(channels)[scoped := Channel(scoped, handler)]
          && ipc.handlers == old(ipc.handlers)[scoped := MarkedWrapper(cls.responseHandlers, channelName, handler, |old(promises)|)]
          && if Decorators.IsResponseHandler(cls, channelName) then
               var rc := ResponseChannel(windowId, channelName);
               && promises == old(promises) + [if rc in old(responders) then Rejected(RefusedMessage(rc)) else Pending]
               && responders == (if rc in old(responders) then old(responders) else old(responders)[rc := |old(promises)|])
             else
               promises == old(promises) && responders == old(responders)
      ensures ipc.log == old(ipc.log) +
        if Scoped(windowId, channelName) in old(channels) then [] else RegistrationOf(windowId, cls.responseHandlers, channelName)
    {
      var scoped := Scoped(windowId, channelName);
      if scoped in channels {
        return Some(DuplicateMessage(channelName));
      }
      // The record is added after the response promise is made, not before
      // as in the source; nothing observes the table in between.
      var awaits: Option<nat> := None;
      if Decorators.IsResponseHandler(cls, channelName) {
        var rc, p := HandleResponse(channelName);
        awaits := Some(p);
      }
      AddChannel(channelName, Wrapper(handler, awaits));
      error := None;
    }

    /** The record and its wrapper under the scoped name of `channelName`,
        which is free. */
    method AddChannel(channelName: string, wrapper: Wrapper)
      requires Valid() && Scoped(windowId, channelName) !in channels
      requires wrapper.awaits.Some? ==> wrapper.awaits.value < |promises|
      modifies this`channels, ipc
      ensures Valid()
      ensures var scoped := Scoped(windowId, channelName);
        && channels == old(channels)[scoped := Channel(scoped, wrapper.handler)]
        && ipc.handlers == old(ipc.handlers)[scoped := wrapper]
        && ipc.log == old(ipc.log) + [Call.Handle(scoped)]
    {
      var scoped := Scoped(windowId, channelName);
      ScopedLayout(windowId, channelName);
      channels := channels[scoped := Channel(scoped, wrapper.handler)];
      ipc.Handle(scoped, wrapper);
    }

    /** A request arrives on `channel`: the wrapper installed there settles it
        from the handler's outcome and the promise it awaits. */
    method Dispatch(channel: string, outcome: Outcome) returns (c: Completion)
      requires Valid()
      ensures channel !in channels ==> c == NoHandler
      ensures channel in channels ==> c == Settle(outcome, AwaitedBy(channel))
      ensures c.Suspended? ==> c.on < |promises| && promises[c.on] == Pending
    {
      if channel in channels {
        c := Settle(outcome, AwaitedBy(channel));
      } else {
        c := NoHandler;
      }
    }

    /** The renderer sends a payload on a response channel: the one-shot
        registration there fires once, removing itself and fulfilling the
        promise it was made for; a channel with no such registration takes
        nothing. */
    method DeliverResponse(responseChannel: string, payload: Value) returns (delivered: bool)
      requires Valid()
      modifies this`promises, this`responders
      ensures Valid()
      ensures delivered <==> responseChannel in old(responders)
      ensures delivered ==> old(promises)[old(responders)[responseChannel]] == Pending
      ensures promises == if delivered then old(promises)[old(responders)[responseChannel] := Fulfilled(payload)] else old(promises)
      ensures responders == old(responders) - {responseChannel}
    {
      delivered := responseChannel in responders;
      if delivered {
        var p := responders[responseChannel];
        promises := promises[p := Fulfilled(payload)];
        responders := responders - {responseChannel};
      } else {
        assert responders - {responseChannel} == responders;
      }
    }

    /** A request suspended on the response promise `on` continues: it stays
        suspended while that promise is pending and is answered with the
        response payload once it is fulfilled (or with the rejection's
        message). `on` is the promise a `Suspended` completion names; the
        table need no longer hold the request's channel, since the wrapper
        keeps the promise it captured. */
    method Resume(on: nat) returns (c: Completion)
      requires on < |promises|
      ensures promises[on].Pending? ==> c == Suspended(on)
      ensures promises[on].Fulfilled? ==> c == Done(Envelope(true, Some(promises[on].payload), None))
      ensures promises[on].Rejected? ==> c == Done(Envelope(false, None, Some(promises[on].reason)))
      ensures forall result :: c == Settle(Returned(result), Some(Awaited(on, promises[on])))
    {
      match promises[on]
      case Pending => c := Suspended(on);
      case Fulfilled(response) => c := Done(Envelope(true, Some(response), None));
      case Rejected(reason) => c := Done(Envelope(false, None, Some(reason)));
    }

    /** `removeHandler`: for a name in the table, one transport removal and
        only that key deleted; for an absent name, nothing. Promises and
        one-shot registrations are left alone. */
    method RemoveHandler(channelName: string)
      requires Valid()
      modifies this`channels, ipc
      ensures Valid()
      ensures promises == old(promises) && responders == old(responders)
      ensures var scoped := Scoped(windowId, channelName);
        if scoped in old(channels) then
          && channels == old(channels) - {scoped}
          && ipc.handlers == old(ipc.handlers) - {scoped}
          && ipc.log == old(ipc.log) + [Call.RemoveHandler(scoped)]
        else
          channels == old(channels) && ipc.handlers == old(ipc.handlers) && ipc.log == old(ipc.log)
    {
      var scoped := Scoped(windowId, channelName);
      if scoped in channels {
        ipc.RemoveHandler(scoped);
        channels := channels - {scoped};
      }
    }

    /** `removeAllHandlers`: one transport removal per channel in the table,
        in some order, then one removal of the unscoped close name; the table
        ends empty. Response promises and their one-shot registrations are
        left alone. */
    method RemoveAllHandlers()
      requires Valid()
      modifies this`channels, ipc
      ensures Valid()
      ensures channels == map[] && promises == old(promises) && responders == old(responders)
      ensures ipc.handlers == old(ipc.handlers) - old(channels).Keys - {CloseChannel(windowId)}
      ensures |ipc.log| > |old(ipc.log)| && ipc.log[..|old(ipc.log)|] == old(ipc.log)
      ensures RemovesEachThen(ipc.log[|old(ipc.log)|..], old(channels).Keys, CloseChannel(windowId))
    {
      ghost var removed := ipc.RemoveEach(channels.Keys);
      channels := map[];
      ipc.RemoveHandler(CloseChannel(windowId));
      RemoveAllSteps(old(ipc.handlers), old(ipc.log), old(channels).Keys, removed, CloseChannel(windowId),
                     ipc.handlers, ipc.log);
    }
  }
}
