/** The declarative handler registry. The decorators `windowName`,
    `mainHandler` and `responseHandler` become explicit method calls on the
    metadata of one class (`HandlerClass`) and on the process-wide
    `windowRegistry` (`Registry`). TypeScript runs a class's method decorators
    before its class decorator, so `mainHandler` buffers handlers until
    `windowName` flushes them. */
module Decorators {
  import opened Shared

  /** A handler recorded before its class had a window name. */
  datatype HandlerMetadata = HandlerMetadata(name: string, handler: Handler, waitForResponse: Option<bool>)

  /** An entry of `windowRegistry[window]`; its `params` and `returns` are
      always undefined and are not modelled. */
  datatype Entry = Entry(handler: Handler, waitForResponse: Option<bool>)

  /** The decorator metadata stored on one class constructor under the
      symbols WINDOW_NAME, PENDING_HANDLERS, IPC_HANDLERS and RESPONSE_HANDLERS.
      An absent pending list reads as `[]` everywhere in the source, so it is
      a plain sequence; the other two collections keep "absent" apart from
      "empty" because the source can tell them apart. */
  class HandlerClass {
    var windowName: Option<string>
    var pending: seq<HandlerMetadata>
    var handlers: Option<map<string, Handler>>
    var responseHandlers: Option<set<string>>

    /** A class no decorator has touched yet. */
    constructor ()
      ensures windowName == None && pending == [] && handlers == None && responseHandlers == None
    {
      windowName := None;
      pending := [];
      handlers := None;
      responseHandlers := None;
    }

    /** `if (constructor[WINDOW_NAME])`: JavaScript truthiness, so a window
        name that is the empty string counts as not set. */
    predicate HasWindowName(): (r: bool)
      reads this
      ensures r ==> windowName.Some?
      ensures windowName.Some? ==> (r <==> |windowName.value| > 0)
    {
      windowName.Some? && windowName.value != ""
    }
  }

  /** The process-wide `windowRegistry`: window name to method name to entry. */
  class Registry {
    var windows: map<string, map<string, Entry>>

    constructor ()
      ensures windows == map[]
    {
      windows := map[];
    }

    /** A class's window name always has a registry entry: `windowName`
        creates it and nothing deletes one. */
    ghost predicate Tracks(target: HandlerClass)
      reads this, target
    {
      target.windowName.Some? ==> target.windowName.value in windows
    }
  }

  /** `constructor[RESPONSE_HANDLERS]?.has(propertyKey)`: undefined when the
      set is absent, otherwise whether the key is in it. */
  function WaitFlag(responseHandlers: Option<set<string>>, propertyKey: string): (r: Option<bool>)
    ensures r.None? <==> responseHandlers.None?
    ensures r == Some(true) <==> responseHandlers.Some? && propertyKey in responseHandlers.value
  {
    match responseHandlers
    case None => None
    case Some(s) => Some(propertyKey in s)
  }

  function EntryOf(m: HandlerMetadata): Entry {
    Entry(m.handler, m.waitForResponse)
  }

  /** The names of a list of recorded handlers. */
  function Names(pending: seq<HandlerMetadata>): set<string> {
    set i | 0 <= i < |pending| :: pending[i].name
  }

  /** The names of the recorded handlers whose `waitForResponse` is true. */
  function ResponseNames(pending: seq<HandlerMetadata>): set<string> {
    set i | 0 <= i < |pending| && pending[i].waitForResponse == Some(true) :: pending[i].name
  }

  /** `windowRegistry[name]` after `windowName` flushed `pending` into a
      fresh, empty entry, one handler after another in list order. */
  function FlushEntries(pending: seq<HandlerMetadata>): map<string, Entry> {
    if pending == [] then map[]
    else
      var k := |pending| - 1;
      FlushEntries(pending[..k])[pending[k].name := EntryOf(pending[k])]
  }

  /** The class handler map after the flush; the map is created by the first
      flushed handler if it was absent. */
  function FlushHandlers(handlers: Option<map<string, Handler>>, pending: seq<HandlerMetadata>): Option<map<string, Handler>> {
    if pending == [] then handlers
    else
      var k := |pending| - 1;
      Some(FlushHandlers(handlers, pending[..k]).GetOr(map[])[pending[k].name := pending[k].handler])
  }

  /** The response-handler set after the flush; the set is created by the
      first flushed handler if it was absent. */
  function FlushResponses(responseHandlers: Option<set<string>>, pending: seq<HandlerMetadata>): Option<set<string>> {
    if pending == [] then responseHandlers
    else
      var k := |pending| - 1;
      var s := FlushResponses(responseHandlers, pending[..k]).GetOr({});
      Some(if pending[k].waitForResponse == Some(true) then s + {pending[k].name} else s)
  }

  /** The handler functions of a registry entry. */
  function HandlersOf(entries: map<string, Entry>): map<string, Handler> {
    map n | n in entries :: entries[n].handler
  }

  lemma NamesSnoc(pending: seq<HandlerMetadata>)
    requires pending != []
    ensures Names(pending) == Names(pending[..|pending| - 1]) + {pending[|pending| - 1].name}
  {
    var k := |pending| - 1;
    forall x | x in Names(pending) ensures x in Names(pending[..k]) + {pending[k].name} {
      var i :| 0 <= i < |pending| && pending[i].name == x;
      if i < k {
        assert pending[..k][i] == pending[i];
      }
    }
    forall x | x in Names(pending[..k]) ensures x in Names(pending) {
      var i :| 0 <= i < k && pending[..k][i].name == x;
      assert pending[i] == pending[..k][i];
    }
  }

  lemma ResponseNamesSnoc(pending: seq<HandlerMetadata>)
    requires pending != []
    ensures var k := |pending| - 1;
      ResponseNames(pending) ==
        ResponseNames(pending[..k]) + (if pending[k].waitForResponse == Some(true) then {pending[k].name} else {})
  {
    var k := |pending| - 1;
    var extra: set<string> := if pending[k].waitForResponse == Some(true) then {pending[k].name} else {};
    forall x | x in ResponseNames(pending) ensures x in ResponseNames(pending[..k]) + extra {
      var i :| 0 <= i < |pending| && pending[i].waitForResponse == Some(true) && pending[i].name == x;
      if i < k {
        assert pending[..k][i] == pending[i];
      }
    }
    forall x | x in ResponseNames(pending[..k]) ensures x in ResponseNames(pending) {
      var i :| 0 <= i < k && pending[..k][i].waitForResponse == Some(true) && pending[..k][i].name == x;
      assert pending[i] == pending[..k][i];
    }
  }

  /** After the flush, the registry entry holds exactly the pending names. */
  lemma {:induction false} FlushEntriesKeys(pending: seq<HandlerMetadata>)
    ensures FlushEntries(pending).Keys == Names(pending)
  {
    if pending != [] {
      FlushEntriesKeys(pending[..|pending| - 1]);
      NamesSnoc(pending);
    }
  }

  /** A pending handler that no later pending handler shares a name with is
      what the registry entry holds under that name: the flush writes in list
      order and the last write wins. */
  lemma {:induction false} FlushEntriesLastWins(pending: seq<HandlerMetadata>, i: nat)
    requires i < |pending|
    requires forall j :: i < j < |pending| ==> pending[j].name != pending[i].name
    ensures pending[i].name in FlushEntries(pending)
    ensures FlushEntries(pending)[pending[i].name] == EntryOf(pending[i])
  {
    var k := |pending| - 1;
    if i < k {
      var init := pending[..k];
      assert init[i] == pending[i];
      assert forall j :: i < j < |init| ==> init[j].name != init[i].name by {
        forall j | i < j < |init| ensures init[j].name != init[i].name {
          assert init[j] == pending[j];
        }
      }
      FlushEntriesLastWins(init, i);
    }
  }

  /** The flush writes the same handlers into the class handler map as into
      the registry entry, on top of what the map already held. */
  lemma {:induction false} FlushHandlersAgree(handlers: Option<map<string, Handler>>, pending: seq<HandlerMetadata>)
    requires pending != []
    ensures FlushHandlers(handlers, pending) == Some(handlers.GetOr(map[]) + HandlersOf(FlushEntries(pending)))
  {
    var k := |pending| - 1;
    var p := pending[k];
    var h0 := handlers.GetOr(map[]);
    var e := FlushEntries(pending[..k]);
    if k == 0 {
      assert pending[..k] == [];
      assert HandlersOf(FlushEntries(pending)) == map[p.name := p.handler];
      assert h0[p.name := p.handler] == h0 + map[p.name := p.handler];
    } else {
      FlushHandlersAgree(handlers, pending[..k]);
      assert HandlersOf(e[p.name := EntryOf(p)]) == HandlersOf(e)[p.name := p.handler];
      assert (h0 + HandlersOf(e))[p.name := p.handler] == h0 + HandlersOf(e)[p.name := p.handler];
    }
  }

  /** After a non-empty flush the response-handler set exists and holds what
      it held before plus every flushed name whose flag is true, and nothing
      else; a flag that is false or undefined adds nothing. */
  lemma {:induction false} FlushResponsesSpec(responseHandlers: Option<set<string>>, pending: seq<HandlerMetadata>)
    requires pending != []
    ensures FlushResponses(responseHandlers, pending) == Some(responseHandlers.GetOr({}) + ResponseNames(pending))
  {
    var k := |pending| - 1;
    var p := pending[k];
    ResponseNamesSnoc(pending);
    var before: set<string>;
    if k == 0 {
      assert pending[..k] == [];
      before := {};
    } else {
      FlushResponsesSpec(responseHandlers, pending[..k]);
      before := ResponseNames(pending[..k]);
    }
    var s := FlushResponses(responseHandlers, pending[..k]).GetOr({});
    assert s == responseHandlers.GetOr({}) + before;
    assert ResponseNames(pending[..k]) == before;
    if p.waitForResponse == Some(true) {
      assert ResponseNames(pending) == before + {p.name};
      assert s + {p.name} == responseHandlers.GetOr({}) + (before + {p.name});
    } else {
      assert ResponseNames(pending) == before;
    }
  }

  /** `@windowName(name)`: sets the class's window name, replaces
      `windowRegistry[name]` by an empty entry and flushes the pending
      handlers, in list order, into that entry, the class handler map and, for
      those whose flag is true, the response-handler set. The pending list is
      left as it was. */
  method WindowName(registry: Registry, target: HandlerClass, name: string)
    modifies registry`windows, target`windowName, target`handlers, target`responseHandlers
    ensures target.windowName == Some(name)
    ensures target.pending == old(target.pending)
    ensures registry.windows == old(registry.windows)[name := FlushEntries(old(target.pending))]
    ensures target.handlers == FlushHandlers(old(target.handlers), old(target.pending))
    ensures target.responseHandlers == FlushResponses(old(target.responseHandlers), old(target.pending))
  {
    target.windowName := Some(name);
    // the entry, the handler map and the response set as the loop builds them
    var entry: map<string, Entry> := map[];
    var handlers, responses := target.handlers, target.responseHandlers;
    var pending := target.pending;
    var i := 0;
    while i < |pending|
      invariant 0 <= i <= |pending|
      invariant target.windowName == Some(name) && target.pending == pending
      invariant registry.windows == old(registry.windows)
      invariant entry == FlushEntries(pending[..i])
      invariant handlers == FlushHandlers(old(target.handlers), pending[..i])
      invariant responses == FlushResponses(old(target.responseHandlers), pending[..i])
    {
      assert pending[..i + 1][..i] == pending[..i];
      var p := pending[i];
      entry := entry[p.name := EntryOf(p)];
      if handlers.None? {
        handlers := Some(map[]);
      }
      handlers := Some(handlers.value[p.name := p.handler]);
      if responses.None? {
        responses := Some({});
      }
      if p.waitForResponse == Some(true) {
        responses := Some(responses.value + {p.name});
      }
      i := i + 1;
    }
    assert pending[..i] == pending;
    registry.windows := registry.windows[name := entry];
    target.handlers, target.responseHandlers := handlers, responses;
  }

  /** `@responseHandler()`: marks a method name as one that waits for a
      renderer response, creating the set if absent, and hands the descriptor
      back unchanged. */
  method ResponseHandler(target: HandlerClass, propertyKey: string, descriptor: Handler) returns (r: Handler)
    modifies target`responseHandlers
    ensures r == descriptor
    ensures target.responseHandlers == Some(old(target.responseHandlers).GetOr({}) + {propertyKey})
  {
    if target.responseHandlers.None? {
      target.responseHandlers := Some({});
    }
    target.responseHandlers := Some(target.responseHandlers.value + {propertyKey});
    r := descriptor;
  }

  /** `@mainHandler(name)` on method `propertyKey`. Its `waitForResponse` is
      fixed now, from the response-handler set as it stands. With a window
      name set, the registry entry and the class handler map get the handler
      directly (a second registration under the same name silently
      overwrites); otherwise it is appended to the pending list and nothing
      else changes. */
  method MainHandler(registry: Registry, target: HandlerClass, propertyKey: string, name: string, descriptor: Handler)
    returns (r: Handler)
    requires registry.Tracks(target)
    modifies registry, target
    ensures r == descriptor
    ensures registry.Tracks(target)
    ensures target.windowName == old(target.windowName)
    ensures target.responseHandlers == old(target.responseHandlers)
    ensures var flag := WaitFlag(old(target.responseHandlers), propertyKey);
      if old(target.HasWindowName()) then
        var w := target.windowName.value;
        && registry.windows == old(registry.windows)[w := old(registry.windows[w])[name := Entry(descriptor, flag)]]
        && target.handlers == Some(old(target.handlers).GetOr(map[])[name := descriptor])
        && target.pending == old(target.pending)
      else
        && registry.windows == old(registry.windows)
        && target.handlers == old(target.handlers)
        && target.pending == old(target.pending) + [HandlerMetadata(name, descriptor, flag)]
  {
    var waitForResponse := WaitFlag(target.responseHandlers, propertyKey);
    if target.HasWindowName() {
      var w := target.windowName.value;
      registry.windows := registry.windows[w := registry.windows[w][name := Entry(descriptor, waitForResponse)]];
      if target.handlers.None? {
        target.handlers := Some(map[]);
      }
      target.handlers := Some(target.handlers.value[name := descriptor]);
    } else {
      target.pending := target.pending + [HandlerMetadata(name, descriptor, waitForResponse)];
    }
    r := descriptor;
  }

  /** `isResponseHandler`: false when the set is absent or lacks the name. */
  function IsResponseHandler(target: HandlerClass, handlerName: string): (r: bool)
    reads target
    ensures r <==> target.responseHandlers.Some? && handlerName in target.responseHandlers.value
  {
    WaitFlag(target.responseHandlers, handlerName).GetOr(false)
  }

  /** `getClassHandlers`: the class handler map, or an empty map when no
      handler was ever recorded in it. */
  function GetClassHandlers(target: HandlerClass): (r: map<string, Handler>)
    reads target
    ensures target.handlers.None? ==> r == map[]
    ensures target.handlers.Some? ==> r == target.handlers.value
  {
    target.handlers.GetOr(map[])
  }
}
