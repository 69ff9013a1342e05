/** Handler registry, first-match dispatch, the long-polling cycle that
    advances the stream cursor (`marker`), and the polling lifecycle. */
module Dispatching {
  import opened Wrappers
  import opened Json
  import opened Types
  import opened Filters

  /** A callback or lifecycle hook, identified by its function name. */
  type CallbackName = string

  /** A registered handler: callback, filter list and kind list. An empty
      kind list accepts every kind. */
  datatype Handler = Handler(callback: CallbackName, filters: seq<Filter>, updateTypes: seq<UpdateKind>)

  /** `Handler.check`: the kind test, then every filter in order. */
  predicate Matches(h: Handler, u: Update) {
    && (h.updateTypes == [] || u.kind in h.updateTypes)
    && forall i | 0 <= i < |h.filters| :: Eval(h.filters[i], u)
  }

  /** The filter list of a handler acts as one And filter. */
  lemma MatchesIsKindAndConjunction(h: Handler, u: Update)
    ensures Matches(h, u) == ((h.updateTypes == [] || u.kind in h.updateTypes) && Eval(And(h.filters), u))
  {
  }

  /** What `Handler.handle` passes to the callback. */
  datatype HandlerArg =
    | MessageArg(message: Option<Message>)
    | CallbackArg(callback: Option<Callback>)
    | UpdateArg(update: Update)

  /** `Handler.handle`'s choice of argument: the message for created and
      edited messages, the callback for button presses, the update otherwise. */
  function ArgumentFor(u: Update): (a: HandlerArg)
    ensures a.MessageArg? <==> u.kind == MessageCreated || u.kind == MessageEdited
    ensures a.CallbackArg? <==> u.kind == MessageCallback
    ensures a.MessageArg? ==> a.message == u.message
    ensures a.CallbackArg? ==> a.callback == u.callback
    ensures a.UpdateArg? ==> a.update == u
  {
    if u.kind == MessageCreated || u.kind == MessageEdited then MessageArg(u.message)
    else if u.kind == MessageCallback then CallbackArg(u.callback)
    else UpdateArg(u)
  }

  // The handlers the registration decorators build

  /** `Dispatcher.message(*filters, commands=..., text=...)`: created and
      edited messages; the positional filters, then a command filter when
      `commands` is truthy, then a text filter when `text` is truthy. */
  function MessageHandler(filters: seq<Filter>, commands: StrOrList, text: StrOrList, callback: CallbackName): Handler {
    var withCommand := if ArgTruthy(commands) then filters + [CommandFilter(commands)] else filters;
    var withText := if ArgTruthy(text) then withCommand + [TextFilter(text, None)] else withCommand;
    Handler(callback, withText, [MessageCreated, MessageEdited])
  }

  /** `Dispatcher.callback_query(*filters, data=...)`: button presses; the
      positional filters, then a callback-data filter when `data` is truthy. */
  function CallbackQueryHandler(filters: seq<Filter>, data: StrOrList, callback: CallbackName): Handler {
    var fs := if ArgTruthy(data) then filters + [CallbackDataFilter(data, None)] else filters;
    Handler(callback, fs, [MessageCallback])
  }

  /** `Dispatcher.update(*update_types)`: no filters. */
  function UpdateHandler(updateTypes: seq<UpdateKind>, callback: CallbackName): Handler {
    Handler(callback, [], updateTypes)
  }

  /** A message handler matches exactly the created or edited messages that
      pass its positional filters, its commands when given and its text when
      given; the shorthands add nothing when falsy. */
  lemma MessageHandlerMatches(filters: seq<Filter>, commands: StrOrList, text: StrOrList, callback: CallbackName, u: Update)
    ensures var h := MessageHandler(filters, commands, text, callback);
      && h.callback == callback
      && (Matches(h, u) <==>
            && (u.kind == MessageCreated || u.kind == MessageEdited)
            && (forall i | 0 <= i < |filters| :: Eval(filters[i], u))
            && (ArgTruthy(commands) ==> Eval(CommandFilter(commands), u))
            && (ArgTruthy(text) ==> Eval(TextFilter(text, None), u)))
  {
    var h := MessageHandler(filters, commands, text, callback);
    var withCommand := if ArgTruthy(commands) then filters + [CommandFilter(commands)] else filters;
    assert forall i | 0 <= i < |filters| :: withCommand[i] == filters[i];
    assert forall i | 0 <= i < |withCommand| :: h.filters[i] == withCommand[i];
    if ArgTruthy(commands) {
      assert withCommand[|filters|] == CommandFilter(commands);
    }
    if ArgTruthy(text) {
      assert h.filters[|h.filters| - 1] == TextFilter(text, None);
    }
  }

  /** A button handler matches exactly the button presses that pass its
      positional filters and its data filter when given. */
  lemma CallbackQueryHandlerMatches(filters: seq<Filter>, data: StrOrList, callback: CallbackName, u: Update)
    ensures var h := CallbackQueryHandler(filters, data, callback);
      && h.callback == callback
      && (Matches(h, u) <==>
            && u.kind == MessageCallback
            && (forall i | 0 <= i < |filters| :: Eval(filters[i], u))
            && (ArgTruthy(data) ==> Eval(CallbackDataFilter(data, None), u)))
  {
    var h := CallbackQueryHandler(filters, data, callback);
    assert forall i | 0 <= i < |filters| :: h.filters[i] == filters[i];
    if ArgTruthy(data) {
      assert h.filters[|filters|] == CallbackDataFilter(data, None);
    }
  }

  /** A handler registered by `update(...)` matches exactly the updates of
      its kinds, and every update when no kind is given. */
  lemma UpdateHandlerMatchesItsKinds(updateTypes: seq<UpdateKind>, callback: CallbackName, u: Update)
    ensures UpdateHandler(updateTypes, callback).callback == callback
    ensures Matches(UpdateHandler(updateTypes, callback), u) <==> updateTypes == [] || u.kind in updateTypes
  {
  }

  // First-match dispatch

  /** The indices of the handlers whose callbacks `process_update` runs for
      `u`, scanning from `from` in list order: each matching handler runs, and
      the scan stops after the first one that returns normally. `raises` is
      the set of handler indices whose callback raises on this update. */
  function Dispatched(hs: seq<Handler>, u: Update, raises: set<nat>, from: nat): seq<nat>
    decreases |hs| - from
  {
    if from >= |hs| then []
    else if Matches(hs[from], u) then
      if from in raises then [from] + Dispatched(hs, u, raises, from + 1) else [from]
    else Dispatched(hs, u, raises, from + 1)
  }

  /** Handler `k` runs for `u` when it matches and every matching handler
      before it raised. */
  predicate Runs(hs: seq<Handler>, u: Update, raises: set<nat>, k: nat) {
    k < |hs| && Matches(hs[k], u) && forall j | 0 <= j < k :: Matches(hs[j], u) ==> j in raises
  }

  lemma {:induction false} DispatchedFrom(hs: seq<Handler>, u: Update, raises: set<nat>, from: nat)
    requires forall j | 0 <= j < from && j < |hs| :: Matches(hs[j], u) ==> j in raises
    ensures forall k :: k in Dispatched(hs, u, raises, from) <==> from <= k && Runs(hs, u, raises, k)
    ensures forall i, j | 0 <= i < j < |Dispatched(hs, u, raises, from)| ::
      Dispatched(hs, u, raises, from)[i] < Dispatched(hs, u, raises, from)[j]
    ensures forall i | 0 <= i < |Dispatched(hs, u, raises, from)| :: from <= Dispatched(hs, u, raises, from)[i]
    decreases |hs| - from
  {
    if from < |hs| {
      var d := Dispatched(hs, u, raises, from);
      if Matches(hs[from], u) && from !in raises {
        assert d == [from];
        forall k | from < k ensures !Runs(hs, u, raises, k) {
          assert Matches(hs[from], u) && from !in raises;
        }
      } else {
        DispatchedFrom(hs, u, raises, from + 1);
      }
    }
  }

  /** `process_update` runs exactly the handlers that match and are preceded
      only by matching handlers that raised, in list order. */
  lemma DispatchedExactly(hs: seq<Handler>, u: Update, raises: set<nat>)
    ensures forall k :: k in Dispatched(hs, u, raises, 0) <==> Runs(hs, u, raises, k)
    ensures forall i, j | 0 <= i < j < |Dispatched(hs, u, raises, 0)| ::
      Dispatched(hs, u, raises, 0)[i] < Dispatched(hs, u, raises, 0)[j]
  {
    DispatchedFrom(hs, u, raises, 0);
  }

  /** Handlers that do not match are passed over. */
  lemma {:induction false} SkipNonMatching(hs: seq<Handler>, u: Update, raises: set<nat>, from: nat, k: nat)
    requires from <= k <= |hs|
    requires forall j | from <= j < k :: !Matches(hs[j], u)
    ensures Dispatched(hs, u, raises, from) == Dispatched(hs, u, raises, k)
    decreases k - from
  {
    if from < k {
      SkipNonMatching(hs, u, raises, from + 1, k);
    }
  }

  /** First match wins: when the first matching handler returns normally, it
      is the only callback that runs. */
  lemma FirstMatchWins(hs: seq<Handler>, u: Update, raises: set<nat>, k: nat)
    requires k < |hs| && Matches(hs[k], u) && k !in raises
    requires forall j | 0 <= j < k :: !Matches(hs[j], u)
    ensures Dispatched(hs, u, raises, 0) == [k]
  {
    SkipNonMatching(hs, u, raises, 0, k);
  }

  /** When exactly two handlers match and the first raises, both run, in
      order, and nothing else does. */
  lemma RaisingThenNextMatch(hs: seq<Handler>, u: Update, raises: set<nat>, k: nat, m: nat)
    requires k < m < |hs| && Matches(hs[k], u) && Matches(hs[m], u) && k in raises
    requires forall j | 0 <= j < |hs| && j != k && j != m :: !Matches(hs[j], u)
    ensures Dispatched(hs, u, raises, 0) == [k, m]
  {
    SkipNonMatching(hs, u, raises, 0, k);
    SkipNonMatching(hs, u, raises, k + 1, m);
    SkipNonMatching(hs, u, raises, m + 1, |hs|);
  }

  /** When no handler matches, no callback runs. */
  lemma NoMatchNoCallback(hs: seq<Handler>, u: Update, raises: set<nat>)
    requires forall j | 0 <= j < |hs| :: !Matches(hs[j], u)
    ensures Dispatched(hs, u, raises, 0) == []
  {
    SkipNonMatching(hs, u, raises, 0, |hs|);
  }

  /** A matching handler that raises does not end the scan: the next matching
      handler runs too. */
  lemma RaisingHandlerFallsThrough(hs: seq<Handler>, u: Update, raises: set<nat>, k: nat, m: nat)
    requires k < m < |hs| && Matches(hs[k], u) && Matches(hs[m], u) && k in raises
    requires forall j | 0 <= j < m && j != k :: !Matches(hs[j], u)
    ensures k in Dispatched(hs, u, raises, 0) && m in Dispatched(hs, u, raises, 0)
  {
    DispatchedExactly(hs, u, raises);
    assert Runs(hs, u, raises, k);
    assert Runs(hs, u, raises, m);
  }

  // One poll cycle

  /** A successful `get_updates` result: the raw records and the next marker. */
  datatype Page = Page(updates: seq<Json>, marker: Option<int>)

  /** What happened to one raw record: `Update.from_dict` raised (the error is
      logged and the record skipped), or the update was dispatched and these
      handler callbacks ran. */
  datatype Delivery = Malformed(raw: Json, error: string) | Processed(update: Update, ran: seq<nat>)

  function Deliver(hs: seq<Handler>, raw: Json, raises: set<nat>): Delivery {
    match ParseUpdate(raw)
    case Err(e) => Malformed(raw, e)
    case Ok(u) => Processed(u, Dispatched(hs, u, raises, 0))
  }

  /** The deliveries of the first `n` records of a page, in array order;
      `raises(j)` is the set of handlers that raise on record `j`. */
  function PageDeliveries(hs: seq<Handler>, records: seq<Json>, raises: nat -> set<nat>, n: nat): (ds: seq<Delivery>)
    requires n <= |records|
    ensures |ds| == n
    ensures forall j | 0 <= j < n :: ds[j] == Deliver(hs, records[j], raises(j))
  {
    if n == 0 then [] else PageDeliveries(hs, records, raises, n - 1) + [Deliver(hs, records[n - 1], raises(n - 1))]
  }

  /** The outcome of one `_poll_updates` call. */
  datatype CycleResult = CycleResult(marker: Option<int>, deliveries: seq<Delivery>, interrupted: bool)

  /** `_poll_updates` from cursor `marker`. `fetched` is the transport's
      answer (None for a failed or empty fetch); `interrupt`, when present,
      is the number of records dispatched before a KeyboardInterrupt, which
      escapes the per-record handler and ends the cycle before the cursor is
      assigned. */
  function PollCycle(hs: seq<Handler>, marker: Option<int>, fetched: Option<Page>, raises: nat -> set<nat>,
                     interrupt: Option<nat>): (r: CycleResult)
    ensures r.interrupted <==> interrupt.Some?
    ensures fetched.None? ==> r.marker == marker && r.deliveries == []
    ensures interrupt.Some? ==> r.marker == marker
    ensures fetched.Some? && interrupt.None? ==>
      && r.marker == (if fetched.value.marker.Some? then fetched.value.marker else marker)
      && |r.deliveries| == |fetched.value.updates|
  {
    if fetched.None? then CycleResult(marker, [], interrupt.Some?)
    else
      var records := fetched.value.updates;
      if interrupt.Some? then
        var n := if interrupt.value < |records| then interrupt.value else |records|;
        CycleResult(marker, PageDeliveries(hs, records, raises, n), true)
      else
        CycleResult(if fetched.value.marker.Some? then fetched.value.marker else marker,
                    PageDeliveries(hs, records, raises, |records|), false)
  }

  /** Every record of a fetched page is handed over, in array order, whatever
      the handlers raise; a record that fails to parse is skipped and the
      others are still dispatched. */
  lemma EveryRecordDelivered(hs: seq<Handler>, marker: Option<int>, page: Page, raises: nat -> set<nat>, j: nat)
    requires j < |page.updates|
    ensures var r := PollCycle(hs, marker, Some(page), raises, None);
            |r.deliveries| == |page.updates| && r.deliveries[j] == Deliver(hs, page.updates[j], raises(j))
  {
  }

  /** At-least-once delivery: a cycle interrupted after `j` records leaves the
      cursor where it was, so the next fetch asks for the whole page again. */
  lemma InterruptedCycleKeepsCursor(hs: seq<Handler>, marker: Option<int>, page: Page, raises: nat -> set<nat>, j: nat)
    requires j < |page.updates|
    ensures var r := PollCycle(hs, marker, Some(page), raises, Some(j));
            r.marker == marker && |r.deliveries| == j
  {
  }

  // The polling loop

  /** One turn of the `while self.running` loop as its environment plays it:
      the transport's answer, the handlers that raise on each record, an
      optional KeyboardInterrupt, and whether `stop()` is called during it. */
  datatype Cycle = Cycle(fetched: Option<Page>, raises: nat -> set<nat>, interrupt: Option<nat>, stopRequested: bool)

  /** After this cycle the loop exits. */
  predicate Ends(c: Cycle) {
    c.interrupt.Some? || c.stopRequested
  }

  datatype Event = HookRan(hook: CallbackName) | CycleRan(deliveries: seq<Delivery>)

  function HookEvents(hook: Option<CallbackName>): seq<Event> {
    if hook.Some? then [HookRan(hook.value)] else []
  }

  /** The polling loop from cycle `k` on: the final cursor and one event per
      cycle run, up to and including the first cycle that ends the loop. */
  function RunFrom(hs: seq<Handler>, marker: Option<int>, script: seq<Cycle>, k: nat): (Option<int>, seq<Event>)
    decreases |script| - k
  {
    if k >= |script| then (marker, [])
    else
      var c := script[k];
      var r := PollCycle(hs, marker, c.fetched, c.raises, c.interrupt);
      if Ends(c) then (r.marker, [CycleRan(r.deliveries)])
      else
        var rest := RunFrom(hs, r.marker, script, k + 1);
        (rest.0, [CycleRan(r.deliveries)] + rest.1)
  }

  /** One cycle of a run: the cycle's own events, then the rest of the run
      from the cursor it leaves, unless it ends the loop. */
  lemma RunFromStep(hs: seq<Handler>, marker: Option<int>, script: seq<Cycle>, k: nat)
    requires k < |script|
    ensures var c := script[k];
      var r := PollCycle(hs, marker, c.fetched, c.raises, c.interrupt);
      var rest := RunFrom(hs, r.marker, script, k + 1);
      && (Ends(c) ==> RunFrom(hs, marker, script, k) == (r.marker, [CycleRan(r.deliveries)]))
      && (!Ends(c) ==> RunFrom(hs, marker, script, k) == (rest.0, [CycleRan(r.deliveries)] + rest.1))
  {
  }

  /** The loop's bookkeeping: if the events so far followed by the run from
      cycle `k` make up the whole run, then after cycle `k` either the run is
      complete or the same holds from cycle `k + 1`. */
  lemma RunFromAccumulate(hs: seq<Handler>, marker: Option<int>, script: seq<Cycle>, k: nat,
                          done: seq<Event>, finalMarker: Option<int>, finalEvents: seq<Event>)
    requires k < |script| && Ends(script[|script| - 1])
    requires RunFrom(hs, marker, script, k).0 == finalMarker
    requires done + RunFrom(hs, marker, script, k).1 == finalEvents
    ensures var c := script[k];
      var r := PollCycle(hs, marker, c.fetched, c.raises, c.interrupt);
      var next := done + [CycleRan(r.deliveries)];
      && (Ends(c) ==> r.marker == finalMarker && next == finalEvents)
      && (!Ends(c) ==> k + 1 < |script|
                       && RunFrom(hs, r.marker, script, k + 1).0 == finalMarker
                       && next + RunFrom(hs, r.marker, script, k + 1).1 == finalEvents)
  {
    RunFromStep(hs, marker, script, k);
    var c := script[k];
    var r := PollCycle(hs, marker, c.fetched, c.raises, c.interrupt);
    if !Ends(c) {
      var rest := RunFrom(hs, r.marker, script, k + 1);
      assert done + ([CycleRan(r.deliveries)] + rest.1) == (done + [CycleRan(r.deliveries)]) + rest.1;
    }
  }

  /** A cycle moves the cursor when its fetch succeeds, returns a marker and
      is not interrupted. */
  predicate Advances(c: Cycle) {
    c.fetched.Some? && c.fetched.value.marker.Some? && c.interrupt.None?
  }

  /** The cursor after a sequence of cycles, read backwards: the marker of the
      last cycle that advances it, or the initial cursor if none does. */
  function LatestMarker(initial: Option<int>, cycles: seq<Cycle>): Option<int> {
    if cycles == [] then initial
    else if Advances(cycles[|cycles| - 1]) then cycles[|cycles| - 1].fetched.value.marker
    else LatestMarker(initial, cycles[..|cycles| - 1])
  }

  lemma {:induction false} RunFromMarker(hs: seq<Handler>, initial: Option<int>, script: seq<Cycle>, k: nat)
    requires k <= |script|
    requires forall j | k <= j < |script| - 1 :: !Ends(script[j])
    ensures RunFrom(hs, LatestMarker(initial, script[..k]), script, k).0 == LatestMarker(initial, script)
    decreases |script| - k
  {
    if k == |script| {
      assert script[..k] == script;
    } else {
      var c := script[k];
      var mk := LatestMarker(initial, script[..k]);
      var r := PollCycle(hs, mk, c.fetched, c.raises, c.interrupt);
      assert script[..k + 1][..k] == script[..k];
      assert script[..k + 1][k] == c;
      assert r.marker == LatestMarker(initial, script[..k + 1]);
      if Ends(c) {
        assert script[..k + 1] == script;
      } else {
        RunFromMarker(hs, initial, script, k + 1);
      }
    }
  }

  /** The cursor a polling run ends with is the marker of the last completed
      page that returned one: failed fetches and interrupted pages leave it. */
  lemma RunCursorIsLatestMarker(hs: seq<Handler>, initial: Option<int>, script: seq<Cycle>)
    requires forall j | 0 <= j < |script| - 1 :: !Ends(script[j])
    ensures RunFrom(hs, initial, script, 0).0 == LatestMarker(initial, script)
  {
    assert script[..0] == [];
    RunFromMarker(hs, initial, script, 0);
  }

  /** Two failed fetches and then a page with marker 7: the cursor stays at 3
      through the failures and is 7 at the end. */
  lemma FailuresThenSuccess(hs: seq<Handler>, script: seq<Cycle>, raises: nat -> set<nat>)
    requires script == [Cycle(None, raises, None, false), Cycle(None, raises, None, false),
                        Cycle(Some(Page([], Some(7))), raises, None, true)]
    ensures LatestMarker(Some(3), script[..1]) == Some(3)
    ensures LatestMarker(Some(3), script[..2]) == Some(3)
    ensures RunFrom(hs, Some(3), script, 0).0 == Some(7)
  {
    RunCursorIsLatestMarker(hs, Some(3), script);
    assert script[..1][..0] == [];
    assert script[..2][..1] == script[..1];
  }

  class Dispatcher {
    var handlers: seq<Handler>
    /** The bot handle `start_polling` stores, by identity. */
    var bot: Option<nat>
    var marker: Option<int>
    var running: bool
    var startupHandler: Option<CallbackName>
    var shutdownHandler: Option<CallbackName>

    constructor ()
      ensures handlers == [] && bot == None && marker == None && !running
      ensures startupHandler == None && shutdownHandler == None
    {
      handlers := [];
      bot := None;
      marker := None;
      running := false;
      startupHandler := None;
      shutdownHandler := None;
    }

    /** The `message` decorator: appends, without de-duplication. */
    method OnMessage(filters: seq<Filter>, commands: StrOrList, text: StrOrList, callback: CallbackName)
      modifies this`handlers
      ensures handlers == old(handlers) + [MessageHandler(filters, commands, text, callback)]
    {
      var filterList := filters;
      if ArgTruthy(commands) {
        filterList := filterList + [CommandFilter(commands)];
      }
      if ArgTruthy(text) {
        filterList := filterList + [TextFilter(text, None)];
      }
      handlers := handlers + [Handler(callback, filterList, [MessageCreated, MessageEdited])];
    }

    /** The `callback_query` decorator. */
    method OnCallbackQuery(filters: seq<Filter>, data: StrOrList, callback: CallbackName)
      modifies this`handlers
      ensures handlers == old(handlers) + [CallbackQueryHandler(filters, data, callback)]
    {
      var filterList := filters;
      if ArgTruthy(data) {
        filterList := filterList + [CallbackDataFilter(data, None)];
      }
      handlers := handlers + [Handler(callback, filterList, [MessageCallback])];
    }

    /** The `update` decorator. */
    method OnUpdate(updateTypes: seq<UpdateKind>, callback: CallbackName)
      modifies this`handlers
      ensures handlers == old(handlers) + [UpdateHandler(updateTypes, callback)]
    {
      handlers := handlers + [Handler(callback, [], updateTypes)];
    }

    /** The `startup` decorator: a later registration replaces an earlier one. */
    method OnStartup(hook: CallbackName)
      modifies this`startupHandler
      ensures startupHandler == Some(hook)
    {
      startupHandler := Some(hook);
    }

    /** The `shutdown` decorator: a later registration replaces an earlier one. */
    method OnShutdown(hook: CallbackName)
      modifies this`shutdownHandler
      ensures shutdownHandler == Some(hook)
    {
      shutdownHandler := Some(hook);
    }

    /** `process_update`: tries the handlers in list order and stops after the
      first matching one whose callback returns normally. Returns the indices
      of the handlers whose callbacks ran; each got `ArgumentFor(u)`. */
    method ProcessUpdate(u: Update, raises: set<nat>) returns (ran: seq<nat>)
      ensures ran == Dispatched(handlers, u, raises, 0)
    {
      ran := [];
      var i := 0;
      while i < |handlers|
        invariant 0 <= i <= |handlers|
        invariant ran + Dispatched(handlers, u, raises, i) == Dispatched(handlers, u, raises, 0)
      {
        if Matches(handlers[i], u) {
          ran := ran + [i];
          if i !in raises {
            // the callback returned normally
            break;
          }
          // the callback raised: the error is logged and the scan goes on
        }
        i := i + 1;
      }
    }

    /** `_poll_updates`: a failed fetch changes nothing; otherwise every record
      is parsed and dispatched in order, and only then is the returned marker,
      if any, assigned to the cursor. */
    method PollUpdates(fetched: Option<Page>, raises: nat -> set<nat>, interrupt: Option<nat>)
      returns (deliveries: seq<Delivery>, interrupted: bool)
      modifies this`marker
      ensures CycleResult(marker, deliveries, interrupted) == PollCycle(handlers, old(marker), fetched, raises, interrupt)
    {
      deliveries, interrupted := [], false;
      if fetched.None? {
        // the transport failed: sleep and return with the cursor unchanged
        interrupted := interrupt.Some?;
        return;
      }
      var records := fetched.value.updates;
      var i := 0;
      while i < |records|
        invariant 0 <= i <= |records|
        invariant marker == old(marker)
        invariant interrupt.Some? ==> i <= interrupt.value
        invariant deliveries == PageDeliveries(handlers, records, raises, i)
      {
        if interrupt == Some(i) {
          interrupted := true;
          return;
        }
        var parsed := ParseUpdate(records[i]);
        if parsed.Err? {
          deliveries := deliveries + [Malformed(records[i], parsed.error)];
        } else {
          var ran := ProcessUpdate(parsed.value, raises(i));
          deliveries := deliveries + [Processed(parsed.value, ran)];
        }
        i := i + 1;
      }
      if interrupt.Some? {
        interrupted := true;
        return;
      }
      if fetched.value.marker.Some? {
        marker := fetched.value.marker;
      }
    }

    /** `stop`: only clears the running flag. */
    method Stop()
      modifies this`running
      ensures !running
    {
      running := false;
    }

    /** One pass of the polling loop: `_poll_updates`, after which a stop
      requested during the pass clears `running`. */
    method PollOnce(c: Cycle) returns (ev: Event, interrupted: bool)
      modifies this`marker, this`running
      ensures var r := PollCycle(handlers, old(marker), c.fetched, c.raises, c.interrupt);
        marker == r.marker && ev == CycleRan(r.deliveries)
      ensures interrupted <==> c.interrupt.Some?
      ensures !interrupted ==> running == (old(running) && !c.stopRequested)
      ensures interrupted ==> running == old(running)
    {
      var deliveries;
      deliveries, interrupted := PollUpdates(c.fetched, c.raises, c.interrupt);
      ev := CycleRan(deliveries);
      if !interrupted && c.stopRequested {
        Stop();
      }
    }

    /** `start_polling`: stores the bot, gives up if its identity cannot be
      fetched, runs the startup hook, polls while running, then clears the
      flag and runs the shutdown hook once. Hook exceptions are logged and
      swallowed, so a raising hook has the effect of a returning one. The
      script lists the cycles the environment plays; its last cycle ends the
      loop. */
    method StartPolling(botId: nat, identityFetched: bool, script: seq<Cycle>) returns (events: seq<Event>)
      requires script != [] && Ends(script[|script| - 1])
      modifies this`bot, this`running, this`marker
      ensures bot == Some(botId)
      ensures !identityFetched ==> events == [] && running == old(running) && marker == old(marker)
      ensures identityFetched ==> !running
      ensures identityFetched ==>
        var run := RunFrom(handlers, old(marker), script, 0);
        marker == run.0 && events == HookEvents(startupHandler) + run.1 + HookEvents(shutdownHandler)
    {
      bot := Some(botId);
      events := [];
      if !identityFetched {
        return;
      }
      events := HookEvents(startupHandler);
      running := true;
      ghost var hs := handlers;
      ghost var total := RunFrom(hs, marker, script, 0);
      var cycleEvents := [];
      var k := 0;
      while running
        invariant 0 <= k <= |script|
        invariant bot == Some(botId) && handlers == hs
        invariant running ==> k < |script|
        invariant running ==> RunFrom(hs, marker, script, k).0 == total.0
        invariant running ==> cycleEvents + RunFrom(hs, marker, script, k).1 == total.1
        invariant !running ==> marker == total.0 && cycleEvents == total.1
        decreases |script| - k
      {
        RunFromAccumulate(hs, marker, script, k, cycleEvents, total.0, total.1);
        var ev, interrupted := PollOnce(script[k]);
        cycleEvents := cycleEvents + [ev];
        if interrupted {
          // KeyboardInterrupt leaves the loop
          break;
        }
        k := k + 1;
      }
      running := false;
      events := events + cycleEvents + HookEvents(shutdownHandler);
    }
  }
}
