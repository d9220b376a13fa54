/**
 * Event routing and negotiation sessions (router.py).
 *
 * The router is a handler table keyed by supplier id plus an optional default handler.
 * Handlers are closures in the source; here a handler is a value naming what it would run:
 * the handler a session made for one supplier, or some other callable. Scheduling the
 * handler as an independent task (`asyncio.create_task`) is modelled as appending a
 * `Dispatch` to the router's record of started tasks.
 *
 * As written the table is keyed by the supplier id ALONE: `register(supplier_id, handler)`
 * and `push` looks up `event.supplier_id`, so the event's negotiation id plays no part in
 * routing and two negotiations that include the same supplier share one entry. The tests
 * call `register(ng_id, sup_id, handler)` and look up the composite key "ng-1:sup-1"; the
 * model follows the code, not the tests.
 */
module Router {
  import opened Wrappers
  import Agents

  /** An inbound email after resolution (router.py:8-17); the provider payload `raw` is not modelled. */
  datatype EmailEvent = EmailEvent(
    sender: string,
    subject: string,
    body: string,
    supplierId: Option<string>,
    ngId: Option<string>)

  /** What a registered callable runs. */
  datatype Handler =
    | SessionHandler(session: NegotiationSession, supplierId: string)
    | External(name: string)

  /** One task started by `push`: the handler and the event it was given. */
  datatype Dispatch = Dispatch(handler: Handler, event: EmailEvent)

  /** `event.supplier_id and event.supplier_id in self._handlers` (router.py:63). */
  predicate HasKeyedHandler(handlers: map<string, Handler>, event: EmailEvent)
  {
    event.supplierId.Some? && event.supplierId.value != "" && event.supplierId.value in handlers
  }

  /** The handler `push` picks for `event`, if any (router.py:61-66). */
  function SelectHandler(handlers: map<string, Handler>, default: Option<Handler>, event: EmailEvent): Option<Handler>
  {
    if HasKeyedHandler(handlers, event) then Some(handlers[event.supplierId.value]) else default
  }

  /**
   * The keyed handler wins exactly when the event's supplier id is non-empty and registered;
   * otherwise the default is chosen, and nothing is chosen only when there is no keyed
   * handler and no default.
   */
  lemma SelectionPriority(handlers: map<string, Handler>, default: Option<Handler>, event: EmailEvent)
    ensures var r := SelectHandler(handlers, default, event);
      && (HasKeyedHandler(handlers, event) ==> r == Some(handlers[event.supplierId.value]))
      && (!HasKeyedHandler(handlers, event) ==> r == default)
      && (r.None? <==> !HasKeyedHandler(handlers, event) && default.None?)
      && (r.Some? ==> r.value in handlers.Values || r == default)
  {
  }

  /** The negotiation id carried by an event never influences which handler is chosen. */
  lemma SelectionIgnoresNegotiation(handlers: map<string, Handler>, default: Option<Handler>,
                                    event: EmailEvent, ngId: Option<string>)
    ensures SelectHandler(handlers, default, event) == SelectHandler(handlers, default, event.(ngId := ngId))
  {
  }

  /** The tasks `push` starts for `event`: at most one. */
  function DispatchesFor(handlers: map<string, Handler>, default: Option<Handler>, event: EmailEvent): (d: seq<Dispatch>)
    ensures |d| <= 1
    ensures |d| == 1 <==> SelectHandler(handlers, default, event).Some?
    ensures forall i :: 0 <= i < |d| ==> d[i].event == event
    ensures forall i :: 0 <= i < |d| ==> SelectHandler(handlers, default, event) == Some(d[i].handler)
  {
    match SelectHandler(handlers, default, event)
    case Some(h) => [Dispatch(h, event)]
    case None => []
  }

  class EmailEventRouter {
    /** `_handlers`: supplier id to handler. */
    var handlers: map<string, Handler>
    /** `_default_handler`. */
    var defaultHandler: Option<Handler>
    /** The tasks started so far, oldest first. */
    var dispatched: seq<Dispatch>

    constructor ()
      ensures handlers == map[] && defaultHandler == None && dispatched == []
    {
      handlers := map[];
      defaultHandler := None;
      dispatched := [];
    }

    /** Stores `handler` under `supplierId`, replacing any earlier one (router.py:38-44). */
    method Register(supplierId: string, handler: Handler)
      modifies this`handlers
      ensures handlers == old(handlers)[supplierId := handler]
    {
      handlers := handlers[supplierId := handler];
    }

    /** router.py:46-50. */
    method SetDefaultHandler(handler: Handler)
      modifies this`defaultHandler
      ensures defaultHandler == Some(handler)
    {
      defaultHandler := Some(handler);
    }

    /** `pop(supplier_id, None)`: removes the key if present, and is silent when it is not (router.py:52-54). */
    method Unregister(supplierId: string)
      modifies this`handlers
      ensures handlers == old(handlers) - {supplierId}
      ensures supplierId !in old(handlers) ==> handlers == old(handlers)
    {
      handlers := handlers - {supplierId};
    }

    /**
     * Starts at most one task for `event` (router.py:56-69); the handler table and the
     * default handler are left as they were.
     */
    method Push(event: EmailEvent)
      modifies this`dispatched
      ensures dispatched == old(dispatched) + DispatchesFor(handlers, defaultHandler, event)
    {
      var handler: Option<Handler> := None;
      if event.supplierId.Some? && event.supplierId.value != "" && event.supplierId.value in handlers {
        handler := Some(handlers[event.supplierId.value]);
      } else if defaultHandler.Some? {
        handler := defaultHandler;
      }
      if handler.Some? {
        dispatched := dispatched + [Dispatch(handler.value, event)];
      }
    }
  }

  /** The completion of an awaited step: it returned, or it raised with this message. */
  datatype StepResult = Done | Raised(error: string)

  /** The message of the `TypeError` raised by awaiting a `str`. */
  const AwaitStrError: string := "object str can't be used in 'await' expression"

  /** An external effect a session handler performs. */
  datatype Effect =
    | InsertMessage(ngId: string, supplierId: string, role: string, text: string)
    | GenerateInstructions(ngId: string)
    | AgentSendMessage(agent: Agents.NegotiationAgent)

  class NegotiationSession {
    const ngId: string
    const router: EmailEventRouter
    /** `_agents`: supplier id to that supplier's agent. */
    var agents: map<string, Agents.NegotiationAgent>

    /** router.py:80-93; the store and completion-service handles are not modelled. */
    constructor (ngId: string, router: EmailEventRouter)
      ensures this.ngId == ngId && this.router == router && agents == map[]
    {
      this.ngId := ngId;
      this.router := router;
      agents := map[];
    }

    /** `_make_handler`: the handler bound to this session and `supplierId`; running it is `Handle`. */
    function MakeHandler(supplierId: string): Handler
    {
      SessionHandler(this, supplierId)
    }

    /**
     * Stores the agent and registers this session's handler for the supplier, replacing
     * whatever handler was there, including one another session registered (router.py:95-98).
     */
    method AddAgent(supplierId: string, agent: Agents.NegotiationAgent)
      modifies this`agents, router`handlers
      ensures agents == old(agents)[supplierId := agent]
      ensures router.handlers == old(router.handlers)[supplierId := MakeHandler(supplierId)]
    {
      agents := agents[supplierId := agent];
      router.Register(supplierId, MakeHandler(supplierId));
    }

    /**
     * One run of the handler made for `supplierId` on `event` (router.py:105-124): the effects it
     * performs, in order, and how it ends. `store` and `refresh` are the outcomes of awaiting the
     * message insert and the orchestrator's refresh. The inserted message always names this
     * session's negotiation and the handler's supplier; the event's own ids are not consulted.
     * A raise ends the run after the effect that raised, with everything before it kept.
     * Only the agent stored for `supplierId`, read when the run reaches step 3, is asked to reply.
     * `send_message` is a plain function returning a string (agents.py:39), so awaiting its result
     * raises `TypeError` after the agent has replied: a run that reaches an agent ends raising.
     */
    method Handle(supplierId: string, event: EmailEvent, store: StepResult, refresh: StepResult)
      returns (trace: seq<Effect>, outcome: StepResult)
      ensures |trace| >= 1 && trace[0] == InsertMessage(ngId, supplierId, "supplier", event.body)
      ensures store.Raised? ==> |trace| == 1 && outcome == store
      ensures store.Done? ==> |trace| >= 2 && trace[1] == GenerateInstructions(ngId)
      ensures store.Done? && refresh.Raised? ==> |trace| == 2 && outcome == refresh
      ensures store.Done? && refresh.Done? ==>
                && (supplierId in agents ==>
                      trace == trace[..2] + [AgentSendMessage(agents[supplierId])] && outcome == Raised(AwaitStrError))
                && (supplierId !in agents ==> |trace| == 2 && outcome == Done)
    {
      // 1. store the inbound message
      trace := [InsertMessage(ngId, supplierId, "supplier", event.body)];
      if store.Raised? {
        return trace, store;
      }
      // 2. the orchestrator refreshes every supplier's instructions
      trace := trace + [GenerateInstructions(ngId)];
      if refresh.Raised? {
        return trace, refresh;
      }
      // 3. only this supplier's agent replies; awaiting the returned string raises
      outcome := Done;
      if supplierId in agents {
        trace := trace + [AgentSendMessage(agents[supplierId])];
        outcome := Raised(AwaitStrError);
      }
    }

    /**
     * Unregisters every supplier this session holds an agent for (router.py:128-131). The entry
     * goes even when another session registered that supplier since, and a second call changes
     * nothing more.
     */
    method Cleanup()
      modifies router`handlers
      ensures router.handlers == old(router.handlers) - agents.Keys
    {
      var pending := agents.Keys;
      while pending != {}
        invariant pending <= agents.Keys
        invariant router.handlers == old(router.handlers) - (agents.Keys - pending)
        decreases pending
      {
        var supplierId :| supplierId in pending;
        router.Unregister(supplierId);
        pending := pending - {supplierId};
      }
    }
  }

  /**
   * Two sessions sharing one router both add the same supplier: the router then holds only the
   * second session's handler, and the first session's cleanup removes that entry.
   */
  method SharedSupplierScenario(router: EmailEventRouter, a1: Agents.NegotiationAgent, a2: Agents.NegotiationAgent)
    returns (first: NegotiationSession, second: NegotiationSession, shared: Option<Handler>)
    modifies router`handlers
    ensures first != second
    ensures shared == Some(SessionHandler(second, "sup-1")) != Some(SessionHandler(first, "sup-1"))
    ensures "sup-1" !in router.handlers
  {
    first := new NegotiationSession("ng-1", router);
    second := new NegotiationSession("ng-2", router);
    first.AddAgent("sup-1", a1);
    second.AddAgent("sup-1", a2);
    shared := if "sup-1" in router.handlers then Some(router.handlers["sup-1"]) else None;
    first.Cleanup();
    first.Cleanup();
  }
}
