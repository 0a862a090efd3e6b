/**
 * The listeners that bind a job queue to its delayed-jobs exchange when the exchange is
 * created, and unbind it when the exchange is deleted. Both look the exchange up in a
 * map built once, at construction, from the `queue.connections` configuration.
 */
module ExchangeBindListeners {
  import opened Wrappers
  import opened PhpValues
  import opened Amqp
  import opened Framework
  import Connectors

  const BindEventName := "queue.delayed-jobs.exchange.bind"
  const UnbindEventName := "queue.delayed-jobs.exchange.unbind"

  /** One `queue.connections.<name>` section, in configuration order. */
  datatype ConnectionConfig = ConnectionConfig(name: string, settings: map<string, Value>)

  /**
   * The `exchange id => queue id` pair a section adds to the map: only for the `rabbitmq`
   * driver, and only when both ids are strings.
   */
  function Contribution(settings: map<string, Value>): (r: Option<(string, string)>)
    ensures r.Some? <==> (Entry(settings, "driver") == StrV(Connectors.DriverName)
                          && Entry(settings, Connectors.QueueIdKey).StrV?
                          && Entry(settings, Connectors.DelayedExchangeKey).StrV?)
    ensures r.Some? ==> (Entry(settings, Connectors.DelayedExchangeKey) == StrV(r.value.0)
                         && Entry(settings, Connectors.QueueIdKey) == StrV(r.value.1))
  {
    if Entry(settings, "driver") != StrV(Connectors.DriverName) then None
    else
      var queueId := Entry(settings, Connectors.QueueIdKey);
      var exchangeId := Entry(settings, Connectors.DelayedExchangeKey);
      if queueId.StrV? && exchangeId.StrV? then Some((exchangeId.s, queueId.s)) else None
  }

  predicate Contributes(c: ConnectionConfig, exchangeId: string)
  {
    Contribution(c.settings).Some? && Contribution(c.settings).value.0 == exchangeId
  }

  /** The map the sections add up to, each later pair overwriting an earlier one. */
  function BindingsOf(cs: seq<ConnectionConfig>): map<string, string>
  {
    if |cs| == 0 then map[]
    else
      var m := BindingsOf(cs[..|cs| - 1]);
      match Contribution(cs[|cs| - 1].settings)
      case None => m
      case Some(pair) => m[pair.0 := pair.1]
  }

  /** `(array) $config->get(...)`: a missing section is no connections at all. */
  function Sections(connections: Option<seq<ConnectionConfig>>): seq<ConnectionConfig>
  {
    if connections.Some? then connections.value else []
  }

  /** The map after one more section: the section's pair, if any, written over the rest. */
  lemma BindingsSnoc(cs: seq<ConnectionConfig>, c: ConnectionConfig)
    ensures Contribution(c.settings).None? ==> BindingsOf(cs + [c]) == BindingsOf(cs)
    ensures Contribution(c.settings).Some? ==>
      BindingsOf(cs + [c]) == BindingsOf(cs)[Contribution(c.settings).value.0 := Contribution(c.settings).value.1]
  {
    assert (cs + [c])[..|cs|] == cs;
  }

  /** An exchange id is in the map exactly when some section contributes it. */
  lemma {:induction false} BindingsDomain(cs: seq<ConnectionConfig>, exchangeId: string)
    ensures exchangeId in BindingsOf(cs) <==> exists i | 0 <= i < |cs| :: Contributes(cs[i], exchangeId)
  {
    if |cs| > 0 {
      var init, last := cs[..|cs| - 1], cs[|cs| - 1];
      assert cs == init + [last];
      BindingsDomain(init, exchangeId);
      BindingsSnoc(init, last);
      if exchangeId in BindingsOf(cs) && !Contributes(last, exchangeId) {
        var i :| 0 <= i < |init| && Contributes(init[i], exchangeId);
        assert cs[i] == init[i];
      }
      if i :| 0 <= i < |cs| && Contributes(cs[i], exchangeId) {
        if i < |init| {
          assert init[i] == cs[i];
        }
      }
    }
  }

  /** A mapped exchange id maps to the queue id of the last section that contributes it. */
  lemma {:induction false} BindingsLastWins(cs: seq<ConnectionConfig>, exchangeId: string)
    requires exchangeId in BindingsOf(cs)
    ensures exists i | 0 <= i < |cs| :: Contribution(cs[i].settings) == Some((exchangeId, BindingsOf(cs)[exchangeId]))
                                       && forall j | i < j < |cs| :: !Contributes(cs[j], exchangeId)
  {
    var init, last := cs[..|cs| - 1], cs[|cs| - 1];
    assert cs == init + [last];
    BindingsSnoc(init, last);
    if Contributes(last, exchangeId) {
      assert Contribution(cs[|cs| - 1].settings) == Some((exchangeId, BindingsOf(cs)[exchangeId]));
    } else {
      assert BindingsOf(cs)[exchangeId] == BindingsOf(init)[exchangeId];
      BindingsLastWins(init, exchangeId);
      var i :| 0 <= i < |init| && Contribution(init[i].settings) == Some((exchangeId, BindingsOf(init)[exchangeId]))
               && forall j | i < j < |init| :: !Contributes(init[j], exchangeId);
      assert cs[i] == init[i];
      assert forall j | i < j < |cs| :: !Contributes(cs[j], exchangeId) by {
        forall j | i < j < |cs|
          ensures !Contributes(cs[j], exchangeId)
        {
          if j < |init| {
            assert cs[j] == init[j];
          }
        }
      }
    }
  }

  /** `getBindingsMap()`: the loop over the sections, filling the map. */
  method GetBindingsMap(connections: Option<seq<ConnectionConfig>>) returns (m: map<string, string>)
    ensures m == BindingsOf(Sections(connections))
  {
    var cs := if connections.Some? then connections.value else [];
    m := map[];
    var i := 0;
    while i < |cs|
      invariant i <= |cs|
      invariant m == BindingsOf(cs[..i])
    {
      assert cs[..i + 1][..i] == cs[..i];
      var settings := cs[i].settings;
      if Entry(settings, "driver") == StrV(Connectors.DriverName) {
        var queueId := Entry(settings, Connectors.QueueIdKey);
        var exchangeId := Entry(settings, Connectors.DelayedExchangeKey);
        if queueId.StrV? && exchangeId.StrV? {
          m := m[exchangeId.s := queueId.s];
        }
      }
      i := i + 1;
    }
    assert cs[..i] == cs;
  }

  /** Where a `handle` call can throw: resolving the queue, the broker call, or the dispatch. */
  datatype Stage = MakingQueue | CallingBroker | Dispatching

  /** An exception raised at `stage`, which `handle` reports and swallows. */
  datatype HandleFault = HandleFault(stage: Stage, kind: FaultKind)

  /**
   * The binding a listener makes for `exchangeId`: the mapped queue, under its name as the
   * queue factory resolves it, to the event's exchange, with the queue name as routing key.
   */
  function ListenerBinding(bindings: map<string, string>, queueNameOf: string -> string, exchangeId: string, exchange: string): (r: Option<Binding>)
    ensures r.Some? <==> exchangeId in bindings
    ensures r.Some? ==> r.value.queue == r.value.routingKey == queueNameOf(bindings[exchangeId]) && r.value.exchange == exchange
  {
    if exchangeId in bindings then
      var name := queueNameOf(bindings[exchangeId]);
      Some(Binding(name, exchange, name))
    else None
  }

  /** Binds the delayed-jobs exchange to its queue once the exchange has been created. */
  class CreateExchangeBind {
    const handler: ExceptionHandler
    const events: EventDispatcher
    /** The queue factory's resolution of a queue id to the queue's name. */
    const queueNameOf: string -> string
    /** Exchange id to queue id, computed once. */
    const bindingsMap: map<string, string>

    constructor (handler: ExceptionHandler, events: EventDispatcher, queueNameOf: string -> string, connections: Option<seq<ConnectionConfig>>)
      ensures this.handler == handler && this.events == events && this.queueNameOf == queueNameOf
      ensures bindingsMap == BindingsOf(Sections(connections))
    {
      var m := GetBindingsMap(connections);
      this.handler := handler;
      this.events := events;
      this.queueNameOf := queueNameOf;
      this.bindingsMap := m;
    }

    /**
     * `handle(ExchangeCreated)`: for a mapped exchange, binds and then dispatches the bind
     * event; a failure is reported and stops the rest. An unmapped exchange is ignored.
     */
    method Handle(connection: Broker, exchangeId: string, exchange: string, failure: Option<HandleFault>)
      requires connection.Valid()
      modifies connection, handler, events
      ensures connection.Valid()
      ensures var b := ListenerBinding(bindingsMap, queueNameOf, exchangeId, exchange);
        && (b.None? ==> connection.bindings == old(connection.bindings) && connection.log == old(connection.log)
                        && events.dispatched == old(events.dispatched) && handler.reports == old(handler.reports))
        && (b.Some? && failure.None? ==>
              && connection.bindings == old(connection.bindings) + {b.value}
              && connection.log == old(connection.log) + [Bound(b.value)]
              && events.dispatched == old(events.dispatched) + [DispatchedEvent(BindEventName, bindingsMap[exchangeId], exchangeId)]
              && handler.reports == old(handler.reports))
        && (b.Some? && failure.Some? ==>
              && (failure.value.stage == Dispatching ==> connection.bindings == old(connection.bindings) + {b.value} && connection.log == old(connection.log) + [Bound(b.value)])
              && (failure.value.stage != Dispatching ==> connection.bindings == old(connection.bindings) && connection.log == old(connection.log))
              && events.dispatched == old(events.dispatched)
              && handler.reports == old(handler.reports) + [Raised(failure.value.kind)])
      ensures connection.queues == old(connection.queues) && connection.unacked == old(connection.unacked)
      ensures connection.delayed == old(connection.delayed) && connection.nextTemporary == old(connection.nextTemporary)
    {
      if exchangeId in bindingsMap {
        var queueId := bindingsMap[exchangeId];
        if failure.Some? && failure.value.stage == MakingQueue {
          handler.Report(Raised(failure.value.kind));
          return;
        }
        var name := queueNameOf(queueId);
        if failure.Some? && failure.value.stage == CallingBroker {
          handler.Report(Raised(failure.value.kind));
          return;
        }
        connection.Bind(Binding(name, exchange, name));
        if failure.Some? {
          handler.Report(Raised(failure.value.kind));
          return;
        }
        events.Dispatch(DispatchedEvent(BindEventName, queueId, exchangeId));
      }
    }
  }

  /** Removes that binding when the delayed-jobs exchange is about to be deleted. */
  class RemoveExchangeBind {
    const handler: ExceptionHandler
    const events: EventDispatcher
    /** The queue factory's resolution of a queue id to the queue's name. */
    const queueNameOf: string -> string
    /** Exchange id to queue id, computed once. */
    const bindingsMap: map<string, string>

    constructor (handler: ExceptionHandler, events: EventDispatcher, queueNameOf: string -> string, connections: Option<seq<ConnectionConfig>>)
      ensures this.handler == handler && this.events == events && this.queueNameOf == queueNameOf
      ensures bindingsMap == BindingsOf(Sections(connections))
    {
      var m := GetBindingsMap(connections);
      this.handler := handler;
      this.events := events;
      this.queueNameOf := queueNameOf;
      this.bindingsMap := m;
    }

    /**
     * `handle(ExchangeDeleting)`: for a mapped exchange, unbinds and then dispatches the
     * unbind event; a failure is reported and stops the rest. An unmapped exchange is ignored.
     */
    method Handle(connection: Broker, exchangeId: string, exchange: string, failure: Option<HandleFault>)
      requires connection.Valid()
      modifies connection, handler, events
      ensures connection.Valid()
      ensures var b := ListenerBinding(bindingsMap, queueNameOf, exchangeId, exchange);
        && (b.None? ==> connection.bindings == old(connection.bindings) && connection.log == old(connection.log)
                        && events.dispatched == old(events.dispatched) && handler.reports == old(handler.reports))
        && (b.Some? && failure.None? ==>
              && connection.bindings == old(connection.bindings) - {b.value}
              && connection.log == old(connection.log) + [Unbound(b.value)]
              && events.dispatched == old(events.dispatched) + [DispatchedEvent(UnbindEventName, bindingsMap[exchangeId], exchangeId)]
              && handler.reports == old(handler.reports))
        && (b.Some? && failure.Some? ==>
              && (failure.value.stage == Dispatching ==> connection.bindings == old(connection.bindings) - {b.value} && connection.log == old(connection.log) + [Unbound(b.value)])
              && (failure.value.stage != Dispatching ==> connection.bindings == old(connection.bindings) && connection.log == old(connection.log))
              && events.dispatched == old(events.dispatched)
              && handler.reports == old(handler.reports) + [Raised(failure.value.kind)])
      ensures connection.queues == old(connection.queues) && connection.unacked == old(connection.unacked)
      ensures connection.delayed == old(connection.delayed) && connection.nextTemporary == old(connection.nextTemporary)
    {
      if exchangeId in bindingsMap {
        var queueId := bindingsMap[exchangeId];
        if failure.Some? && failure.value.stage == MakingQueue {
          handler.Report(Raised(failure.value.kind));
          return;
        }
        var name := queueNameOf(queueId);
        if failure.Some? && failure.value.stage == CallingBroker {
          handler.Report(Raised(failure.value.kind));
          return;
        }
        connection.Unbind(Binding(name, exchange, name));
        if failure.Some? {
          handler.Report(Raised(failure.value.kind));
          return;
        }
        events.Dispatch(DispatchedEvent(UnbindEventName, queueId, exchangeId));
      }
    }
  }
}
