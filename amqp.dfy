/**
 * The AMQP broker the driver talks to, reduced to what the driver observes: named and
 * temporary queues holding messages in order, messages held back by the delay plugin,
 * delivered-but-unsettled messages, queue-to-exchange bindings, and a log of every
 * operation in the order it happened.
 */
module Amqp {
  import opened Wrappers
  import opened PhpValues

  datatype DeliveryMode = NonPersistent | Persistent

  /** An AMQP message: body, custom properties, headers and the header fields the driver sets. */
  datatype Message = Message(
    body: string,
    properties: map<string, Value>,
    headers: map<string, Value>,
    messageId: Option<string>,
    priority: int,
    deliveryMode: DeliveryMode)

  /** `createMessage($body, $properties, $headers)`: no id, priority 0, transient. */
  function CreateMessage(body: string, properties: map<string, Value>, headers: map<string, Value>): Message
  {
    Message(body, properties, headers, None, 0, NonPersistent)
  }

  /** `$message->getProperty($name, $default)`. */
  function Property(m: Message, name: string, default: Value): Value
  {
    if name in m.properties then m.properties[name] else default
  }

  /** Queues are declared by name, or created by the broker as exclusive temporary queues. */
  datatype QueueName = Named(name: string) | Temporary(n: nat)

  /** A binding of a queue to an exchange with a routing key. */
  datatype Binding = Binding(queue: string, exchange: string, routingKey: string)

  /** A message the delay plugin holds until its delay has elapsed. */
  datatype Delayed = Delayed(destination: QueueName, message: Message, delayMs: int)

  datatype Event =
    | Received(queue: QueueName, message: Message)
    | Published(destination: QueueName, message: Message, delayMs: Option<int>)
    | Acknowledged(message: Message)
    | Rejected(queue: QueueName, message: Message, requeue: bool)
    | Purged(queue: QueueName)
    | QueueDeleted(queue: QueueName)
    | Bound(binding: Binding)
    | Unbound(binding: Binding)

  class Broker {
    var queues: map<QueueName, seq<Message>>
    var delayed: seq<Delayed>
    var unacked: multiset<Message>
    var bindings: set<Binding>
    var nextTemporary: nat
    var log: seq<Event>

    /** Temporary queue names are handed out by a counter, so a new one is always unused. */
    ghost predicate Valid()
      reads this
    {
      forall q | q in queues && q.Temporary? :: q.n < nextTemporary
    }

    /** The ready messages of `q`, oldest first; an undeclared queue holds none. */
    function Contents(q: QueueName): seq<Message>
      reads this
    {
      if q in queues then queues[q] else []
    }

    constructor ()
      ensures Valid()
      ensures queues == map[] && delayed == [] && unacked == multiset{}
      ensures bindings == {} && log == []
    {
      queues, delayed, unacked := map[], [], multiset{};
      bindings, nextTemporary, log := {}, 0, [];
    }

    /** `declareQueue`: the queue exists afterwards and keeps what it held. */
    method DeclareQueue(name: string)
      requires Valid()
      modifies this
      ensures Valid()
      ensures queues == old(queues)[Named(name) := old(Contents(Named(name)))]
      ensures delayed == old(delayed) && unacked == old(unacked) && bindings == old(bindings)
      ensures nextTemporary == old(nextTemporary) && log == old(log)
    {
      queues := queues[Named(name) := Contents(Named(name))];
    }

    /**
     * `$producer->send($destination, $message)`. Without a delivery delay the message is
     * appended to the destination; with one, the delay plugin holds it. The destination is
     * assumed to be declared; a publish to an undeclared queue is not modelled.
     */
    method Send(destination: QueueName, m: Message, delayMs: Option<int>)
      requires Valid()
      requires destination.Temporary? ==> destination.n < nextTemporary
      modifies this
      ensures Valid()
      ensures delayMs.None? ==> queues == old(queues)[destination := old(Contents(destination)) + [m]]
      ensures delayMs.None? ==> delayed == old(delayed)
      ensures delayMs.Some? ==> queues == old(queues)
      ensures delayMs.Some? ==> delayed == old(delayed) + [Delayed(destination, m, delayMs.value)]
      ensures log == old(log) + [Published(destination, m, delayMs)]
      ensures unacked == old(unacked) && bindings == old(bindings) && nextTemporary == old(nextTemporary)
    {
      if delayMs.None? {
        queues := queues[destination := Contents(destination) + [m]];
      } else {
        delayed := delayed + [Delayed(destination, m, delayMs.value)];
      }
      log := log + [Published(destination, m, delayMs)];
    }

    /**
     * `$consumer->receiveNoWait()`: the oldest ready message, now delivered and unsettled.
     * The queue is assumed to be declared; a receive from an undeclared queue is not modelled.
     */
    method ReceiveNoWait(q: QueueName) returns (r: Option<Message>)
      requires Valid()
      modifies this
      ensures Valid()
      ensures old(Contents(q)) == [] ==> r == None && queues == old(queues)
      ensures old(Contents(q)) == [] ==> unacked == old(unacked) && log == old(log)
      ensures old(Contents(q)) != [] ==> r == Some(old(Contents(q))[0])
      ensures old(Contents(q)) != [] ==> queues == old(queues)[q := old(Contents(q))[1..]]
      ensures old(Contents(q)) != [] ==> unacked == old(unacked) + multiset{r.value}
      ensures old(Contents(q)) != [] ==> log == old(log) + [Received(q, r.value)]
      ensures delayed == old(delayed) && bindings == old(bindings) && nextTemporary == old(nextTemporary)
    {
      if Contents(q) == [] {
        r := None;
      } else {
        var m := queues[q][0];
        queues := queues[q := queues[q][1..]];
        unacked := unacked + multiset{m};
        log := log + [Received(q, m)];
        r := Some(m);
      }
    }

    /** `$consumer->acknowledge($message)`: settles a delivered message for good. */
    method Acknowledge(m: Message)
      requires Valid() && m in unacked
      modifies this
      ensures Valid()
      ensures unacked == old(unacked) - multiset{m}
      ensures log == old(log) + [Acknowledged(m)]
      ensures queues == old(queues) && delayed == old(delayed)
      ensures bindings == old(bindings) && nextTemporary == old(nextTemporary)
    {
      unacked := unacked - multiset{m};
      log := log + [Acknowledged(m)];
    }

    /** `$consumer->reject($message, $requeue)`: settles a delivered message, putting it back first when asked. */
    method Reject(q: QueueName, m: Message, requeue: bool)
      requires Valid() && m in unacked
      requires q.Temporary? ==> q.n < nextTemporary
      modifies this
      ensures Valid()
      ensures unacked == old(unacked) - multiset{m}
      ensures log == old(log) + [Rejected(q, m, requeue)]
      ensures requeue ==> queues == old(queues)[q := [m] + old(Contents(q))]
      ensures !requeue ==> queues == old(queues)
      ensures delayed == old(delayed) && bindings == old(bindings) && nextTemporary == old(nextTemporary)
    {
      unacked := unacked - multiset{m};
      if requeue {
        queues := queues[q := [m] + Contents(q)];
      }
      log := log + [Rejected(q, m, requeue)];
    }

    /** `purgeQueue`: drops every ready message of a declared queue. */
    method Purge(q: QueueName)
      requires Valid() && q in queues
      modifies this
      ensures Valid()
      ensures queues == old(queues)[q := []]
      ensures log == old(log) + [Purged(q)]
      ensures delayed == old(delayed) && unacked == old(unacked)
      ensures bindings == old(bindings) && nextTemporary == old(nextTemporary)
    {
      queues := queues[q := []];
      log := log + [Purged(q)];
    }

    /** `createTemporaryQueue`: a new, empty queue under a name not used before. */
    method CreateTemporaryQueue() returns (t: QueueName)
      requires Valid()
      modifies this
      ensures Valid()
      ensures t == Temporary(old(nextTemporary)) && t !in old(queues)
      ensures queues == old(queues)[t := []]
      ensures nextTemporary == old(nextTemporary) + 1
      ensures log == old(log) && delayed == old(delayed) && unacked == old(unacked) && bindings == old(bindings)
    {
      t := Temporary(nextTemporary);
      queues := queues[t := []];
      nextTemporary := nextTemporary + 1;
    }

    /** `deleteQueue`. */
    method DeleteQueue(q: QueueName)
      requires Valid()
      modifies this
      ensures Valid()
      ensures queues == old(queues) - {q}
      ensures log == old(log) + [QueueDeleted(q)]
      ensures delayed == old(delayed) && unacked == old(unacked)
      ensures bindings == old(bindings) && nextTemporary == old(nextTemporary)
    {
      queues := queues - {q};
      log := log + [QueueDeleted(q)];
    }

    /** `bind(new AmqpBind(...))`. */
    method Bind(b: Binding)
      requires Valid()
      modifies this
      ensures Valid()
      ensures bindings == old(bindings) + {b} && log == old(log) + [Bound(b)]
      ensures queues == old(queues) && delayed == old(delayed)
      ensures unacked == old(unacked) && nextTemporary == old(nextTemporary)
    {
      bindings := bindings + {b};
      log := log + [Bound(b)];
    }

    /** `unbind(new AmqpBind(...))`. */
    method Unbind(b: Binding)
      requires Valid()
      modifies this
      ensures Valid()
      ensures bindings == old(bindings) - {b} && log == old(log) + [Unbound(b)]
      ensures queues == old(queues) && delayed == old(delayed)
      ensures unacked == old(unacked) && nextTemporary == old(nextTemporary)
    {
      bindings := bindings - {b};
      log := log + [Unbound(b)];
    }
  }
}
