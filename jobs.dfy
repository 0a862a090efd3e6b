/**
 * The job wrapper around one received message: its id, body, queue and attempt count,
 * and the two ways of settling it, `delete` (acknowledge) and `release` (acknowledge,
 * then publish a copy with the attempt count raised).
 */
module Jobs {
  import opened Wrappers
  import opened PhpValues
  import opened Amqp

  /** The message property that counts deliveries. */
  const AttemptsProperty := "job-attempts"

  /** `attempts()`: the `job-attempts` property cast to int, 1 when the property is absent. */
  function AttemptsOf(m: Message): (n: int)
    ensures AttemptsProperty !in m.properties ==> n == 1
    ensures AttemptsProperty in m.properties && m.properties[AttemptsProperty].IntV? ==>
              n == m.properties[AttemptsProperty].i
  {
    IntCast(Property(m, AttemptsProperty, IntV(1)))
  }

  /** The clone `release` publishes: the same message with `job-attempts` set to one more than now. */
  function RequeueCopy(m: Message): (c: Message)
    ensures c.body == m.body && c.headers == m.headers && c.messageId == m.messageId
    ensures c.priority == m.priority && c.deliveryMode == m.deliveryMode
    ensures AttemptsProperty in c.properties
    ensures forall p | p in m.properties && p != AttemptsProperty :: p in c.properties && c.properties[p] == m.properties[p]
    ensures forall p | p in c.properties && p != AttemptsProperty :: p in m.properties
  {
    m.(properties := m.properties[AttemptsProperty := IntV(AttemptsOf(m) + 1)])
  }

  /** Each release adds exactly one attempt. */
  lemma AttemptsAfterRelease(m: Message)
    ensures AttemptsOf(RequeueCopy(m)) == AttemptsOf(m) + 1
  {
  }

  /** The message after `k` successive releases. */
  function Requeued(m: Message, k: nat): Message
  {
    if k == 0 then m else RequeueCopy(Requeued(m, k - 1))
  }

  /** A job released `k` times has been attempted `k` more times; a fresh one `1 + k` times. */
  lemma {:induction false} AttemptsAfterReleases(m: Message, k: nat)
    ensures AttemptsOf(Requeued(m, k)) == AttemptsOf(m) + k
    ensures AttemptsProperty !in m.properties ==> AttemptsOf(Requeued(m, k)) == 1 + k
  {
    if k > 0 {
      AttemptsAfterReleases(m, k - 1);
      AttemptsAfterRelease(Requeued(m, k - 1));
    }
  }

  /** The delivery delay `release($delay)` configures: whole seconds to milliseconds, none unless positive. */
  function ReleaseDelay(delay: int): (ms: Option<int>)
    ensures delay > 0 <==> ms.Some?
    ensures ms.Some? ==> ms.value == delay * 1000 && ms.value > 0
  {
    if delay > 0 then Some(delay * 1000) else None
  }

  /** `(string) $message->getMessageId()`: an absent id reads as the empty string. */
  function JobIdOf(m: Message): (id: string)
    ensures m.messageId.Some? ==> id == m.messageId.value
    ensures m.messageId.None? ==> id == ""
  {
    match m.messageId
    case Some(s) => s
    case None => ""
  }

  class Job {
    const broker: Broker
    /** The name of the queue the consumer that received the message reads from. */
    const queue: string
    const message: Message
    const connectionName: string
    var deleted: bool
    var released: bool

    constructor (broker: Broker, queue: string, message: Message, connectionName: string)
      ensures this.broker == broker && this.queue == queue && this.message == message
      ensures this.connectionName == connectionName
      ensures !deleted && !released
    {
      this.broker := broker;
      this.queue := queue;
      this.message := message;
      this.connectionName := connectionName;
      deleted := false;
      released := false;
    }

    /** `getJobId()`. */
    function GetJobId(): (id: string)
      ensures id == JobIdOf(message)
    {
      JobIdOf(message)
    }

    /** `getRawBody()`: the body exactly as received. */
    function GetRawBody(): (body: string)
      ensures body == message.body
    {
      message.body
    }

    /** `getQueue()`: the consumer's queue name. */
    function GetQueue(): (name: string)
      ensures name == queue
    {
      queue
    }

    /** `attempts()`. */
    function Attempts(): (n: int)
      ensures n == AttemptsOf(message)
    {
      AttemptsOf(message)
    }

    /** `delete()`: marks the job deleted and acknowledges exactly this message, once. */
    method Delete()
      requires broker.Valid() && message in broker.unacked
      modifies this, broker
      ensures deleted && released == old(released)
      ensures broker.Valid()
      ensures broker.unacked == old(broker.unacked) - multiset{message}
      ensures broker.log == old(broker.log) + [Acknowledged(message)]
      ensures broker.queues == old(broker.queues) && broker.delayed == old(broker.delayed)
      ensures broker.bindings == old(broker.bindings) && broker.nextTemporary == old(broker.nextTemporary)
    {
      deleted := true;
      broker.Acknowledge(message);
    }

    /**
     * `release($delay)`: marks the job released, acknowledges the original message and only
     * then publishes its copy, with one more attempt, to the consumer's queue; a positive
     * delay sends the copy through the delay plugin.
     */
    method Release(delay: int)
      requires broker.Valid() && message in broker.unacked
      modifies this, broker
      ensures released && deleted == old(deleted)
      ensures broker.Valid()
      ensures broker.unacked == old(broker.unacked) - multiset{message}
      ensures broker.log == old(broker.log) + [Acknowledged(message), Published(Named(queue), RequeueCopy(message), ReleaseDelay(delay))]
      ensures delay <= 0 ==> broker.queues == old(broker.queues)[Named(queue) := old(broker.Contents(Named(queue))) + [RequeueCopy(message)]]
      ensures delay <= 0 ==> broker.delayed == old(broker.delayed)
      ensures delay > 0 ==> broker.queues == old(broker.queues)
      ensures delay > 0 ==> broker.delayed == old(broker.delayed) + [Delayed(Named(queue), RequeueCopy(message), delay * 1000)]
      ensures broker.bindings == old(broker.bindings) && broker.nextTemporary == old(broker.nextTemporary)
    {
      released := true;
      var requeue := RequeueCopy(message);
      var delayMs := ReleaseDelay(delay);
      broker.Acknowledge(message);
      broker.Send(Named(queue), requeue, delayMs);
    }
  }
}
