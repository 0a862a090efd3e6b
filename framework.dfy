/**
 * The two framework services the driver reports to: the exception handler, which
 * collects reported faults, and the event dispatcher, which collects dispatched events.
 */
module Framework {
  import opened Amqp

  /** The exception classes the driver tells apart. */
  datatype FaultKind =
    | InvalidArgument
    | AmqpExchangeFault
    | AmqpConnectionFault
    | OtherFault

  datatype Fault =
    | PublishFailed(destination: QueueName, message: Message)
    | Raised(kind: FaultKind)

  class ExceptionHandler {
    var reports: seq<Fault>

    constructor ()
      ensures reports == []
    {
      reports := [];
    }

    /** `$handler->report($e)`. */
    method Report(f: Fault)
      modifies this
      ensures reports == old(reports) + [f]
    {
      reports := reports + [f];
    }
  }

  /** A named event with its `queue_id` and `exchange_id` payload. */
  datatype DispatchedEvent = DispatchedEvent(name: string, queueId: string, exchangeId: string)

  class EventDispatcher {
    var dispatched: seq<DispatchedEvent>

    constructor ()
      ensures dispatched == []
    {
      dispatched := [];
    }

    /** `$events->dispatch($name, $payload)`. */
    method Dispatch(e: DispatchedEvent)
      modifies this
      ensures dispatched == old(dispatched) + [e]
    {
      dispatched := dispatched + [e];
    }
  }
}
