/**
 * The producer and consumer side of the driver's queue: `push`, `later` and `pushRaw`
 * build one persistent JSON message per job and publish it to the configured queue;
 * `pop` turns the next ready message into a job.
 */
module Queues {
  import opened Wrappers
  import opened PhpValues
  import opened Amqp
  import opened InteractsWithJobs
  import opened Jobs

  /**
   * What `push` and `later` are given as `$job`: a class name, or an object that may
   * implement the prioritized-job interface (`prioritized` is then its `priority()`).
   */
  datatype JobRef = JobName(name: string) | JobObject(prioritized: Option<int>)

  /** The prefix of every message id the producer sets. */
  const JobIdPrefix := "job-"

  /** The message id `pushRaw` sets: `job-` and the first eight characters of the digest of its arguments. */
  function QueueMessageId(digest: string): (id: string)
    ensures |id| >= |JobIdPrefix| && id[..|JobIdPrefix|] == JobIdPrefix
  {
    GenerateMessageId(JobIdPrefix, digest)
  }

  /** With a real sha1 digest the id matches `job-[a-zA-Z0-9]{8}`. */
  lemma QueueMessageIdShape(digest: string)
    requires IsSha1Hex(digest)
    ensures |QueueMessageId(digest)| == |JobIdPrefix| + 8
    ensures forall i | |JobIdPrefix| <= i < |QueueMessageId(digest)| :: IsAlphaNumeric(QueueMessageId(digest)[i])
  {
    GeneratedIdShape(JobIdPrefix, digest);
  }

  /**
   * The options array `push` passes on: the job's own `priority()` when it is prioritized,
   * otherwise an integer priority argument, otherwise no priority at all.
   */
  function PushOptions(job: JobRef, priority: Option<int>): map<string, Value>
  {
    if job.JobObject? && job.prioritized.Some? then map["priority" := IntV(job.prioritized.value)]
    else if priority.Some? then map["priority" := IntV(priority.value)]
    else map[]
  }

  /** The options array `later` passes on: the same priority choice as `push`, plus the delay. */
  function LaterOptions(delay: Value, job: JobRef, priority: Option<int>): map<string, Value>
  {
    PushOptions(job, priority)["delay" := delay]
  }

  /** The headers of every produced message. */
  function ProducedHeaders(now: int): map<string, Value>
  {
    map["timestamp" := IntV(now), "content_type" := StrV("application/json")]
  }

  /**
   * The message `pushRaw` publishes for `payload` at time `now`: priority set (and clamped)
   * only for an integer `priority` option, persistent, with a `job-` id.
   */
  function PushedMessage(payload: string, options: map<string, Value>, now: int, digest: string): Message
  {
    var priority := if IsSet(options, "priority") && options["priority"].IntV? then NormalizePriorityValue(options["priority"].i) else 0;
    Message(payload, map[], ProducedHeaders(now), Some(QueueMessageId(digest)), priority, Persistent)
  }

  /**
   * The delivery delay `pushRaw` configures, in milliseconds: only for a set, numeric
   * `delay` option. The producer publishes directly when the delay comes out as zero.
   */
  function DeliveryDelay(options: map<string, Value>): Option<int>
  {
    if IsSet(options, "delay") && IsNumeric(options["delay"]) then
      var ms := DelayToMilliseconds(options["delay"]);
      if ms != 0 then Some(ms) else None
    else None
  }

  /** Every pushed message carries the payload, is persistent, is JSON, is stamped, and is a first attempt. */
  lemma PushedMessageShape(payload: string, options: map<string, Value>, now: int, digest: string)
    ensures var m := PushedMessage(payload, options, now, digest);
      && m.body == payload
      && m.deliveryMode == Persistent
      && m.headers["content_type"] == StrV("application/json")
      && m.headers["timestamp"] == IntV(now)
      && 0 <= m.priority <= MaxPriority
      && m.messageId.Some? && m.messageId.value[..4] == "job-"
      && AttemptsOf(m) == 1
  {
  }

  /** `pushRaw` sets a priority only from an integer option, and then always the clamped one. */
  lemma PushedPriority(payload: string, options: map<string, Value>, now: int, digest: string)
    ensures var m := PushedMessage(payload, options, now, digest);
      && (IsSet(options, "priority") && options["priority"].IntV? ==>
            m.priority == Max(0, Min(MaxPriority, options["priority"].i)))
      && (!IsSet(options, "priority") || !options["priority"].IntV? ==> m.priority == 0)
  {
  }

  /** A prioritized job's own priority beats the argument; an argument beats nothing; nothing leaves 0. */
  lemma PushPriorityPrecedence(job: JobRef, priority: Option<int>, payload: string, now: int, digest: string)
    ensures var p := PushedMessage(payload, PushOptions(job, priority), now, digest).priority;
      && (job.JobObject? && job.prioritized.Some? ==> p == NormalizePriorityValue(job.prioritized.value))
      && (!(job.JobObject? && job.prioritized.Some?) && priority.Some? ==> p == NormalizePriorityValue(priority.value))
      && (!(job.JobObject? && job.prioritized.Some?) && priority.None? ==> p == 0)
  {
  }

  /** `later` sends the message `push` would send, only delayed. */
  lemma LaterMatchesPush(delay: Value, job: JobRef, priority: Option<int>, payload: string, now: int, digest: string)
    ensures PushedMessage(payload, LaterOptions(delay, job, priority), now, digest)
         == PushedMessage(payload, PushOptions(job, priority), now, digest)
    ensures DeliveryDelay(PushOptions(job, priority)) == None
  {
  }

  /**
   * Whole seconds become milliseconds; a float is scaled and truncated (so 0.5 is 500 ms
   * and 0.1 is 100 ms); a delay that comes to 0 ms, null, a boolean and a missing delay set
   * no delay.
   */
  lemma DeliveryDelayOfValues(delay: Value, options: map<string, Value>)
    ensures delay.IntV? && delay.i != 0 ==> DeliveryDelay(options["delay" := delay]) == Some(delay.i * 1000)
    ensures delay.IntV? && delay.i == 0 ==> DeliveryDelay(options["delay" := delay]) == None
    ensures delay.FloatV? && TruncateTowardZero(delay.r * 1000.0) != 0 ==>
              DeliveryDelay(options["delay" := delay]) == Some(TruncateTowardZero(delay.r * 1000.0))
    ensures delay.FloatV? && TruncateTowardZero(delay.r * 1000.0) == 0 ==> DeliveryDelay(options["delay" := delay]) == None
    ensures delay.FloatV? && delay.r == 0.5 ==> DeliveryDelay(options["delay" := delay]) == Some(500)
    ensures delay.FloatV? && delay.r == 0.1 ==> DeliveryDelay(options["delay" := delay]) == Some(100)
    ensures delay.NullV? || delay.BoolV? ==> DeliveryDelay(options["delay" := delay]) == None
    ensures "delay" !in options ==> DeliveryDelay(options) == None
  {
  }

  /** A numeric string is cast to whole seconds; any other string sets no delay. */
  lemma DeliveryDelayOfStrings(s: string, options: map<string, Value>)
    ensures IsNumericString(s) && StringToInt(s) != 0 ==> DeliveryDelay(options["delay" := StrV(s)]) == Some(StringToInt(s) * 1000)
    ensures !IsNumericString(s) || StringToInt(s) == 0 ==> DeliveryDelay(options["delay" := StrV(s)]) == None
  {
    var o := options["delay" := StrV(s)];
    assert IsSet(o, "delay") && o["delay"] == StrV(s);
    assert IsNumeric(StrV(s)) == IsNumericString(s);
    assert DelayToMilliseconds(StrV(s)) == StringToInt(s) * 1000;
  }

  class Queue {
    const broker: Broker
    /** The one AMQP queue this queue publishes to and consumes from. */
    const queue: string
    /** How long `pop` waits for a message, in milliseconds. */
    const timeToRun: nat
    const timeout: int
    const resume: bool
    const connectionName: string

    /** The wait time is stored clamped at zero. */
    constructor (broker: Broker, queue: string, timeToRun: int, timeout: int, resume: bool, connectionName: string)
      ensures this.broker == broker && this.queue == queue && this.connectionName == connectionName
      ensures this.timeToRun == Max(0, timeToRun)
      ensures this.timeout == timeout && this.resume == resume
    {
      this.broker := broker;
      this.queue := queue;
      this.timeToRun := Max(0, timeToRun);
      this.timeout := timeout;
      this.resume := resume;
      this.connectionName := connectionName;
    }

    /** `getTimeToRun()`: never negative. */
    function GetTimeToRun(): (t: int)
      ensures t >= 0 && t == timeToRun
    {
      timeToRun
    }

    /**
     * `pushRaw`: builds the message step by step and sends it to this queue, through the
     * delay plugin when a delay is configured. The target-queue argument is not consulted.
     */
    method PushRaw(payload: string, options: map<string, Value>, now: int, digest: string)
      requires broker.Valid()
      modifies broker
      ensures broker.Valid()
      ensures broker.log == old(broker.log) + [Published(Named(queue), PushedMessage(payload, options, now, digest), DeliveryDelay(options))]
      ensures DeliveryDelay(options).None? ==>
                broker.queues == old(broker.queues)[Named(queue) := old(broker.Contents(Named(queue))) + [PushedMessage(payload, options, now, digest)]]
      ensures DeliveryDelay(options).Some? ==> broker.queues == old(broker.queues)
      ensures DeliveryDelay(options).Some? ==>
                broker.delayed == old(broker.delayed) + [Delayed(Named(queue), PushedMessage(payload, options, now, digest), DeliveryDelay(options).value)]
      ensures DeliveryDelay(options).None? ==> broker.delayed == old(broker.delayed)
      ensures broker.unacked == old(broker.unacked) && broker.bindings == old(broker.bindings)
      ensures broker.nextTemporary == old(broker.nextTemporary)
    {
      var message := CreateMessage(payload, map[], ProducedHeaders(now));
      var delay: Option<int> := None;
      if IsSet(options, "priority") && options["priority"].IntV? {
        message := message.(priority := NormalizePriorityValue(options["priority"].i));
      }
      if IsSet(options, "delay") && IsNumeric(options["delay"]) {
        var ms := DelayToMilliseconds(options["delay"]);
        if ms != 0 {
          delay := Some(ms);
        }
      }
      message := message.(deliveryMode := Persistent);
      message := message.(messageId := Some(QueueMessageId(digest)));
      broker.Send(Named(queue), message, delay);
    }

    /** `push`: publishes `payload` at once, with the priority chosen by `PushOptions`. */
    method Push(job: JobRef, payload: string, priority: Option<int>, now: int, digest: string)
      requires broker.Valid()
      modifies broker
      ensures broker.Valid()
      ensures broker.log == old(broker.log) + [Published(Named(queue), PushedMessage(payload, PushOptions(job, priority), now, digest), None)]
      ensures broker.queues == old(broker.queues)[Named(queue) := old(broker.Contents(Named(queue))) + [PushedMessage(payload, PushOptions(job, priority), now, digest)]]
      ensures broker.delayed == old(broker.delayed)
      ensures broker.unacked == old(broker.unacked) && broker.bindings == old(broker.bindings)
      ensures broker.nextTemporary == old(broker.nextTemporary)
    {
      LaterMatchesPush(NullV, job, priority, payload, now, digest);
      PushRaw(payload, PushOptions(job, priority), now, digest);
    }

    /** `later`: publishes the message `push` would, with the delay option always present. */
    method Later(delay: Value, job: JobRef, payload: string, priority: Option<int>, now: int, digest: string)
      requires broker.Valid()
      modifies broker
      ensures broker.Valid()
      ensures broker.log == old(broker.log) + [Published(Named(queue), PushedMessage(payload, PushOptions(job, priority), now, digest), DeliveryDelay(LaterOptions(delay, job, priority)))]
      // Without an effective delay the message is ready at once; with one it waits in the delay plugin.
      ensures DeliveryDelay(LaterOptions(delay, job, priority)).None? ==>
                && broker.queues == old(broker.queues)[Named(queue) := old(broker.Contents(Named(queue))) + [PushedMessage(payload, PushOptions(job, priority), now, digest)]]
                && broker.delayed == old(broker.delayed)
      ensures DeliveryDelay(LaterOptions(delay, job, priority)).Some? ==>
                && broker.queues == old(broker.queues)
                && broker.delayed == old(broker.delayed) + [Delayed(Named(queue), PushedMessage(payload, PushOptions(job, priority), now, digest), DeliveryDelay(LaterOptions(delay, job, priority)).value)]
      ensures broker.unacked == old(broker.unacked) && broker.bindings == old(broker.bindings)
      ensures broker.nextTemporary == old(broker.nextTemporary)
    {
      LaterMatchesPush(delay, job, priority, payload, now, digest);
      PushRaw(payload, LaterOptions(delay, job, priority), now, digest);
    }

    /**
     * `pop`: the oldest ready message of this queue as a job reading from this queue, or
     * null when there is none.
     */
    method Pop() returns (job: Job?)
      requires broker.Valid()
      modifies broker
      ensures broker.Valid()
      ensures old(broker.Contents(Named(queue))) == [] ==> job == null && broker.log == old(broker.log)
      ensures old(broker.Contents(Named(queue))) == [] ==> broker.queues == old(broker.queues) && broker.unacked == old(broker.unacked)
      ensures old(broker.Contents(Named(queue))) != [] ==>
                && job != null && fresh(job)
                && job.message == old(broker.Contents(Named(queue)))[0]
                && job.broker == broker && job.queue == queue && job.connectionName == connectionName
                && !job.deleted && !job.released
                && broker.unacked == old(broker.unacked) + multiset{job.message}
                && broker.queues == old(broker.queues)[Named(queue) := old(broker.Contents(Named(queue)))[1..]]
                && broker.log == old(broker.log) + [Received(Named(queue), job.message)]
      ensures broker.delayed == old(broker.delayed) && broker.bindings == old(broker.bindings)
      ensures broker.nextTemporary == old(broker.nextTemporary)
    {
      var received := broker.ReceiveNoWait(Named(queue));
      if received.None? {
        return null;
      }
      job := new Job(broker, queue, received.value, connectionName);
    }
  }
}
