/**
 * The `rabbitmq` queue connector: it checks a connection's configuration array and turns
 * it into the settings a queue is built from. The connection and queue factories, which
 * resolve the ids against the broker configuration, are outside the model: the settings
 * keep the configured ids themselves.
 */
module Connectors {
  import opened Wrappers
  import opened PhpValues

  /** The driver name under which the connector is registered. */
  const DriverName := "rabbitmq"

  const ConnectionKey := "connection"
  const QueueIdKey := "queue_id"
  const TimeoutKey := "timeout"
  const ResumeKey := "resume"
  const DelayedExchangeKey := "delayed_exchange_id"

  /** The `InvalidArgumentException`s `connect` throws. */
  datatype ConfigError = MissingConnection | MissingQueueId

  function ErrorMessage(e: ConfigError): string
  {
    match e
    case MissingConnection => "RabbitMQ connection name was not passed"
    case MissingQueueId => "RabbitMQ queue ID was not passed"
  }

  /**
   * What the queue is built from: the connection and queue ids handed to the factories,
   * the `timeout` and `resume` options, and the delayed exchange id, if any.
   */
  datatype Settings = Settings(connection: Value, queueId: Value, timeout: int, resume: bool, delayedExchange: Option<Value>)

  /** `$a ?? $default`: the entry, unless it is missing or null. */
  function Coalesce(a: map<string, Value>, key: string, default: Value): (v: Value)
    ensures IsSet(a, key) ==> v == a[key]
    ensures !IsSet(a, key) ==> v == default
  {
    if IsSet(a, key) then a[key] else default
  }

  /**
   * `connect($config)`: the connection name must be set (checked first), then the queue
   * id; `timeout` is `(int)` of the entry or 0, `resume` is `(bool)` of the entry or
   * false, and a delayed exchange exists exactly when its id is set.
   */
  function Connect(config: map<string, Value>): (r: Result<Settings, ConfigError>)
    ensures !IsSet(config, ConnectionKey) <==> r == Failure(MissingConnection)
    ensures IsSet(config, ConnectionKey) && !IsSet(config, QueueIdKey) <==> r == Failure(MissingQueueId)
    ensures r.Success? <==> IsSet(config, ConnectionKey) && IsSet(config, QueueIdKey)
    ensures r.Success? ==> r.value.connection == config[ConnectionKey] && r.value.queueId == config[QueueIdKey]
    ensures r.Success? ==> (r.value.delayedExchange.Some? <==> IsSet(config, DelayedExchangeKey))
    ensures r.Success? && r.value.delayedExchange.Some? ==> r.value.delayedExchange.value == config[DelayedExchangeKey]
    // `timeout` and `resume` are read independently of each other.
    ensures r.Success? ==> r.value.timeout == (if IsSet(config, TimeoutKey) then IntCast(config[TimeoutKey]) else 0)
    ensures r.Success? ==> r.value.resume == (if IsSet(config, ResumeKey) then BoolCast(config[ResumeKey]) else false)
  {
    if !IsSet(config, ConnectionKey) then
      Failure(MissingConnection)
    else if !IsSet(config, QueueIdKey) then
      Failure(MissingQueueId)
    else
      Success(Settings(
        config[ConnectionKey],
        config[QueueIdKey],
        IntCast(Coalesce(config, TimeoutKey, IntV(0))),
        BoolCast(Coalesce(config, ResumeKey, BoolV(false))),
        if IsSet(config, DelayedExchangeKey) then Some(config[DelayedExchangeKey]) else None))
  }

  /** Without `timeout` and `resume` entries (or with null ones), the queue neither times out nor resumes. */
  lemma ConnectDefaults(config: map<string, Value>)
    requires IsSet(config, ConnectionKey) && IsSet(config, QueueIdKey)
    requires !IsSet(config, TimeoutKey) && !IsSet(config, ResumeKey)
    ensures Connect(config).Success?
    ensures Connect(config).value.timeout == 0 && !Connect(config).value.resume
  {
  }

  /** A set `timeout` entry goes through the `(int)` cast and a set `resume` entry through the `(bool)` cast, each whether or not the other is set. */
  lemma ConnectCastsOptions(config: map<string, Value>)
    requires IsSet(config, ConnectionKey) && IsSet(config, QueueIdKey)
    ensures Connect(config).Success?
    ensures IsSet(config, TimeoutKey) ==> Connect(config).value.timeout == IntCast(config[TimeoutKey])
    ensures IsSet(config, ResumeKey) ==> Connect(config).value.resume == BoolCast(config[ResumeKey])
  {
  }

  /** Entries other than the five the connector reads change nothing. */
  lemma ConnectIgnoresOtherKeys(config: map<string, Value>, key: string, v: Value)
    requires key !in {ConnectionKey, QueueIdKey, TimeoutKey, ResumeKey, DelayedExchangeKey}
    ensures Connect(config[key := v]) == Connect(config)
  {
    var other := config[key := v];
    forall k | k in {ConnectionKey, QueueIdKey, TimeoutKey, ResumeKey, DelayedExchangeKey}
      ensures IsSet(other, k) == IsSet(config, k) && (IsSet(config, k) ==> other[k] == config[k])
    {
      assert k != key;
    }
  }
}
