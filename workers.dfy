/**
 * The queue worker's RabbitMQ loop: it subscribes a callback to the queue, lets the
 * broker push messages to it until the callback asks to stop or the wait times out, and
 * re-subscribes while the queue should resume and nothing asks the worker to stop.
 * The framework's own checks (maintenance mode, memory, restart signal, what a job does
 * when run) are inputs; every effect is recorded on the broker, the exception handler
 * or the worker's event log.
 */
module Workers {
  import opened Wrappers
  import opened PhpValues
  import opened Amqp
  import opened Framework
  import opened Jobs
  import opened Queues

  /** The worker options the loop reads. */
  datatype WorkerOptions = WorkerOptions(timeout: int, memory: int, stopWhenEmpty: bool)

  /** The answers of `memoryExceeded` and `queueShouldRestart` at one moment. */
  datatype FrameworkCheck = FrameworkCheck(memoryExceeded: bool, queueShouldRestart: bool)

  /** How turning a message into a job went: it worked, or it threw. */
  datatype Conversion = Converts | Throws(kind: FaultKind, causedByLostConnection: bool)

  /** How the job settled its message when it ran. */
  datatype RunOutcome = Deleted | ReleasedAfter(delay: int)

  /** An exception that escaped running the job and was caught by `runJob`. */
  datatype JobFault = JobFault(kind: FaultKind, causedByLostConnection: bool)

  /**
   * One message pushed to the callback, with the framework's answers while handling it:
   * whether the worker should run, how the conversion went, how the job settled the
   * message, whether an exception escaped the job afterwards, and the checks after it.
   */
  datatype Delivery = Delivery(shouldRun: bool, conversion: Conversion, outcome: RunOutcome, runFault: Option<JobFault>, check: FrameworkCheck)

  /** One subscription: the deliveries the broker makes before the wait ends, and the checks after it. */
  datatype Cycle = Cycle(deliveries: seq<Delivery>, check: FrameworkCheck)

  /** What the worker did besides talking to the broker. */
  datatype WorkerEvent =
    | SignalsInstalled
    | ConsumerTagged(tag: string)
    | Consuming(timeoutMs: int)
    | Paused
    | Slept(seconds: int)
    | TimeoutArmed
    | RanJob(jobId: string)
    | ConnectionClosed
    | Stopped

  /** `getTimeoutForWork`: the worker's own timeout in milliseconds when it is not negative, else the queue's. */
  function GetTimeoutForWork(workerTimeout: int, queueTimeout: int): (ms: int)
    ensures workerTimeout >= 0 ==> ms == workerTimeout * 1000 && ms >= 0
    ensures workerTimeout < 0 ==> ms == queueTimeout
  {
    if workerTimeout >= 0 then workerTimeout * 1000 else queueTimeout
  }

  /** `needToStop`: quitting, out of memory, restart requested, or `stopWhenEmpty` with no job. */
  function NeedToStop(shouldQuit: bool, options: WorkerOptions, check: FrameworkCheck, jobPresent: bool): (stop: bool)
    ensures shouldQuit || check.memoryExceeded || check.queueShouldRestart ==> stop
    ensures options.stopWhenEmpty && !jobPresent ==> stop
    ensures stop ==> shouldQuit || check.memoryExceeded || check.queueShouldRestart || (options.stopWhenEmpty && !jobPresent)
  {
    shouldQuit || check.memoryExceeded || check.queueShouldRestart || (options.stopWhenEmpty && !jobPresent)
  }

  /** After a job has run, `stopWhenEmpty` plays no part in the decision. */
  lemma NeedToStopAfterJob(shouldQuit: bool, options: WorkerOptions, check: FrameworkCheck)
    ensures NeedToStop(shouldQuit, options, check, true)
         == NeedToStop(shouldQuit, options.(stopWhenEmpty := false), check, false)
  {
  }

  /** The faults after which the worker must quit: AMQP exchange and connection errors, and lost connections. */
  function LostConnection(kind: FaultKind, causedByLostConnection: bool): (lost: bool)
    ensures kind == AmqpExchangeFault || kind == AmqpConnectionFault ==> lost
    ensures kind == InvalidArgument || kind == OtherFault ==> lost == causedByLostConnection
  {
    kind == AmqpExchangeFault || kind == AmqpConnectionFault || causedByLostConnection
  }

  /** A consumer tag is set only for a configured tag PHP reads as true; it is the tag, a dash and a unique suffix. */
  function ConsumerTagFor(configured: string, unique: string): (tag: Option<string>)
    ensures tag.Some? <==> BoolCast(StrV(configured))
    ensures tag.Some? ==> tag.value == configured + "-" + unique
  {
    if configured == "" || configured == "0" then None else Some(configured + "-" + unique)
  }

  /** What running the job leaves in the broker's log. */
  function SettleLog(m: Message, queue: string, outcome: RunOutcome): seq<Event>
  {
    match outcome
    case Deleted => [Acknowledged(m)]
    case ReleasedAfter(delay) => [Acknowledged(m), Published(Named(queue), RequeueCopy(m), ReleaseDelay(delay))]
  }

  /** What handling `d` for `m` adds to the broker's log after the receive. */
  function HandleLog(m: Message, queue: string, d: Delivery): seq<Event>
  {
    if d.shouldRun && d.conversion.Converts? then SettleLog(m, queue, d.outcome) else [Rejected(Named(queue), m, false)]
  }

  /** The errors handling `d` reports: a failed conversion, or an exception that escaped the job. */
  function HandleReports(d: Delivery): seq<Fault>
  {
    if !d.shouldRun then []
    else if d.conversion.Throws? then [Raised(d.conversion.kind)]
    else if d.runFault.Some? then [Raised(d.runFault.value.kind)]
    else []
  }

  /** Handling `d` raises an error after which the worker must quit. */
  predicate QuitsOn(d: Delivery)
  {
    && d.shouldRun
    && (if d.conversion.Throws? then LostConnection(d.conversion.kind, d.conversion.causedByLostConnection)
        else d.runFault.Some? && LostConnection(d.runFault.value.kind, d.runFault.value.causedByLostConnection))
  }

  /** What the callback returns for `d`, given `shouldQuit` after handling it: only a job that ran can stop consuming. */
  predicate Proceeds(d: Delivery, shouldQuit: bool, options: WorkerOptions)
  {
    !d.shouldRun || d.conversion.Throws? || !NeedToStop(shouldQuit, options, d.check, true)
  }

  /** `shouldQuit` after handling `ds` in order, starting from `start`. */
  predicate QuitAfter(start: bool, ds: seq<Delivery>)
    decreases |ds|
  {
    if ds == [] then start else QuitAfter(start || QuitsOn(ds[0]), ds[1..])
  }

  /** The errors reported while handling `ds`, in order. */
  function ReportsOf(ds: seq<Delivery>): seq<Fault>
  {
    if ds == [] then [] else HandleReports(ds[0]) + ReportsOf(ds[1..])
  }

  /** `shouldQuit` is never cleared while deliveries are handled. */
  lemma {:induction false} QuitAfterKeeps(start: bool, ds: seq<Delivery>)
    ensures start ==> QuitAfter(start, ds)
    decreases |ds|
  {
    if ds != [] {
      QuitAfterKeeps(start || QuitsOn(ds[0]), ds[1..]);
    }
  }

  /** The copy of `m` that settling it as `outcome` puts straight back on the queue. */
  function SettleRequeue(m: Message, outcome: RunOutcome): seq<Message>
  {
    if outcome.ReleasedAfter? && outcome.delay <= 0 then [RequeueCopy(m)] else []
  }

  /** The copy of `m` that settling it as `outcome` hands to the delay plugin. */
  function SettleDelayed(m: Message, queue: string, outcome: RunOutcome): seq<Delayed>
  {
    if outcome.ReleasedAfter? && outcome.delay > 0 then [Delayed(Named(queue), RequeueCopy(m), outcome.delay * 1000)] else []
  }

  /** The copy of `m` that handling `d` puts back on the queue: only a job that ran and was released without delay. */
  function HandleRequeue(m: Message, d: Delivery): seq<Message>
  {
    if d.shouldRun && d.conversion.Converts? then SettleRequeue(m, d.outcome) else []
  }

  /** The copy of `m` that handling `d` hands to the delay plugin: only a job that ran and was released with a delay. */
  function HandleDelayed(m: Message, queue: string, d: Delivery): seq<Delayed>
  {
    if d.shouldRun && d.conversion.Converts? then SettleDelayed(m, queue, d.outcome) else []
  }

  /**
   * What the subscription loop changes: the ready messages of the consumer's queue, what
   * the delay plugin holds, the broker log, the reported errors and `shouldQuit`.
   */
  datatype Run = Run(contents: seq<Message>, delayed: seq<Delayed>, log: seq<Event>, reports: seq<Fault>, quit: bool)

  /** One delivery: the oldest ready message is received and handled as `d` says. */
  function Deliver(r: Run, queue: string, d: Delivery): Run
    requires r.contents != []
  {
    var m := r.contents[0];
    Run(r.contents[1..] + HandleRequeue(m, d),
        r.delayed + HandleDelayed(m, queue, d),
        r.log + [Received(Named(queue), m)] + HandleLog(m, queue, d),
        r.reports + HandleReports(d),
        r.quit || QuitsOn(d))
  }

  /** The state after one subscription, and how many messages it handled. */
  datatype Consumption = Consumption(run: Run, handled: nat)

  /**
   * `consume`: messages are delivered one by one until the broker's deliveries for this
   * subscription run out, the queue is empty, or the callback returns false.
   */
  function ConsumeRun(r: Run, queue: string, ds: seq<Delivery>, options: WorkerOptions): (c: Consumption)
    ensures c.handled <= |ds|
    decreases |ds|
  {
    if ds == [] || r.contents == [] then Consumption(r, 0)
    else
      var next := Deliver(r, queue, ds[0]);
      if !Proceeds(ds[0], next.quit, options) then Consumption(next, 1)
      else
        var c := ConsumeRun(next, queue, ds[1..], options);
        Consumption(c.run, c.handled + 1)
  }

  /**
   * `consume` has handled `handled` messages and is at state `r` with the deliveries
   * `rest` still to come; `proceed` is the last callback's answer. It ends in `goal`.
   */
  predicate ConsumePending(goal: Consumption, r: Run, queue: string, rest: seq<Delivery>, options: WorkerOptions, handled: nat, proceed: bool)
  {
    if proceed then
      var c := ConsumeRun(r, queue, rest, options);
      goal == Consumption(c.run, c.handled + handled)
    else
      goal == Consumption(r, handled)
  }

  /** One delivery of `consume` keeps it on its way to `goal`. */
  lemma ConsumePendingStep(goal: Consumption, r: Run, queue: string, rest: seq<Delivery>, options: WorkerOptions, handled: nat)
    requires rest != [] && r.contents != [] && ConsumePending(goal, r, queue, rest, options, handled, true)
    ensures var next := Deliver(r, queue, rest[0]);
            ConsumePending(goal, next, queue, rest[1..], options, handled + 1, Proceeds(rest[0], next.quit, options))
  {
  }

  /** `consume` stops at `goal` once the deliveries or the messages run out or the callback says so. */
  lemma ConsumePendingDone(goal: Consumption, r: Run, queue: string, rest: seq<Delivery>, options: WorkerOptions, handled: nat, proceed: bool)
    requires rest == [] || r.contents == [] || !proceed
    requires ConsumePending(goal, r, queue, rest, options, handled, proceed)
    ensures goal == Consumption(r, handled)
  {
  }

  /** After a subscription, `shouldQuit` is as the deliveries it handled left it. */
  lemma {:induction false} ConsumeQuits(r: Run, queue: string, ds: seq<Delivery>, options: WorkerOptions)
    ensures var c := ConsumeRun(r, queue, ds, options);
            c.run.quit == QuitAfter(r.quit, ds[..c.handled])
    decreases |ds|
  {
    var c := ConsumeRun(r, queue, ds, options);
    if ds == [] || r.contents == [] {
      assert ds[..c.handled] == [];
    } else {
      var next := Deliver(r, queue, ds[0]);
      if !Proceeds(ds[0], next.quit, options) {
        assert c == Consumption(next, 1);
        assert ds[..1][0] == ds[0] && ds[..1][1..] == [];
      } else {
        ConsumeQuits(next, queue, ds[1..], options);
        var t := ConsumeRun(next, queue, ds[1..], options);
        assert c == Consumption(t.run, t.handled + 1);
        assert ds[..t.handled + 1][0] == ds[0] && ds[..t.handled + 1][1..] == ds[1..][..t.handled];
      }
    }
  }

  /** After a subscription, the reports are those of the deliveries it handled, in order. */
  lemma {:induction false} ConsumeReports(r: Run, queue: string, ds: seq<Delivery>, options: WorkerOptions)
    ensures var c := ConsumeRun(r, queue, ds, options);
            c.run.reports == r.reports + ReportsOf(ds[..c.handled])
    decreases |ds|
  {
    var c := ConsumeRun(r, queue, ds, options);
    if ds == [] || r.contents == [] {
      assert ds[..c.handled] == [];
    } else {
      var next := Deliver(r, queue, ds[0]);
      if !Proceeds(ds[0], next.quit, options) {
        assert c == Consumption(next, 1);
        assert ds[..1][0] == ds[0] && ds[..1][1..] == [];
        assert ReportsOf(ds[..1]) == HandleReports(ds[0]) + [];
      } else {
        ConsumeReports(next, queue, ds[1..], options);
        var t := ConsumeRun(next, queue, ds[1..], options);
        assert c == Consumption(t.run, t.handled + 1);
        var handled := ds[..t.handled + 1];
        assert handled[0] == ds[0] && handled[1..] == ds[1..][..t.handled];
        assert ReportsOf(handled) == HandleReports(ds[0]) + ReportsOf(ds[1..][..t.handled]);
        assert r.reports + HandleReports(ds[0]) + ReportsOf(ds[1..][..t.handled])
            == r.reports + (HandleReports(ds[0]) + ReportsOf(ds[1..][..t.handled]));
      }
    }
  }

  /**
   * Every callback of a subscription but the last asked to go on, and the subscription
   * ended early only because the last callback asked to stop or the queue ran dry.
   */
  lemma {:induction false} ConsumeStops(r: Run, queue: string, ds: seq<Delivery>, options: WorkerOptions)
    ensures var c := ConsumeRun(r, queue, ds, options);
            && (forall i | 0 <= i < c.handled - 1 :: Proceeds(ds[i], QuitAfter(r.quit, ds[..i + 1]), options))
            && (c.handled < |ds| ==> (0 < c.handled && !Proceeds(ds[c.handled - 1], c.run.quit, options)) || c.run.contents == [])
    decreases |ds|
  {
    var c := ConsumeRun(r, queue, ds, options);
    if ds != [] && r.contents != [] {
      var next := Deliver(r, queue, ds[0]);
      if Proceeds(ds[0], next.quit, options) {
        ConsumeStops(next, queue, ds[1..], options);
        var t := ConsumeRun(next, queue, ds[1..], options);
        assert c == Consumption(t.run, t.handled + 1);
        forall i | 0 <= i < c.handled - 1
          ensures Proceeds(ds[i], QuitAfter(r.quit, ds[..i + 1]), options)
        {
          var prefix := ds[..i + 1];
          assert prefix[0] == ds[0] && prefix[1..] == ds[1..][..i];
          assert QuitAfter(r.quit, prefix) == QuitAfter(next.quit, ds[1..][..i]);
          if i > 0 {
            assert ds[1..][i - 1] == ds[i] && (i - 1) + 1 == i;
          }
        }
      } else {
        assert c == Consumption(next, 1);
      }
    }
  }

  /** `shouldQuit` is never cleared by a subscription. */
  lemma {:induction false} ConsumeKeepsQuit(r: Run, queue: string, ds: seq<Delivery>, options: WorkerOptions)
    ensures r.quit ==> ConsumeRun(r, queue, ds, options).run.quit
  {
    ConsumeQuits(r, queue, ds, options);
    QuitAfterKeeps(r.quit, ds[..ConsumeRun(r, queue, ds, options).handled]);
  }

  /** The loop condition after a subscription: the queue should resume and the worker need not stop. */
  predicate Resubscribes(resume: bool, quit: bool, options: WorkerOptions, check: FrameworkCheck)
  {
    resume && !NeedToStop(quit, options, check, false)
  }

  /**
   * The state after the daemon loop: `shouldQuit` and the number of messages handled after
   * each subscription, and whether the loop ended (rather than the cycles running out).
   */
  datatype Subscriptions = Subscriptions(run: Run, quits: seq<bool>, handled: seq<nat>, closed: bool)

  /** The `do … while` loop of `daemon`: subscribe and consume, then test the loop condition. */
  function DaemonRun(r: Run, queue: string, cycles: seq<Cycle>, resume: bool, options: WorkerOptions): (s: Subscriptions)
    ensures |s.quits| == |s.handled| <= |cycles|
    ensures s.closed ==> 0 < |s.quits|
    ensures !s.closed ==> |s.quits| == |cycles|
    ensures 0 < |s.quits| ==> s.run.quit == s.quits[|s.quits| - 1]
    ensures |s.quits| == 0 ==> s.run == r
    decreases |cycles|
  {
    if cycles == [] then Subscriptions(r, [], [], false)
    else
      var c := ConsumeRun(r, queue, cycles[0].deliveries, options);
      if !Resubscribes(resume, c.run.quit, options, cycles[0].check) then
        Subscriptions(c.run, [c.run.quit], [c.handled], true)
      else
        var s := DaemonRun(c.run, queue, cycles[1..], resume, options);
        Subscriptions(s.run, [c.run.quit] + s.quits, [c.handled] + s.handled, s.closed)
  }

  /** One pass of the loop, carried over the subscriptions already made. */
  lemma DaemonStep(r: Run, queue: string, cycles: seq<Cycle>, resume: bool, options: WorkerOptions, quits: seq<bool>, handled: seq<nat>)
    requires cycles != []
    ensures var c := ConsumeRun(r, queue, cycles[0].deliveries, options);
            var s := DaemonRun(r, queue, cycles, resume, options);
            var t := DaemonRun(c.run, queue, cycles[1..], resume, options);
            && (Resubscribes(resume, c.run.quit, options, cycles[0].check) ==>
                  Subscriptions(s.run, quits + s.quits, handled + s.handled, s.closed)
                  == Subscriptions(t.run, (quits + [c.run.quit]) + t.quits, (handled + [c.handled]) + t.handled, t.closed))
            && (!Resubscribes(resume, c.run.quit, options, cycles[0].check) ==>
                  Subscriptions(s.run, quits + s.quits, handled + s.handled, s.closed)
                  == Subscriptions(c.run, quits + [c.run.quit], handled + [c.handled], true))
  {
    var c := ConsumeRun(r, queue, cycles[0].deliveries, options);
    var t := DaemonRun(c.run, queue, cycles[1..], resume, options);
    assert quits + ([c.run.quit] + t.quits) == (quits + [c.run.quit]) + t.quits;
    assert handled + ([c.handled] + t.handled) == (handled + [c.handled]) + t.handled;
  }

  /**
   * The loop has made the subscriptions `quits`/`handled` and is at state `r` with
   * `rest` still to come; `again` is the loop condition. The whole loop ends in `goal`.
   */
  predicate DaemonPending(goal: Subscriptions, r: Run, queue: string, rest: seq<Cycle>, resume: bool, options: WorkerOptions,
                    quits: seq<bool>, handled: seq<nat>, again: bool)
  {
    if again then
      var s := DaemonRun(r, queue, rest, resume, options);
      goal == Subscriptions(s.run, quits + s.quits, handled + s.handled, s.closed)
    else
      goal == Subscriptions(r, quits, handled, true)
  }

  /** One pass of the loop keeps it on its way to `goal`. */
  lemma DaemonPendingStep(goal: Subscriptions, r: Run, queue: string, rest: seq<Cycle>, resume: bool, options: WorkerOptions,
                    quits: seq<bool>, handled: seq<nat>)
    requires rest != [] && DaemonPending(goal, r, queue, rest, resume, options, quits, handled, true)
    ensures var c := ConsumeRun(r, queue, rest[0].deliveries, options);
            DaemonPending(goal, c.run, queue, rest[1..], resume, options, quits + [c.run.quit], handled + [c.handled],
                    Resubscribes(resume, c.run.quit, options, rest[0].check))
  {
    DaemonStep(r, queue, rest, resume, options, quits, handled);
  }

  /** The loop stops at `goal` once the cycles run out or its condition fails. */
  lemma DaemonPendingDone(goal: Subscriptions, r: Run, queue: string, rest: seq<Cycle>, resume: bool, options: WorkerOptions,
                    quits: seq<bool>, handled: seq<nat>, again: bool)
    requires rest == [] || !again
    requires DaemonPending(goal, r, queue, rest, resume, options, quits, handled, again)
    ensures goal == Subscriptions(r, quits, handled, !again)
  {
    if again {
      assert quits + [] == quits && handled + [] == handled;
    }
  }

  /** `handled[i]` is at most the number of deliveries of the `i`-th cycle. */
  predicate Within(cycles: seq<Cycle>, handled: seq<nat>)
    decreases |handled|
  {
    && |handled| <= |cycles|
    && (handled != [] ==> handled[0] <= |cycles[0].deliveries| && Within(cycles[1..], handled[1..]))
  }

  lemma {:induction false} WithinAt(cycles: seq<Cycle>, handled: seq<nat>)
    requires Within(cycles, handled)
    ensures |handled| <= |cycles|
    ensures forall i | 0 <= i < |handled| :: handled[i] <= |cycles[i].deliveries|
    decreases |handled|
  {
    if handled != [] {
      WithinAt(cycles[1..], handled[1..]);
      forall i | 0 < i < |handled|
        ensures handled[i] <= |cycles[i].deliveries|
      {
        assert handled[i] == handled[1..][i - 1] && cycles[i] == cycles[1..][i - 1];
      }
    }
  }

  /** Each subscription starts from the `shouldQuit` the previous one left and changes it as its handled deliveries say. */
  predicate QuitChain(start: bool, cycles: seq<Cycle>, quits: seq<bool>, handled: seq<nat>)
    requires Within(cycles, handled)
    decreases |handled|
  {
    && |quits| == |handled|
    && (handled != [] ==>
          && quits[0] == QuitAfter(start, cycles[0].deliveries[..handled[0]])
          && QuitChain(quits[0], cycles[1..], quits[1..], handled[1..]))
  }

  lemma {:induction false} QuitChainAt(start: bool, cycles: seq<Cycle>, quits: seq<bool>, handled: seq<nat>)
    requires Within(cycles, handled) && QuitChain(start, cycles, quits, handled)
    ensures |quits| == |handled| <= |cycles|
    ensures forall i | 0 <= i < |handled| :: handled[i] <= |cycles[i].deliveries|
    ensures forall i | 0 <= i < |quits| ::
              quits[i] == QuitAfter(if i == 0 then start else quits[i - 1], cycles[i].deliveries[..handled[i]])
    decreases |handled|
  {
    WithinAt(cycles, handled);
    if handled != [] {
      QuitChainAt(quits[0], cycles[1..], quits[1..], handled[1..]);
      forall i | 0 < i < |quits|
        ensures quits[i] == QuitAfter(quits[i - 1], cycles[i].deliveries[..handled[i]])
      {
        assert quits[i] == quits[1..][i - 1] && handled[i] == handled[1..][i - 1] && cycles[i] == cycles[1..][i - 1];
        assert quits[i - 1] == if i - 1 == 0 then quits[0] else quits[1..][i - 2];
      }
    }
  }

  /** Along a chain `shouldQuit` is never cleared: once set, every later subscription ends with it set. */
  lemma {:induction false} QuitChainKeeps(start: bool, cycles: seq<Cycle>, quits: seq<bool>, handled: seq<nat>)
    requires Within(cycles, handled) && QuitChain(start, cycles, quits, handled)
    ensures forall i | 0 <= i < |quits| :: start ==> quits[i]
    ensures forall i, j | 0 <= i < j < |quits| :: quits[i] ==> quits[j]
    decreases |handled|
  {
    if handled != [] {
      QuitAfterKeeps(start, cycles[0].deliveries[..handled[0]]);
      QuitChainKeeps(quits[0], cycles[1..], quits[1..], handled[1..]);
      forall i, j | 0 <= i < j < |quits|
        ensures quits[i] ==> quits[j]
      {
        assert quits[j] == quits[1..][j - 1];
        if i > 0 {
          assert quits[i] == quits[1..][i - 1];
        }
      }
    }
  }

  /** The errors reported by the subscriptions, in order. */
  function CycleReports(cycles: seq<Cycle>, handled: seq<nat>): seq<Fault>
    requires Within(cycles, handled)
    decreases |handled|
  {
    if handled == [] then []
    else ReportsOf(cycles[0].deliveries[..handled[0]]) + CycleReports(cycles[1..], handled[1..])
  }

  /**
   * The loop went on after every subscription but the last; after the last it ended
   * (`closed`) exactly when the loop condition failed.
   */
  predicate ResubscribeChain(resume: bool, options: WorkerOptions, cycles: seq<Cycle>, quits: seq<bool>, closed: bool)
    decreases |quits|
  {
    && |quits| <= |cycles|
    && (|quits| == 0 ==> !closed)
    && (|quits| == 1 ==> (closed <==> !Resubscribes(resume, quits[0], options, cycles[0].check)))
    && (|quits| > 1 ==>
          && Resubscribes(resume, quits[0], options, cycles[0].check)
          && ResubscribeChain(resume, options, cycles[1..], quits[1..], closed))
  }

  lemma {:induction false} ResubscribeChainAt(resume: bool, options: WorkerOptions, cycles: seq<Cycle>, quits: seq<bool>, closed: bool)
    requires ResubscribeChain(resume, options, cycles, quits, closed)
    ensures |quits| <= |cycles|
    ensures forall i | 0 <= i < |quits| - 1 :: Resubscribes(resume, quits[i], options, cycles[i].check)
    ensures closed ==> 0 < |quits| && !Resubscribes(resume, quits[|quits| - 1], options, cycles[|quits| - 1].check)
    ensures !closed && 0 < |quits| ==> Resubscribes(resume, quits[|quits| - 1], options, cycles[|quits| - 1].check)
    decreases |quits|
  {
    if |quits| > 1 {
      ResubscribeChainAt(resume, options, cycles[1..], quits[1..], closed);
      forall i | 0 < i < |quits|
        ensures quits[i] == quits[1..][i - 1] && cycles[i] == cycles[1..][i - 1]
      {
      }
    }
  }

  /** The subscriptions of the loop form a chain of `shouldQuit` values. */
  lemma {:induction false} DaemonQuits(r: Run, queue: string, cycles: seq<Cycle>, resume: bool, options: WorkerOptions)
    ensures var s := DaemonRun(r, queue, cycles, resume, options);
            Within(cycles, s.handled) && QuitChain(r.quit, cycles, s.quits, s.handled)
    decreases |cycles|
  {
    if cycles != [] {
      var c := ConsumeRun(r, queue, cycles[0].deliveries, options);
      ConsumeQuits(r, queue, cycles[0].deliveries, options);
      var s := DaemonRun(r, queue, cycles, resume, options);
      if Resubscribes(resume, c.run.quit, options, cycles[0].check) {
        DaemonQuits(c.run, queue, cycles[1..], resume, options);
        var t := DaemonRun(c.run, queue, cycles[1..], resume, options);
        assert s.quits[0] == c.run.quit && s.quits[1..] == t.quits && s.handled[1..] == t.handled;
      } else {
        assert s.quits[1..] == [] && s.handled[1..] == [];
      }
    }
  }

  /** After the loop the reports are those of every subscription, in order. */
  lemma {:induction false} DaemonReports(r: Run, queue: string, cycles: seq<Cycle>, resume: bool, options: WorkerOptions)
    ensures var s := DaemonRun(r, queue, cycles, resume, options);
            Within(cycles, s.handled) && s.run.reports == r.reports + CycleReports(cycles, s.handled)
    decreases |cycles|
  {
    DaemonQuits(r, queue, cycles, resume, options);
    if cycles != [] {
      var c := ConsumeRun(r, queue, cycles[0].deliveries, options);
      ConsumeReports(r, queue, cycles[0].deliveries, options);
      var s := DaemonRun(r, queue, cycles, resume, options);
      var first := ReportsOf(cycles[0].deliveries[..c.handled]);
      if Resubscribes(resume, c.run.quit, options, cycles[0].check) {
        DaemonReports(c.run, queue, cycles[1..], resume, options);
        var t := DaemonRun(c.run, queue, cycles[1..], resume, options);
        assert s == Subscriptions(t.run, [c.run.quit] + t.quits, [c.handled] + t.handled, t.closed);
        assert s.handled[0] == c.handled && s.handled[1..] == t.handled;
        assert CycleReports(cycles, s.handled) == first + CycleReports(cycles[1..], t.handled);
        assert r.reports + first + CycleReports(cycles[1..], t.handled) == r.reports + (first + CycleReports(cycles[1..], t.handled));
      } else {
        assert s == Subscriptions(c.run, [c.run.quit], [c.handled], true);
        assert s.handled[0] == c.handled && s.handled[1..] == [];
        assert CycleReports(cycles, s.handled) == first + [];
      }
    }
  }

  /** The loop subscribes again exactly while the queue should resume and the worker need not stop. */
  lemma {:induction false} DaemonResubscribes(r: Run, queue: string, cycles: seq<Cycle>, resume: bool, options: WorkerOptions)
    ensures var s := DaemonRun(r, queue, cycles, resume, options);
            ResubscribeChain(resume, options, cycles, s.quits, s.closed)
    decreases |cycles|
  {
    if cycles != [] {
      var c := ConsumeRun(r, queue, cycles[0].deliveries, options);
      if Resubscribes(resume, c.run.quit, options, cycles[0].check) {
        DaemonResubscribes(c.run, queue, cycles[1..], resume, options);
        var s := DaemonRun(r, queue, cycles, resume, options);
        var t := DaemonRun(c.run, queue, cycles[1..], resume, options);
        assert s.quits[0] == c.run.quit && s.quits[1..] == t.quits;
      }
    }
  }

  /** No event of `s` closes the connection. */
  predicate KeepsConnection(s: seq<WorkerEvent>)
  {
    forall i | 0 <= i < |s| :: s[i] != ConnectionClosed
  }

  /** `after` is `before` with events appended, none of which closes the connection. */
  ghost predicate Extends(before: seq<WorkerEvent>, after: seq<WorkerEvent>)
  {
    |before| <= |after| && after[..|before|] == before && KeepsConnection(after[|before|..])
  }

  /** Appending events that keep the connection extends a log. */
  lemma ExtendsAppend(s: seq<WorkerEvent>, t: seq<WorkerEvent>)
    requires KeepsConnection(t)
    ensures Extends(s, s + t)
  {
    assert (s + t)[..|s|] == s;
    assert (s + t)[|s|..] == t;
  }

  /** Two extensions in a row are one extension. */
  lemma ExtendsTrans(a: seq<WorkerEvent>, b: seq<WorkerEvent>, c: seq<WorkerEvent>)
    requires Extends(a, b) && Extends(b, c)
    ensures Extends(a, c)
  {
    assert c[..|a|] == b[..|a|];
    forall i | |a| <= i < |c|
      ensures c[i] != ConnectionClosed
    {
      if i < |b| {
        assert c[i] == b[i] == b[|a|..][i - |a|];
      } else {
        assert c[i] == c[|b|..][i - |b|];
      }
    }
    assert forall i | 0 <= i < |c[|a|..]| :: c[|a|..][i] == c[i + |a|];
  }

  class Worker {
    var shouldQuit: bool
    const consumerTag: string
    const asyncSignals: bool
    const handler: ExceptionHandler
    var events: seq<WorkerEvent>

    constructor (handler: ExceptionHandler, consumerTag: string, asyncSignals: bool)
      ensures this.handler == handler && this.consumerTag == consumerTag && this.asyncSignals == asyncSignals
      ensures !shouldQuit && events == []
    {
      this.handler := handler;
      this.consumerTag := consumerTag;
      this.asyncSignals := asyncSignals;
      shouldQuit := false;
      events := [];
    }

    /** `stopWorkerIfLostConnection`: sets `shouldQuit` after a lost connection and never clears it. */
    method StopWorkerIfLostConnection(kind: FaultKind, causedByLostConnection: bool)
      modifies this
      ensures shouldQuit == (old(shouldQuit) || LostConnection(kind, causedByLostConnection))
      ensures events == old(events)
    {
      if LostConnection(kind, causedByLostConnection) {
        shouldQuit := true;
      }
    }

    /**
     * `runJob`: the job settles its message by deleting or releasing it; an exception
     * escaping it afterwards is reported, and the worker quits if it means a lost connection.
     */
    method RunJob(q: Queue, d: Delivery, m: Message)
      requires q.broker.Valid() && m in q.broker.unacked
      modifies this, q.broker, handler
      ensures q.broker.Valid()
      ensures q.broker.unacked == old(q.broker.unacked) - multiset{m}
      ensures q.broker.bindings == old(q.broker.bindings) && q.broker.nextTemporary == old(q.broker.nextTemporary)
      ensures q.broker.log == old(q.broker.log) + SettleLog(m, q.queue, d.outcome)
      // Only a release without delay puts the message back on the queue, and only one with a delay hands it to the plugin.
      ensures SettleRequeue(m, d.outcome) == [] ==> q.broker.queues == old(q.broker.queues)
      ensures SettleRequeue(m, d.outcome) != [] ==>
                q.broker.queues == old(q.broker.queues)[Named(q.queue) := old(q.broker.Contents(Named(q.queue))) + SettleRequeue(m, d.outcome)]
      ensures q.broker.delayed == old(q.broker.delayed) + SettleDelayed(m, q.queue, d.outcome)
      ensures events == old(events) + [RanJob(JobIdOf(m))]
      // A job that ran cleanly reports nothing and leaves `shouldQuit` alone.
      ensures d.runFault.None? ==> handler.reports == old(handler.reports) && shouldQuit == old(shouldQuit)
      // An exception escaping the job is reported, and the worker quits after a lost connection.
      ensures d.runFault.Some? ==>
                && handler.reports == old(handler.reports) + [Raised(d.runFault.value.kind)]
                && shouldQuit == (old(shouldQuit) || LostConnection(d.runFault.value.kind, d.runFault.value.causedByLostConnection))
    {
      var job := new Job(q.broker, q.queue, m, q.connectionName);
      match d.outcome {
        case Deleted => job.Delete();
        case ReleasedAfter(delay) => job.Release(delay);
      }
      if d.runFault.Some? {
        handler.Report(Raised(d.runFault.value.kind));
        StopWorkerIfLostConnection(d.runFault.value.kind, d.runFault.value.causedByLostConnection);
      }
      events := events + [RanJob(job.GetJobId())];
    }

    /**
     * The callback subscribed to the queue, for one delivered message `m`. It returns
     * whether consuming should go on.
     */
    method HandleMessage(q: Queue, options: WorkerOptions, d: Delivery, m: Message) returns (proceed: bool, ghost added: seq<WorkerEvent>)
      requires q.broker.Valid() && m in q.broker.unacked
      modifies this, q.broker, handler
      ensures q.broker.Valid()
      ensures q.broker.unacked == old(q.broker.unacked) - multiset{m}
      ensures q.broker.bindings == old(q.broker.bindings) && q.broker.nextTemporary == old(q.broker.nextTemporary)
      ensures old(shouldQuit) ==> shouldQuit
      ensures events == old(events) + added && |added| > 0 && KeepsConnection(added)
      // A rejected message is gone; a job's release puts a copy back on the queue or on the delay plugin.
      ensures HandleRequeue(m, d) == [] ==> q.broker.queues == old(q.broker.queues)
      ensures HandleRequeue(m, d) != [] ==>
                q.broker.queues == old(q.broker.queues)[Named(q.queue) := old(q.broker.Contents(Named(q.queue))) + HandleRequeue(m, d)]
      ensures q.broker.delayed == old(q.broker.delayed) + HandleDelayed(m, q.queue, d)
      // The queue is paused: the message is rejected and the worker pauses.
      ensures !d.shouldRun ==>
                && proceed
                && q.broker.log == old(q.broker.log) + [Rejected(Named(q.queue), m, false)]
                && events == old(events) + [Paused]
                && handler.reports == old(handler.reports) && shouldQuit == old(shouldQuit)
      // The message is not a job: it is rejected, the error reported, and the worker sleeps.
      ensures d.shouldRun && d.conversion.Throws? ==>
                && proceed
                && q.broker.log == old(q.broker.log) + [Rejected(Named(q.queue), m, false)]
                && handler.reports == old(handler.reports) + [Raised(d.conversion.kind)]
                && shouldQuit == (old(shouldQuit) || LostConnection(d.conversion.kind, d.conversion.causedByLostConnection))
                && events == old(events) + [Slept(3)]
      // The job runs; consuming stops exactly when the worker needs to stop.
      ensures d.shouldRun && d.conversion.Converts? ==>
                && proceed == !NeedToStop(shouldQuit, options, d.check, true)
                && q.broker.log == old(q.broker.log) + SettleLog(m, q.queue, d.outcome)
                && events == old(events) + (if asyncSignals then [TimeoutArmed] else []) + [RanJob(JobIdOf(m))]
      // A job that ran cleanly reports nothing and leaves `shouldQuit` alone.
      ensures d.shouldRun && d.conversion.Converts? && d.runFault.None? ==>
                handler.reports == old(handler.reports) && shouldQuit == old(shouldQuit)
      // An exception escaping the job is reported, and the worker quits after a lost connection.
      ensures d.shouldRun && d.conversion.Converts? && d.runFault.Some? ==>
                && handler.reports == old(handler.reports) + [Raised(d.runFault.value.kind)]
                && shouldQuit == (old(shouldQuit) || LostConnection(d.runFault.value.kind, d.runFault.value.causedByLostConnection))
    {
      if !d.shouldRun {
        q.broker.Reject(Named(q.queue), m, false);
        events := events + [Paused];
        return true, [Paused];
      }
      if d.conversion.Throws? {
        q.broker.Reject(Named(q.queue), m, false);
        handler.Report(Raised(d.conversion.kind));
        StopWorkerIfLostConnection(d.conversion.kind, d.conversion.causedByLostConnection);
        events := events + [Slept(3)];
        return true, [Slept(3)];
      }
      if asyncSignals {
        events := events + [TimeoutArmed];
      }
      RunJob(q, d, m);
      added := (if asyncSignals then [TimeoutArmed] else []) + [RanJob(JobIdOf(m))];
      proceed := !NeedToStop(shouldQuit, options, d.check, true);
    }

    /** The part of the state the subscription loop changes. */
    function Snapshot(q: Queue): Run
      reads this`shouldQuit, q.broker, handler
    {
      Run(q.broker.Contents(Named(q.queue)), q.broker.delayed, q.broker.log, handler.reports, shouldQuit)
    }

    /**
     * One round of the subscription loop: the broker delivers the oldest message of the
     * queue and the callback handles it. `None` when the queue is empty; then nothing
     * changes and consuming stops.
     */
    method DeliverNext(q: Queue, options: WorkerOptions, d: Delivery) returns (received: Option<Message>, proceed: bool)
      requires q.broker.Valid()
      modifies this, q.broker, handler
      ensures q.broker.Valid()
      ensures received.None? <==> old(q.broker.Contents(Named(q.queue))) == []
      ensures received.None? ==> q.broker.queues == old(q.broker.queues) && Snapshot(q) == old(Snapshot(q))
      ensures received.Some? ==>
                && received.value == old(q.broker.Contents(Named(q.queue)))[0]
                && Snapshot(q) == Deliver(old(Snapshot(q)), q.queue, d)
                && q.broker.queues == old(q.broker.queues)[Named(q.queue) := q.broker.Contents(Named(q.queue))]
                && proceed == Proceeds(d, shouldQuit, options)
      ensures q.broker.unacked == old(q.broker.unacked)
      ensures q.broker.bindings == old(q.broker.bindings) && q.broker.nextTemporary == old(q.broker.nextTemporary)
      ensures received.None? ==> events == old(events)
      ensures Extends(old(events), events)
    {
      received := q.broker.ReceiveNoWait(Named(q.queue));
      if received.None? {
        assert events[..|events|] == events;
        return received, false;
      }
      ghost var unacked := q.broker.unacked;
      ghost var added;
      proceed, added := HandleMessage(q, options, d, received.value);
      ExtendsAppend(old(events), added);
      assert unacked - multiset{received.value} == old(q.broker.unacked);
    }

    /**
     * `consume`: hands the queue's messages to the callback one by one, until the
     * callback asks to stop, the queue runs dry (the wait times out) or the broker has
     * no more deliveries for this subscription. Returns how many messages were handled.
     */
    method Consume(q: Queue, options: WorkerOptions, deliveries: seq<Delivery>) returns (handled: nat)
      requires q.broker.Valid()
      modifies this, q.broker, handler
      ensures q.broker.Valid()
      ensures var c := ConsumeRun(old(Snapshot(q)), q.queue, deliveries, options);
              Snapshot(q) == c.run && handled == c.handled
      // No other queue changes.
      ensures q.broker.queues - {Named(q.queue)} == old(q.broker.queues) - {Named(q.queue)}
      ensures q.broker.unacked == old(q.broker.unacked)
      ensures q.broker.bindings == old(q.broker.bindings) && q.broker.nextTemporary == old(q.broker.nextTemporary)
      ensures handled <= |deliveries|
      ensures old(shouldQuit) ==> shouldQuit
      ensures shouldQuit == QuitAfter(old(shouldQuit), deliveries[..handled])
      ensures handler.reports == old(handler.reports) + ReportsOf(deliveries[..handled])
      // Every callback but the last one asked to go on.
      ensures forall i | 0 <= i < handled - 1 :: Proceeds(deliveries[i], QuitAfter(old(shouldQuit), deliveries[..i + 1]), options)
      // Consuming ended early only because the last callback asked to stop or the queue ran dry.
      ensures handled < |deliveries| ==>
                || (0 < handled && !Proceeds(deliveries[handled - 1], shouldQuit, options))
                || q.broker.Contents(Named(q.queue)) == []
      ensures Extends(old(events), events)
    {
      ghost var start := Snapshot(q);
      ghost var goal := ConsumeRun(start, q.queue, deliveries, options);
      ConsumeQuits(start, q.queue, deliveries, options);
      ConsumeReports(start, q.queue, deliveries, options);
      ConsumeStops(start, q.queue, deliveries, options);
      ConsumeKeepsQuit(start, q.queue, deliveries, options);
      handled := ConsumeLoop(q, options, deliveries, goal);
    }

    /** The loop of `consume`, which ends in `goal`. */
    method ConsumeLoop(q: Queue, options: WorkerOptions, deliveries: seq<Delivery>, ghost goal: Consumption) returns (handled: nat)
      requires q.broker.Valid()
      requires ConsumePending(goal, Snapshot(q), q.queue, deliveries, options, 0, true)
      modifies this, q.broker, handler
      ensures q.broker.Valid()
      ensures goal == Consumption(Snapshot(q), handled)
      ensures q.broker.queues - {Named(q.queue)} == old(q.broker.queues) - {Named(q.queue)}
      ensures q.broker.unacked == old(q.broker.unacked)
      ensures q.broker.bindings == old(q.broker.bindings) && q.broker.nextTemporary == old(q.broker.nextTemporary)
      ensures Extends(old(events), events)
    {
      handled := 0;
      var proceed := true;
      assert events[..|events|] == events;
      assert deliveries[0..] == deliveries;
      while handled < |deliveries| && proceed
        invariant q.broker.Valid()
        invariant handled <= |deliveries|
        invariant q.broker.queues - {Named(q.queue)} == old(q.broker.queues) - {Named(q.queue)}
        invariant q.broker.unacked == old(q.broker.unacked)
        invariant q.broker.bindings == old(q.broker.bindings) && q.broker.nextTemporary == old(q.broker.nextTemporary)
        // What is left to do is what `consume` does from the current state.
        invariant ConsumePending(goal, Snapshot(q), q.queue, deliveries[handled..], options, handled, proceed)
        invariant Extends(old(events), events)
        decreases |deliveries| - handled
      {
        ghost var before := events;
        ghost var here := Snapshot(q);
        ghost var rest := deliveries[handled..];
        assert rest[0] == deliveries[handled] && rest[1..] == deliveries[handled + 1..];
        var received, going := DeliverNext(q, options, deliveries[handled]);
        if received.None? {
          break;
        }
        ConsumePendingStep(goal, here, q.queue, rest, options, handled);
        ExtendsTrans(old(events), before, events);
        handled := handled + 1;
        proceed := going;
      }
      ConsumePendingDone(goal, Snapshot(q), q.queue, deliveries[handled..], options, handled, proceed);
    }

    /**
     * One pass of `daemon`'s loop: announce the wait, consume, then evaluate the loop
     * condition. Returns how many messages were handled and whether to subscribe again.
     */
    method Subscribe(q: Queue, options: WorkerOptions, cycle: Cycle) returns (handled: nat, again: bool)
      requires q.broker.Valid()
      modifies this, q.broker, handler
      ensures q.broker.Valid()
      ensures var c := ConsumeRun(old(Snapshot(q)), q.queue, cycle.deliveries, options);
              && Snapshot(q) == c.run && handled == c.handled
              && again == Resubscribes(q.resume, c.run.quit, options, cycle.check)
      ensures q.broker.queues - {Named(q.queue)} == old(q.broker.queues) - {Named(q.queue)}
      ensures q.broker.unacked == old(q.broker.unacked)
      ensures q.broker.bindings == old(q.broker.bindings) && q.broker.nextTemporary == old(q.broker.nextTemporary)
      ensures Extends(old(events), events)
    {
      events := events + [Consuming(GetTimeoutForWork(options.timeout, q.timeout))];
      ExtendsAppend(old(events), [Consuming(GetTimeoutForWork(options.timeout, q.timeout))]);
      ghost var subscribed := events;
      handled := Consume(q, options, cycle.deliveries);
      ExtendsTrans(old(events), subscribed, events);
      again := Resubscribes(q.resume, shouldQuit, options, cycle.check);
    }

    /**
     * The `do … while` loop of `daemon`, over the subscriptions the broker allows.
     * `again` is the loop condition when the loop was left.
     */
    method DaemonLoop(q: Queue, options: WorkerOptions, cycles: seq<Cycle>, ghost goal: Subscriptions)
      returns (subscriptions: nat, again: bool, ghost quits: seq<bool>, ghost handled: seq<nat>)
      requires q.broker.Valid()
      requires DaemonPending(goal, Snapshot(q), q.queue, cycles, q.resume, options, [], [], true)
      modifies this, q.broker, handler
      ensures q.broker.Valid()
      ensures goal == Subscriptions(Snapshot(q), quits, handled, !again) && subscriptions == |quits|
      ensures q.broker.queues - {Named(q.queue)} == old(q.broker.queues) - {Named(q.queue)}
      ensures q.broker.unacked == old(q.broker.unacked)
      ensures q.broker.bindings == old(q.broker.bindings) && q.broker.nextTemporary == old(q.broker.nextTemporary)
      ensures Extends(old(events), events)
    {
      subscriptions := 0;
      quits := [];
      handled := [];
      again := true;
      assert events[..|events|] == events;
      assert cycles[0..] == cycles;
      while subscriptions < |cycles| && again
        invariant q.broker.Valid()
        invariant subscriptions <= |cycles| && |quits| == subscriptions
        invariant q.broker.queues - {Named(q.queue)} == old(q.broker.queues) - {Named(q.queue)}
        invariant q.broker.unacked == old(q.broker.unacked)
        invariant q.broker.bindings == old(q.broker.bindings) && q.broker.nextTemporary == old(q.broker.nextTemporary)
        // What is left to do is what the loop does from the current state.
        invariant DaemonPending(goal, Snapshot(q), q.queue, cycles[subscriptions..], q.resume, options, quits, handled, again)
        invariant Extends(old(events), events)
        decreases |cycles| - subscriptions
      {
        ghost var before := events;
        ghost var here := Snapshot(q);
        ghost var rest := cycles[subscriptions..];
        assert rest[0] == cycles[subscriptions] && rest[1..] == cycles[subscriptions + 1..];
        DaemonPendingStep(goal, here, q.queue, rest, q.resume, options, quits, handled);
        var n;
        n, again := Subscribe(q, options, cycles[subscriptions]);
        ExtendsTrans(old(events), before, events);
        quits := quits + [shouldQuit];
        handled := handled + [n];
        subscriptions := subscriptions + 1;
      }
      DaemonPendingDone(goal, Snapshot(q), q.queue, cycles[subscriptions..], q.resume, options, quits, handled, again);
    }

    /**
     * The subscriptions of `daemon`, between its opening and its closing steps: what they
     * leave behind is `DaemonRun` of the state they start from.
     */
    method ConsumeCycles(q: Queue, options: WorkerOptions, cycles: seq<Cycle>)
      returns (subscriptions: nat, closed: bool, ghost quits: seq<bool>, ghost handled: seq<nat>)
      requires q.broker.Valid()
      modifies this, q.broker, handler
      ensures q.broker.Valid()
      ensures var s := DaemonRun(old(Snapshot(q)), q.queue, cycles, q.resume, options);
              && Snapshot(q) == s.run && quits == s.quits && handled == s.handled && closed == s.closed
              && subscriptions == |quits|
      ensures q.broker.queues - {Named(q.queue)} == old(q.broker.queues) - {Named(q.queue)}
      ensures q.broker.unacked == old(q.broker.unacked)
      ensures q.broker.bindings == old(q.broker.bindings) && q.broker.nextTemporary == old(q.broker.nextTemporary)
      ensures Within(cycles, handled) && QuitChain(old(shouldQuit), cycles, quits, handled)
      ensures handler.reports == old(handler.reports) + CycleReports(cycles, handled)
      ensures ResubscribeChain(q.resume, options, cycles, quits, closed)
      ensures Extends(old(events), events)
    {
      ghost var start := Snapshot(q);
      ghost var goal := DaemonRun(start, q.queue, cycles, q.resume, options);
      DaemonQuits(start, q.queue, cycles, q.resume, options);
      DaemonReports(start, q.queue, cycles, q.resume, options);
      DaemonResubscribes(start, q.queue, cycles, q.resume, options);
      assert [] + goal.quits == goal.quits && [] + goal.handled == goal.handled;
      var again;
      subscriptions, again, quits, handled := DaemonLoop(q, options, cycles, goal);
      closed := !again;
    }

    /**
     * `daemon` for a RabbitMQ connection. Subscribes once per cycle of `cycles` and
     * re-subscribes only while the queue should resume and the worker need not stop; on
     * leaving the loop it closes the connection once and stops. `closed` is false only when
     * the cycles ran out while the loop would have gone on.
     */
    method Daemon(q: Queue, options: WorkerOptions, unique: string, cycles: seq<Cycle>)
      returns (subscriptions: nat, closed: bool, ghost quits: seq<bool>, ghost handled: seq<nat>)
      requires q.broker.Valid()
      modifies this, q.broker, handler
      ensures q.broker.Valid()
      ensures var s := DaemonRun(old(Snapshot(q)), q.queue, cycles, q.resume, options);
              && Snapshot(q) == s.run && quits == s.quits && handled == s.handled && closed == s.closed
              && subscriptions == |quits|
      // No other queue changes.
      ensures q.broker.queues - {Named(q.queue)} == old(q.broker.queues) - {Named(q.queue)}
      ensures q.broker.unacked == old(q.broker.unacked)
      ensures q.broker.bindings == old(q.broker.bindings) && q.broker.nextTemporary == old(q.broker.nextTemporary)
      // Subscription `i` handled `handled[i]` of its deliveries and left `shouldQuit` as `quits[i]`.
      ensures Within(cycles, handled) && QuitChain(old(shouldQuit), cycles, quits, handled)
      ensures handler.reports == old(handler.reports) + CycleReports(cycles, handled)
      // The loop went on exactly while its condition held.
      ensures ResubscribeChain(q.resume, options, cycles, quits, closed)
      ensures (!q.resume || options.stopWhenEmpty) && |cycles| > 0 ==> subscriptions == 1 && closed
      // The connection is closed once, as the last thing before stopping, and only when the loop ended.
      ensures closed ==> |events| >= 2 && events[|events| - 2..] == [ConnectionClosed, Stopped] && Extends(old(events), events[..|events| - 2])
      ensures !closed ==> Extends(old(events), events)
    {
      if asyncSignals {
        events := events + [SignalsInstalled];
      }
      var tag := ConsumerTagFor(consumerTag, unique);
      if tag.Some? {
        events := events + [ConsumerTagged(tag.value)];
      }
      ghost var opening := (if asyncSignals then [SignalsInstalled] else []) + (if tag.Some? then [ConsumerTagged(tag.value)] else []);
      assert events == old(events) + opening;
      ExtendsAppend(old(events), opening);
      ghost var before := events;
      subscriptions, closed, quits, handled := ConsumeCycles(q, options, cycles);
      ExtendsTrans(old(events), before, events);
      if closed {
        ghost var running := events;
        events := events + [ConnectionClosed, Stopped];
        assert events[..|events| - 2] == running;
      }
    }
  }
}
