/**
 * The failed-job store: failed jobs are archived as messages in one queue. Reading or
 * editing the archive drains it into a temporary queue and moves the messages back,
 * dropping those a filter rejects, because a queue cannot be read in place.
 */
module FailedJobs {
  import opened Wrappers
  import opened PhpValues
  import opened Amqp
  import opened Framework
  import opened InteractsWithJobs

  /** The message properties an archived failed job carries. */
  const FailedAtProperty := "job-failed-at"
  const ConnectionNameProperty := "job-connection-name"
  const QueueNameProperty := "job-queue-name"
  const ExceptionProperty := "job-exception"

  /** The longest exception text archived before it is cut. */
  const ExceptionLimit := 10240

  /** The prefix of every failed-job id. */
  const FailedJobIdPrefix := "failed-job-"

  /** A failed job as `all()` and `find()` return it. */
  datatype FailedRecord = FailedRecord(
    id: Option<string>,
    connection: Value,
    queue: Value,
    payload: string,
    exception: Value,
    failedAt: Value)

  /** The record for one archived message: its id, body and properties (null when absent). */
  function ToRecord(m: Message): (r: FailedRecord)
    ensures r.id == m.messageId && r.payload == m.body
    ensures ConnectionNameProperty in m.properties ==> r.connection == m.properties[ConnectionNameProperty]
    ensures ConnectionNameProperty !in m.properties ==> r.connection == NullV
    ensures QueueNameProperty in m.properties ==> r.queue == m.properties[QueueNameProperty]
    ensures QueueNameProperty !in m.properties ==> r.queue == NullV
    ensures ExceptionProperty in m.properties ==> r.exception == m.properties[ExceptionProperty]
    ensures ExceptionProperty !in m.properties ==> r.exception == NullV
    ensures FailedAtProperty in m.properties ==> r.failedAt == m.properties[FailedAtProperty]
    ensures FailedAtProperty !in m.properties ==> r.failedAt == NullV
  {
    FailedRecord(
      m.messageId,
      Property(m, ConnectionNameProperty, NullV),
      Property(m, QueueNameProperty, NullV),
      m.body,
      Property(m, ExceptionProperty, NullV),
      Property(m, FailedAtProperty, NullV))
  }

  /** One record per message, in the same order. */
  function Records(ms: seq<Message>): (rs: seq<FailedRecord>)
    ensures |rs| == |ms| && forall i | 0 <= i < |ms| :: rs[i] == ToRecord(ms[i])
  {
    if |ms| == 0 then [] else Records(ms[..|ms| - 1]) + [ToRecord(ms[|ms| - 1])]
  }

  /** The messages of `ms` that satisfy `p`, in their order. */
  function Select(ms: seq<Message>, p: Message -> bool): (r: seq<Message>)
    ensures |r| <= |ms|
  {
    if |ms| == 0 then [] else Select(ms[..|ms| - 1], p) + (if p(ms[|ms| - 1]) then [ms[|ms| - 1]] else [])
  }

  /** A message is selected exactly when it is in `ms` and satisfies `p`. */
  lemma {:induction false} SelectMembers(ms: seq<Message>, p: Message -> bool, m: Message)
    ensures m in Select(ms, p) <==> m in ms && p(m)
  {
    if |ms| > 0 {
      var init := ms[..|ms| - 1];
      SelectMembers(init, p, m);
      assert ms == init + [ms[|ms| - 1]];
    }
  }

  /** Every message satisfying `p` is kept and every other one dropped, so the two parts add up. */
  lemma {:induction false} SelectSplits(ms: seq<Message>, p: Message -> bool)
    ensures |Select(ms, p)| + |Select(ms, Not(p))| == |ms|
  {
    if |ms| > 0 {
      SelectSplits(ms[..|ms| - 1], p);
    }
  }

  /** A filter every message passes keeps the whole sequence, in order. */
  lemma {:induction false} SelectAll(ms: seq<Message>, p: Message -> bool)
    requires forall m | m in ms :: p(m)
    ensures Select(ms, p) == ms
  {
    if |ms| > 0 {
      var init := ms[..|ms| - 1];
      forall m | m in init
        ensures p(m)
      {
        assert m in ms;
      }
      SelectAll(init, p);
      assert p(ms[|ms| - 1]);
      assert init + [ms[|ms| - 1]] == ms;
    }
  }

  /** Filtering twice is filtering once by both. */
  lemma {:induction false} SelectSelect(ms: seq<Message>, p: Message -> bool, q: Message -> bool)
    ensures Select(Select(ms, p), q) == Select(ms, Both(p, q))
  {
    if |ms| > 0 {
      var init := ms[..|ms| - 1];
      var last := ms[|ms| - 1];
      SelectSelect(init, p, q);
      var s := Select(ms, p);
      if p(last) {
        assert s[..|s| - 1] == Select(init, p);
      } else {
        assert s == Select(init, p);
      }
    }
  }

  function Not(p: Message -> bool): Message -> bool
  {
    (m: Message) => !p(m)
  }

  function Both(p: Message -> bool, q: Message -> bool): Message -> bool
  {
    (m: Message) => p(m) && q(m)
  }

  /** The two moves of a scan: into the temporary queue, and back into the archive. */
  datatype Leg = ToTemporary | BackToArchive

  /** Whether publishing on a leg succeeds; a failed publish throws and is reported. */
  type Publishes = (Leg, Message) -> bool

  function SentOn(publishes: Publishes, leg: Leg): Message -> bool
  {
    (m: Message) => publishes(leg, m)
  }

  /** What goes back into the archive: messages the filter keeps and whose publish succeeds. */
  function Returns(keep: Message -> bool, publishes: Publishes): Message -> bool
  {
    (m: Message) => keep(m) && publishes(BackToArchive, m)
  }

  /** The messages that reach the temporary queue, and so the filter. */
  function Reached(archive: seq<Message>, publishes: Publishes): seq<Message>
  {
    Select(archive, SentOn(publishes, ToTemporary))
  }

  /** The broker operations of the first phase, for the drained messages `ms`. */
  function DrainLog(ms: seq<Message>, archive: QueueName, temp: QueueName, publishes: Publishes): seq<Event>
  {
    if |ms| == 0 then []
    else
      var m := ms[|ms| - 1];
      DrainLog(ms[..|ms| - 1], archive, temp, publishes) + DrainStep(m, archive, temp, publishes)
  }

  /** The first phase's operations for one message: received, published if that works, acknowledged. */
  function DrainStep(m: Message, archive: QueueName, temp: QueueName, publishes: Publishes): seq<Event>
  {
    [Received(archive, m)] + (if publishes(ToTemporary, m) then [Published(temp, m, None)] else []) + [Acknowledged(m)]
  }

  /** The broker operations of the second phase, for the restored messages `ms`. */
  function RestoreLog(ms: seq<Message>, archive: QueueName, temp: QueueName, keep: Message -> bool, publishes: Publishes): seq<Event>
  {
    if |ms| == 0 then []
    else
      var m := ms[|ms| - 1];
      RestoreLog(ms[..|ms| - 1], archive, temp, keep, publishes) + RestoreStep(m, archive, temp, keep, publishes)
  }

  /** The second phase's operations for one message: received, published back if kept and that works, acknowledged. */
  function RestoreStep(m: Message, archive: QueueName, temp: QueueName, keep: Message -> bool, publishes: Publishes): seq<Event>
  {
    [Received(temp, m)] + (if keep(m) && publishes(BackToArchive, m) then [Published(archive, m, None)] else []) + [Acknowledged(m)]
  }

  /** The failures a leg reports, one per message whose publish failed, in order. */
  function LegFaults(ms: seq<Message>, destination: QueueName, sent: Message -> bool): seq<Fault>
  {
    if |ms| == 0 then []
    else
      var m := ms[|ms| - 1];
      LegFaults(ms[..|ms| - 1], destination, sent) + (if sent(m) then [] else [PublishFailed(destination, m)])
  }

  /** Selecting from a sequence one message longer. */
  lemma SelectSnoc(ms: seq<Message>, m: Message, p: Message -> bool)
    ensures Select(ms + [m], p) == Select(ms, p) + (if p(m) then [m] else [])
  {
    assert (ms + [m])[..|ms|] == ms;
  }

  /** The first phase's log and faults, one drained message further. */
  lemma DrainSnoc(ms: seq<Message>, m: Message, archive: QueueName, temp: QueueName, publishes: Publishes)
    ensures DrainLog(ms + [m], archive, temp, publishes) == DrainLog(ms, archive, temp, publishes) + DrainStep(m, archive, temp, publishes)
    ensures LegFaults(ms + [m], temp, SentOn(publishes, ToTemporary))
         == LegFaults(ms, temp, SentOn(publishes, ToTemporary)) + (if publishes(ToTemporary, m) then [] else [PublishFailed(temp, m)])
    ensures Reached(ms + [m], publishes) == Reached(ms, publishes) + (if publishes(ToTemporary, m) then [m] else [])
  {
    assert (ms + [m])[..|ms|] == ms;
  }

  /** The second phase's log, one restored message further. */
  lemma RestoreLogSnoc(ms: seq<Message>, m: Message, archive: QueueName, temp: QueueName, keep: Message -> bool, publishes: Publishes)
    ensures RestoreLog(ms + [m], archive, temp, keep, publishes) == RestoreLog(ms, archive, temp, keep, publishes) + RestoreStep(m, archive, temp, keep, publishes)
  {
    assert (ms + [m])[..|ms|] == ms;
  }

  /** What goes back into the archive, one message further. */
  lemma ReturnsSnoc(ms: seq<Message>, m: Message, keep: Message -> bool, publishes: Publishes)
    ensures Select(ms + [m], Returns(keep, publishes))
         == Select(ms, Returns(keep, publishes)) + (if keep(m) && publishes(BackToArchive, m) then [m] else [])
  {
    SelectSnoc(ms, m, Returns(keep, publishes));
  }

  /** The faults of the way back into the archive, one kept message further. */
  lemma BackFaultsSnoc(ms: seq<Message>, m: Message, archive: QueueName, publishes: Publishes)
    ensures LegFaults(ms + [m], archive, SentOn(publishes, BackToArchive))
         == LegFaults(ms, archive, SentOn(publishes, BackToArchive)) + (if publishes(BackToArchive, m) then [] else [PublishFailed(archive, m)])
  {
    LegFaultsSnoc(ms, m, archive, SentOn(publishes, BackToArchive));
  }

  /** The faults of a leg, one message further. */
  lemma LegFaultsSnoc(ms: seq<Message>, m: Message, destination: QueueName, sent: Message -> bool)
    ensures LegFaults(ms + [m], destination, sent)
         == LegFaults(ms, destination, sent) + (if sent(m) then [] else [PublishFailed(destination, m)])
  {
    assert (ms + [m])[..|ms|] == ms;
  }

  /** Writing the same two keys again overrides the first writes. */
  lemma UpdateTwice(queues: map<QueueName, seq<Message>>, a: QueueName, b: QueueName, x: seq<Message>, y: seq<Message>, x': seq<Message>, y': seq<Message>)
    requires a != b
    ensures queues[a := x][b := y][a := x'][b := y'] == queues[a := x'][b := y']
  {
  }

  /**
   * Where the first phase stands once the messages `drained` have left the archive: the
   * archive holds the rest of `archive0`, the temporary queue what reached it, and the log
   * and the reports grew by those messages' operations and failures.
   */
  ghost predicate Draining(archive: QueueName, temp: QueueName, publishes: Publishes, queues0: map<QueueName, seq<Message>>,
                           log0: seq<Event>, reports0: seq<Fault>, archive0: seq<Message>, drained: seq<Message>,
                           queues: map<QueueName, seq<Message>>, log: seq<Event>, reports: seq<Fault>)
  {
    && archive in queues && temp in queues
    && archive0 == drained + queues[archive]
    && queues == queues0[archive := queues[archive]][temp := Reached(drained, publishes)]
    && log == log0 + DrainLog(drained, archive, temp, publishes)
    && reports == reports0 + LegFaults(drained, temp, SentOn(publishes, ToTemporary))
  }

  /** One more message through the first phase keeps `Draining`. */
  lemma DrainingStep(archive: QueueName, temp: QueueName, publishes: Publishes, queues0: map<QueueName, seq<Message>>,
                     log0: seq<Event>, reports0: seq<Fault>, archive0: seq<Message>, drained: seq<Message>,
                     queues: map<QueueName, seq<Message>>, log: seq<Event>, reports: seq<Fault>, m: Message,
                     queues': map<QueueName, seq<Message>>, log': seq<Event>, reports': seq<Fault>)
    requires archive != temp
    requires Draining(archive, temp, publishes, queues0, log0, reports0, archive0, drained, queues, log, reports)
    requires queues[archive] != [] && m == queues[archive][0]
    requires queues' == queues[archive := queues[archive][1..]][temp := queues[temp] + (if publishes(ToTemporary, m) then [m] else [])]
    requires log' == log + DrainStep(m, archive, temp, publishes)
    requires reports' == reports + (if publishes(ToTemporary, m) then [] else [PublishFailed(temp, m)])
    ensures Draining(archive, temp, publishes, queues0, log0, reports0, archive0, drained + [m], queues', log', reports')
  {
    DrainSnoc(drained, m, archive, temp, publishes);
    UpdateTwice(queues0, archive, temp, queues[archive], queues[temp], queues[archive][1..], queues'[temp]);
    assert archive0 == (drained + [m]) + queues[archive][1..];
  }

  /**
   * Where the second phase stands once the messages `visited` have left the temporary queue:
   * it holds the rest of `pending`, the archive those the filter kept (`kept`) and that made
   * it back (`returned`), and the log and the reports grew by those messages' operations and
   * failures.
   */
  ghost predicate Restoring(archive: QueueName, temp: QueueName, keep: Message -> bool, publishes: Publishes,
                            queues0: map<QueueName, seq<Message>>, log0: seq<Event>, reports0: seq<Fault>,
                            pending: seq<Message>, visited: seq<Message>, kept: seq<Message>, returned: seq<Message>,
                            queues: map<QueueName, seq<Message>>, log: seq<Event>, reports: seq<Fault>)
  {
    && archive in queues && temp in queues
    && pending == visited + queues[temp]
    && kept == Select(visited, keep) && returned == Select(visited, Returns(keep, publishes))
    && queues == queues0[temp := queues[temp]][archive := returned]
    && log == log0 + RestoreLog(visited, archive, temp, keep, publishes)
    && reports == reports0 + LegFaults(kept, archive, SentOn(publishes, BackToArchive))
  }

  /** The reports of the second phase, one kept message further. */
  lemma RestoringFaults(archive: QueueName, publishes: Publishes, reports0: seq<Fault>, kept: seq<Message>,
                        reports: seq<Fault>, m: Message, reports': seq<Fault>)
    requires reports == reports0 + LegFaults(kept, archive, SentOn(publishes, BackToArchive))
    requires reports' == reports + (if publishes(BackToArchive, m) then [] else [PublishFailed(archive, m)])
    ensures reports' == reports0 + LegFaults(kept + [m], archive, SentOn(publishes, BackToArchive))
  {
    BackFaultsSnoc(kept, m, archive, publishes);
    ghost var fault := if publishes(BackToArchive, m) then [] else [PublishFailed(archive, m)];
    assert reports' == reports0 + (LegFaults(kept, archive, SentOn(publishes, BackToArchive)) + fault);
  }

  /** One more message through the second phase keeps `Restoring`. */
  lemma RestoringStep(archive: QueueName, temp: QueueName, keep: Message -> bool, publishes: Publishes,
                      queues0: map<QueueName, seq<Message>>, log0: seq<Event>, reports0: seq<Fault>,
                      pending: seq<Message>, visited: seq<Message>, kept: seq<Message>, returned: seq<Message>,
                      queues: map<QueueName, seq<Message>>, log: seq<Event>, reports: seq<Fault>, m: Message,
                      queues': map<QueueName, seq<Message>>, log': seq<Event>, reports': seq<Fault>)
    requires archive != temp
    requires Restoring(archive, temp, keep, publishes, queues0, log0, reports0, pending, visited, kept, returned, queues, log, reports)
    requires queues[temp] != [] && m == queues[temp][0]
    requires queues' == queues[temp := queues[temp][1..]][archive := queues[archive] + (if keep(m) && publishes(BackToArchive, m) then [m] else [])]
    requires log' == log + RestoreStep(m, archive, temp, keep, publishes)
    requires reports' == reports + (if keep(m) && !publishes(BackToArchive, m) then [PublishFailed(archive, m)] else [])
    ensures Restoring(archive, temp, keep, publishes, queues0, log0, reports0, pending, visited + [m],
                      kept + (if keep(m) then [m] else []), returned + (if keep(m) && publishes(BackToArchive, m) then [m] else []),
                      queues', log', reports')
  {
    ghost var kept' := kept + (if keep(m) then [m] else []);
    ghost var returned' := returned + (if keep(m) && publishes(BackToArchive, m) then [m] else []);
    assert pending == (visited + [m]) + queues'[temp];
    assert kept' == Select(visited + [m], keep) by {
      SelectSnoc(visited, m, keep);
    }
    assert returned' == Select(visited + [m], Returns(keep, publishes)) by {
      ReturnsSnoc(visited, m, keep, publishes);
    }
    assert queues' == queues0[temp := queues'[temp]][archive := returned'] by {
      UpdateTwice(queues0, temp, archive, queues[temp], returned, queues[temp][1..], returned');
    }
    assert log' == log0 + RestoreLog(visited + [m], archive, temp, keep, publishes) by {
      RestoreLogSnoc(visited, m, archive, temp, keep, publishes);
    }
    assert reports' == reports0 + LegFaults(kept', archive, SentOn(publishes, BackToArchive)) by {
      if keep(m) {
        RestoringFaults(archive, publishes, reports0, kept, reports, m, reports');
      } else {
        assert kept' == kept;
      }
    }
  }

  /** How often `e` occurs in `log`. */
  function Occurrences(log: seq<Event>, e: Event): nat
  {
    if |log| == 0 then 0 else (if log[0] == e then 1 else 0) + Occurrences(log[1..], e)
  }

  lemma {:induction false} OccurrencesAppend(a: seq<Event>, b: seq<Event>, e: Event)
    ensures Occurrences(a + b, e) == Occurrences(a, e) + Occurrences(b, e)
  {
    if |a| == 0 {
      assert a + b == b;
    } else {
      assert (a + b)[1..] == a[1..] + b;
      OccurrencesAppend(a[1..], b, e);
    }
  }

  /** One message's receive, optional publish and acknowledgement count it once as received and once as acknowledged. */
  lemma ReceiveThenAcknowledge(source: QueueName, destination: QueueName, last: Message, sent: bool, m: Message)
    requires source != destination
    ensures var step := [Received(source, last)] + (if sent then [Published(destination, last, None)] else []) + [Acknowledged(last)];
      Occurrences(step, Received(source, m)) == Occurrences(step, Acknowledged(m))
  {
    var step := [Received(source, last)] + (if sent then [Published(destination, last, None)] else []) + [Acknowledged(last)];
    var a := [Acknowledged(last)];
    assert a[1..] == [];
    assert Occurrences(a, Received(source, m)) == 0;
    assert Occurrences(a, Acknowledged(m)) == if last == m then 1 else 0;
    if sent {
      assert step[1..] == [Published(destination, last, None)] + a;
      assert step[1..][1..] == a;
    } else {
      assert step[1..] == a;
    }
  }

  /** Every message taken from the archive is acknowledged "anyway", whether or not its publish worked. */
  lemma {:induction false} DrainAcknowledgesEveryReceipt(ms: seq<Message>, archive: QueueName, temp: QueueName, publishes: Publishes, m: Message)
    requires archive != temp
    ensures Occurrences(DrainLog(ms, archive, temp, publishes), Received(archive, m))
         == Occurrences(DrainLog(ms, archive, temp, publishes), Acknowledged(m))
  {
    if |ms| > 0 {
      var last := ms[|ms| - 1];
      var prefix := DrainLog(ms[..|ms| - 1], archive, temp, publishes);
      var step := [Received(archive, last)] + (if publishes(ToTemporary, last) then [Published(temp, last, None)] else []) + [Acknowledged(last)];
      DrainAcknowledgesEveryReceipt(ms[..|ms| - 1], archive, temp, publishes, m);
      assert DrainLog(ms, archive, temp, publishes) == prefix + step;
      OccurrencesAppend(prefix, step, Received(archive, m));
      OccurrencesAppend(prefix, step, Acknowledged(m));
      ReceiveThenAcknowledge(archive, temp, last, publishes(ToTemporary, last), m);
    }
  }

  /** Every message taken back from the temporary queue is acknowledged, whether kept, dropped or lost. */
  lemma {:induction false} RestoreAcknowledgesEveryReceipt(ms: seq<Message>, archive: QueueName, temp: QueueName, keep: Message -> bool, publishes: Publishes, m: Message)
    requires archive != temp
    ensures Occurrences(RestoreLog(ms, archive, temp, keep, publishes), Received(temp, m))
         == Occurrences(RestoreLog(ms, archive, temp, keep, publishes), Acknowledged(m))
  {
    if |ms| > 0 {
      var last := ms[|ms| - 1];
      var prefix := RestoreLog(ms[..|ms| - 1], archive, temp, keep, publishes);
      var step := [Received(temp, last)] + (if keep(last) && publishes(BackToArchive, last) then [Published(archive, last, None)] else []) + [Acknowledged(last)];
      RestoreAcknowledgesEveryReceipt(ms[..|ms| - 1], archive, temp, keep, publishes, m);
      assert RestoreLog(ms, archive, temp, keep, publishes) == prefix + step;
      OccurrencesAppend(prefix, step, Received(temp, m));
      OccurrencesAppend(prefix, step, Acknowledged(m));
      ReceiveThenAcknowledge(temp, archive, last, keep(last) && publishes(BackToArchive, last), m);
    }
  }

  /** With a filter that keeps everything and no failed publish, a scan leaves the archive as it was. */
  lemma ScanWithoutLossKeepsArchive(archive: seq<Message>, keep: Message -> bool, publishes: Publishes)
    requires forall m | m in archive :: keep(m) && publishes(ToTemporary, m) && publishes(BackToArchive, m)
    ensures Reached(archive, publishes) == archive
    ensures Select(Reached(archive, publishes), Returns(keep, publishes)) == archive
    ensures forall d :: LegFaults(archive, d, SentOn(publishes, ToTemporary)) == []
    ensures forall d :: LegFaults(Select(Reached(archive, publishes), keep), d, SentOn(publishes, BackToArchive)) == []
  {
    SelectAll(archive, SentOn(publishes, ToTemporary));
    SelectAll(archive, Returns(keep, publishes));
    SelectAll(archive, keep);
    forall d
      ensures LegFaults(archive, d, SentOn(publishes, ToTemporary)) == []
      ensures LegFaults(archive, d, SentOn(publishes, BackToArchive)) == []
    {
      NoFaultsWithoutFailures(archive, d, SentOn(publishes, ToTemporary));
      NoFaultsWithoutFailures(archive, d, SentOn(publishes, BackToArchive));
    }
  }

  lemma {:induction false} NoFaultsWithoutFailures(ms: seq<Message>, destination: QueueName, sent: Message -> bool)
    requires forall m | m in ms :: sent(m)
    ensures LegFaults(ms, destination, sent) == []
  {
    if |ms| > 0 {
      assert forall m | m in ms[..|ms| - 1] :: m in ms;
      NoFaultsWithoutFailures(ms[..|ms| - 1], destination, sent);
    }
  }

  /** A publish that fails on the way out loses that message alone: it reaches neither queue. */
  lemma FailedPublishLosesOnlyThatMessage(archive: seq<Message>, keep: Message -> bool, publishes: Publishes, m: Message)
    requires m in archive && !publishes(ToTemporary, m)
    ensures m !in Reached(archive, publishes)
    ensures m !in Select(Reached(archive, publishes), Returns(keep, publishes))
    ensures forall x | x in archive && publishes(ToTemporary, x) :: x in Reached(archive, publishes)
  {
    SelectMembers(archive, SentOn(publishes, ToTemporary), m);
    SelectMembers(Reached(archive, publishes), Returns(keep, publishes), m);
    forall x | x in archive && publishes(ToTemporary, x)
      ensures x in Reached(archive, publishes)
    {
      SelectMembers(archive, SentOn(publishes, ToTemporary), x);
    }
  }

  /** `forget`'s filter: keep every message whose id is not `id`. */
  function WithoutId(id: Option<string>): Message -> bool
  {
    (m: Message) => m.messageId != id
  }

  function WithId(id: Option<string>): Message -> bool
  {
    (m: Message) => m.messageId == id
  }

  /** Something is selected exactly when some message satisfies `p`. */
  lemma SelectNonEmpty(ms: seq<Message>, p: Message -> bool)
    ensures |Select(ms, p)| > 0 <==> exists m | m in ms :: p(m)
  {
    if |Select(ms, p)| > 0 {
      SelectMembers(ms, p, Select(ms, p)[0]);
    }
    if m :| m in ms && p(m) {
      SelectMembers(ms, p, m);
    }
  }

  /**
   * Without failed publishes, `forget(id)` leaves exactly the messages with another id, in
   * their order; every message with the id is gone, and the two parts add up to the archive.
   */
  lemma ForgetKeepsTheRest(archive: seq<Message>, id: Option<string>, publishes: Publishes)
    requires forall m | m in archive :: publishes(ToTemporary, m) && publishes(BackToArchive, m)
    ensures Select(Reached(archive, publishes), Returns(WithoutId(id), publishes)) == Select(archive, WithoutId(id))
    ensures forall m | m in Select(archive, WithoutId(id)) :: m.messageId != id
    ensures forall m | m in archive && m.messageId != id :: m in Select(archive, WithoutId(id))
    ensures |Select(archive, WithoutId(id))| + |Select(archive, WithId(id))| == |archive|
  {
    SelectAll(archive, SentOn(publishes, ToTemporary));
    SelectSelect(archive, WithoutId(id), SentOn(publishes, BackToArchive));
    assert Select(archive, Returns(WithoutId(id), publishes)) == Select(archive, WithoutId(id)) by {
      SelectSameOn(archive, Returns(WithoutId(id), publishes), WithoutId(id));
    }
    SelectSplits(archive, WithoutId(id));
    SelectSameOn(archive, Not(WithoutId(id)), WithId(id));
  }

  /** Filters that agree on every message of `ms` select the same messages. */
  lemma {:induction false} SelectSameOn(ms: seq<Message>, p: Message -> bool, q: Message -> bool)
    requires forall m | m in ms :: p(m) == q(m)
    ensures Select(ms, p) == Select(ms, q)
  {
    if |ms| > 0 {
      assert forall m | m in ms[..|ms| - 1] :: m in ms;
      SelectSameOn(ms[..|ms| - 1], p, q);
    }
  }

  /** `Str::limit($text, $limit)`: text up to the limit is kept; longer text is cut, right-trimmed and marked with "...". */
  function Limit(text: string, limit: nat): (r: string)
    ensures |text| <= limit ==> r == text
    ensures |text| > limit ==> 3 <= |r| <= limit + 3 && r[|r| - 3..] == "..." && r[..|r| - 3] == text[..|r| - 3]
    // What is cut from the first `limit` characters is exactly their trailing whitespace.
    ensures |text| > limit ==> (forall i | |r| - 3 <= i < limit :: IsTrimmed(text[i])) && (|r| > 3 ==> !IsTrimmed(r[|r| - 4]))
  {
    if |text| <= limit then text
    else
      var kept := RightTrim(text[..limit]);
      assert forall i | |kept| <= i < limit :: text[..limit][i] == text[i];
      assert (kept + "...")[..|kept|] == kept && (kept + "...")[|kept|..] == "...";
      kept + "..."
  }

  predicate IsTrimmed(c: char)
  {
    c == ' ' || c == '\t' || c == '\n' || c == '\r' || c == '\0' || c == '\U{0B}'
  }

  /** `rtrim`: the text without its trailing whitespace. */
  function RightTrim(s: string): (r: string)
    ensures |r| <= |s| && r == s[..|r|]
    ensures r == [] || !IsTrimmed(r[|r| - 1])
    ensures forall i | |r| <= i < |s| :: IsTrimmed(s[i])
  {
    if |s| > 0 && IsTrimmed(s[|s| - 1]) then RightTrim(s[..|s| - 1]) else s
  }

  /** `generateMessageId`: `failed-job-` and the first eight characters of the digest. */
  function FailedJobId(digest: string): (id: string)
    ensures |id| >= |FailedJobIdPrefix| && id[..|FailedJobIdPrefix|] == FailedJobIdPrefix
  {
    GenerateMessageId(FailedJobIdPrefix, digest)
  }

  /** With a real sha1 digest a failed-job id is `failed-job-` and exactly eight letters or digits. */
  lemma FailedJobIdShape(digest: string)
    requires IsSha1Hex(digest)
    ensures |FailedJobId(digest)| == |FailedJobIdPrefix| + 8
    ensures forall i | |FailedJobIdPrefix| <= i < |FailedJobId(digest)| :: IsAlphaNumeric(FailedJobId(digest)[i])
  {
    GeneratedIdShape(FailedJobIdPrefix, digest);
  }

  /** The message `log` archives for a failed job. */
  function FailedMessage(connectionName: string, queueName: string, body: string, exception: string, now: int, digest: string): Message
  {
    Message(
      body,
      map[FailedAtProperty := IntV(now),
          ConnectionNameProperty := StrV(connectionName),
          QueueNameProperty := StrV(queueName),
          ExceptionProperty := StrV(Limit(exception, ExceptionLimit))],
      map["app_id" := StrV("data-sources-failed-jobs"), "timestamp" := IntV(now), "content_type" := StrV("application/json")],
      Some(FailedJobId(digest)),
      0,
      NonPersistent)
  }

  /** What `all()` reports for a failed job that `log` archived is what `log` was given. */
  lemma LoggedJobReadsBack(connectionName: string, queueName: string, body: string, exception: string, now: int, digest: string)
    ensures var r := ToRecord(FailedMessage(connectionName, queueName, body, exception, now, digest));
      && r.id == Some(FailedJobId(digest))
      && r.connection == StrV(connectionName) && r.queue == StrV(queueName)
      && r.payload == body && r.failedAt == IntV(now)
      && r.exception.StrV? && |r.exception.s| <= ExceptionLimit + 3
      && (|exception| <= ExceptionLimit ==> r.exception == StrV(exception))
  {
  }

  class RabbitQueueFailedJobProvider {
    const broker: Broker
    /** The archive queue. */
    const queue: string
    const handler: ExceptionHandler

    /** The archive queue is declared. */
    ghost predicate Valid()
      reads this, broker
    {
      broker.Valid() && Named(queue) in broker.queues
    }

    constructor (broker: Broker, queue: string, handler: ExceptionHandler)
      ensures this.broker == broker && this.queue == queue && this.handler == handler
    {
      this.broker := broker;
      this.queue := queue;
      this.handler := handler;
    }

    /**
     * `log`: archives one message carrying the failed job's body, its connection and queue
     * names, the time, and the exception text cut to the limit; returns the id set on it.
     */
    method Log(connectionName: string, queueName: string, body: string, exception: string, now: int, digest: string) returns (id: string)
      requires Valid()
      modifies broker
      ensures Valid()
      ensures id == FailedJobId(digest)
      ensures broker.log == old(broker.log) + [Published(Named(queue), FailedMessage(connectionName, queueName, body, exception, now, digest), None)]
      ensures broker.queues == old(broker.queues)[Named(queue) := old(broker.queues[Named(queue)]) + [FailedMessage(connectionName, queueName, body, exception, now, digest)]]
      ensures broker.unacked == old(broker.unacked) && broker.delayed == old(broker.delayed)
      ensures broker.bindings == old(broker.bindings) && broker.nextTemporary == old(broker.nextTemporary)
    {
      var message := CreateMessage(body,
        map[FailedAtProperty := IntV(now),
            ConnectionNameProperty := StrV(connectionName),
            QueueNameProperty := StrV(queueName),
            ExceptionProperty := StrV(Limit(exception, ExceptionLimit))],
        map["app_id" := StrV("data-sources-failed-jobs"), "timestamp" := IntV(now), "content_type" := StrV("application/json")]);
      id := FailedJobId(digest);
      message := message.(messageId := Some(id));
      broker.Send(Named(queue), message, None);
    }

    /**
     * One message of the first phase: taken from the archive, published to `temp` (a failed
     * publish is reported), then acknowledged either way. `None` when the archive is empty,
     * and then nothing changes.
     */
    method DrainNext(temp: QueueName, publishes: Publishes) returns (received: Option<Message>)
      requires Valid() && temp.Temporary? && temp in broker.queues
      modifies broker, handler
      ensures Valid() && temp in broker.queues
      ensures received.None? <==> old(broker.queues[Named(queue)]) == []
      ensures received.None? ==> broker.queues == old(broker.queues) && broker.log == old(broker.log)
      ensures received.None? ==> handler.reports == old(handler.reports)
      ensures received.Some? ==> received.value == old(broker.queues[Named(queue)])[0]
      ensures received.Some? ==> var m := received.value;
        broker.queues == old(broker.queues)[Named(queue) := old(broker.queues[Named(queue)])[1..]]
          [temp := old(broker.queues[temp]) + (if publishes(ToTemporary, m) then [m] else [])]
      ensures received.Some? ==> var m := received.value;
        broker.log == old(broker.log) + DrainStep(m, Named(queue), temp, publishes)
      ensures received.Some? ==> var m := received.value;
        handler.reports == old(handler.reports) + (if publishes(ToTemporary, m) then [] else [PublishFailed(temp, m)])
      ensures broker.unacked == old(broker.unacked) && broker.delayed == old(broker.delayed)
      ensures broker.bindings == old(broker.bindings) && broker.nextTemporary == old(broker.nextTemporary)
    {
      received := broker.ReceiveNoWait(Named(queue));
      if received.None? {
        return;
      }
      var message := received.value;
      ghost var taken := broker.queues;
      assert taken[temp] + [] == taken[temp];
      assert taken[temp := taken[temp]] == taken;
      if publishes(ToTemporary, message) {
        broker.Send(temp, message, None);
        assert taken[temp := taken[temp] + [message]] == broker.queues;
      } else {
        handler.Report(PublishFailed(temp, message));
      }
      broker.Acknowledge(message);
    }

    /** The first phase: every archived message is moved to `temp`, or reported when its publish fails. */
    method DrainToTemporary(temp: QueueName, publishes: Publishes)
      requires Valid() && temp.Temporary? && temp.n < broker.nextTemporary
      requires temp in broker.queues && broker.queues[temp] == []
      modifies broker, handler
      ensures Valid()
      ensures broker.queues == old(broker.queues)[Named(queue) := []][temp := Reached(old(broker.queues[Named(queue)]), publishes)]
      ensures broker.log == old(broker.log) + DrainLog(old(broker.queues[Named(queue)]), Named(queue), temp, publishes)
      ensures handler.reports == old(handler.reports) + LegFaults(old(broker.queues[Named(queue)]), temp, SentOn(publishes, ToTemporary))
      ensures broker.unacked == old(broker.unacked) && broker.delayed == old(broker.delayed)
      ensures broker.bindings == old(broker.bindings) && broker.nextTemporary == old(broker.nextTemporary)
    {
      ghost var archive := broker.queues[Named(queue)];
      ghost var drained: seq<Message> := [];
      assert old(broker.queues)[Named(queue) := archive][temp := []] == old(broker.queues);
      while true
        invariant Valid() && temp in broker.queues
        invariant Draining(Named(queue), temp, publishes, old(broker.queues), old(broker.log), old(handler.reports), archive, drained,
                           broker.queues, broker.log, handler.reports)
        invariant broker.unacked == old(broker.unacked) && broker.delayed == old(broker.delayed)
        invariant broker.bindings == old(broker.bindings) && broker.nextTemporary == old(broker.nextTemporary)
        decreases |broker.queues[Named(queue)]|
      {
        ghost var queues, log, reports := broker.queues, broker.log, handler.reports;
        var received := DrainNext(temp, publishes);
        if received.None? {
          break;
        }
        DrainingStep(Named(queue), temp, publishes, old(broker.queues), old(broker.log), old(handler.reports), archive, drained,
                     queues, log, reports, received.value, broker.queues, broker.log, handler.reports);
        drained := drained + [received.value];
      }
      assert drained == archive;
    }

    /**
     * One message of the second phase: taken from `temp`, published back to the archive when
     * the filter keeps it (a failed publish is reported), then acknowledged either way.
     * `None` when `temp` is empty, and then nothing changes.
     */
    method RestoreNext(temp: QueueName, keep: Message -> bool, publishes: Publishes) returns (received: Option<Message>)
      requires Valid() && temp.Temporary? && temp in broker.queues
      modifies broker, handler
      ensures Valid() && temp in broker.queues
      ensures received.None? <==> old(broker.queues[temp]) == []
      ensures received.None? ==> broker.queues == old(broker.queues) && broker.log == old(broker.log)
      ensures received.None? ==> handler.reports == old(handler.reports)
      ensures received.Some? ==> received.value == old(broker.queues[temp])[0]
      ensures received.Some? ==> var m := received.value;
        broker.queues == old(broker.queues)[temp := old(broker.queues[temp])[1..]]
          [Named(queue) := old(broker.queues[Named(queue)]) + (if keep(m) && publishes(BackToArchive, m) then [m] else [])]
      ensures received.Some? ==> var m := received.value;
        broker.log == old(broker.log) + RestoreStep(m, Named(queue), temp, keep, publishes)
      ensures received.Some? ==> var m := received.value;
        handler.reports == old(handler.reports)
          + (if keep(m) && !publishes(BackToArchive, m) then [PublishFailed(Named(queue), m)] else [])
      ensures broker.unacked == old(broker.unacked) && broker.delayed == old(broker.delayed)
      ensures broker.bindings == old(broker.bindings) && broker.nextTemporary == old(broker.nextTemporary)
    {
      received := broker.ReceiveNoWait(temp);
      if received.None? {
        return;
      }
      var message := received.value;
      ghost var taken := broker.queues;
      assert taken[Named(queue)] + [] == taken[Named(queue)];
      assert taken[Named(queue) := taken[Named(queue)]] == taken;
      if keep(message) {
        if publishes(BackToArchive, message) {
          broker.Send(Named(queue), message, None);
          assert taken[Named(queue) := taken[Named(queue)] + [message]] == broker.queues;
        } else {
          handler.Report(PublishFailed(Named(queue), message));
        }
      }
      broker.Acknowledge(message);
    }

    /**
     * The second phase: every message of `temp` goes to the filter; those it keeps are
     * published back to the (empty) archive, failures are reported, and all are acknowledged.
     */
    method RestoreFromTemporary(temp: QueueName, keep: Message -> bool, publishes: Publishes) returns (visited: seq<Message>)
      requires Valid() && temp.Temporary? && temp.n < broker.nextTemporary && temp in broker.queues
      requires broker.queues[Named(queue)] == []
      modifies broker, handler
      ensures Valid()
      ensures visited == old(broker.queues[temp])
      ensures broker.queues == old(broker.queues)[temp := []][Named(queue) := Select(visited, Returns(keep, publishes))]
      ensures broker.log == old(broker.log) + RestoreLog(visited, Named(queue), temp, keep, publishes)
      ensures handler.reports == old(handler.reports) + LegFaults(Select(visited, keep), Named(queue), SentOn(publishes, BackToArchive))
      ensures broker.unacked == old(broker.unacked) && broker.delayed == old(broker.delayed)
      ensures broker.bindings == old(broker.bindings) && broker.nextTemporary == old(broker.nextTemporary)
    {
      ghost var pending := broker.queues[temp];
      ghost var kept: seq<Message> := [];
      ghost var returned: seq<Message> := [];
      visited := [];
      assert old(broker.queues)[temp := pending][Named(queue) := []] == old(broker.queues);
      while true
        invariant Valid() && temp in broker.queues
        invariant Restoring(Named(queue), temp, keep, publishes, old(broker.queues), old(broker.log), old(handler.reports),
                            pending, visited, kept, returned, broker.queues, broker.log, handler.reports)
        invariant broker.unacked == old(broker.unacked) && broker.delayed == old(broker.delayed)
        invariant broker.bindings == old(broker.bindings) && broker.nextTemporary == old(broker.nextTemporary)
        decreases |broker.queues[temp]|
      {
        ghost var queues, log, reports := broker.queues, broker.log, handler.reports;
        var received := RestoreNext(temp, keep, publishes);
        if received.None? {
          break;
        }
        var message := received.value;
        RestoringStep(Named(queue), temp, keep, publishes, old(broker.queues), old(broker.log), old(handler.reports),
                      pending, visited, kept, returned, queues, log, reports, message, broker.queues, broker.log, handler.reports);
        kept := kept + (if keep(message) then [message] else []);
        returned := returned + (if keep(message) && publishes(BackToArchive, message) then [message] else []);
        visited := visited + [message];
      }
      assert visited == pending;
    }

    /**
     * `filterMessagesInQueue`: a scan of the archive through a fresh temporary queue, which
     * is deleted at the end. Returns the messages the filter saw, in archive order: those
     * whose move to the temporary queue worked. The archive ends up holding those the
     * filter kept and that made it back, in the same order.
     */
    method FilterMessagesInQueue(keep: Message -> bool, publishes: Publishes) returns (visited: seq<Message>)
      requires Valid()
      modifies broker, handler
      ensures Valid()
      ensures visited == Reached(old(broker.queues[Named(queue)]), publishes)
      ensures broker.queues == old(broker.queues)[Named(queue) := Select(visited, Returns(keep, publishes))]
      ensures broker.nextTemporary == old(broker.nextTemporary) + 1
      ensures var temp := Temporary(old(broker.nextTemporary));
        && broker.log == old(broker.log)
             + DrainLog(old(broker.queues[Named(queue)]), Named(queue), temp, publishes)
             + RestoreLog(visited, Named(queue), temp, keep, publishes)
             + [QueueDeleted(temp)]
        && handler.reports == old(handler.reports)
             + LegFaults(old(broker.queues[Named(queue)]), temp, SentOn(publishes, ToTemporary))
             + LegFaults(Select(visited, keep), Named(queue), SentOn(publishes, BackToArchive))
      ensures broker.unacked == old(broker.unacked) && broker.delayed == old(broker.delayed)
      ensures broker.bindings == old(broker.bindings)
    {
      var temp := broker.CreateTemporaryQueue();
      DrainToTemporary(temp, publishes);
      visited := RestoreFromTemporary(temp, keep, publishes);
      broker.DeleteQueue(temp);
      assert broker.queues == old(broker.queues)[Named(queue) := Select(visited, Returns(keep, publishes))];
    }

    /** `all()`: one record per message the scan saw, in archive order; the filter keeps every message. */
    method All(publishes: Publishes) returns (records: seq<FailedRecord>)
      requires Valid()
      modifies broker, handler
      ensures Valid()
      ensures records == Records(Reached(old(broker.queues[Named(queue)]), publishes))
      ensures broker.queues == old(broker.queues)[Named(queue) := Select(Reached(old(broker.queues[Named(queue)]), publishes), Returns(KeepAll(), publishes))]
      ensures broker.nextTemporary == old(broker.nextTemporary) + 1
      ensures var temp := Temporary(old(broker.nextTemporary));
              var visited := Reached(old(broker.queues[Named(queue)]), publishes);
        && broker.log == old(broker.log)
             + DrainLog(old(broker.queues[Named(queue)]), Named(queue), temp, publishes)
             + RestoreLog(visited, Named(queue), temp, KeepAll(), publishes)
             + [QueueDeleted(temp)]
        && handler.reports == old(handler.reports)
             + LegFaults(old(broker.queues[Named(queue)]), temp, SentOn(publishes, ToTemporary))
             + LegFaults(Select(visited, KeepAll()), Named(queue), SentOn(publishes, BackToArchive))
      ensures broker.unacked == old(broker.unacked) && broker.delayed == old(broker.delayed)
      ensures broker.bindings == old(broker.bindings)
    {
      var visited := FilterMessagesInQueue(KeepAll(), publishes);
      records := [];
      var i := 0;
      while i < |visited|
        invariant i <= |visited|
        invariant records == Records(visited[..i])
      {
        assert visited[..i + 1][..i] == visited[..i];
        records := records + [ToRecord(visited[i])];
        i := i + 1;
      }
      assert visited[..i] == visited;
    }

    /**
     * `find($id)`: the first record of `all()` with that id, or nothing. Every record has an
     * `id` field, so the field test always passes.
     */
    method Find(id: Option<string>, publishes: Publishes) returns (found: Option<FailedRecord>)
      requires Valid()
      modifies broker, handler
      ensures Valid()
      ensures var records := Records(Reached(old(broker.queues[Named(queue)]), publishes));
        && (found.Some? ==> exists i | 0 <= i < |records| :: records[i] == found.value
                              && found.value.id == id
                              && forall j | 0 <= j < i :: records[j].id != id)
        && (found.None? ==> forall r | r in records :: r.id != id)
      ensures broker.queues == old(broker.queues)[Named(queue) := Select(Reached(old(broker.queues[Named(queue)]), publishes), Returns(KeepAll(), publishes))]
      ensures broker.nextTemporary == old(broker.nextTemporary) + 1
      ensures var temp := Temporary(old(broker.nextTemporary));
              var visited := Reached(old(broker.queues[Named(queue)]), publishes);
        && broker.log == old(broker.log)
             + DrainLog(old(broker.queues[Named(queue)]), Named(queue), temp, publishes)
             + RestoreLog(visited, Named(queue), temp, KeepAll(), publishes)
             + [QueueDeleted(temp)]
        && handler.reports == old(handler.reports)
             + LegFaults(old(broker.queues[Named(queue)]), temp, SentOn(publishes, ToTemporary))
             + LegFaults(Select(visited, KeepAll()), Named(queue), SentOn(publishes, BackToArchive))
      ensures broker.unacked == old(broker.unacked) && broker.delayed == old(broker.delayed)
      ensures broker.bindings == old(broker.bindings)
    {
      var records := All(publishes);
      var i := 0;
      while i < |records|
        invariant i <= |records|
        invariant forall j | 0 <= j < i :: records[j].id != id
      {
        if records[i].id == id {
          return Some(records[i]);
        }
        i := i + 1;
      }
      return None;
    }

    /**
     * `forget($id)`: drops every archived message whose id is `id` and reports whether
     * there was one.
     */
    method Forget(id: Option<string>, publishes: Publishes) returns (deleted: bool)
      requires Valid()
      modifies broker, handler
      ensures Valid()
      ensures var visited := Reached(old(broker.queues[Named(queue)]), publishes);
        && broker.queues == old(broker.queues)[Named(queue) := Select(visited, Returns(WithoutId(id), publishes))]
        && (deleted <==> exists m | m in visited :: m.messageId == id)
      ensures broker.nextTemporary == old(broker.nextTemporary) + 1
      ensures var temp := Temporary(old(broker.nextTemporary));
              var visited := Reached(old(broker.queues[Named(queue)]), publishes);
        && broker.log == old(broker.log)
             + DrainLog(old(broker.queues[Named(queue)]), Named(queue), temp, publishes)
             + RestoreLog(visited, Named(queue), temp, WithoutId(id), publishes)
             + [QueueDeleted(temp)]
        && handler.reports == old(handler.reports)
             + LegFaults(old(broker.queues[Named(queue)]), temp, SentOn(publishes, ToTemporary))
             + LegFaults(Select(visited, WithoutId(id)), Named(queue), SentOn(publishes, BackToArchive))
      ensures broker.unacked == old(broker.unacked) && broker.delayed == old(broker.delayed)
      ensures broker.bindings == old(broker.bindings)
    {
      var visited := FilterMessagesInQueue(WithoutId(id), publishes);
      // The filter counts the messages it drops: those with the id.
      var deletedCount := |Select(visited, WithId(id))|;
      deleted := deletedCount > 0;
      SelectNonEmpty(visited, WithId(id));
    }

    /** `flush()`: the archive is empty afterwards. */
    method Flush()
      requires Valid()
      modifies broker
      ensures Valid()
      ensures broker.queues == old(broker.queues)[Named(queue) := []]
      ensures broker.log == old(broker.log) + [Purged(Named(queue))]
      ensures broker.unacked == old(broker.unacked) && broker.delayed == old(broker.delayed)
      ensures broker.bindings == old(broker.bindings) && broker.nextTemporary == old(broker.nextTemporary)
    {
      broker.Purge(Named(queue));
    }
  }

  /** `all()`'s filter returns nothing, which is not `false`, so every message is kept. */
  function KeepAll(): Message -> bool
  {
    (m: Message) => true
  }
}
