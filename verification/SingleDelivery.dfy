/** Delivered once and without crashes, a job has at most one live message, and no DLQ entry is ever
    ahead of it. */
module SingleDelivery {
  import opened Json
  import opened Strings
  import opened StatusDocument
  import opened JobRequests
  import opened Protocol
  import opened Origin
  import opened NoJobLost
  import Terminal
  import TaskDlq

  /** The counts of a job's messages, in order. */
  function Live(es: seq<Envelope>, job: string): seq<int> {
    if es == [] then []
    else Live(es[..|es| - 1], job) + Own(es[|es| - 1], job)
  }

  function Own(e: Envelope, job: string): seq<int> {
    if JobOf(e) == job then [CountOf(e)] else []
  }

  lemma LiveAppend(es: seq<Envelope>, e: Envelope, job: string)
    ensures Live(es + [e], job) == Live(es, job) + Own(e, job)
  {
    assert (es + [e])[..|es|] == es;
  }

  lemma Associative(a: seq<int>, b: seq<int>, c: seq<int>)
    ensures a + b + c == a + (b + c)
  {}

  lemma {:induction false} LiveConcat(a: seq<Envelope>, b: seq<Envelope>, job: string)
    ensures Live(a + b, job) == Live(a, job) + Live(b, job)
  {
    if b == [] {
      assert a + b == a;
    } else {
      var front, last := b[..|b| - 1], b[|b| - 1];
      assert b == front + [last] && a + b == a + front + [last];
      LiveConcat(a, front, job);
      LiveAppend(a + front, last, job);
      LiveAppend(front, last, job);
      hide Live, Own;
      Associative(Live(a, job), Live(front, job), Own(last, job));
    }
  }

  lemma LiveHead(es: seq<Envelope>, job: string)
    requires es != []
    ensures Live(es, job) == Own(es[0], job) + Live(es[1..], job)
  {
    assert Live([], job) == [];
    hide Live, Own;
    assert es == [es[0]] + es[1..];
    LiveConcat([es[0]], es[1..], job);
    LiveAppend([], es[0], job);
    assert [] + [es[0]] == [es[0]];
    assert [] + Own(es[0], job) == Own(es[0], job);
  }

  /** The fate of the message in hand is settled: closed, or replaced by a retry. */
  predicate Decided(pc: Pc) {
    pc.Unlink? || pc.Settle? || pc.Sweep? || pc.Return?
  }

  /** The messages still to be handled. */
  function Pending(pc: Pc, queue: seq<Envelope>): seq<Envelope> {
    if Decided(pc) && queue != [] then queue[1..] else queue
  }

  predicate Solo(live: seq<int>, highest: int, file: int, limit: int) {
    && (live == [] || live == [highest])
    && (highest == -1 ==> live == [])
    && (highest == -1 || live != [] ==> file <= limit)
  }

  /** What a DLQ entry may say of a job: no more than its newest message, or the retry about to be sent. */
  function Limit(pc: Pc, inHand: bool, highest: int): int {
    if inHand && pc.Publish? then highest + 1 else Max(highest, 0)
  }

  predicate PublishesNext(pc: Pc, inHand: bool, highest: int) {
    inHand && pc.Publish? ==> pc.tryCount == highest + 1
  }

  predicate FirstSent(requests: map<string, Message>, dedup: set<DedupId>, highest: int, job: string) {
    job in requests && highest >= 0 ==> First(requests[job]).id in dedup
  }

  predicate Inv(s: System, job: string) {
    var highest, inHand := Highest(s.log.accepted, job), HandJob(s.queue) == job;
    && Solo(Live(Pending(s.pc, s.queue), job), highest, FileCount(s.dlq, job), Limit(s.pc, inHand, highest))
    && PublishesNext(s.pc, inHand, highest)
    && FirstSent(s.requests, s.dedup, highest, job)
  }

  // ---- The handler ----

  /** Closing the message in hand leaves its job without a live message. */
  lemma Decide(s: System, pc: Pc, dlq: map<string, File>, job: string)
    requires Inv(s, job) && s.queue != [] && !Decided(s.pc) && Decided(pc) && CountOf(s.queue[0]) >= 0
    requires JobOf(s.queue[0]) != job ==> FileCount(dlq, job) == FileCount(s.dlq, job)
    ensures Inv(s.(pc := pc, dlq := dlq), job)
    ensures JobOf(s.queue[0]) == job ==>
              Live(s.queue[1..], job) == [] && Highest(s.log.accepted, job) == CountOf(s.queue[0])
  {
    hide Live, Highest, FileCount, FirstSent;
    LiveHead(s.queue, job);
    if JobOf(s.queue[0]) == job {
      OneLeft(CountOf(s.queue[0]), Live(s.queue[1..], job), Highest(s.log.accepted, job));
    } else {
    }
  }

  lemma OneLeft(head: int, rest: seq<int>, highest: int)
    requires [head] + rest == [] || [head] + rest == [highest]
    ensures rest == [] && head == highest
  {
    assert ([head] + rest)[0] == head;
    assert |[head] + rest| == 1 + |rest|;
  }

  /** Any step that keeps the messages and the entries. */
  lemma Stays(s: System, t: System, job: string)
    requires Inv(s, job) && s.queue == t.queue && s.dlq == t.dlq && s.requests == t.requests && s.dedup == t.dedup
    requires s.log.accepted == t.log.accepted && Decided(s.pc) == Decided(t.pc) && !s.pc.Publish? && !t.pc.Publish?
    ensures Inv(t, job)
  {
    hide Live, Highest, FileCount, FirstSent, Solo;
  }

  /** Any step that closes the message in hand. */
  lemma Closes(s: System, t: System, job: string)
    requires Inv(s, job) && s.queue == t.queue && s.requests == t.requests && s.dedup == t.dedup
    requires s.log.accepted == t.log.accepted && !Decided(s.pc) && Decided(t.pc)
    requires s.queue != [] && CountOf(s.queue[0]) >= 0
    requires JobOf(s.queue[0]) != job ==> FileCount(s.dlq, job) == FileCount(t.dlq, job)
    ensures Inv(t, job)
  {
    hide Live, Highest, FileCount, FirstSent, Solo;
    Decide(s, t.pc, t.dlq, job);
  }

  /** Any step that lowers entries. */
  lemma Lowers(s: System, t: System, job: string)
    requires Inv(s, job) && s.queue == t.queue && s.requests == t.requests && s.dedup == t.dedup
    requires s.log.accepted == t.log.accepted && Decided(s.pc) == Decided(t.pc)
    requires s.pc == t.pc || (!s.pc.Publish? && !t.pc.Publish?)
    requires FileCount(t.dlq, job) == FileCount(s.dlq, job) || FileCount(t.dlq, job) == 0
    ensures Inv(t, job)
  {
    hide Live, Highest, FileCount, FirstSent;
  }

  lemma GuardKeeps(cfg: Config, s: System, m: Message, job: string)
    requires Inv(s, job) && s.queue != [] && m == s.queue[0].message && m.Request? && s.pc.Guard? && m.tryCount >= 0
    ensures Inv(GuardStep(cfg, s, m), job)
  {
    hide Inv, IsTerminal, NotRegistered, FailedUpdates, FileCount;
    var t := GuardStep(cfg, s, m);
    if Decided(t.pc) { Closes(s, t, job); } else { Stays(s, t, job); }
  }

  lemma ExecuteKeeps(s: System, m: Message, outcome: Outcome, job: string)
    requires Inv(s, job) && s.queue != [] && m == s.queue[0].message && m.Request? && s.pc.Execute? && m.tryCount >= 0
    ensures Inv(ExecuteStep(s, m, outcome), job)
  {
    hide Inv, DoneUpdates, FileCount;
    var t := ExecuteStep(s, m, outcome);
    if Decided(t.pc) { Closes(s, t, job); } else { Stays(s, t, job); }
  }

  /** The recorded count is one above the message in hand, whatever the entry says. */
  lemma NextOfHand(s: System, m: Message)
    requires m.Request? && Inv(s, m.job) && s.queue != [] && m == s.queue[0].message && !Decided(s.pc) && !s.pc.Publish?
    requires 0 <= m.tryCount < INT32_MAX && FileCount(s.dlq, m.job) >= 0
    ensures Highest(s.log.accepted, m.job) == m.tryCount && Live(s.queue[1..], m.job) == []
    ensures FileCount(s.dlq, m.job) <= m.tryCount
    ensures TaskDlq.NextCount(m.tryCount, FileCount(s.dlq, m.job)) == m.tryCount + 1
  {
    hide Live, Highest, FileCount, FirstSent, TaskDlq.NextCount;
    LiveHead(s.queue, m.job);
    OneLeft(m.tryCount, Live(s.queue[1..], m.job), Highest(s.log.accepted, m.job));
    TaskDlq.NextCountInRange(m.tryCount, FileCount(s.dlq, m.job));
  }

  lemma RecordKeeps(cfg: Config, s: System, m: Message, reason: string, writable: bool, job: string)
    requires Inv(s, job) && s.queue != [] && m == s.queue[0].message && m.Request? && s.pc == Record(reason)
    requires 0 <= m.tryCount < INT32_MAX && FileCount(s.dlq, m.job) >= 0
    ensures Inv(RecordStep(cfg, s, m, reason, writable), job)
  {
    hide Inv, FailedUpdates, RetryUpdates, TaskDlq.NextCount;
    var t := RecordStep(cfg, s, m, reason, writable);
    if Decided(t.pc) {
      Closes(s, t, job);
    } else {
      Records(s, t, m, job);
    }
  }

  lemma Records(s: System, t: System, m: Message, job: string)
    requires Inv(s, job) && s.queue != [] && m == s.queue[0].message && m.Request? && s.pc.Record? && t.pc.Publish?
    requires 0 <= m.tryCount < INT32_MAX && FileCount(s.dlq, m.job) >= 0
    requires s.queue == t.queue && s.requests == t.requests && s.dedup == t.dedup && s.log.accepted == t.log.accepted
    requires t.dlq == s.dlq[m.job := Counting(t.pc.tryCount)]
    requires t.pc.tryCount == TaskDlq.NextCount(m.tryCount, FileCount(s.dlq, m.job))
    ensures Inv(t, job)
  {
    hide Live, Highest, FirstSent, TaskDlq.NextCount;
    if m.job == job {
      NextOfHand(s, m);
    } else {
    }
  }

  lemma PublishKeeps(s: System, m: Message, reason: string, n: Int32, sendError: Option<string>, job: string)
    requires Inv(s, job) && s.queue != [] && m == s.queue[0].message && m.Request? && s.pc == Publish(reason, n)
    requires m.tryCount >= 0
    requires Retried(m, n).id in s.dedup ==> n <= Highest(s.log.accepted, m.job)
    requires job == m.job || Inv(s, m.job)
    ensures Inv(PublishStep(s, m, reason, n, sendError), job)
  {
    hide Inv, RepublishFailed, RetryUpdates, FileCount, Highest, Send, Retried;
    var t := PublishStep(s, m, reason, n, sendError);
    if sendError.Some? {
      Closes(s, t, job);
    } else {
      Publishes(s, t, m, n, job);
    }
  }

  lemma Publishes(s: System, t: System, m: Message, n: Int32, job: string)
    requires Inv(s, job) && s.queue != [] && m == s.queue[0].message && m.Request? && s.pc.Publish?
    requires s.pc.tryCount == n
    requires m.tryCount >= 0
    requires Retried(m, n).id in s.dedup ==> n <= Highest(s.log.accepted, m.job)
    requires job == m.job || Inv(s, m.job)
    requires t == Send(s, Retried(m, n)).(pc := t.pc, log := t.log)
    requires t.log.accepted == Send(s, Retried(m, n)).log.accepted
    requires t.pc.Settle?
    ensures Inv(t, job)
  {
    hide Live, Highest, FileCount;
    var e := Retried(m, n);
    assert e.id !in s.dedup;
    LiveHead(s.queue, job);
    LiveAppend(s.queue[1..], e, job);
    HighestAppend(s.log.accepted, e, job);
    assert (s.queue + [e])[1..] == s.queue[1..] + [e];
    if m.job == job {
    } else {
    }
  }

  lemma ReturnKeeps(s: System, job: string)
    requires Inv(s, job) && s.queue != [] && s.pc.Return?
    ensures Inv(ReturnStep(s), job)
  {
    hide Live, Highest, FileCount, FirstSent, Solo;
  }

  lemma TryKeeps(cfg: Config, s: System, m: Message, choice: Choice, job: string)
    requires Inv(s, job) && s.queue != [] && m == s.queue[0].message && m.Request?
    requires 0 <= m.tryCount < INT32_MAX && FileCount(s.dlq, m.job) >= 0
    requires s.pc.Publish? && Retried(m, s.pc.tryCount).id in s.dedup ==>
               s.pc.tryCount <= Highest(s.log.accepted, m.job)
    requires job == m.job || Inv(s, m.job)
    ensures Inv(Try(cfg, s, m, choice), job)
  {
    hide Inv, Highest, FileCount, GuardStep, ExecuteStep, RecordStep, PublishStep, Merge, Retried;
    if s.pc.Begin? {
      Stays(s, BeginStep(s, m, choice.startedAt), job);
    } else if s.pc.Record? {
      RecordKeeps(cfg, s, m, s.pc.reason, choice.writable, job);
    } else if s.pc.Publish? {
      PublishKeeps(s, m, s.pc.reason, s.pc.tryCount, choice.sendError, job);
    } else if s.pc.Guard? {
      GuardKeeps(cfg, s, m, job);
    } else if s.pc.Execute? {
      ExecuteKeeps(s, m, choice.outcome, job);
    } else {
    }
  }

  lemma UnlinkLowers(dlq: map<string, File>, removed: string, job: string)
    ensures FileCount(dlq - {removed}, job) == if removed == job then 0 else FileCount(dlq, job)
    ensures FileCount(dlq[removed := Unreadable], job) == if removed == job then 0 else FileCount(dlq, job)
  {}

  lemma TailKeeps(s: System, now: string, job: string)
    requires Inv(s, job) && s.queue != [] && Decided(s.pc) && !s.pc.Return?
    ensures var hand := JobOf(s.queue[0]);
            && (s.pc.Unlink? ==> Inv(UnlinkStep(s, hand, s.pc.updates), job))
            && (s.pc.Sweep? ==> Inv(SweepStep(s, hand), job))
            && (s.pc.Settle? ==> Inv(SettleStep(s, hand, s.pc.status, s.pc.updates, s.pc.sweep, now), job))
  {
    hide Inv, FileCount, Merge;
    var hand := JobOf(s.queue[0]);
    UnlinkLowers(s.dlq, hand, job);
    if s.pc.Unlink? {
      Lowers(s, UnlinkStep(s, hand, s.pc.updates), job);
    } else if s.pc.Sweep? {
      Lowers(s, SweepStep(s, hand), job);
    } else {
      Stays(s, SettleStep(s, hand, s.pc.status, s.pc.updates, s.pc.sweep, now), job);
    }
  }

  // ---- Every step ----

  lemma HandFacts(cfg: Config, s: System)
    requires Context(cfg, s) && s.queue != []
    ensures s.queue[0].message.Request? && 0 <= s.queue[0].message.tryCount < INT32_MAX
    ensures FileCount(s.dlq, JobOf(s.queue[0])) >= 0
    ensures s.pc.Publish? && Retried(s.queue[0].message, s.pc.tryCount).id in s.dedup ==>
              s.pc.tryCount <= Highest(s.log.accepted, JobOf(s.queue[0]))
  {
    Origin.HeadKnown(cfg, s);
    hide Terminal.Inv, RequestsOk, DocumentsIssued, FilesIssued, AcceptedKnown, QueueAccepted, IdsAccepted, Highest,
      RetryId;
    if s.pc.Publish? { RetryFacts(cfg, s, Retried(s.queue[0].message, s.pc.tryCount)); }
  }

  lemma WorkKeeps(cfg: Config, s: System, choice: Choice, job: string)
    requires Context(cfg, s) && Inv(s, job) && s.queue != [] && Inv(s, JobOf(s.queue[0]))
    ensures Inv(Work(cfg, s, choice), job)
  {
    hide Context, Inv, Highest, FileCount, UnlinkStep, SettleStep, SweepStep, ReturnStep, Try, Retried;
    HandFacts(cfg, s);
    if s.pc.Idle? {
      Stays(s, ReceiveStep(s), job);
    } else if s.pc.Return? {
      ReturnKeeps(s, job);
    } else if Decided(s.pc) {
      TailKeeps(s, choice.settledAt, job);
    } else {
      TryKeeps(cfg, s, s.queue[0].message, choice, job);
    }
  }

  lemma ApiPublishKeeps(s: System, issued: string, job: string)
    requires Inv(s, job) && (s.pc.Idle? || s.queue != []) && issued in s.requests
    requires RequestOk(issued, s.requests[issued])
    ensures Inv(Send(s, First(s.requests[issued])), job)
  {
    hide Live, Highest, FileCount;
    var e := First(s.requests[issued]);
    if e.id in s.dedup {
    } else {
      PendingAppend(s.pc, s.queue, e);
      LiveAppend(Pending(s.pc, s.queue), e, job);
      HighestAppend(s.log.accepted, e, job);
      if issued == job {
        if s.queue != [] { LiveHead(s.queue, job); }
      } else {
      }
    }
  }

  lemma PendingAppend(pc: Pc, queue: seq<Envelope>, e: Envelope)
    requires pc.Idle? || queue != []
    ensures Pending(pc, queue + [e]) == Pending(pc, queue) + [e]
    ensures !pc.Idle? ==> HandJob(queue + [e]) == HandJob(queue)
  {
    assert queue != [] ==> (queue + [e])[1..] == queue[1..] + [e];
  }

  lemma ApiWriteKeeps(cfg: Config, s: System, issued: string, order: Order, now: string, job: string)
    requires Inv(s, job) && (issued == job ==> Highest(s.log.accepted, job) == -1)
    ensures Inv(ApiWriteStep(cfg, s, issued, order, now), job)
  {
    hide Live, Highest, FileCount, Solo, QueuedDocument, Issued;
  }

  lemma Issuing(cfg: Config, s: System, job: string)
    requires Context(cfg, s)
    ensures s.pc.Idle? || s.queue != []
    ensures if job in s.requests then RequestOk(job, s.requests[job]) else Highest(s.log.accepted, job) == -1
  {
    if job !in s.requests { NotYetPublished(cfg, s, job); }
  }

  lemma StepKeeps(cfg: Config, f: Faults, s: System, l: Label, job: string)
    requires !f.crashes && !f.redelivery && !f.forgetting && f.strangers.Nobody? && Allowed(cfg, f, s, l)
    requires Context(cfg, s) && Inv(s, job) && (s.queue != [] ==> Inv(s, JobOf(s.queue[0])))
    ensures Inv(Do(cfg, s, l), job)
  {
    if Enabled(s, l) {
      hide Inv, Context, Work, Send, ApiWriteStep, Issuable, IsUuid, IsTerminal, FileCount, Highest, RequestOk;
      if l.Handler? {
        WorkKeeps(cfg, s, l.choice, job);
      } else if l.ApiWrite? {
        Issuing(cfg, s, l.job);
        ApiWriteKeeps(cfg, s, l.job, l.order, l.now, job);
      } else if l.ApiPublish? {
        Issuing(cfg, s, l.job);
        ApiPublishKeeps(s, l.job, job);
      } else if l.DropFile? {
        UnlinkLowers(s.dlq, l.job, job);
        Lowers(s, s.(dlq := s.dlq - {l.job}), job);
      } else if l.DamageFile? {
        UnlinkLowers(s.dlq, l.job, job);
        Lowers(s, s.(dlq := s.dlq[l.job := Unreadable]), job);
      } else {
        Lowers(s, Do(cfg, s, l), job);
      }
    }
  }

  lemma {:induction false} Holds(cfg: Config, f: Faults, ls: seq<Label>, job: string)
    requires ConfigOk(cfg) && !f.crashes && !f.redelivery && !f.forgetting && f.strangers.Nobody? && Run(cfg, f, ls)
    ensures Inv(After(cfg, ls), job)
  {
    if ls != [] {
      var front := ls[..|ls| - 1];
      Holds(cfg, f, front, job);
      if After(cfg, front).queue != [] { Holds(cfg, f, front, JobOf(After(cfg, front).queue[0])); }
      Origin.Holds(cfg, f, front);
      Terminal.Holds(cfg, front);
      hide Do, Inv, Allowed, Origin.Inv, Terminal.Inv;
      StepKeeps(cfg, f, After(cfg, front), ls[|ls| - 1], job);
    }
  }
}
