/** The three retry counters (message, DLQ entry, status document) agree between handler runs. */
module CounterAgreement {
  import opened Json
  import opened Strings
  import opened StatusDocument
  import opened JobRequests
  import opened Protocol
  import opened Origin
  import opened NoJobLost
  import opened SingleDelivery
  import RetryCounts
  import Isolation
  import Terminal
  import TaskDlq

  /** The document's retry_count is n; 0 stands for an absent field. */
  predicate CountIs(document: Object, n: int) {
    if n == 0 then RetryCountKey !in document else HasCount(document, n)
  }

  /** The DLQ entry counts n; 0 stands for no entry. */
  predicate FileIs(dlq: map<string, File>, job: string, n: int) {
    if n == 0 then job !in dlq else job in dlq && dlq[job].Counting? && dlq[job].tryCount == n
  }

  predicate HasCount(document: Object, n: int) {
    RetryCountKey in document && document[RetryCountKey].Int? && document[RetryCountKey].n == n
  }

  /** Between handler runs: an unfinished job is queued and its counters agree. */
  predicate Rests(document: Object, dlq: map<string, File>, job: string, highest: int, live: seq<int>) {
    StatusDocument.Terminal(document)
    || (&& CountIs(document, Max(highest, 0)) && FileIs(dlq, job, Max(highest, 0))
        && (document != map[] ==> HasStatus(document, Queued))
        && (highest >= 0 ==> live == [highest]))
  }

  /** The job in hand at each point of its handler. */
  predicate InHand(pc: Pc, document: Object, dlq: map<string, File>, job: string, highest: int, live: seq<int>) {
    if pc.Idle? || pc.Guard? || pc.Return? then Rests(document, dlq, job, highest, live)
    else if pc.Begin? || pc.Execute? || pc.Record? then CountIs(document, highest) && FileIs(dlq, job, highest)
    else if pc.Publish? then FileIs(dlq, job, highest + 1) && pc.tryCount == highest + 1
    else if pc.Sweep? then StatusDocument.Terminal(document)
    else if pc.Settle? && !pc.status.IsTerminal() then
      && highest > 0 && pc.status.Queued? && HasCount(pc.updates, highest)
      && FileIs(dlq, job, highest) && live == [highest]
    else true
  }

  /** A job out of retries: failed with max + 1, or about to be. */
  predicate Spent(cfg: Config, pc: Pc, inHand: bool, document: Object) {
    if inHand && pc.Unlink? then HasCount(pc.updates, cfg.maxRetries + 1)
    else if inHand && pc.Settle? && pc.status.IsTerminal() then
      pc.status.Failed? && HasCount(pc.updates, cfg.maxRetries + 1)
    else HasStatus(document, Failed) && HasCount(document, cfg.maxRetries + 1)
  }

  ghost predicate Inv(cfg: Config, s: System, job: string) {
    var document, highest := Document(s.redis, job), Highest(s.log.accepted, job);
    var inHand, live := HandJob(s.queue) == job, Live(Pending(s.pc, s.queue), job);
    && (if inHand then InHand(s.pc, document, s.dlq, job, highest, live)
        else Rests(document, s.dlq, job, highest, live))
    && (job in s.log.exhausted ==> Spent(cfg, s.pc, inHand, document))
  }

  // ---- The handler ----

  lemma MoveKeeps(cfg: Config, s: System, m: Message, job: string)
    requires Inv(cfg, s, job) && s.queue != [] && m == s.queue[0].message && m.Request?
    ensures s.pc.Idle? ==> Inv(cfg, ReceiveStep(s), job)
    ensures s.pc.Return? ==> Inv(cfg, ReturnStep(s), job)
  {
    hide Live, Highest, CountIs, FileIs, HasCount, StatusDocument.Terminal, HasStatus;
    if m.job == job {
    } else {
    }
  }

  lemma OtherLive(pc: Pc, queue: seq<Envelope>, job: string)
    requires queue != [] && JobOf(queue[0]) != job
    ensures Live(Pending(pc, queue), job) == Live(queue, job)
  {
    LiveHead(queue, job);
  }

  /** A step in hand that leaves another job's document, entry and messages alone. */
  lemma OtherKeeps(cfg: Config, s: System, t: System, job: string)
    requires Inv(cfg, s, job) && s.queue != [] && t.queue != [] && JobOf(s.queue[0]) != job && JobOf(t.queue[0]) != job
    requires Document(s.redis, job) == Document(t.redis, job)
    requires job in s.dlq <==> job in t.dlq
    requires job in s.dlq ==> s.dlq[job] == t.dlq[job]
    requires Live(s.queue, job) == Live(t.queue, job)
    requires Highest(s.log.accepted, job) == Highest(t.log.accepted, job)
    requires job in t.log.exhausted ==> job in s.log.exhausted
    ensures Inv(cfg, t, job)
  {
    hide Live, Highest, CountIs, HasCount, StatusDocument.Terminal, HasStatus, Document, Pending, InHand;
    OtherLive(s.pc, s.queue, job);
    OtherLive(t.pc, t.queue, job);
  }

  /** What is known of the message in hand before its fate is decided. */
  ghost predicate Ready(cfg: Config, s: System, m: Message) {
    && s.queue != [] && m == s.queue[0].message && m.Request? && !Decided(s.pc)
    && 0 <= m.tryCount <= cfg.maxRetries < INT32_MAX
    && Highest(s.log.accepted, m.job) == m.tryCount && Live(s.queue[1..], m.job) == []
    && (!s.pc.Guard? ==> !IsTerminal(s.redis, m.job))
    && RetryCountKey !in m.contract && StatusKey !in m.contract
  }

  lemma GuardKeeps(cfg: Config, s: System, m: Message)
    requires m.Request? && Inv(cfg, s, m.job) && Ready(cfg, s, m) && s.pc.Guard?
    ensures Inv(cfg, GuardStep(cfg, s, m), m.job)
  {
    hide Live, Highest, CountIs, FileIs, HasCount, StatusDocument.Terminal, NotRegistered, FailedUpdates;
    if IsTerminal(s.redis, m.job) {
    } else if m.taskName !in cfg.tasks {
    } else {
    }
  }

  lemma ExecuteKeeps(cfg: Config, s: System, m: Message, outcome: Outcome)
    requires m.Request? && Inv(cfg, s, m.job) && Ready(cfg, s, m) && s.pc.Execute?
    ensures Inv(cfg, ExecuteStep(s, m, outcome), m.job)
  {
    hide Live, Highest, CountIs, FileIs, HasCount, DoneUpdates;
  }

  lemma BeginKeeps(cfg: Config, s: System, m: Message, now: string)
    requires m.Request? && Inv(cfg, s, m.job) && Ready(cfg, s, m) && s.pc.Begin?
    ensures Inv(cfg, BeginStep(s, m, now), m.job)
  {
    hide Live, Highest, FileIs, Merge;
    MergeField(Document(s.redis, m.job), m.job, Running, m.contract, now, RetryCountKey);
  }

  lemma RecordKeeps(cfg: Config, s: System, m: Message, reason: string, writable: bool)
    requires m.Request? && Inv(cfg, s, m.job) && Ready(cfg, s, m) && s.pc == Record(reason)
    requires TaskDlq.NextCount(m.tryCount, FileCount(s.dlq, m.job)) == m.tryCount + 1
    ensures Inv(cfg, RecordStep(cfg, s, m, reason, writable), m.job)
  {
    hide Live, Highest, CountIs, HasStatus, FailedUpdates, TaskDlq.NextCount, FileCount;
    if !writable {
    } else if m.tryCount < cfg.maxRetries {
    } else {
    }
  }

  lemma PublishKeeps(cfg: Config, s: System, m: Message, reason: string, n: Int32, sendError: Option<string>)
    requires m.Request? && Inv(cfg, s, m.job) && Ready(cfg, s, m) && s.pc == Publish(reason, n)
    requires Retried(m, n).id !in s.dedup
    ensures Inv(cfg, PublishStep(s, m, reason, n, sendError), m.job)
  {
    hide Live, Highest, CountIs, FileIs, HasStatus, FailedUpdates, RepublishFailed;
    if sendError.Some? {
    } else {
      var e := Retried(m, n);
      LiveAppend(s.queue[1..], e, m.job);
      HighestAppend(s.log.accepted, e, m.job);
      assert (s.queue + [e])[1..] == s.queue[1..] + [e];
    }
  }

  lemma UnlinkKeeps(cfg: Config, s: System)
    requires s.queue != [] && Inv(cfg, s, JobOf(s.queue[0]))
    ensures s.pc.Unlink? ==> Inv(cfg, UnlinkStep(s, JobOf(s.queue[0]), s.pc.updates), JobOf(s.queue[0]))
    ensures s.pc.Sweep? ==> Inv(cfg, SweepStep(s, JobOf(s.queue[0])), JobOf(s.queue[0]))
  {
    hide Live, Highest, CountIs, HasStatus, StatusDocument.Terminal, FileIs, HasCount;
  }

  lemma SettleKeeps(cfg: Config, s: System, now: string)
    requires s.queue != [] && Inv(cfg, s, JobOf(s.queue[0])) && s.pc.Settle?
    requires StatusKey !in s.pc.updates && (s.pc.sweep ==> s.pc.status.IsTerminal())
    requires !IsTerminal(s.redis, JobOf(s.queue[0]))
    ensures Inv(cfg, SettleStep(s, JobOf(s.queue[0]), s.pc.status, s.pc.updates, s.pc.sweep, now), JobOf(s.queue[0]))
  {
    hide Live, Highest, FileIs, StatusDocument.Terminal, HasStatus, Merge;
    var hand, document := JobOf(s.queue[0]), Document(s.redis, JobOf(s.queue[0]));
    MergeField(document, hand, s.pc.status, s.pc.updates, now, RetryCountKey);
    MergeStatus(document, hand, s.pc.status, s.pc.updates, now);
    StatusIsTerminal(document, Failed);
    if s.pc.status.IsTerminal() {
    } else {
    }
  }

  lemma StatusIsTerminal(document: Object, status: Status)
    ensures HasStatus(document, status) && status.IsTerminal() ==> StatusDocument.Terminal(document)
  {}

  // ---- Other jobs ----

  /** The messages of a job that is not in hand, and whether it ran out of retries. */
  predicate SameMessages(s: System, t: System, job: string) {
    && s.queue != [] && t.queue != [] && JobOf(s.queue[0]) == JobOf(t.queue[0])
    && Live(s.queue, job) == Live(t.queue, job) && Highest(s.log.accepted, job) == Highest(t.log.accepted, job)
    && (job in t.log.exhausted ==> job in s.log.exhausted)
  }

  lemma SendsOther(s: System, e: Envelope, job: string)
    requires s.queue != [] && JobOf(e) != job
    ensures SameMessages(s, Send(s, e), job)
  {
    hide Live, Highest;
    if e.id in s.dedup {
    } else {
      LiveAppend(s.queue, e, job);
      HighestAppend(s.log.accepted, e, job);
    }
  }

  lemma TryOther(cfg: Config, s: System, m: Message, choice: Choice, job: string)
    requires m.Request? && s.queue != [] && m.job != job
    ensures SameMessages(s, Try(cfg, s, m, choice), job)
  {
    hide Live, Highest, Merge, IsTerminal, FailedUpdates, RetryUpdates, DoneUpdates, TaskDlq.NextCount, FileCount,
      NotRegistered, RepublishFailed, Send, RetryId, TaskDlq.CanRetry;
    if s.pc.Publish? {
      SendsOther(s, Retried(m, s.pc.tryCount), job);
    } else if s.pc.Record? {
    } else {
    }
  }

  lemma WorkOther(cfg: Config, s: System, choice: Choice, job: string)
    requires Inv(cfg, s, job) && s.queue != [] && s.queue[0].message.Request? && JobOf(s.queue[0]) != job
    ensures Inv(cfg, Work(cfg, s, choice), job)
  {
    var m, t := s.queue[0].message, Work(cfg, s, choice);
    Isolation.WorkTouchesOneJob(cfg, s, choice, job);
    if s.pc.Return? {
      hide Inv;
      MoveKeeps(cfg, s, m, job);
    } else {
      WorkSameMessages(cfg, s, choice, job);
      hide Inv, Live, Highest, Work;
      OtherKeeps(cfg, s, t, job);
    }
  }

  lemma WorkSameMessages(cfg: Config, s: System, choice: Choice, job: string)
    requires s.queue != [] && s.queue[0].message.Request? && JobOf(s.queue[0]) != job && !s.pc.Return?
    ensures SameMessages(s, Work(cfg, s, choice), job)
  {
    hide Live, Highest, Merge, Try, Receive;
    if s.pc.Idle? || s.pc.Unlink? || s.pc.Settle? || s.pc.Sweep? {
    } else {
      TryOther(cfg, s, s.queue[0].message, choice, job);
    }
  }

  // ---- Every step ----

  ghost predicate Context(cfg: Config, s: System) {
    NoJobLost.Context(cfg, s) && (s.queue != [] ==> SingleDelivery.Inv(s, JobOf(s.queue[0])))
  }

  lemma HandReady(cfg: Config, s: System)
    requires Context(cfg, s) && s.queue != []
    ensures s.queue[0].message.Request?
    ensures !Decided(s.pc) && !s.pc.Idle? ==> Ready(cfg, s, s.queue[0].message)
    ensures s.pc.Publish? ==> Retried(s.queue[0].message, s.pc.tryCount).id !in s.dedup
    ensures s.pc.Record? ==> var m := s.queue[0].message;
                             TaskDlq.NextCount(m.tryCount, FileCount(s.dlq, m.job)) == m.tryCount + 1
    ensures s.pc.Settle? ==> StatusKey !in s.pc.updates && (s.pc.sweep ==> s.pc.status.IsTerminal())
                             && !IsTerminal(s.redis, JobOf(s.queue[0]))
  {
    HandFacts(cfg, s);
    HandGuarded(cfg, s);
    hide Origin.Inv, Terminal.Inv, NoJobLost.Context, Live, Highest, FileCount, TaskDlq.NextCount, IsTerminal, Retried,
      FirstSent;
    var m := s.queue[0].message;
    if !Decided(s.pc) {
      if s.pc.Publish? {
        Decide(s, Return, s.dlq, m.job);
      } else {
        NextOfHand(s, m);
      }
    }
  }

  lemma HandGuarded(cfg: Config, s: System)
    requires NoJobLost.Context(cfg, s) && s.queue != []
    ensures s.queue[0].message.Request? && s.queue[0].message.tryCount <= cfg.maxRetries < INT32_MAX
    ensures RetryCountKey !in s.queue[0].message.contract && StatusKey !in s.queue[0].message.contract
    ensures !s.pc.Idle? && !s.pc.Guard? && !s.pc.Sweep? && !s.pc.Return? ==> !IsTerminal(s.redis, JobOf(s.queue[0]))
    ensures s.pc.Settle? ==> StatusKey !in s.pc.updates && (s.pc.sweep ==> s.pc.status.IsTerminal())
  {
    Origin.HeadKnown(cfg, s);
    NoJobLost.Hand(cfg, s);
    hide RequestsOk, DocumentsIssued, FilesIssued, AcceptedKnown, QueueAccepted, IdsAccepted, FilesBounded, IsTerminal;
  }

  lemma TryKeeps(cfg: Config, s: System, m: Message, choice: Choice)
    requires m.Request? && Inv(cfg, s, m.job) && s.queue != [] && Ready(cfg, s, m)
    requires s.pc.Publish? ==> Retried(m, s.pc.tryCount).id !in s.dedup
    requires s.pc.Record? ==> TaskDlq.NextCount(m.tryCount, FileCount(s.dlq, m.job)) == m.tryCount + 1
    ensures Inv(cfg, Try(cfg, s, m, choice), m.job)
  {
    hide Inv, Ready, FileCount, TaskDlq.NextCount, Retried, GuardStep, BeginStep, ExecuteStep, RecordStep, PublishStep;
    if s.pc.Begin? {
      BeginKeeps(cfg, s, m, choice.startedAt);
    } else if s.pc.Record? {
      RecordKeeps(cfg, s, m, s.pc.reason, choice.writable);
    } else if s.pc.Publish? {
      PublishKeeps(cfg, s, m, s.pc.reason, s.pc.tryCount, choice.sendError);
    } else if s.pc.Guard? {
      GuardKeeps(cfg, s, m);
    } else if s.pc.Execute? {
      ExecuteKeeps(cfg, s, m, choice.outcome);
    } else {
    }
  }

  lemma WorkKeeps(cfg: Config, s: System, choice: Choice, job: string)
    requires Context(cfg, s) && Inv(cfg, s, job) && s.queue != []
    ensures Inv(cfg, Work(cfg, s, choice), job)
  {
    hide Context, Inv, Ready, FileCount, TaskDlq.NextCount, IsTerminal, Retried, ReceiveStep, UnlinkStep, SettleStep,
      SweepStep, ReturnStep, Try;
    HandReady(cfg, s);
    var m := s.queue[0].message;
    if m.job != job {
      WorkOther(cfg, s, choice, job);
    } else if s.pc.Idle? || s.pc.Return? {
      MoveKeeps(cfg, s, m, job);
    } else if s.pc.Settle? {
      SettleKeeps(cfg, s, choice.settledAt);
    } else if s.pc.Unlink? || s.pc.Sweep? {
      UnlinkKeeps(cfg, s);
    } else {
      TryKeeps(cfg, s, m, choice);
    }
  }

  lemma ApiPublishKeeps(cfg: Config, s: System, issued: string, job: string)
    requires Inv(cfg, s, job) && (s.pc.Idle? || s.queue != []) && issued in s.requests
    requires SingleDelivery.Inv(s, job) && RequestOk(issued, s.requests[issued])
    ensures Inv(cfg, Send(s, First(s.requests[issued])), job)
  {
    hide Live, Highest, CountIs, FileIs, HasCount, StatusDocument.Terminal, HasStatus, Document;
    var e := First(s.requests[issued]);
    if e.id in s.dedup {
    } else {
      PendingAppend(s.pc, s.queue, e);
      LiveAppend(Pending(s.pc, s.queue), e, job);
      HighestAppend(s.log.accepted, e, job);
      if issued == job {
        if s.queue != [] { LiveHead(s.queue, job); }
      } else {
      }
    }
  }

  lemma QueuedDocumentFacts(job: string, taskName: string, now: string)
    ensures var d := QueuedDocument(job, taskName, now); RetryCountKey !in d && HasStatus(d, Queued)
  {}

  lemma ApiWriteKeeps(cfg: Config, s: System, issued: string, order: Order, now: string, job: string)
    requires Inv(cfg, s, job)
    requires issued == job ==> job !in s.redis && (HandJob(s.queue) != job || s.pc.Idle?)
                               && Highest(s.log.accepted, job) == -1
    ensures Inv(cfg, ApiWriteStep(cfg, s, issued, order, now), job)
  {
    hide Live, Highest, FileIs, QueuedDocument, Issued;
    if issued == job {
      QueuedDocumentFacts(issued, order.taskName, now);
    } else {
    }
  }

  lemma FreshFacts(cfg: Config, s: System, job: string)
    requires NoJobLost.Context(cfg, s) && job !in s.requests
    ensures job !in s.redis && (HandJob(s.queue) != job || s.pc.Idle?) && Highest(s.log.accepted, job) == -1
  {
    NotYetPublished(cfg, s, job);
    RetryCounts.FreshJob(cfg, s, job);
    hide Terminal.Inv, RequestsOk, FilesIssued, AcceptedKnown, QueueAccepted, IdsAccepted, FilesBounded, Highest;
  }

  /** Crash-free runs that deliver every message once and lose nothing. */
  predicate Calm(f: Faults) {
    !f.crashes && !f.redelivery && !f.forgetting && !f.fileLoss && !f.documentLoss && f.strangers.Nobody?
  }

  lemma StepKeeps(cfg: Config, f: Faults, s: System, l: Label, job: string)
    requires Calm(f) && Allowed(cfg, f, s, l) && Context(cfg, s) && SingleDelivery.Inv(s, job) && Inv(cfg, s, job)
    ensures Inv(cfg, Do(cfg, s, l), job)
  {
    if Enabled(s, l) {
      hide Inv, NoJobLost.Context, SingleDelivery.Inv, Work, Send, ApiWriteStep, Issuable, IsUuid, IsTerminal, Highest,
        RequestOk, Live;
      if l.Handler? {
        WorkKeeps(cfg, s, l.choice, job);
      } else if l.ApiWrite? {
        FreshFacts(cfg, s, l.job);
        ApiWriteKeeps(cfg, s, l.job, l.order, l.now, job);
      } else {
        Issuing(cfg, s, l.job);
        ApiPublishKeeps(cfg, s, l.job, job);
      }
    }
  }

  lemma {:induction false} Holds(cfg: Config, f: Faults, ls: seq<Label>, job: string)
    requires ConfigOk(cfg) && Calm(f) && Run(cfg, f, ls)
    ensures Inv(cfg, After(cfg, ls), job)
  {
    if ls != [] {
      var front := ls[..|ls| - 1];
      Holds(cfg, f, front, job);
      Origin.Holds(cfg, f, front);
      Terminal.Holds(cfg, front);
      SingleDelivery.Holds(cfg, f, front, job);
      if After(cfg, front).queue != [] { SingleDelivery.Holds(cfg, f, front, JobOf(After(cfg, front).queue[0])); }
      hide Do, Inv, Allowed, SingleDelivery.Inv, Origin.Inv, Terminal.Inv;
      StepKeeps(cfg, f, After(cfg, front), ls[|ls| - 1], job);
    }
  }

  /** Whenever the handler is idle, a job whose status is queued has the same count in its document,
      in its DLQ entry and, once it is published, in its single message on the queue. */
  lemma CountersAgree(cfg: Config, f: Faults, ls: seq<Label>, job: string)
    requires ConfigOk(cfg) && Calm(f) && Run(cfg, f, ls)
    requires var s := After(cfg, ls); s.pc.Idle? && HasStatus(Document(s.redis, job), Queued)
    ensures var s := After(cfg, ls);
            exists n: nat ::
              && CountIs(Document(s.redis, job), n) && FileIs(s.dlq, job, n)
              && (if forall e :: e in s.log.accepted ==> JobOf(e) != job then n == 0 && Live(s.queue, job) == []
                  else Live(s.queue, job) == [n])
  {
    hide Live, CountIs, FileIs, HasStatus, After, Run, Highest;
    var s := After(cfg, ls);
    var n := Max(Highest(s.log.accepted, job), 0);
    Holds(cfg, f, ls, job);
    SingleDelivery.Holds(cfg, f, ls, job);
    Origin.Holds(cfg, f, ls);
    QueuedIsUnfinished(Document(s.redis, job));
    HighestMeans(cfg, s, job);
    assert CountIs(Document(s.redis, job), n) && FileIs(s.dlq, job, n);
  }

  lemma QueuedIsUnfinished(document: Object)
    requires HasStatus(document, Queued)
    ensures !StatusDocument.Terminal(document)
  {
    StatusTextsDiffer(Queued, Done);
    StatusTextsDiffer(Queued, Failed);
  }

  lemma HighestMeans(cfg: Config, s: System, job: string)
    requires Origin.Inv(cfg, s)
    ensures Highest(s.log.accepted, job) == -1 <==> forall e :: e in s.log.accepted ==> JobOf(e) != job
  {
    hide RequestsOk, DocumentsIssued, FilesIssued, QueueAccepted, IdsAccepted, FilesBounded, Highest;
    if forall e :: e in s.log.accepted ==> JobOf(e) != job {
      NeverAccepted(s.log.accepted, job);
    } else {
      var e :| e in s.log.accepted && JobOf(e) == job;
      HighestIsMaximal(s.log.accepted, e);
    }
  }

  /** A job that ran out of retries has failed with retry_count exactly max + 1. */
  lemma ExhaustedAtMaxPlusOne(cfg: Config, f: Faults, ls: seq<Label>, job: string)
    requires ConfigOk(cfg) && Calm(f) && Run(cfg, f, ls) && After(cfg, ls).pc.Idle?
    ensures var s := After(cfg, ls); job in s.log.exhausted ==>
              HasStatus(Document(s.redis, job), Failed) && HasCount(Document(s.redis, job), cfg.maxRetries + 1)
  {
    hide Live, CountIs, FileIs, After, Run, Highest;
    Holds(cfg, f, ls, job);
  }
}
