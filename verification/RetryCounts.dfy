/** While DLQ entries are kept and the worker does not crash, retries count strictly upwards. */
module RetryCounts {
  import opened Json
  import opened Strings
  import opened StatusDocument
  import opened JobRequests
  import opened Protocol
  import opened Origin
  import opened NoJobLost
  import Terminal
  import TaskDlq

  /** The highest count ever republished for a job; 0 before the first. */
  function TopRetry(retries: seq<Retry>, job: string): nat {
    if retries == [] then 0
    else
      var top, last := TopRetry(retries[..|retries| - 1], job), retries[|retries| - 1];
      if last.job == job && last.tryCount > top then last.tryCount else top
  }

  ghost predicate Increasing(retries: seq<Retry>, job: string) {
    && (forall i :: 0 <= i < |retries| && retries[i].job == job ==> retries[i].tryCount > 0)
    && (forall i, k :: 0 <= i < k < |retries| && retries[i].job == job && retries[k].job == job ==>
                         retries[i].tryCount < retries[k].tryCount)
  }

  lemma {:induction false} TopRetryIsMaximal(retries: seq<Retry>, i: nat)
    requires i < |retries|
    ensures retries[i].tryCount <= TopRetry(retries, retries[i].job)
  {
    if i < |retries| - 1 { TopRetryIsMaximal(retries[..|retries| - 1], i); }
  }

  lemma AppendRetry(retries: seq<Retry>, r: Retry, job: string)
    requires Increasing(retries, job) && (r.job == job ==> r.tryCount > TopRetry(retries, job))
    ensures Increasing(retries + [r], job)
    ensures TopRetry(retries + [r], job) == if r.job == job then r.tryCount else TopRetry(retries, job)
  {
    assert (retries + [r])[..|retries|] == retries;
    forall i: nat | i < |retries| && retries[i].job == job ensures retries[i].tryCount <= TopRetry(retries, job) {
      TopRetryIsMaximal(retries, i);
    }
    hide TopRetry;
  }

  // ---- One job ----

  datatype Phase = Resting | Trying | Publishing | Requeuing | Closing

  function PhaseOf(pc: Pc): Phase {
    match pc
    case Idle => Resting
    case Guard => Resting
    case Begin => Trying
    case Execute => Trying
    case Record(_) => Trying
    case Publish(_, _) => Publishing
    case Unlink(_) => Closing
    case Settle(status, _, _) => if status.IsTerminal() then Closing else Requeuing
    case Sweep => Resting
    case Return => Resting
  }

  /** How the attempts, the DLQ entry, the accepted messages and the republished counts of an
      unfinished job relate. */
  predicate CountsOk(max: nat, phase: Phase, finished: bool, attempts: nat, file: int, highest: int, top: int) {
    match phase
    case Resting =>
      if finished then attempts <= max + 1 else attempts == file <= max && highest <= file && top <= file
    case Trying => attempts == file + 1 <= max + 1 && highest <= file && top <= file
    case Publishing => attempts == file <= max && highest < file && top < file
    case Requeuing => attempts == file <= max && highest <= file && top <= file
    case Closing => attempts <= max + 1
  }

  function PhaseIn(s: System, job: string): Phase {
    if HandJob(s.queue) == job then PhaseOf(s.pc) else Resting
  }

  ghost predicate Inv(cfg: Config, s: System, job: string) {
    && CountsOk(cfg.maxRetries, PhaseIn(s, job), IsTerminal(s.redis, job), multiset(s.log.attempts)[job],
                FileCount(s.dlq, job), Highest(s.log.accepted, job), TopRetry(s.log.retries, job))
    && Increasing(s.log.retries, job)
    && (HandJob(s.queue) == job && s.pc.Publish? ==> s.pc.tryCount == FileCount(s.dlq, job))
    && (HandJob(s.queue) == job && s.pc.Sweep? ==> IsTerminal(s.redis, job))
  }

  lemma MoveKeeps(cfg: Config, s: System, m: Message, outcome: Outcome, job: string)
    requires Inv(cfg, s, job) && s.queue != [] && m.Request?
    ensures s.pc.Idle? && s.queue[0].message.Request? ==> Inv(cfg, ReceiveStep(s), job)
    ensures s.pc.Execute? ==> Inv(cfg, ExecuteStep(s, m, outcome), job)
  {
    hide Increasing, Highest, TopRetry, IsTerminal, DoneUpdates, FileCount;
  }

  lemma GuardKeeps(cfg: Config, s: System, m: Message, job: string)
    requires Inv(cfg, s, job) && s.queue != [] && m == s.queue[0].message && m.Request? && s.pc.Guard?
    requires FileCount(s.dlq, job) >= 0
    ensures Inv(cfg, GuardStep(cfg, s, m), job)
  {
    hide Increasing, Highest, TopRetry, IsTerminal, NotRegistered, FailedUpdates, FileCount;
    if IsTerminal(s.redis, m.job) {
    } else if m.taskName !in cfg.tasks {
    } else if m.job == job {
    } else {
    }
  }

  lemma RecordKeepsOther(cfg: Config, s: System, m: Message, reason: string, writable: bool, job: string)
    requires Inv(cfg, s, job) && s.queue != [] && m == s.queue[0].message && m.Request? && m.job != job
    ensures Inv(cfg, RecordStep(cfg, s, m, reason, writable), job)
  {
    hide Increasing, Highest, TopRetry, IsTerminal, FailedUpdates, RetryUpdates, TaskDlq.NextCount, CountsOk, PhaseOf;
  }

  lemma RecordKeepsHand(cfg: Config, s: System, m: Message, reason: string, writable: bool)
    requires s.queue != [] && m == s.queue[0].message && m.Request? && s.pc == Record(reason)
    requires Inv(cfg, s, m.job)
    requires 0 <= m.tryCount <= Highest(s.log.accepted, m.job) && 0 <= FileCount(s.dlq, m.job)
    requires cfg.maxRetries < INT32_MAX
    ensures Inv(cfg, RecordStep(cfg, s, m, reason, writable), m.job)
  {
    hide Increasing, Highest, TopRetry, IsTerminal, FailedUpdates, RetryUpdates, TaskDlq.NextCount;
    TaskDlq.NextCountInRange(m.tryCount, FileCount(s.dlq, m.job));
    if !writable {
    } else if FileCount(s.dlq, m.job) < cfg.maxRetries {
    } else {
    }
  }

  lemma SendCounts(s: System, e: Envelope, job: string)
    ensures Highest(Send(s, e).log.accepted, job)
            <= if JobOf(e) == job then Max(Highest(s.log.accepted, job), CountOf(e)) else Highest(s.log.accepted, job)
  {
    HighestAppend(s.log.accepted, e, job);
    hide Highest;
  }

  lemma PublishKeeps(cfg: Config, s: System, m: Message, reason: string, n: Int32, sendError: Option<string>,
                     job: string)
    requires Inv(cfg, s, job) && s.queue != [] && m == s.queue[0].message && m.Request? && s.pc == Publish(reason, n)
    ensures Inv(cfg, PublishStep(s, m, reason, n, sendError), job)
  {
    hide Increasing, Highest, TopRetry, IsTerminal, RepublishFailed, RetryUpdates, FileCount, Send, RetryId;
    var e := Retried(m, n);
    if sendError.Some? {
    } else {
      SendCounts(s, e, job);
      SendFrame(s, e);
      AppendRetry(s.log.retries, Retry(m.job, n), job);
      if m.job == job {
      } else {
      }
    }
  }

  lemma SendFrame(s: System, e: Envelope)
    requires s.queue != []
    ensures var t := Send(s, e);
            && t.redis == s.redis && t.dlq == s.dlq && HandJob(t.queue) == HandJob(s.queue)
            && t.log.attempts == s.log.attempts && t.log.retries == s.log.retries
  {}

  lemma WriteFrame(redis: Store, hand: string, p: Payload, job: string)
    ensures IsTerminal(redis[hand := p], job)
            == if hand == job then StatusDocument.Terminal(Fields(p)) else IsTerminal(redis, job)
  {
    hide StatusDocument.Terminal;
  }

  lemma BeginKeeps(cfg: Config, s: System, m: Message, now: string, job: string)
    requires Inv(cfg, s, job) && s.queue != [] && m == s.queue[0].message && m.Request? && s.pc.Begin?
    ensures Inv(cfg, BeginStep(s, m, now), job)
  {
    var document := Merge(Document(s.redis, m.job), m.job, Running, m.contract, now);
    WriteFrame(s.redis, m.job, Parsed(Obj(document)), job);
    hide Increasing, Highest, TopRetry, IsTerminal, Merge, FileCount;
  }

  lemma SettleKeeps(cfg: Config, s: System, hand: string, now: string, job: string)
    requires Inv(cfg, s, job) && s.queue != [] && hand == JobOf(s.queue[0]) && s.pc.Settle?
    requires StatusKey !in s.pc.updates && (s.pc.sweep ==> s.pc.status.IsTerminal())
    ensures Inv(cfg, SettleStep(s, hand, s.pc.status, s.pc.updates, s.pc.sweep, now), job)
  {
    var document := Merge(Document(s.redis, hand), hand, s.pc.status, s.pc.updates, now);
    MergeStatus(Document(s.redis, hand), hand, s.pc.status, s.pc.updates, now);
    WriteFrame(s.redis, hand, Parsed(Obj(document)), job);
    hide Increasing, Highest, TopRetry, IsTerminal, StatusDocument.Terminal, Merge, FileCount;
  }

  lemma RemoveKeeps(cfg: Config, s: System, hand: string, job: string)
    requires Inv(cfg, s, job) && s.queue != [] && hand == JobOf(s.queue[0])
    ensures s.pc.Unlink? ==> Inv(cfg, UnlinkStep(s, hand, s.pc.updates), job)
    ensures s.pc.Sweep? ==> Inv(cfg, SweepStep(s, hand), job)
  {
    hide Increasing, Highest, TopRetry, IsTerminal;
  }

  lemma ReturnKeeps(cfg: Config, s: System, job: string)
    requires Inv(cfg, s, job) && s.queue != [] && s.pc.Return?
    ensures Inv(cfg, ReturnStep(s), job)
  {
    hide Increasing, Highest, TopRetry, IsTerminal, FileCount;
  }

  lemma FileNatural(cfg: Config, s: System, job: string)
    requires Context(cfg, s)
    ensures FileCount(s.dlq, job) >= 0 && (s.pc.Idle? || s.queue != []) && cfg.maxRetries < INT32_MAX
  {
    hide RequestsOk, DocumentsIssued, FilesIssued, AcceptedKnown, QueueAccepted, IdsAccepted, Terminal.Inv;
  }

  lemma TryKeeps(cfg: Config, s: System, m: Message, choice: Choice, job: string)
    requires Context(cfg, s) && Inv(cfg, s, job) && s.queue != [] && m == s.queue[0].message && m.Request?
    requires 0 <= m.tryCount <= Highest(s.log.accepted, m.job)
    ensures Inv(cfg, Try(cfg, s, m, choice), job)
  {
    hide Context, Inv, Highest, GuardStep, BeginStep, ExecuteStep, RecordStep, PublishStep;
    FileNatural(cfg, s, job);
    FileNatural(cfg, s, m.job);
    if s.pc.Begin? {
      BeginKeeps(cfg, s, m, choice.startedAt, job);
    } else if s.pc.Record? {
      if m.job == job {
        RecordKeepsHand(cfg, s, m, s.pc.reason, choice.writable);
      } else {
        RecordKeepsOther(cfg, s, m, s.pc.reason, choice.writable, job);
      }
    } else if s.pc.Publish? {
      PublishKeeps(cfg, s, m, s.pc.reason, s.pc.tryCount, choice.sendError, job);
    } else if s.pc.Guard? {
      GuardKeeps(cfg, s, m, job);
    } else {
      MoveKeeps(cfg, s, m, choice.outcome, job);
    }
  }

  lemma WorkKeeps(cfg: Config, s: System, choice: Choice, job: string)
    requires Context(cfg, s) && Inv(cfg, s, job) && s.queue != []
    ensures Inv(cfg, Work(cfg, s, choice), job)
  {
    hide Context, Inv, Highest, ReceiveStep, UnlinkStep, SettleStep, SweepStep, ReturnStep, Try, GuardStep, ExecuteStep;
    NoJobLost.Hand(cfg, s);
    var m, hand := s.queue[0].message, JobOf(s.queue[0]);
    if s.pc.Idle? {
      MoveKeeps(cfg, s, m, choice.outcome, job);
    } else if s.pc.Settle? {
      SettleKeeps(cfg, s, hand, choice.settledAt, job);
    } else if s.pc.Unlink? || s.pc.Sweep? {
      RemoveKeeps(cfg, s, hand, job);
    } else if s.pc.Return? {
      ReturnKeeps(cfg, s, job);
    } else {
      TryKeeps(cfg, s, m, choice, job);
    }
  }

  lemma ApiPublishKeeps(cfg: Config, s: System, m: Message, job: string)
    requires Inv(cfg, s, job) && m.Request? && m.tryCount == 0 && (s.pc.Idle? || s.queue != [])
    requires FileCount(s.dlq, job) >= 0
    requires HandJob(s.queue) == job && s.pc.Publish? ==> s.pc.tryCount > 0
    ensures Inv(cfg, Send(s, First(m)), job)
  {
    SendCounts(s, First(m), job);
    hide Increasing, Highest, TopRetry, IsTerminal, FileCount;
    assert s.queue != [] ==> (s.queue + [First(m)])[0] == s.queue[0];
  }

  lemma PublishPositive(cfg: Config, s: System, job: string)
    requires Context(cfg, s) && job in s.requests
    ensures s.pc.Publish? ==> s.pc.tryCount > 0
    ensures s.requests[job].Request? && s.requests[job].tryCount == 0
  {
    hide Terminal.Inv, DocumentsIssued, FilesIssued, AcceptedKnown, IdsAccepted, FilesBounded;
    if s.pc.Publish? { Origin.Hand(cfg, s); }
  }

  lemma ApiWriteKeeps(cfg: Config, s: System, issued: string, order: Order, now: string, job: string)
    requires Inv(cfg, s, job) && !IsTerminal(s.redis, issued) && (HandJob(s.queue) != issued || s.pc.Idle?)
    ensures Inv(cfg, ApiWriteStep(cfg, s, issued, order, now), job)
  {
    Terminal.QueuedDocumentUnfinished(issued, order.taskName, now);
    WriteFrame(s.redis, issued, Parsed(Obj(QueuedDocument(issued, order.taskName, now))), job);
    hide Increasing, Highest, TopRetry, IsTerminal, StatusDocument.Terminal, QueuedDocument, FileCount, Issued;
  }

  lemma FreshJob(cfg: Config, s: System, job: string)
    requires Context(cfg, s) && job !in s.requests
    ensures !IsTerminal(s.redis, job) && (HandJob(s.queue) != job || s.pc.Idle?)
  {
    if s.queue != [] { Origin.Hand(cfg, s); }
    hide Terminal.Inv, RequestsOk, FilesIssued, AcceptedKnown, QueueAccepted, IdsAccepted, FilesBounded;
  }

  lemma LossKeeps(cfg: Config, s: System, lost: string, job: string)
    requires Inv(cfg, s, job) && !IsTerminal(s.redis, lost)
    ensures Inv(cfg, s.(redis := s.redis - {lost}), job) && Inv(cfg, s.(redis := s.redis[lost := Garbage]), job)
  {
    assert IsTerminal(s.redis, job) == IsTerminal(s.redis - {lost}, job);
    assert IsTerminal(s.redis, job) == IsTerminal(s.redis[lost := Garbage], job);
    hide Increasing, Highest, TopRetry, IsTerminal, FileCount;
  }

  lemma OtherKeeps(cfg: Config, s: System, e: Envelope, at: nat, dedup: set<DedupId>, job: string)
    requires Inv(cfg, s, job) && at <= |s.queue| && (s.pc.Idle? || at > 0)
    ensures Inv(cfg, s.(dedup := dedup), job)
    ensures Inv(cfg, s.(queue := s.queue[..at] + [e] + s.queue[at..]), job)
  {
    hide Increasing, Highest, TopRetry, IsTerminal, FileCount;
    assert at > 0 ==> (s.queue[..at] + [e] + s.queue[at..])[0] == s.queue[0];
  }

  lemma StepKeeps(cfg: Config, f: Faults, s: System, l: Label, job: string)
    requires !f.crashes && !f.fileLoss && !f.terminalLoss && f.strangers.Nobody? && Allowed(cfg, f, s, l)
    requires Context(cfg, s) && Inv(cfg, s, job)
    ensures Inv(cfg, Do(cfg, s, l), job)
  {
    if Enabled(s, l) {
      hide Inv, Context, Work, Send, ApiWriteStep, Issuable, IsUuid, IsTerminal;
      FileNatural(cfg, s, job);
      if l.Handler? {
        WorkKeeps(cfg, s, l.choice, job);
      } else if l.ApiWrite? {
        FreshJob(cfg, s, l.job);
        ApiWriteKeeps(cfg, s, l.job, l.order, l.now, job);
      } else if l.ApiPublish? {
        PublishPositive(cfg, s, l.job);
        ApiPublishKeeps(cfg, s, s.requests[l.job], job);
      } else if l.DropDocument? || l.DamageDocument? {
        LossKeeps(cfg, s, l.job, job);
      } else if l.Redeliver? {
        OtherKeeps(cfg, s, l.e, l.at, s.dedup, job);
      } else {
        OtherKeeps(cfg, s, First(Noise), |s.queue|, s.dedup - {l.id}, job);
      }
    }
  }

  lemma {:induction false} Holds(cfg: Config, f: Faults, ls: seq<Label>, job: string)
    requires ConfigOk(cfg) && !f.crashes && !f.fileLoss && !f.terminalLoss && f.strangers.Nobody? && Run(cfg, f, ls)
    ensures Inv(cfg, After(cfg, ls), job)
  {
    if ls != [] {
      var front := ls[..|ls| - 1];
      Holds(cfg, f, front, job);
      Origin.Holds(cfg, f, front);
      Terminal.Holds(cfg, front);
      hide Do, Inv, Allowed, Origin.Inv, Terminal.Inv;
      StepKeeps(cfg, f, After(cfg, front), ls[|ls| - 1], job);
    }
  }

  /** Whatever messages are redelivered and however often: the republished counts of a job strictly
      increase, and the job is attempted at most max + 1 times. */
  lemma RetriesIncrease(cfg: Config, f: Faults, ls: seq<Label>, job: string)
    requires ConfigOk(cfg) && !f.crashes && !f.fileLoss && !f.terminalLoss && f.strangers.Nobody? && Run(cfg, f, ls)
    ensures var log := After(cfg, ls).log;
            && multiset(log.attempts)[job] <= cfg.maxRetries + 1
            && forall i, k :: 0 <= i < k < |log.retries| && log.retries[i].job == job && log.retries[k].job == job ==>
                                log.retries[i].tryCount < log.retries[k].tryCount
  {
    hide Highest, TopRetry, IsTerminal, After, Run;
    Holds(cfg, f, ls, job);
  }

  /** So no deduplication ID is ever used for two retries, of whatever jobs. */
  lemma RetryIdsAreNeverReused(cfg: Config, f: Faults, ls: seq<Label>, i: nat, k: nat)
    requires ConfigOk(cfg) && !f.crashes && !f.fileLoss && !f.terminalLoss && f.strangers.Nobody? && Run(cfg, f, ls)
    requires i < k < |After(cfg, ls).log.retries|
    ensures var retries := After(cfg, ls).log.retries;
            RetryId(retries[i].job, retries[i].tryCount) != RetryId(retries[k].job, retries[k].tryCount)
  {
    hide Highest, TopRetry, IsTerminal, After, Run, RetryId;
    var retries := After(cfg, ls).log.retries;
    Holds(cfg, f, ls, retries[i].job);
    Holds(cfg, f, ls, retries[k].job);
    if RetryId(retries[i].job, retries[i].tryCount) == RetryId(retries[k].job, retries[k].tryCount) {
      RetryIdInjective(retries[i].job, retries[i].tryCount, retries[k].job, retries[k].tryCount);
    }
  }
}
