/** Without foreign senders, every message on the queue is an issued request stamped with a count. */
module Origin {
  import opened Json
  import opened Strings
  import opened StatusDocument
  import opened JobRequests
  import opened Protocol
  import TaskDlq

  predicate RequestOk(job: string, m: Message) {
    && m.Request? && m.job == job && m.tryCount == 0
    && m.contract.Keys == {TaskNameKey, EnqueuedAtKey}
    && m.contract[TaskNameKey].Str? && m.contract[EnqueuedAtKey].Str?
  }

  /** The message of a request with n recorded failures, as it stands on the queue. */
  function EnvelopeOf(m: Message, n: Int32): Envelope
    requires m.Request?
  {
    if n == 0 then First(m) else Retried(m, n)
  }

  predicate Known(cfg: Config, requests: map<string, Message>, e: Envelope) {
    && e.message.Request?
    && JobOf(e) in requests && RequestOk(JobOf(e), requests[JobOf(e)])
    && 0 <= CountOf(e) <= cfg.maxRetries
    && e == EnvelopeOf(requests[JobOf(e)], CountOf(e))
  }

  lemma KnownIds(cfg: Config, requests: map<string, Message>, a: Envelope, b: Envelope)
    requires Known(cfg, requests, a) && Known(cfg, requests, b)
    ensures a.id == b.id <==> a == b
    ensures a == b <==> JobOf(a) == JobOf(b) && CountOf(a) == CountOf(b)
  {
    if a.id == b.id && a.id.Explicit? {
      RetryIdInjective(JobOf(a), CountOf(a), JobOf(b), CountOf(b));
    }
  }

  ghost predicate RequestsOk(requests: map<string, Message>) {
    forall job :: job in requests ==> RequestOk(job, requests[job])
  }

  ghost predicate DocumentsIssued(redis: Store, requests: map<string, Message>) {
    forall job :: job in redis ==> job in requests
  }

  ghost predicate FilesIssued(dlq: map<string, File>, requests: map<string, Message>) {
    forall job :: job in dlq ==> job in requests
  }

  ghost predicate AcceptedKnown(cfg: Config, requests: map<string, Message>, accepted: seq<Envelope>) {
    forall e :: e in accepted ==> Known(cfg, requests, e)
  }

  ghost predicate QueueAccepted(queue: seq<Envelope>, accepted: seq<Envelope>) {
    forall e :: e in queue ==> e in accepted
  }

  ghost predicate IdsAccepted(dedup: set<DedupId>, accepted: seq<Envelope>) {
    forall id :: id in dedup ==> exists e :: e in accepted && e.id == id
  }

  /** Entries hold at most `bound`, those of the jobs in `lax` at most one more. */
  ghost predicate FilesBounded(dlq: map<string, File>, bound: int, lax: set<string>) {
    forall job :: 0 <= FileCount(dlq, job) <= (if job in lax then bound + 1 else bound)
  }

  /** The job whose recorded failure exceeds the limit and is about to be removed. */
  function Exhausting(pc: Pc, queue: seq<Envelope>): set<string> {
    if pc.Unlink? && queue != [] then {JobOf(queue[0])} else {}
  }

  /** The handler holds a message, and it publishes a count above that message's. */
  predicate HandlerOk(cfg: Config, pc: Pc, queue: seq<Envelope>) {
    && (!pc.Idle? ==> queue != [])
    && (pc.Publish? ==> CountOf(queue[0]) < pc.tryCount <= cfg.maxRetries)
  }

  ghost predicate Inv(cfg: Config, s: System) {
    && RequestsOk(s.requests)
    && DocumentsIssued(s.redis, s.requests)
    && FilesIssued(s.dlq, s.requests)
    && AcceptedKnown(cfg, s.requests, s.log.accepted)
    && QueueAccepted(s.queue, s.log.accepted)
    && IdsAccepted(s.dedup, s.log.accepted)
    && HandlerOk(cfg, s.pc, s.queue)
    && cfg.maxRetries + |s.log.crashed| < INT32_MAX
    && FilesBounded(s.dlq, cfg.maxRetries + |s.log.crashed|, Exhausting(s.pc, s.queue))
  }

  lemma Holding(cfg: Config, s: System)
    requires Inv(cfg, s)
    ensures s.pc.Idle? || s.queue != []
  {}

  lemma HeadKnown(cfg: Config, s: System)
    requires Inv(cfg, s) && s.queue != []
    ensures var e := s.queue[0];
            && e in s.log.accepted && Known(cfg, s.requests, e)
            && forall k: Int32 :: k > 0 ==> Retried(e.message, k) == EnvelopeOf(s.requests[JobOf(e)], k)
  {
    assert s.queue[0] in s.queue;
  }

  lemma SendKeeps(cfg: Config, s: System, e: Envelope)
    requires Inv(cfg, s) && Known(cfg, s.requests, e)
    ensures Inv(cfg, Send(s, e))
  {
    hide RequestsOk, DocumentsIssued, FilesIssued, FilesBounded, Known;
    if e.id !in s.dedup {
      var t := Send(s, e);
      assert forall x :: x in t.log.accepted <==> x in s.log.accepted || x == e;
      forall id | id in t.dedup ensures exists x :: x in t.log.accepted && x.id == id {
        if id != e.id {
          var x :| x in s.log.accepted && x.id == id;
          assert x in t.log.accepted;
        } else {
          assert e in t.log.accepted;
        }
      }
    }
  }

  lemma BoundAfterRecord(dlq: map<string, File>, bound: int, job: string, n: Int32, lax: set<string>)
    requires FilesBounded(dlq, bound, {})
    requires 0 <= n <= if job in lax then bound + 1 else bound
    ensures FilesBounded(dlq[job := Counting(n)], bound, lax)
  {
    forall j ensures 0 <= FileCount(dlq[job := Counting(n)], j) <= (if j in lax then bound + 1 else bound) {
      assert j != job ==> FileCount(dlq[job := Counting(n)], j) == FileCount(dlq, j);
    }
  }

  lemma BoundAfterLoss(dlq: map<string, File>, bound: int, job: string, lax: set<string>)
    requires FilesBounded(dlq, bound, lax) && bound >= 0
    ensures FilesBounded(dlq - {job}, bound, lax - {job})
    ensures FilesBounded(dlq[job := Unreadable], bound, lax - {job})
  {
    forall j
      ensures 0 <= FileCount(dlq - {job}, j) <= (if j in lax - {job} then bound + 1 else bound)
      ensures 0 <= FileCount(dlq[job := Unreadable], j) <= (if j in lax - {job} then bound + 1 else bound)
    {
      assert 0 <= FileCount(dlq, j) <= (if j in lax then bound + 1 else bound);
      assert 0 <= FileCount(dlq, job) <= bound + 1;
    }
  }

  lemma BoundWeakens(dlq: map<string, File>, a: int, b: int, lax: set<string>, wide: set<string>)
    requires FilesBounded(dlq, a, lax)
    requires (a <= b && lax <= wide) || a < b
    ensures FilesBounded(dlq, b, wide)
  {}

  /** Steps that only move the handler on. */
  lemma MoveKeeps(cfg: Config, s: System, m: Message, outcome: Outcome)
    requires Inv(cfg, s) && s.queue != [] && !s.pc.Unlink? && m.Request?
    ensures Inv(cfg, ReceiveStep(s)) && Inv(cfg, GuardStep(cfg, s, m)) && Inv(cfg, ExecuteStep(s, m, outcome))
  {
    hide FailedUpdates, DoneUpdates, NotRegistered, IsTerminal, RequestsOk, DocumentsIssued, FilesIssued, AcceptedKnown,
      QueueAccepted, IdsAccepted, FilesBounded;
  }

  lemma BeginKeeps(cfg: Config, s: System, m: Message, now: string)
    requires Inv(cfg, s) && s.queue != [] && s.pc.Begin? && m.Request? && m.job in s.requests
    ensures Inv(cfg, BeginStep(s, m, now))
  {
    hide Merge, RequestsOk, FilesIssued, AcceptedKnown, QueueAccepted, IdsAccepted, FilesBounded;
  }

  lemma SettleKeeps(cfg: Config, s: System, job: string, now: string)
    requires Inv(cfg, s) && s.queue != [] && s.pc.Settle? && job in s.requests
    ensures Inv(cfg, SettleStep(s, job, s.pc.status, s.pc.updates, s.pc.sweep, now))
  {
    hide Merge, RequestsOk, FilesIssued, AcceptedKnown, QueueAccepted, IdsAccepted, FilesBounded;
  }

  lemma RemoveKeeps(cfg: Config, s: System, job: string)
    requires Inv(cfg, s) && s.queue != [] && job == JobOf(s.queue[0]) && (s.pc.Unlink? || s.pc.Sweep?)
    ensures s.pc.Unlink? ==> Inv(cfg, UnlinkStep(s, job, s.pc.updates))
    ensures s.pc.Sweep? ==> Inv(cfg, SweepStep(s, job))
  {
    hide RequestsOk, DocumentsIssued, AcceptedKnown, QueueAccepted, IdsAccepted, FilesBounded;
    BoundAfterLoss(s.dlq, cfg.maxRetries + |s.log.crashed|, job, Exhausting(s.pc, s.queue));
    assert Exhausting(s.pc, s.queue) - {job} == {};
  }

  lemma RecordKeeps(cfg: Config, s: System, m: Message, reason: string, writable: bool)
    requires Inv(cfg, s) && s.queue != [] && s.pc == Record(reason) && m == s.queue[0].message && m.Request?
    ensures Inv(cfg, RecordStep(cfg, s, m, reason, writable))
  {
    hide TaskDlq.NextCount, FileCount, RetryUpdates, FailedUpdates, RequestsOk, DocumentsIssued, AcceptedKnown,
      QueueAccepted, IdsAccepted, FilesBounded, Known;
    RecordCount(cfg, s, m);
    var n, bound := TaskDlq.NextCount(m.tryCount, FileCount(s.dlq, m.job)), cfg.maxRetries + |s.log.crashed|;
    if !writable {
    } else if TaskDlq.CanRetry(n, cfg.maxRetries) {
      BoundAfterRecord(s.dlq, bound, m.job, n, {});
    } else {
      BoundAfterRecord(s.dlq, bound, m.job, n, {m.job});
    }
  }

  lemma RecordCount(cfg: Config, s: System, m: Message)
    requires Inv(cfg, s) && s.queue != [] && !s.pc.Unlink? && m == s.queue[0].message && m.Request?
    ensures m.job in s.requests
    ensures 0 <= m.tryCount < TaskDlq.NextCount(m.tryCount, FileCount(s.dlq, m.job))
              <= cfg.maxRetries + |s.log.crashed| + 1
  {
    HeadKnown(cfg, s);
    assert 0 <= FileCount(s.dlq, m.job) <= cfg.maxRetries + |s.log.crashed|;
    TaskDlq.NextCountInRange(m.tryCount, FileCount(s.dlq, m.job));
    hide FilesBounded, AcceptedKnown, IdsAccepted, QueueAccepted, RequestsOk, TaskDlq.NextCount;
  }

  lemma PublishPositive(cfg: Config, s: System)
    requires Inv(cfg, s) && s.pc.Publish?
    ensures 0 < s.pc.tryCount <= cfg.maxRetries
  {
    HeadKnown(cfg, s);
  }

  /** Moving on to a closing write changes nothing else. */
  lemma SettlingKeeps(cfg: Config, s: System, t: System)
    requires Inv(cfg, s) && s.pc.Publish? && t.pc.Settle? && t == s.(pc := t.pc, log := t.log)
    requires t.log.accepted == s.log.accepted && t.log.crashed == s.log.crashed
    ensures Inv(cfg, t)
  {
    hide RequestsOk, DocumentsIssued, FilesIssued, AcceptedKnown, QueueAccepted, IdsAccepted, FilesBounded;
  }

  lemma PublishKeeps(cfg: Config, s: System, m: Message, reason: string, n: Int32, sendError: Option<string>)
    requires Inv(cfg, s) && s.queue != [] && s.pc == Publish(reason, n) && m == s.queue[0].message && m.Request?
    ensures Inv(cfg, PublishStep(s, m, reason, n, sendError))
  {
    hide RetryUpdates, RepublishFailed, RequestsOk, DocumentsIssued, FilesIssued, AcceptedKnown, QueueAccepted,
      IdsAccepted, Known, Retried, FilesBounded;
    if sendError.Some? {
      BoundWeakens(s.dlq, cfg.maxRetries + |s.log.crashed|, cfg.maxRetries + |s.log.crashed|, {}, {m.job});
    } else {
      PublishPositive(cfg, s);
      RetryKnown(cfg, s, m, n);
      SendKeeps(cfg, s, Retried(m, n));
      SettlingKeeps(cfg, Send(s, Retried(m, n)), PublishStep(s, m, reason, n, sendError));
    }
  }

  lemma RetryKnown(cfg: Config, s: System, m: Message, n: Int32)
    requires Inv(cfg, s) && s.queue != [] && m == s.queue[0].message && m.Request? && 0 < n <= cfg.maxRetries
    ensures Known(cfg, s.requests, Retried(m, n))
  {
    HeadKnown(cfg, s);
    hide RequestsOk, DocumentsIssued, FilesIssued, AcceptedKnown, QueueAccepted, IdsAccepted, FilesBounded;
  }

  lemma ReturnKeeps(cfg: Config, s: System)
    requires Inv(cfg, s) && s.queue != [] && s.pc.Return?
    ensures Inv(cfg, ReturnStep(s))
  {
    hide RequestsOk, DocumentsIssued, FilesIssued, AcceptedKnown, IdsAccepted, FilesBounded;
    assert forall e :: e in s.queue[1..] ==> e in s.queue;
  }

  lemma Hand(cfg: Config, s: System)
    requires Inv(cfg, s) && s.queue != []
    ensures s.queue[0].message.Request? && JobOf(s.queue[0]) in s.requests && s.queue[0] in s.log.accepted
    ensures 0 <= CountOf(s.queue[0]) <= cfg.maxRetries
  {
    HeadKnown(cfg, s);
  }

  lemma TryKeeps(cfg: Config, s: System, m: Message, choice: Choice)
    requires Inv(cfg, s) && s.queue != [] && m == s.queue[0].message && m.Request? && m.job in s.requests
    ensures Inv(cfg, Try(cfg, s, m, choice))
  {
    hide Inv, GuardStep, BeginStep, ExecuteStep, RecordStep, PublishStep;
    if s.pc.Begin? {
      BeginKeeps(cfg, s, m, choice.startedAt);
    } else if s.pc.Record? {
      RecordKeeps(cfg, s, m, s.pc.reason, choice.writable);
    } else if s.pc.Publish? {
      PublishKeeps(cfg, s, m, s.pc.reason, s.pc.tryCount, choice.sendError);
    } else if s.pc.Guard? || s.pc.Execute? {
      MoveKeeps(cfg, s, m, choice.outcome);
    } else {
    }
  }

  lemma WorkKeeps(cfg: Config, s: System, choice: Choice)
    requires Inv(cfg, s) && s.queue != []
    ensures Inv(cfg, Work(cfg, s, choice))
  {
    Hand(cfg, s);
    var m, job := s.queue[0].message, JobOf(s.queue[0]);
    hide Inv, ReceiveStep, UnlinkStep, SettleStep, SweepStep, ReturnStep, Try;
    if s.pc.Idle? {
      MoveKeeps(cfg, s, m, choice.outcome);
    } else if s.pc.Unlink? {
      RemoveKeeps(cfg, s, job);
    } else if s.pc.Settle? {
      SettleKeeps(cfg, s, job, choice.settledAt);
    } else if s.pc.Sweep? {
      RemoveKeeps(cfg, s, job);
    } else if s.pc.Return? {
      ReturnKeeps(cfg, s);
    } else {
      TryKeeps(cfg, s, m, choice);
    }
  }

  lemma ApiWriteKeeps(cfg: Config, s: System, job: string, order: Order, now: string)
    requires Inv(cfg, s) && job !in s.requests
    ensures Inv(cfg, ApiWriteStep(cfg, s, job, order, now))
  {
    hide RequestMessage, QueuedDocument, QueueAccepted, IdsAccepted, FilesBounded, RequestsOk, AcceptedKnown;
    IssueKeepsRequests(cfg, s.requests, s.log.accepted, job, Issued(job, cfg.bucket, order, now));
  }

  lemma IssueKeepsRequests(cfg: Config, requests: map<string, Message>, accepted: seq<Envelope>, job: string,
                           m: Message)
    requires RequestsOk(requests) && AcceptedKnown(cfg, requests, accepted) && job !in requests && RequestOk(job, m)
    ensures RequestsOk(requests[job := m]) && AcceptedKnown(cfg, requests[job := m], accepted)
  {
    forall e | e in accepted ensures Known(cfg, requests[job := m], e) {
      assert Known(cfg, requests, e);
    }
  }

  lemma LossKeeps(cfg: Config, s: System, job: string)
    requires Inv(cfg, s) && job in s.dlq
    ensures Inv(cfg, s.(dlq := s.dlq - {job})) && Inv(cfg, s.(dlq := s.dlq[job := Unreadable]))
  {
    hide Known, RequestsOk, DocumentsIssued, AcceptedKnown, QueueAccepted, IdsAccepted, HandlerOk, FilesBounded;
    var bound, lax := cfg.maxRetries + |s.log.crashed|, Exhausting(s.pc, s.queue);
    BoundAfterLoss(s.dlq, bound, job, lax);
    BoundWeakens(s.dlq - {job}, bound, bound, lax - {job}, lax);
    BoundWeakens(s.dlq[job := Unreadable], bound, bound, lax - {job}, lax);
  }

  lemma RedeliverKeeps(cfg: Config, s: System, e: Envelope, at: nat)
    requires Inv(cfg, s) && Enabled(s, Redeliver(e, at))
    ensures Inv(cfg, Do(cfg, s, Redeliver(e, at)))
  {
    hide RequestsOk, DocumentsIssued, FilesIssued, AcceptedKnown, IdsAccepted, FilesBounded;
    assert forall x :: x in s.queue[..at] + [e] + s.queue[at..] ==> x in s.queue || x == e;
  }

  lemma CrashKeeps(cfg: Config, s: System)
    requires Inv(cfg, s) && Enabled(s, Crash) && cfg.maxRetries + |s.log.crashed| + 1 < INT32_MAX
    ensures Inv(cfg, Do(cfg, s, Crash))
  {
    hide RequestsOk, DocumentsIssued, FilesIssued, AcceptedKnown, QueueAccepted, IdsAccepted, FilesBounded;
    BoundWeakens(s.dlq, cfg.maxRetries + |s.log.crashed|, cfg.maxRetries + |s.log.crashed| + 1,
                 Exhausting(s.pc, s.queue), {});
  }

  lemma ForgetKeeps(cfg: Config, s: System, l: Label)
    requires Inv(cfg, s) && (l.DropDocument? || l.DamageDocument? || l.Forget?)
    ensures Inv(cfg, Do(cfg, s, l))
  {
    hide RequestsOk, FilesIssued, AcceptedKnown, QueueAccepted, FilesBounded;
  }

  lemma ApiPublishKeeps(cfg: Config, s: System, job: string)
    requires Inv(cfg, s) && job in s.requests
    ensures Inv(cfg, Send(s, First(s.requests[job])))
  {
    assert RequestOk(job, s.requests[job]);
    assert Known(cfg, s.requests, First(s.requests[job]));
    hide Inv, Known, RequestOk;
    SendKeeps(cfg, s, First(s.requests[job]));
  }

  lemma StepKeeps(cfg: Config, f: Faults, s: System, l: Label)
    requires f.strangers.Nobody?
    requires Inv(cfg, s) && Allowed(cfg, f, s, l)
    ensures Inv(cfg, Do(cfg, s, l))
  {
    if Enabled(s, l) {
      hide Inv, Work, ApiWriteStep, Send, Issuable, IsUuid, IsTerminal;
      if l.Handler? {
        WorkKeeps(cfg, s, l.choice);
      } else if l.ApiWrite? {
        ApiWriteKeeps(cfg, s, l.job, l.order, l.now);
      } else if l.ApiPublish? {
        ApiPublishKeeps(cfg, s, l.job);
      } else if l.Redeliver? {
        RedeliverKeeps(cfg, s, l.e, l.at);
      } else if l.Crash? {
        CrashKeeps(cfg, s);
      } else if l.DropFile? || l.DamageFile? {
        LossKeeps(cfg, s, l.job);
      } else {
        ForgetKeeps(cfg, s, l);
      }
    }
  }

  lemma {:induction false} Holds(cfg: Config, f: Faults, ls: seq<Label>)
    requires ConfigOk(cfg) && f.strangers.Nobody? && Run(cfg, f, ls)
    ensures Inv(cfg, After(cfg, ls))
  {
    if ls != [] {
      hide Do, Allowed;
      var front := ls[..|ls| - 1];
      Holds(cfg, f, front);
      StepKeeps(cfg, f, After(cfg, front), ls[|ls| - 1]);
    }
  }
}
