/** Finished jobs stay finished: what the terminal guard buys over whole runs. */
module Terminal {
  import opened Json
  import opened StatusDocument
  import opened JobRequests
  import opened Protocol
  import Isolation
  import TaskDlq

  ghost predicate AllPlausible(es: seq<Envelope>) {
    forall e :: e in es ==> Plausible(e.message)
  }

  /** Past the guard the job in hand is unfinished; a malformed message can only fail its job. */
  predicate Guarded(pc: Pc, queue: seq<Envelope>, redis: Store) {
    pc.Idle? || pc.Sweep? || pc.Return?
    || (&& queue != [] && !queue[0].message.Noise?
        && (if queue[0].message.Request? then pc.Guard? || !IsTerminal(redis, JobOf(queue[0]))
            else pc.Settle? && pc.status.Failed?)
        && (pc.Settle? ==> !pc.status.Running? && StatusKey !in pc.updates && (pc.sweep ==> pc.status.IsTerminal()))
        && (pc.Unlink? ==> StatusKey !in pc.updates))
  }

  ghost predicate Inv(s: System) {
    AllPlausible(s.queue) && AllPlausible(s.log.accepted) && Guarded(s.pc, s.queue, s.redis)
  }

  lemma QueuedDocumentUnfinished(job: string, taskName: string, now: string)
    ensures !Terminal(QueuedDocument(job, taskName, now))
  {
    StatusTextsDiffer(Queued, Done);
    StatusTextsDiffer(Queued, Failed);
  }

  lemma HeadPlausible(queue: seq<Envelope>)
    requires AllPlausible(queue) && queue != []
    ensures Plausible(queue[0].message)
  {
    assert queue[0] in queue;
  }

  lemma MoveKeeps(cfg: Config, s: System, m: Message, choice: Choice)
    requires Inv(s) && s.queue != [] && m == s.queue[0].message
    ensures s.pc.Idle? ==> Inv(ReceiveStep(s))
    ensures s.pc.Guard? && m.Request? ==> Inv(GuardStep(cfg, s, m))
    ensures s.pc.Execute? && m.Request? ==> Inv(ExecuteStep(s, m, choice.outcome))
  {
    hide AllPlausible, IsTerminal, NotRegistered;
    HeadPlausible(s.queue);
    if s.pc.Idle? {
    } else if s.pc.Guard? {
    } else {
    }
  }

  lemma RecordKeeps(cfg: Config, s: System, m: Message, reason: string, writable: bool)
    requires Inv(s) && s.queue != [] && m == s.queue[0].message && m.Request? && s.pc == Record(reason)
    ensures Inv(RecordStep(cfg, s, m, reason, writable))
  {
    assert s.queue[0] in s.queue;
    hide AllPlausible, IsTerminal, TaskDlq.NextCount;
  }

  lemma RemoveKeeps(s: System, job: string)
    requires Inv(s) && s.queue != []
    ensures s.pc.Unlink? ==> Inv(UnlinkStep(s, job, s.pc.updates))
    ensures Inv(SweepStep(s, job))
  {
    hide AllPlausible, IsTerminal;
  }

  lemma BeginKeeps(s: System, m: Message, now: string)
    requires Inv(s) && s.queue != [] && m == s.queue[0].message && m.Request? && s.pc.Begin?
    ensures Inv(BeginStep(s, m, now))
  {
    assert s.queue[0] in s.queue;
    MergeStatus(Document(s.redis, m.job), m.job, Running, m.contract, now);
    hide AllPlausible, Merge, StatusDocument.Terminal;
  }

  lemma SettleKeeps(s: System, job: string, now: string)
    requires Inv(s) && s.pc.Settle?
    ensures Inv(SettleStep(s, job, s.pc.status, s.pc.updates, s.pc.sweep, now))
  {
    hide AllPlausible, Merge;
  }

  lemma SendKeeps(s: System, e: Envelope)
    requires Inv(s) && Plausible(e.message)
    ensures Inv(Send(s, e))
  {
    hide IsTerminal;
  }

  lemma PublishKeeps(s: System, m: Message, reason: string, n: Int32, sendError: Option<string>)
    requires Inv(s) && s.queue != [] && m == s.queue[0].message && m.Request? && s.pc == Publish(reason, n)
    ensures Inv(PublishStep(s, m, reason, n, sendError))
  {
    assert s.queue[0] in s.queue;
    SendKeeps(s, Retried(m, n));
    hide AllPlausible, IsTerminal, RepublishFailed;
  }

  lemma ReturnKeeps(s: System)
    requires Inv(s) && s.queue != []
    ensures Inv(ReturnStep(s))
  {
    hide IsTerminal;
  }

  lemma TryKeeps(cfg: Config, s: System, m: Message, choice: Choice)
    requires Inv(s) && s.queue != [] && m == s.queue[0].message && m.Request?
    ensures Inv(Try(cfg, s, m, choice))
  {
    hide Inv, GuardStep, BeginStep, ExecuteStep, RecordStep, PublishStep;
    if s.pc.Begin? {
      BeginKeeps(s, m, choice.startedAt);
    } else if s.pc.Record? {
      RecordKeeps(cfg, s, m, s.pc.reason, choice.writable);
    } else if s.pc.Publish? {
      PublishKeeps(s, m, s.pc.reason, s.pc.tryCount, choice.sendError);
    } else {
      MoveKeeps(cfg, s, m, choice);
    }
  }

  lemma WorkKeeps(cfg: Config, s: System, choice: Choice)
    requires Inv(s) && s.queue != []
    ensures Inv(Work(cfg, s, choice))
  {
    var m, job := s.queue[0].message, JobOf(s.queue[0]);
    hide Inv, ReceiveStep, UnlinkStep, SettleStep, SweepStep, ReturnStep, Try;
    if s.pc.Idle? {
      MoveKeeps(cfg, s, m, choice);
    } else if s.pc.Unlink? {
      RemoveKeeps(s, job);
    } else if s.pc.Settle? {
      SettleKeeps(s, job, choice.settledAt);
    } else if s.pc.Sweep? {
      RemoveKeeps(s, job);
    } else if s.pc.Return? {
      ReturnKeeps(s);
    } else {
      if m.Request? { TryKeeps(cfg, s, m, choice); }
    }
  }

  lemma ApiWriteKeeps(cfg: Config, s: System, job: string, order: Order, now: string)
    requires Inv(s)
    ensures Inv(ApiWriteStep(cfg, s, job, order, now))
  {
    hide AllPlausible, Terminal, QueuedDocument, Issued;
    QueuedDocumentUnfinished(job, order.taskName, now);
  }

  lemma RedeliverKeeps(s: System, e: Envelope, at: nat)
    requires Inv(s) && e in s.log.accepted && at <= |s.queue| && (Busy(s) ==> at > 0)
    ensures Inv(s.(queue := s.queue[..at] + [e] + s.queue[at..]))
  {
    hide IsTerminal;
    var queue := s.queue[..at] + [e] + s.queue[at..];
    assert forall x :: x in queue ==> x in s.queue || x == e;
    assert at > 0 ==> queue[0] == s.queue[0];
  }

  lemma LossKeeps(s: System, job: string)
    requires Inv(s)
    ensures Inv(s.(redis := s.redis - {job})) && Inv(s.(redis := s.redis[job := Garbage]))
  {
    hide AllPlausible, IsTerminal;
    if s.queue != [] && !IsTerminal(s.redis, JobOf(s.queue[0])) { LossUnfinishes(s.redis, job, JobOf(s.queue[0])); }
  }

  lemma LossUnfinishes(redis: Store, lost: string, job: string)
    requires !IsTerminal(redis, job)
    ensures !IsTerminal(redis - {lost}, job) && !IsTerminal(redis[lost := Garbage], job)
  {}

  lemma QuietKeeps(s: System, dlq: map<string, File>, dedup: set<DedupId>, log: Log)
    requires Inv(s) && log.accepted == s.log.accepted
    ensures Inv(s.(dlq := dlq)) && Inv(s.(dedup := dedup)) && Inv(s.(pc := Idle, log := log))
  {
    hide AllPlausible, IsTerminal;
  }

  lemma EnvironmentKeeps(cfg: Config, s: System, l: Label)
    requires !l.Handler? && !l.ApiPublish? && Enabled(s, l)
    requires Inv(s)
    ensures Inv(Do(cfg, s, l))
  {
    hide Inv, Plausible, ApiWriteStep, IsUuid, Issuable, Send, Work;
    if l.ApiWrite? {
      ApiWriteKeeps(cfg, s, l.job, l.order, l.now);
    } else if l.Redeliver? {
      RedeliverKeeps(s, l.e, l.at);
    } else if l.Foreign? {
      SendKeeps(s, l.e);
    } else if l.DropDocument? || l.DamageDocument? {
      LossKeeps(s, l.job);
    } else {
      QuietKeeps(s, Do(cfg, s, l).dlq, Do(cfg, s, l).dedup, Do(cfg, s, l).log);
    }
  }

  /** Requests carry plausible contract fields. */
  ghost predicate RequestsPlausible(requests: map<string, Message>) {
    forall job :: job in requests ==> Plausible(requests[job])
  }

  lemma StepKeeps(cfg: Config, s: System, l: Label)
    requires Inv(s) && RequestsPlausible(s.requests)
    ensures Inv(Do(cfg, s, l)) && RequestsPlausible(Do(cfg, s, l).requests)
  {
    RequestsStay(cfg, s, l);
    if Enabled(s, l) {
      hide Inv, RequestsPlausible;
      match l
      case Handler(choice) => WorkKeeps(cfg, s, choice);
      case ApiPublish(job) =>
        assert Plausible(s.requests[job]) by { PlausibleRequest(s, job); }
        SendKeeps(s, First(s.requests[job]));
      case _ => EnvironmentKeeps(cfg, s, l);
    }
  }

  lemma PlausibleRequest(s: System, job: string)
    requires RequestsPlausible(s.requests) && job in s.requests
    ensures Plausible(s.requests[job])
  {}

  lemma RequestsStay(cfg: Config, s: System, l: Label)
    requires RequestsPlausible(s.requests)
    ensures RequestsPlausible(Do(cfg, s, l).requests)
  {
    hide QueuedDocument, RequestMessage, Work, IsUuid, Issuable;
    if l.Handler? {
      if s.queue != [] { Isolation.WorkWritesOnly(cfg, s, l.choice); }
    } else if l.ApiWrite? {
    } else {
      hide Plausible;
    }
  }

  /** Every reachable state, whatever fails and whoever sends. */
  lemma {:induction false} Holds(cfg: Config, ls: seq<Label>)
    ensures Inv(After(cfg, ls)) && RequestsPlausible(After(cfg, ls).requests)
  {
    if ls != [] {
      hide Do, Inv, RequestsPlausible;
      var front := ls[..|ls| - 1];
      Holds(cfg, front);
      StepKeeps(cfg, After(cfg, front), ls[|ls| - 1]);
    } else {
      assert Inv(Initial) && RequestsPlausible(Initial.requests);
    }
  }

  // ---- Absorption ----

  /** Losing the document, or issuing the job ID afresh. */
  predicate Replaces(l: Label, job: string) {
    (l.DropDocument? || l.DamageDocument? || l.ApiWrite?) && l.job == job
  }

  ghost predicate NoMalformed(queue: seq<Envelope>, job: string) {
    forall e :: e in queue && JobOf(e) == job ==> !e.message.Malformed?
  }

  function Attempts(s: System, job: string): nat {
    multiset(s.log.attempts)[job]
  }

  /** The finished job's document survives a step, or is overwritten by "failed" for a malformed message. */
  ghost predicate Absorbs(s: System, t: System, job: string) {
    && IsTerminal(t.redis, job)
    && Attempts(t, job) == Attempts(s, job)
    && (job in s.redis && job in t.redis && (NoMalformed(s.queue, job) ==> t.redis[job] == s.redis[job]))
  }

  lemma FinishedIsStored(redis: Store, job: string)
    requires IsTerminal(redis, job)
    ensures job in redis
  {}

  lemma SettleAbsorbs(s: System, hand: string, job: string, now: string)
    requires Inv(s) && s.pc.Settle? && s.queue != [] && hand == JobOf(s.queue[0]) && IsTerminal(s.redis, job)
    ensures Absorbs(s, SettleStep(s, hand, s.pc.status, s.pc.updates, s.pc.sweep, now), job)
  {
    MergeStatus(Document(s.redis, job), job, s.pc.status, s.pc.updates, now);
    hide AllPlausible, Merge, StatusDocument.Terminal;
    assert s.queue[0] in s.queue;
  }

  lemma GuardAbsorbs(cfg: Config, s: System, m: Message, job: string, now: string)
    requires Inv(s) && s.queue != [] && m == s.queue[0].message && m.Request? && IsTerminal(s.redis, job)
    ensures s.pc.Guard? ==> Absorbs(s, GuardStep(cfg, s, m), job)
    ensures s.pc.Begin? ==> Absorbs(s, BeginStep(s, m, now), job)
  {
    FinishedIsStored(s.redis, job);
    hide AllPlausible, Merge, StatusDocument.Terminal, NotRegistered;
  }

  /** Steps that touch neither documents nor attempts. */
  lemma QuietAbsorbs(s: System, t: System, job: string)
    requires IsTerminal(s.redis, job) && t.redis == s.redis && t.log.attempts == s.log.attempts
    ensures Absorbs(s, t, job)
  {
    FinishedIsStored(s.redis, job);
    hide IsTerminal, NoMalformed;
  }

  lemma QuietSteps(cfg: Config, s: System, choice: Choice)
    requires s.queue != [] && !s.pc.Settle?
    requires s.queue[0].message.Request? ==> !s.pc.Guard? && !s.pc.Begin?
    ensures var t := Work(cfg, s, choice); t.redis == s.redis && t.log.attempts == s.log.attempts
  {
    hide Retried, TaskDlq.NextCount, RepublishFailed, RetryUpdates, FailedUpdates, DoneUpdates, FileCount, Receive;
    if s.pc.Record? {
    } else if s.pc.Publish? {
    } else {
    }
  }

  lemma WorkAbsorbs(cfg: Config, s: System, choice: Choice, job: string)
    requires Inv(s) && s.queue != [] && IsTerminal(s.redis, job)
    ensures Absorbs(s, Work(cfg, s, choice), job)
  {
    var m, hand := s.queue[0].message, JobOf(s.queue[0]);
    if s.pc.Settle? {
      hide Inv, Absorbs, SettleStep;
      SettleAbsorbs(s, hand, job, choice.settledAt);
    } else if m.Request? && (s.pc.Guard? || s.pc.Begin?) {
      hide Inv, Absorbs, GuardStep, BeginStep;
      GuardAbsorbs(cfg, s, m, job, choice.startedAt);
    } else {
      hide Inv, Absorbs, Work;
      QuietSteps(cfg, s, choice);
      QuietAbsorbs(s, Work(cfg, s, choice), job);
    }
  }

  lemma StepAbsorbs(cfg: Config, s: System, l: Label, job: string)
    requires Inv(s) && IsTerminal(s.redis, job) && !Replaces(l, job)
    ensures Absorbs(s, Do(cfg, s, l), job)
  {
    if l.Handler? && Enabled(s, l) {
      WorkAbsorbs(cfg, s, l.choice, job);
    } else {
      hide Work, QueuedDocument, Terminal, Inv;
    }
  }

  /** Once a job is done or failed, no later step runs it again or unfinishes it, in any environment
      that neither loses its document nor reuses its ID; and while no malformed message names it, its
      document does not change at all. */
  lemma {:induction false} TerminalIsAbsorbing(cfg: Config, ls: seq<Label>, i: nat, job: string)
    requires i <= |ls| && IsTerminal(After(cfg, ls[..i]).redis, job)
    requires forall k :: i <= k < |ls| ==> !Replaces(ls[k], job)
    ensures var s, t := After(cfg, ls[..i]), After(cfg, ls);
            && IsTerminal(t.redis, job)
            && Attempts(t, job) == Attempts(s, job)
            && job in s.redis && job in t.redis
            && ((forall k :: i <= k < |ls| ==> NoMalformed(After(cfg, ls[..k]).queue, job)) ==>
                  t.redis[job] == s.redis[job])
  {
    if i == |ls| {
      assert ls[..i] == ls;
    } else {
      var front := ls[..|ls| - 1];
      assert front[..i] == ls[..i];
      assert forall k :: i <= k < |front| ==> front[..k] == ls[..k];
      TerminalIsAbsorbing(cfg, front, i, job);
      Holds(cfg, front);
      StepAbsorbs(cfg, After(cfg, front), ls[|ls| - 1], job);
      hide Do, Inv, IsTerminal, NoMalformed, Replaces, Attempts;
    }
  }
}
