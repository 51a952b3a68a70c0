/** Jobs do not interfere: a step touches one job, and a service only ever writes a fresh one. */
module Isolation {
  import opened StatusDocument
  import opened JobRequests
  import opened Protocol
  import Origin
  import TaskDlq

  /** The job a step is about. */
  function Subject(s: System, l: Label): string {
    match l
    case Handler(_) => if s.queue == [] then "" else JobOf(s.queue[0])
    case ApiWrite(job, _, _) => job
    case ApiPublish(job) => job
    case Crash => ""
    case DropFile(job) => job
    case DamageFile(job) => job
    case DropDocument(job) => job
    case DamageDocument(job) => job
    case Forget(_) => ""
    case Redeliver(e, _) => JobOf(e)
    case Foreign(e) => JobOf(e)
  }

  /** What is stored about a job: its document and its DLQ entry. */
  predicate SameFor(s: System, t: System, job: string) {
    && (job in s.redis <==> job in t.redis) && (job in s.redis ==> s.redis[job] == t.redis[job])
    && (job in s.dlq <==> job in t.dlq) && (job in s.dlq ==> s.dlq[job] == t.dlq[job])
  }

  lemma TryTouchesOneJob(cfg: Config, s: System, m: Message, choice: Choice, job: string)
    requires m.Request? && m.job != job
    ensures SameFor(s, Try(cfg, s, m, choice), job)
  {
    hide Merge, IsTerminal, FailedUpdates, RetryUpdates, DoneUpdates, TaskDlq.NextCount, FileCount, NotRegistered,
      RepublishFailed, Retried, TaskDlq.CanRetry;
    if s.pc.Record? {
    } else if s.pc.Publish? {
    } else if s.pc.Begin? {
    } else {
    }
  }

  lemma WorkTouchesOneJob(cfg: Config, s: System, choice: Choice, job: string)
    requires s.queue != [] && JobOf(s.queue[0]) != job
    ensures SameFor(s, Work(cfg, s, choice), job)
  {
    hide Merge, Try, Receive;
    if s.queue[0].message.Request? { TryTouchesOneJob(cfg, s, s.queue[0].message, choice, job); }
  }

  /** A step for one job leaves every other job's document and DLQ entry as they are. */
  lemma StepsTouchOneJob(cfg: Config, s: System, l: Label, job: string)
    requires Subject(s, l) != job
    ensures SameFor(s, Do(cfg, s, l), job)
  {
    hide Work, Issued, QueuedDocument, IsUuid, Issuable, Plausible;
    if l.Handler? && s.queue != [] { WorkTouchesOneJob(cfg, s, l.choice, job); }
  }

  /** Every document ever written belongs to an issued job. */
  ghost predicate WritesIssued(writes: seq<Write>, requests: map<string, Message>) {
    forall i :: 0 <= i < |writes| ==> writes[i].job in requests
  }

  /** A step that writes about one job at most. */
  ghost predicate WritesOnly(s: System, t: System, job: string) {
    && t.requests == s.requests
    && (t.log.writes == s.log.writes || exists document :: t.log.writes == s.log.writes + [Write(job, document)])
  }

  lemma TryWritesOnly(cfg: Config, s: System, m: Message, choice: Choice)
    requires m.Request?
    ensures WritesOnly(s, Try(cfg, s, m, choice), m.job)
  {
    hide Merge, IsTerminal, FailedUpdates, RetryUpdates, DoneUpdates, TaskDlq.NextCount, FileCount, NotRegistered,
      RepublishFailed;
  }

  lemma WorkWritesOnly(cfg: Config, s: System, choice: Choice)
    requires s.queue != []
    ensures WritesOnly(s, Work(cfg, s, choice), JobOf(s.queue[0]))
  {
    hide Merge, Try, Receive;
    if s.queue[0].message.Request? { TryWritesOnly(cfg, s, s.queue[0].message, choice); }
  }

  lemma StepKeeps(cfg: Config, s: System, l: Label)
    requires WritesIssued(s.log.writes, s.requests) && (s.queue != [] ==> JobOf(s.queue[0]) in s.requests)
    ensures WritesIssued(Do(cfg, s, l).log.writes, Do(cfg, s, l).requests)
  {
    hide Work, Issued, QueuedDocument, IsUuid, Issuable, Plausible, IsTerminal;
    if l.Handler? && s.queue != [] {
      WorkWritesOnly(cfg, s, l.choice);
    } else if l.ApiWrite? {
    } else {
    }
  }

  lemma {:induction false} Holds(cfg: Config, f: Faults, ls: seq<Label>)
    requires ConfigOk(cfg) && f.strangers.Nobody? && Run(cfg, f, ls)
    ensures WritesIssued(After(cfg, ls).log.writes, After(cfg, ls).requests)
  {
    if ls != [] {
      var front := ls[..|ls| - 1];
      Holds(cfg, f, front);
      Origin.Holds(cfg, f, front);
      hide Do, Origin.Inv, WritesIssued, Allowed, Origin.Known;
      if After(cfg, front).queue != [] { HeadIssued(cfg, After(cfg, front)); }
      StepKeeps(cfg, After(cfg, front), ls[|ls| - 1]);
    }
  }

  lemma HeadIssued(cfg: Config, s: System)
    requires Origin.Inv(cfg, s) && s.queue != []
    ensures JobOf(s.queue[0]) in s.requests
  {
    hide Origin.Inv;
    Origin.HeadKnown(cfg, s);
  }

  /** When a service stores the queued document of a fresh job, no document of that job exists or was
      ever written, no DLQ entry exists and no message of it was ever accepted. */
  lemma ApiNeverOverwrites(cfg: Config, f: Faults, ls: seq<Label>, job: string, order: Order, now: string)
    requires ConfigOk(cfg) && f.strangers.Nobody? && Run(cfg, f, ls)
    requires Enabled(After(cfg, ls), ApiWrite(job, order, now))
    ensures var s := After(cfg, ls);
            && job !in s.redis && job !in s.dlq
            && (forall i :: 0 <= i < |s.log.writes| ==> s.log.writes[i].job != job)
            && (forall e :: e in s.log.accepted || e in s.queue ==> JobOf(e) != job)
  {
    hide After, Run, IsUuid, Issuable;
    Holds(cfg, f, ls);
    Origin.Holds(cfg, f, ls);
  }
}
