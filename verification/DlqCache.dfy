/** The DLQ is only a cache: losing or damaging entries changes nothing anybody can see. */
module DlqCache {
  import opened Json
  import opened StatusDocument
  import opened JobRequests
  import opened Protocol
  import NoJobLost
  import Origin
  import Terminal
  import SingleDelivery
  import TaskDlq

  predicate LosesFile(l: Label) {
    l.DropFile? || l.DamageFile?
  }

  /** The same labels without any loss of DLQ entries. */
  function Lossless(ls: seq<Label>): seq<Label> {
    if ls == [] then []
    else
      var front, l := Lossless(ls[..|ls| - 1]), ls[|ls| - 1];
      if LosesFile(l) then front else front + [l]
  }

  /** Equal in everything but the DLQ: documents, queue, deduplication, handler and history. */
  predicate SameBut(s: System, t: System) {
    s.(dlq := t.dlq) == t
  }

  /** The two DLQs give the message in hand the same next count. */
  predicate SameNext(s: System, t: System) {
    s.queue != [] && s.queue[0].message.Request? && s.pc.Record? ==>
      var m := s.queue[0].message;
      TaskDlq.NextCount(m.tryCount, FileCount(s.dlq, m.job)) == TaskDlq.NextCount(m.tryCount, FileCount(t.dlq, m.job))
  }

  lemma SendAgrees(s: System, t: System, e: Envelope)
    requires SameBut(s, t)
    ensures SameBut(Send(s, e), Send(t, e))
  {}

  lemma RecordAgrees(cfg: Config, s: System, t: System, m: Message, reason: string, writable: bool)
    requires SameBut(s, t) && m.Request?
    requires TaskDlq.NextCount(m.tryCount, FileCount(s.dlq, m.job))
             == TaskDlq.NextCount(m.tryCount, FileCount(t.dlq, m.job))
    ensures SameBut(RecordStep(cfg, s, m, reason, writable), RecordStep(cfg, t, m, reason, writable))
  {
    hide FailedUpdates, RetryUpdates, TaskDlq.NextCount, FileCount, TaskDlq.CanRetry;
    if !writable {
    } else if TaskDlq.CanRetry(TaskDlq.NextCount(m.tryCount, FileCount(s.dlq, m.job)), cfg.maxRetries) {
    } else {
    }
  }

  lemma PublishAgrees(s: System, t: System, m: Message, reason: string, n: Int32, sendError: Option<string>)
    requires SameBut(s, t) && m.Request?
    ensures SameBut(PublishStep(s, m, reason, n, sendError), PublishStep(t, m, reason, n, sendError))
  {
    hide RetryUpdates, RepublishFailed, Retried, Send;
    if sendError.Some? {
    } else {
      SendAgrees(s, t, Retried(m, n));
    }
  }

  lemma WriteAgrees(s: System, t: System, job: string, status: Status, updates: Object, now: string)
    requires SameBut(s, t)
    ensures SameBut(SetStatus(s, job, status, updates, now), SetStatus(t, job, status, updates, now))
  {
    hide Merge;
  }

  lemma TryAgrees(cfg: Config, s: System, t: System, m: Message, choice: Choice)
    requires SameBut(s, t) && SameNext(s, t) && s.queue != [] && m == s.queue[0].message && m.Request?
    ensures SameBut(Try(cfg, s, m, choice), Try(cfg, t, m, choice))
  {
    hide SetStatus, RecordStep, PublishStep, IsTerminal, FailedUpdates, DoneUpdates, TaskDlq.NextCount, FileCount,
      NotRegistered;
    if s.pc.Record? {
      RecordAgrees(cfg, s, t, m, s.pc.reason, choice.writable);
    } else if s.pc.Publish? {
      PublishAgrees(s, t, m, s.pc.reason, s.pc.tryCount, choice.sendError);
    } else if s.pc.Begin? {
      WriteAgrees(s, t, m.job, Running, m.contract, choice.startedAt);
    } else if s.pc.Guard? {
    } else {
    }
  }

  lemma WorkAgrees(cfg: Config, s: System, t: System, choice: Choice)
    requires SameBut(s, t) && SameNext(s, t) && s.queue != []
    ensures SameBut(Work(cfg, s, choice), Work(cfg, t, choice))
  {
    hide SetStatus, Try, Receive, FileCount, SameNext;
    if s.pc.Settle? {
      WriteAgrees(s, t, JobOf(s.queue[0]), s.pc.status, s.pc.updates, choice.settledAt);
    } else if s.pc.Idle? || s.pc.Unlink? || s.pc.Sweep? || s.pc.Return? {
    } else {
      if s.queue[0].message.Request? { TryAgrees(cfg, s, t, s.queue[0].message, choice); }
    }
  }

  lemma StepAgrees(cfg: Config, s: System, t: System, l: Label)
    requires SameBut(s, t) && SameNext(s, t)
    ensures if LosesFile(l) then SameBut(Do(cfg, s, l), t) else SameBut(Do(cfg, s, l), Do(cfg, t, l))
  {
    hide Work, SameNext, QueuedDocument, Issued, IsUuid, Issuable, Plausible, Send;
    if l.Handler? {
      if s.queue != [] { WorkAgrees(cfg, s, t, l.choice); }
    } else if l.ApiPublish? || l.Foreign? {
      if Enabled(s, l) { SendAgrees(s, t, if l.Foreign? then l.e else First(s.requests[l.job])); }
    } else {
    }
  }

  lemma NextAgrees(cfg: Config, s: System, t: System)
    requires NoJobLost.Context(cfg, s) && NoJobLost.Context(cfg, t) && SameBut(s, t)
    requires s.queue != [] ==> SingleDelivery.Inv(s, JobOf(s.queue[0])) && SingleDelivery.Inv(t, JobOf(t.queue[0]))
    ensures SameNext(s, t)
  {
    hide NoJobLost.Context, SingleDelivery.Inv, TaskDlq.NextCount, FileCount;
    if s.queue != [] {
      SingleDelivery.HandFacts(cfg, s);
      SingleDelivery.HandFacts(cfg, t);
      if s.pc.Record? {
        SingleDelivery.NextOfHand(s, s.queue[0].message);
        SingleDelivery.NextOfHand(t, t.queue[0].message);
      }
    }
  }

  /** A run that loses DLQ entries and the same run without the losses: the same status documents in
      the same order, the same published messages, the same everything but the DLQ. */
  lemma {:induction false} DlqIsOnlyACache(cfg: Config, f: Faults, ls: seq<Label>)
    requires ConfigOk(cfg) && !f.crashes && !f.redelivery && !f.forgetting && f.strangers.Nobody? && Run(cfg, f, ls)
    ensures Run(cfg, f.(fileLoss := false), Lossless(ls))
    ensures SameBut(After(cfg, ls), After(cfg, Lossless(ls)))
    ensures After(cfg, ls).log == After(cfg, Lossless(ls)).log
  {
    if ls != [] {
      var front, l := ls[..|ls| - 1], ls[|ls| - 1];
      DlqIsOnlyACache(cfg, f, front);
      var s, t := After(cfg, front), After(cfg, Lossless(front));
      RunsAgree(cfg, f, front, Lossless(front));
      hide Do, SameNext, SingleDelivery.Inv, Origin.Inv, Terminal.Inv, IsTerminal;
      StepAgrees(cfg, s, t, l);
      if !LosesFile(l) {
        assert (Lossless(front) + [l])[..|Lossless(front)|] == Lossless(front);
      }
    }
  }

  lemma RunsAgree(cfg: Config, f: Faults, ls: seq<Label>, ks: seq<Label>)
    requires ConfigOk(cfg) && !f.crashes && !f.redelivery && !f.forgetting && f.strangers.Nobody?
    requires Run(cfg, f, ls) && Run(cfg, f.(fileLoss := false), ks) && SameBut(After(cfg, ls), After(cfg, ks))
    ensures SameNext(After(cfg, ls), After(cfg, ks))
  {
    hide SameNext, SingleDelivery.Inv, Origin.Inv, Terminal.Inv, After, Run;
    var s, t, g := After(cfg, ls), After(cfg, ks), f.(fileLoss := false);
    Origin.Holds(cfg, f, ls);
    Terminal.Holds(cfg, ls);
    Origin.Holds(cfg, g, ks);
    Terminal.Holds(cfg, ks);
    if s.queue != [] {
      SingleDelivery.Holds(cfg, f, ls, JobOf(s.queue[0]));
      SingleDelivery.Holds(cfg, g, ks, JobOf(s.queue[0]));
    }
    NextAgrees(cfg, s, t);
  }
}
