/** The DLQ backlog: the unfinished jobs that have failed, and the jobs whose entry an unrecorded
    failure left behind. */
module Backlog {
  import opened Json
  import opened StatusDocument
  import opened JobRequests
  import opened Protocol
  import opened Origin
  import opened RetryCounts
  import ContractFields
  import Isolation
  import NoJobLost
  import Terminal
  import TaskDlq

  /** How the DLQ entry of a job relates to its recorded failures at each point of its handler. */
  predicate FileOk(pc: Pc, inHand: bool, file: bool, failed: bool, finished: bool) {
    if !inHand || pc.Idle? || pc.Guard? || pc.Return? then file == (failed && !finished)
    else if pc.Begin? || pc.Execute? || pc.Record? then file == failed
    else if pc.Publish? then file && failed
    else if pc.Sweep? then finished
    else if pc.Settle? then (if pc.status.IsTerminal() then pc.sweep || !file else file && failed)
    else true
  }

  ghost predicate Inv(s: System, job: string) {
    FileOk(s.pc, NoJobLost.HandJob(s.queue) == job, job in s.dlq, job in s.log.failures, IsTerminal(s.redis, job))
  }

  lemma MoveKeeps(cfg: Config, s: System, m: Message, outcome: Outcome, job: string)
    requires Inv(s, job) && s.queue != [] && m == s.queue[0].message && m.Request?
    ensures s.pc.Idle? ==> Inv(ReceiveStep(s), job)
    ensures s.pc.Guard? ==> Inv(GuardStep(cfg, s, m), job)
    ensures s.pc.Execute? ==> Inv(ExecuteStep(s, m, outcome), job)
  {
    hide IsTerminal, NotRegistered, FailedUpdates, DoneUpdates;
    if m.job == job {
      if IsTerminal(s.redis, m.job) {
      } else if m.taskName !in cfg.tasks {
      } else {
      }
    } else {
    }
  }

  lemma RecordKeeps(cfg: Config, s: System, m: Message, reason: string, writable: bool, job: string)
    requires Inv(s, job) && s.queue != [] && m == s.queue[0].message && m.Request? && s.pc.Record?
    requires writable || m.job != job || job !in s.dlq
    ensures Inv(RecordStep(cfg, s, m, reason, writable), job)
  {
    hide IsTerminal, RetryUpdates, FailedUpdates, TaskDlq.NextCount, FileCount;
    if !writable {
    } else if m.job == job {
    } else {
    }
  }

  lemma PublishKeeps(s: System, m: Message, reason: string, n: Int32, sendError: Option<string>, job: string)
    requires Inv(s, job) && s.queue != [] && m == s.queue[0].message && m.Request? && s.pc.Publish?
    ensures Inv(PublishStep(s, m, reason, n, sendError), job)
  {
    hide IsTerminal, RetryUpdates, RepublishFailed, Retried;
    if m.job == job {
    } else {
    }
  }

  lemma BeginKeeps(s: System, m: Message, now: string, job: string)
    requires Inv(s, job) && s.queue != [] && m == s.queue[0].message && m.Request? && s.pc.Begin?
    ensures Inv(BeginStep(s, m, now), job)
  {
    hide IsTerminal, Merge;
    var document := Merge(Document(s.redis, m.job), m.job, Running, m.contract, now);
    WriteFrame(s.redis, m.job, Parsed(Obj(document)), job);
  }

  lemma SettleKeeps(s: System, hand: string, now: string, job: string)
    requires Inv(s, job) && s.queue != [] && hand == JobOf(s.queue[0]) && s.pc.Settle?
    requires StatusKey !in s.pc.updates && (s.pc.sweep ==> s.pc.status.IsTerminal())
    ensures Inv(SettleStep(s, hand, s.pc.status, s.pc.updates, s.pc.sweep, now), job)
  {
    hide IsTerminal, StatusDocument.Terminal, Merge;
    var document := Merge(Document(s.redis, hand), hand, s.pc.status, s.pc.updates, now);
    MergeStatus(Document(s.redis, hand), hand, s.pc.status, s.pc.updates, now);
    WriteFrame(s.redis, hand, Parsed(Obj(document)), job);
    if hand == job {
    } else {
    }
  }

  lemma RemoveKeeps(s: System, hand: string, job: string)
    requires Inv(s, job) && s.queue != [] && hand == JobOf(s.queue[0])
    ensures s.pc.Unlink? ==> Inv(UnlinkStep(s, hand, s.pc.updates), job)
    ensures s.pc.Sweep? ==> Inv(SweepStep(s, hand), job)
    ensures s.pc.Return? ==> Inv(ReturnStep(s), job)
  {
    hide IsTerminal;
    if hand == job {
    } else {
    }
  }

  lemma TryKeeps(cfg: Config, s: System, m: Message, choice: Choice, job: string)
    requires Inv(s, job) && s.queue != [] && m == s.queue[0].message && m.Request?
    requires s.pc.Record? ==> choice.writable || m.job != job || job !in s.dlq
    ensures Inv(Try(cfg, s, m, choice), job)
  {
    hide Inv, GuardStep, BeginStep, ExecuteStep, RecordStep, PublishStep;
    if s.pc.Begin? {
      BeginKeeps(s, m, choice.startedAt, job);
    } else if s.pc.Record? {
      RecordKeeps(cfg, s, m, s.pc.reason, choice.writable, job);
    } else if s.pc.Publish? {
      PublishKeeps(s, m, s.pc.reason, s.pc.tryCount, choice.sendError, job);
    } else {
      MoveKeeps(cfg, s, m, choice.outcome, job);
    }
  }

  lemma WorkKeeps(cfg: Config, s: System, choice: Choice, job: string)
    requires NoJobLost.Context(cfg, s) && Inv(s, job) && s.queue != []
    requires s.pc.Record? ==> choice.writable || JobOf(s.queue[0]) != job || job !in s.dlq
    ensures Inv(Work(cfg, s, choice), job)
  {
    hide NoJobLost.Context, Inv, NoJobLost.Highest, ReceiveStep, UnlinkStep, SettleStep, SweepStep, ReturnStep, Try,
      GuardStep, ExecuteStep;
    Settling(cfg, s);
    var m, hand := s.queue[0].message, JobOf(s.queue[0]);
    if s.pc.Idle? {
      MoveKeeps(cfg, s, m, choice.outcome, job);
    } else if s.pc.Settle? {
      SettleKeeps(s, hand, choice.settledAt, job);
    } else if s.pc.Unlink? || s.pc.Sweep? || s.pc.Return? {
      RemoveKeeps(s, hand, job);
    } else {
      TryKeeps(cfg, s, m, choice, job);
    }
  }

  lemma Settling(cfg: Config, s: System)
    requires NoJobLost.Context(cfg, s) && s.queue != []
    ensures s.queue[0].message.Request?
    ensures s.pc.Settle? ==> StatusKey !in s.pc.updates && (s.pc.sweep ==> s.pc.status.IsTerminal())
  {
    NoJobLost.Hand(cfg, s);
  }

  lemma SendKeeps(s: System, e: Envelope, job: string)
    requires Inv(s, job) && (s.pc.Idle? || s.queue != [])
    ensures Inv(Send(s, e), job)
  {
    hide IsTerminal, FileOk;
    assert s.queue != [] ==> (s.queue + [e])[0] == s.queue[0];
    if s.pc.Idle? { IdleOk(s.pc, job in s.dlq, job in s.log.failures, IsTerminal(s.redis, job)); }
  }

  lemma IdleOk(pc: Pc, file: bool, failed: bool, finished: bool)
    requires pc.Idle?
    ensures FileOk(pc, true, file, failed, finished) == FileOk(pc, false, file, failed, finished)
  {}

  lemma ApiWriteKeeps(cfg: Config, s: System, issued: string, order: Order, now: string, job: string)
    requires Inv(s, job) && !IsTerminal(s.redis, issued) && (NoJobLost.HandJob(s.queue) != issued || s.pc.Idle?)
    ensures Inv(ApiWriteStep(cfg, s, issued, order, now), job)
  {
    hide IsTerminal, StatusDocument.Terminal, QueuedDocument, Issued;
    Terminal.QueuedDocumentUnfinished(issued, order.taskName, now);
    WriteFrame(s.redis, issued, Parsed(Obj(QueuedDocument(issued, order.taskName, now))), job);
  }

  lemma LossKeeps(s: System, lost: string, job: string)
    requires Inv(s, job) && !IsTerminal(s.redis, lost)
    ensures Inv(s.(redis := s.redis - {lost}), job) && Inv(s.(redis := s.redis[lost := Garbage]), job)
  {
    hide FileOk;
    assert IsTerminal(s.redis, job) == IsTerminal(s.redis - {lost}, job);
    assert IsTerminal(s.redis, job) == IsTerminal(s.redis[lost := Garbage], job);
  }

  lemma RedeliverKeeps(s: System, e: Envelope, at: nat, job: string)
    requires Inv(s, job) && at <= |s.queue| && (s.pc.Idle? || at > 0)
    ensures Inv(s.(queue := s.queue[..at] + [e] + s.queue[at..]), job)
  {
    hide IsTerminal;
    assert at > 0 ==> (s.queue[..at] + [e] + s.queue[at..])[0] == s.queue[0];
  }

  /** A failure that cannot be recorded although an earlier one of the same job was. */
  ghost predicate Stranding(s: System, l: Label) {
    l.Handler? && !l.choice.writable && s.queue != [] && s.pc.Record? && JobOf(s.queue[0]) in s.dlq
  }

  lemma StepKeeps(cfg: Config, f: Faults, s: System, l: Label, job: string)
    requires !f.crashes && !f.fileLoss && !f.terminalLoss && f.strangers.Nobody? && Allowed(cfg, f, s, l)
    requires NoJobLost.Context(cfg, s) && Inv(s, job) && !(Stranding(s, l) && JobOf(s.queue[0]) == job)
    ensures Inv(Do(cfg, s, l), job)
  {
    if Enabled(s, l) {
      hide Inv, NoJobLost.Context, Work, Send, ApiWriteStep, Issuable, IsUuid, IsTerminal;
      FileNatural(cfg, s, job);
      if l.Handler? {
        WorkKeeps(cfg, s, l.choice, job);
      } else if l.ApiWrite? {
        FreshJob(cfg, s, l.job);
        ApiWriteKeeps(cfg, s, l.job, l.order, l.now, job);
      } else if l.ApiPublish? {
        SendKeeps(s, First(s.requests[l.job]), job);
      } else if l.DropDocument? || l.DamageDocument? {
        LossKeeps(s, l.job, job);
      } else if l.Redeliver? {
        RedeliverKeeps(s, l.e, l.at, job);
      } else {
        ForgetKeeps(s, l.id, job);
      }
    }
  }

  lemma ForgetKeeps(s: System, id: DedupId, job: string)
    requires Inv(s, job)
    ensures Inv(s.(dedup := s.dedup - {id}), job)
  {}

  // ---- Stranded entries ----

  /** An entry nothing will remove: its job is finished, or about to be without removing it. */
  predicate Orphan(pc: Pc, inHand: bool, file: bool, finished: bool) {
    && file
    && if !inHand || pc.Idle? || pc.Guard? || pc.Return? then finished
       else pc.Settle? && pc.status.IsTerminal() && !pc.sweep
  }

  ghost predicate Lost(s: System, job: string) {
    Orphan(s.pc, NoJobLost.HandJob(s.queue) == job, job in s.dlq, IsTerminal(s.redis, job))
  }

  lemma StrandingLoses(cfg: Config, s: System, choice: Choice)
    requires NoJobLost.Context(cfg, s) && Stranding(s, Handler(choice))
    ensures Lost(Work(cfg, s, choice), JobOf(s.queue[0]))
  {
    hide NoJobLost.Context, IsTerminal, FailedUpdates, RetryUpdates, TaskDlq.NextCount;
    Settling(cfg, s);
  }

  lemma HandKeepsLost(cfg: Config, s: System, m: Message, choice: Choice)
    requires s.queue != [] && m == s.queue[0].message && m.Request? && Lost(s, m.job)
    requires s.pc.Settle? ==> StatusKey !in s.pc.updates
    ensures Lost(Work(cfg, s, choice), m.job)
  {
    hide StatusDocument.Terminal, Merge, FailedUpdates, NotRegistered;
    if s.pc.Settle? {
      MergeStatus(Document(s.redis, m.job), m.job, s.pc.status, s.pc.updates, choice.settledAt);
    } else if s.pc.Guard? {
    } else {
    }
  }

  lemma OtherKeepsLost(cfg: Config, s: System, choice: Choice, job: string)
    requires s.queue != [] && JobOf(s.queue[0]) != job && Lost(s, job)
    ensures Lost(Work(cfg, s, choice), job)
  {
    Isolation.WorkTouchesOneJob(cfg, s, choice, job);
    if s.pc.Return? {
      hide StatusDocument.Terminal;
    } else {
      ContractFields.HeadStays(cfg, s, choice);
      hide Work, StatusDocument.Terminal;
    }
  }

  lemma EnvironmentKeepsLost(cfg: Config, f: Faults, s: System, l: Label, job: string)
    requires !f.crashes && !f.fileLoss && !f.terminalLoss && f.strangers.Nobody? && Allowed(cfg, f, s, l)
    requires Enabled(s, l)
    requires !l.Handler? && Lost(s, job) && (s.pc.Idle? || s.queue != [])
    requires l.ApiWrite? ==> l.job != job
    ensures Lost(Do(cfg, s, l), job)
  {
    hide Work, StatusDocument.Terminal, QueuedDocument, Issued, IsUuid, Issuable;
    if l.ApiPublish? {
      var e := First(s.requests[l.job]);
      assert s.queue != [] ==> (s.queue + [e])[0] == s.queue[0];
    } else if l.Redeliver? {
      assert l.at > 0 ==> (s.queue[..l.at] + [l.e] + s.queue[l.at..])[0] == s.queue[0];
    } else {
    }
  }

  lemma StepKeepsLost(cfg: Config, f: Faults, s: System, l: Label, job: string)
    requires !f.crashes && !f.fileLoss && !f.terminalLoss && f.strangers.Nobody? && Allowed(cfg, f, s, l)
    requires NoJobLost.Context(cfg, s) && Lost(s, job)
    ensures Lost(Do(cfg, s, l), job)
  {
    if Enabled(s, l) {
      EntryIssued(cfg, s, job);
      hide Lost, NoJobLost.Context, Work, IsTerminal, Issuable, IsUuid;
      if l.Handler? {
        Settling(cfg, s);
        if JobOf(s.queue[0]) == job {
          HandKeepsLost(cfg, s, s.queue[0].message, l.choice);
        } else {
          OtherKeepsLost(cfg, s, l.choice, job);
        }
      } else {
        FileNatural(cfg, s, job);
        EnvironmentKeepsLost(cfg, f, s, l, job);
      }
    }
  }

  lemma EntryIssued(cfg: Config, s: System, job: string)
    requires NoJobLost.Context(cfg, s) && Lost(s, job)
    ensures job in s.requests
  {
    hide RequestsOk, DocumentsIssued, AcceptedKnown, QueueAccepted, IdsAccepted, FilesBounded, Terminal.Inv;
  }

  // ---- Runs ----

  /** The jobs whose entry an unrecorded failure left behind. */
  ghost function Stranded(cfg: Config, ls: seq<Label>): set<string> {
    if ls == [] then {}
    else
      var front, s := Stranded(cfg, ls[..|ls| - 1]), After(cfg, ls[..|ls| - 1]);
      if Stranding(s, ls[|ls| - 1]) then front + {JobOf(s.queue[0])} else front
  }

  lemma {:induction false} Holds(cfg: Config, f: Faults, ls: seq<Label>, job: string)
    requires ConfigOk(cfg) && !f.crashes && !f.fileLoss && !f.terminalLoss && f.strangers.Nobody? && Run(cfg, f, ls)
    ensures if job in Stranded(cfg, ls) then Lost(After(cfg, ls), job) else Inv(After(cfg, ls), job)
  {
    if ls != [] {
      var front, l := ls[..|ls| - 1], ls[|ls| - 1];
      var s := After(cfg, front);
      Holds(cfg, f, front, job);
      Origin.Holds(cfg, f, front);
      Terminal.Holds(cfg, front);
      hide Inv, Lost, Allowed, Origin.Inv, Terminal.Inv, Work;
      if job in Stranded(cfg, front) {
        StepKeepsLost(cfg, f, s, l, job);
      } else if Stranding(s, l) && JobOf(s.queue[0]) == job {
        StrandingLoses(cfg, s, l.choice);
      } else {
        StepKeeps(cfg, f, s, l, job);
      }
    }
  }

  lemma {:induction false} StepStrands(cfg: Config, ls: seq<Label>, k: nat)
    requires k < |ls| && Stranding(After(cfg, ls[..k]), ls[k])
    ensures Stranded(cfg, ls) != {}
  {
    hide Stranding, After;
    if k < |ls| - 1 {
      var front := ls[..|ls| - 1];
      assert front[..k] == ls[..k] && front[k] == ls[k];
      StepStrands(cfg, front, k);
    }
  }

  lemma {:induction false} StrandedHasStep(cfg: Config, ls: seq<Label>) returns (k: nat)
    requires Stranded(cfg, ls) != {}
    ensures k < |ls| && Stranding(After(cfg, ls[..k]), ls[k])
  {
    hide Stranding, After;
    var front := ls[..|ls| - 1];
    if Stranding(After(cfg, front), ls[|ls| - 1]) {
      k := |ls| - 1;
    } else {
      k := StrandedHasStep(cfg, front);
      assert front[..k] == ls[..k] && front[k] == ls[k];
    }
  }

  lemma StrandedMeans(cfg: Config, ls: seq<Label>)
    ensures Stranded(cfg, ls) == {} <==> forall k :: 0 <= k < |ls| ==> !Stranding(After(cfg, ls[..k]), ls[k])
  {
    hide Stranded, Stranding, After;
    if Stranded(cfg, ls) == {} {
      forall k | 0 <= k < |ls| ensures !Stranding(After(cfg, ls[..k]), ls[k]) {
        if Stranding(After(cfg, ls[..k]), ls[k]) { StepStrands(cfg, ls, k); }
      }
    } else {
      var k := StrandedHasStep(cfg, ls);
    }
  }

  lemma {:induction false} WritableStrandsNothing(cfg: Config, f: Faults, ls: seq<Label>)
    requires !f.unwritable && Run(cfg, f, ls)
    ensures Stranded(cfg, ls) == {}
  {
    if ls != [] {
      WritableStrandsNothing(cfg, f, ls[..|ls| - 1]);
      hide After;
    }
  }

  /** The unfinished jobs with a recorded failure. */
  function Pending(s: System): set<string> {
    set job | job in s.log.failures && !IsTerminal(s.redis, job)
  }

  /** Whenever the handler is idle, the DLQ holds an entry exactly for the unfinished jobs that have
      failed and for the stranded ones, which are finished. So the number of entries is the number of
      unfinished failed jobs if and only if no failure went unrecorded after a recorded one, which a
      writable DLQ rules out. */
  lemma BacklogIsExact(cfg: Config, f: Faults, ls: seq<Label>)
    requires ConfigOk(cfg) && !f.crashes && !f.fileLoss && !f.terminalLoss && f.strangers.Nobody?
    requires Run(cfg, f, ls) && After(cfg, ls).pc.Idle?
    ensures var s := After(cfg, ls);
            && s.dlq.Keys == Pending(s) + Stranded(cfg, ls) && Pending(s) !! Stranded(cfg, ls)
            && |s.dlq| == |Pending(s)| + |Stranded(cfg, ls)|
            && (s.dlq.Keys == Pending(s)
                <==> forall k :: 0 <= k < |ls| ==> !Stranding(After(cfg, ls[..k]), ls[k]))
            && (!f.unwritable ==> s.dlq.Keys == Pending(s))
  {
    StrandedMeans(cfg, ls);
    if !f.unwritable { WritableStrandsNothing(cfg, f, ls); }
    hide IsTerminal, After, Run, Stranded, Stranding;
    var s, stranded := After(cfg, ls), Stranded(cfg, ls);
    forall job
      ensures job in s.dlq <==> job in Pending(s) || job in stranded
      ensures !(job in Pending(s) && job in stranded)
    {
      Holds(cfg, f, ls, job);
    }
    assert s.dlq.Keys == Pending(s) + stranded;
    assert s.dlq.Keys == Pending(s) ==> stranded == {};
  }
}
