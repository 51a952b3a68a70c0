/** The fields a client was promised survive: every document of a job names the job, its task and its
    time. */
module ContractFields {
  import opened Json
  import opened StatusDocument
  import opened JobRequests
  import opened Protocol
  import Isolation
  import Origin
  import TaskDlq

  /** The fields hold the contract values. */
  predicate Carries(fields: Object, contract: Object) {
    forall k :: k in contract ==> k in fields && fields[k] == contract[k]
  }

  /** A contract as services issue it: the task name and the time, both strings. */
  predicate IsContract(contract: Object) {
    && contract.Keys == {TaskNameKey, EnqueuedAtKey}
    && contract[TaskNameKey].Str? && contract[EnqueuedAtKey].Str?
  }

  /** A document that names its job and holds the contract values. */
  predicate Keeps(document: Object, job: string, contract: Object) {
    Carries(document, contract) && JobIdKey in document && document[JobIdKey] == Str(job)
  }

  /** Updates that hold the contract values and leave the job ID alone. */
  predicate Brings(updates: Object, contract: Object) {
    Carries(updates, contract) && JobIdKey !in updates
  }

  /** Merging the contract restores it, whatever the stored document was. */
  lemma MergeKeeps(document: Object, job: string, status: Status, updates: Object, now: string, contract: Object)
    requires IsContract(contract) && Brings(updates, contract)
    ensures Keeps(Merge(document, job, status, updates, now), job, contract)
  {
    MergeField(document, job, status, updates, now, TaskNameKey);
    MergeField(document, job, status, updates, now, EnqueuedAtKey);
    assert JobIdKey in Merge(document, job, status, updates, now);
    hide Merge;
  }

  lemma UpdatesBring(contract: Object, reason: string, n: Int32, tail: string, results: seq<Json>)
    requires IsContract(contract)
    ensures Brings(contract, contract)
    ensures Brings(FailedUpdates(contract, reason), contract)
    ensures Brings(RetryUpdates(contract, reason, n), contract)
    ensures Brings(DoneUpdates(contract, tail, results), contract)
  {}

  ghost predicate WritesCarry(writes: seq<Write>, job: string, contract: Object) {
    forall i :: 0 <= i < |writes| && writes[i].job == job ==> Keeps(writes[i].document, job, contract)
  }

  /** What the handler is about to write. */
  predicate HandCarries(pc: Pc, contract: Object) {
    (pc.Unlink? || pc.Settle?) ==> Brings(pc.updates, contract)
  }

  /** The written documents, the stored one and the one about to be written carry a job's contract. */
  ghost predicate Inv(s: System, job: string, contract: Object) {
    && WritesCarry(s.log.writes, job, contract)
    && (job in s.redis && IsObject(s.redis[job]) ==> Keeps(Document(s.redis, job), job, contract))
    && (s.queue != [] && JobOf(s.queue[0]) == job ==> HandCarries(s.pc, contract))
  }

  lemma SetStatusKeeps(s: System, job: string, status: Status, updates: Object, now: string, contract: Object)
    requires Inv(s, job, contract) && IsContract(contract) && Brings(updates, contract)
    ensures Inv(SetStatus(s, job, status, updates, now), job, contract)
  {
    hide Merge, Keeps, Brings, HandCarries;
    MergeKeeps(Document(s.redis, job), job, status, updates, now, contract);
  }

  lemma RecordKeeps(cfg: Config, s: System, m: Message, reason: string, writable: bool)
    requires m.Request? && Inv(s, m.job, m.contract) && IsContract(m.contract)
    ensures Inv(RecordStep(cfg, s, m, reason, writable), m.job, m.contract)
  {
    hide WritesCarry, Keeps, Brings, FailedUpdates, RetryUpdates, TaskDlq.NextCount, FileCount, Document;
    UpdatesBring(m.contract, reason, TaskDlq.NextCount(m.tryCount, FileCount(s.dlq, m.job)), "", []);
  }

  lemma PublishKeeps(s: System, m: Message, reason: string, n: Int32, sendError: Option<string>)
    requires m.Request? && Inv(s, m.job, m.contract) && IsContract(m.contract)
    ensures Inv(PublishStep(s, m, reason, n, sendError), m.job, m.contract)
  {
    hide WritesCarry, Keeps, Brings, RetryUpdates, RepublishFailed, Retried, Document;
    UpdatesBring(m.contract, reason, n, "", []);
    if sendError.Some? { UpdatesBring(m.contract, RepublishFailed(reason, sendError.value), n, "", []); }
  }

  lemma MoveKeeps(cfg: Config, s: System, m: Message, outcome: Outcome)
    requires m.Request? && Inv(s, m.job, m.contract) && IsContract(m.contract) && s.queue != []
    requires m == s.queue[0].message
    ensures Inv(GuardStep(cfg, s, m), m.job, m.contract)
    ensures Inv(ExecuteStep(s, m, outcome), m.job, m.contract)
    ensures Inv(ReceiveStep(s), m.job, m.contract)
  {
    hide WritesCarry, Keeps, Brings, FailedUpdates, DoneUpdates, Document, NotRegistered, IsTerminal;
    UpdatesBring(m.contract, NotRegistered(m.taskName), 0, "", []);
    if outcome.Success? { UpdatesBring(m.contract, "", 0, outcome.tail, outcome.results); }
  }

  lemma TryKeeps(cfg: Config, s: System, m: Message, choice: Choice)
    requires m.Request? && Inv(s, m.job, m.contract) && IsContract(m.contract) && s.queue != []
    requires m == s.queue[0].message
    ensures Inv(Try(cfg, s, m, choice), m.job, m.contract)
  {
    hide Inv, Brings, GuardStep, ExecuteStep, RecordStep, PublishStep, SetStatus;
    if s.pc.Record? {
      RecordKeeps(cfg, s, m, s.pc.reason, choice.writable);
    } else if s.pc.Publish? {
      PublishKeeps(s, m, s.pc.reason, s.pc.tryCount, choice.sendError);
    } else if s.pc.Begin? {
      UpdatesBring(m.contract, "", 0, "", []);
      SetStatusKeeps(s, m.job, Running, m.contract, choice.startedAt, m.contract);
      PcKeeps(SetStatus(s, m.job, Running, m.contract, choice.startedAt), Execute, m.job, m.contract);
    } else {
      MoveKeeps(cfg, s, m, choice.outcome);
    }
  }

  lemma PcKeeps(s: System, pc: Pc, job: string, contract: Object)
    requires Inv(s, job, contract) && !pc.Unlink? && !pc.Settle?
    ensures Inv(s.(pc := pc), job, contract)
  {}

  lemma TailKeeps(s: System, m: Message, now: string)
    requires m.Request? && Inv(s, m.job, m.contract) && IsContract(m.contract) && s.queue != []
    requires m == s.queue[0].message
    ensures s.pc.Unlink? ==> Inv(UnlinkStep(s, m.job, s.pc.updates), m.job, m.contract)
    ensures s.pc.Settle? ==> Inv(SettleStep(s, m.job, s.pc.status, s.pc.updates, s.pc.sweep, now), m.job, m.contract)
    ensures Inv(SweepStep(s, m.job), m.job, m.contract) && Inv(ReturnStep(s), m.job, m.contract)
  {
    hide WritesCarry, Keeps, Brings, Document, SetStatus;
    if s.pc.Settle? {
      SetStatusKeeps(s, m.job, s.pc.status, s.pc.updates, now, m.contract);
      var next := if s.pc.sweep then Sweep else Return;
      PcKeeps(SetStatus(s, m.job, s.pc.status, s.pc.updates, now), next, m.job, m.contract);
    }
  }

  lemma WorkKeepsHand(cfg: Config, s: System, choice: Choice)
    requires s.queue != [] && s.queue[0].message.Request? && IsContract(s.queue[0].message.contract)
    requires Inv(s, JobOf(s.queue[0]), s.queue[0].message.contract)
    ensures Inv(Work(cfg, s, choice), JobOf(s.queue[0]), s.queue[0].message.contract)
  {
    hide Inv, IsContract, ReceiveStep, UnlinkStep, SettleStep, SweepStep, Try, GuardStep, ExecuteStep;
    var m := s.queue[0].message;
    if s.pc.Idle? {
      MoveKeeps(cfg, s, m, choice.outcome);
    } else if s.pc.Unlink? || s.pc.Settle? || s.pc.Sweep? || s.pc.Return? {
      TailKeeps(s, m, choice.settledAt);
    } else {
      TryKeeps(cfg, s, m, choice);
    }
  }

  // ---- Every step ----

  lemma HeadStaysTrying(cfg: Config, s: System, m: Message, choice: Choice)
    requires s.queue != [] && m.Request?
    ensures var t := Try(cfg, s, m, choice); t.queue != [] && t.queue[0] == s.queue[0]
  {
    hide Merge, IsTerminal, FailedUpdates, RetryUpdates, DoneUpdates, TaskDlq.NextCount, FileCount, NotRegistered,
      RepublishFailed, Retried, TaskDlq.CanRetry;
    if s.pc.Publish? {
    } else if s.pc.Record? {
    } else {
    }
  }

  lemma HeadStays(cfg: Config, s: System, choice: Choice)
    requires s.queue != [] && !s.pc.Return?
    ensures var t := Work(cfg, s, choice); t.queue != [] && t.queue[0] == s.queue[0]
  {
    hide Merge, Try, Receive;
    if s.pc.Idle? || s.pc.Unlink? || s.pc.Settle? || s.pc.Sweep? {
    } else {
      if s.queue[0].message.Request? { HeadStaysTrying(cfg, s, s.queue[0].message, choice); }
    }
  }

  lemma WorkKeepsOther(cfg: Config, s: System, choice: Choice, job: string, contract: Object)
    requires s.queue != [] && JobOf(s.queue[0]) != job && Inv(s, job, contract)
    ensures Inv(Work(cfg, s, choice), job, contract)
  {
    if s.pc.Return? {
      hide WritesCarry, Keeps, Brings, Document;
    } else {
      hide Work, Keeps, Brings, JobOf;
      Isolation.WorkTouchesOneJob(cfg, s, choice, job);
      Isolation.WorkWritesOnly(cfg, s, choice);
      HeadStays(cfg, s, choice);
    }
  }

  lemma OtherKeeps(cfg: Config, s: System, l: Label, job: string, contract: Object)
    requires Inv(s, job, contract) && (s.pc.Idle? || s.queue != [])
    requires !l.Handler? && !(l.ApiWrite? && l.job == job)
    ensures Inv(Do(cfg, s, l), job, contract)
  {
    hide Work, Keeps, Brings, HandCarries, QueuedDocument, Issued, IsUuid, Issuable, Plausible;
    if l.ApiWrite? {
    } else if l.Redeliver? {
      if Enabled(s, l) && l.at > 0 { assert (s.queue[..l.at] + [l.e] + s.queue[l.at..])[0] == s.queue[0]; }
      IdleCarries(s.pc, contract);
    } else {
      IdleCarries(Idle, contract);
      IdleCarries(s.pc, contract);
    }
  }

  lemma IdleCarries(pc: Pc, contract: Object)
    ensures pc.Idle? ==> HandCarries(pc, contract)
  {}

  lemma ApiWriteCarries(cfg: Config, s: System, job: string, order: Order, now: string)
    requires forall i :: 0 <= i < |s.log.writes| ==> s.log.writes[i].job != job
    requires s.queue != [] ==> JobOf(s.queue[0]) != job
    ensures Inv(ApiWriteStep(cfg, s, job, order, now), job, Issued(job, cfg.bucket, order, now).contract)
  {
    hide RequestMessage;
  }

  lemma StepKeeps(cfg: Config, s: System, l: Label, job: string)
    requires Origin.Inv(cfg, s)
    requires job in s.requests ==> Inv(s, job, s.requests[job].contract)
    requires l.ApiWrite? && Enabled(s, l) ==>
               (forall i :: 0 <= i < |s.log.writes| ==> s.log.writes[i].job != l.job)
               && (s.queue != [] ==> JobOf(s.queue[0]) != l.job)
    ensures var t := Do(cfg, s, l); job in t.requests ==>
              && t.requests[job].Request?
              && Inv(t, job, t.requests[job].contract)
  {
    Facts(cfg, s, job);
    RequestsStay(cfg, s, l, job);
    if !Enabled(s, l) {
    } else if l.ApiWrite? && l.job == job {
      hide Inv, Origin.Inv, RequestMessage, QueuedDocument, IsUuid, Issuable;
      ApiWriteCarries(cfg, s, job, l.order, l.now);
    } else if job in s.requests {
      hide Inv, Origin.Inv, IsContract, Work, IsUuid, Issuable;
      if l.Handler? {
        if JobOf(s.queue[0]) == job {
          WorkKeepsHand(cfg, s, l.choice);
        } else {
          WorkKeepsOther(cfg, s, l.choice, job, s.requests[job].contract);
        }
      } else {
        OtherKeeps(cfg, s, l, job, s.requests[job].contract);
      }
    }
  }

  lemma Facts(cfg: Config, s: System, job: string)
    requires Origin.Inv(cfg, s)
    ensures s.pc.Idle? || s.queue != []
    ensures job in s.requests ==> s.requests[job].Request? && IsContract(s.requests[job].contract)
    ensures s.queue != [] ==> s.queue[0].message.Request? && JobOf(s.queue[0]) in s.requests
                              && s.requests[JobOf(s.queue[0])].Request?
                              && s.queue[0].message.contract == s.requests[JobOf(s.queue[0])].contract
  {
    hide Origin.DocumentsIssued, Origin.FilesIssued, Origin.IdsAccepted, Origin.FilesBounded;
    if s.queue != [] { Origin.HeadKnown(cfg, s); }
  }

  /** An issued request never changes. */
  lemma RequestsStay(cfg: Config, s: System, l: Label, job: string)
    ensures var t := Do(cfg, s, l);
            if l.ApiWrite? && l.job == job && Enabled(s, l) then
              job in t.requests && t.requests[job] == Issued(job, cfg.bucket, l.order, l.now)
            else
              (job in t.requests <==> job in s.requests) && (job in s.requests ==> t.requests[job] == s.requests[job])
  {
    hide Work, QueuedDocument, Issued, IsUuid, Issuable, Plausible;
    if l.Handler? && s.queue != [] { Isolation.WorkWritesOnly(cfg, s, l.choice); }
  }

  lemma {:induction false} Holds(cfg: Config, f: Faults, ls: seq<Label>, job: string)
    requires ConfigOk(cfg) && f.strangers.Nobody? && Run(cfg, f, ls)
    ensures var s := After(cfg, ls);
            job in s.requests ==> s.requests[job].Request? && Inv(s, job, s.requests[job].contract)
  {
    if ls != [] {
      var front, l := ls[..|ls| - 1], ls[|ls| - 1];
      Holds(cfg, f, front, job);
      Origin.Holds(cfg, f, front);
      if l.ApiWrite? && Enabled(After(cfg, front), l) {
        Isolation.ApiNeverOverwrites(cfg, f, front, l.job, l.order, l.now);
      }
      hide Do, Inv, Allowed, Origin.Inv, Enabled;
      StepKeeps(cfg, After(cfg, front), l, job);
    }
  }

  lemma {:induction false} RequestRemains(cfg: Config, ls: seq<Label>, i: nat, job: string)
    requires i <= |ls| && job in After(cfg, ls[..i]).requests
    ensures job in After(cfg, ls).requests && After(cfg, ls).requests[job] == After(cfg, ls[..i]).requests[job]
  {
    if i < |ls| {
      var front := ls[..|ls| - 1];
      assert front[..i] == ls[..i];
      RequestRemains(cfg, front, i, job);
      hide Do;
      RequestsStay(cfg, After(cfg, front), ls[|ls| - 1], job);
      assert Enabled(After(cfg, front), ls[|ls| - 1]) && ls[|ls| - 1].ApiWrite? ==> ls[|ls| - 1].job != job;
    } else {
      assert ls[..i] == ls;
    }
  }

  /** Every document written for an issued job, and the one stored now, carries the job's ID and its
      original task name and enqueue time, whatever documents are lost on the way. */
  lemma ContractFieldsSurvive(cfg: Config, f: Faults, ls: seq<Label>, i: nat, job: string, order: Order, now: string)
    requires ConfigOk(cfg) && f.strangers.Nobody? && Run(cfg, f, ls)
    requires i < |ls| && ls[i] == ApiWrite(job, order, now) && Enabled(After(cfg, ls[..i]), ls[i])
    ensures var s, contract := After(cfg, ls), map[TaskNameKey := Str(order.taskName), EnqueuedAtKey := Str(now)];
            && (forall k :: 0 <= k < |s.log.writes| && s.log.writes[k].job == job ==>
                           Keeps(s.log.writes[k].document, job, contract))
            && (job in s.redis && IsObject(s.redis[job]) ==> Keeps(Document(s.redis, job), job, contract))
  {
    assert ls[..i + 1][..i] == ls[..i] && ls[..i + 1][i] == ls[i];
    RequestsStay(cfg, After(cfg, ls[..i]), ls[i], job);
    hide Do, Run, Enabled, RequestMessage;
    RequestRemains(cfg, ls, i + 1, job);
    Holds(cfg, f, ls, job);
  }
}
