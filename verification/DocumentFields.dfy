/** Status and fields agree in every stored document, except where a malformed message failed a job
    that was done. */
module DocumentFields {
  import opened Json
  import opened StatusDocument
  import opened JobRequests
  import opened Protocol
  import Isolation
  import Terminal
  import TaskDlq

  predicate NoResult(d: Object) {
    ExitCodeKey !in d && StdoutTailKey !in d && ResultDownloadUrlKey !in d
  }

  predicate HasResult(d: Object) {
    && ExitCodeKey in d && d[ExitCodeKey] == Int(0)
    && StdoutTailKey in d && d[StdoutTailKey].Str?
    && ResultDownloadUrlKey in d && d[ResultDownloadUrlKey].Arr?
  }

  predicate HasReason(d: Object) {
    FailureReasonKey in d && d[FailureReasonKey].Str?
  }

  /** Done: a result and no failure reason. Failed: a failure reason and no result. Else no result. */
  predicate Agrees(d: Object) {
    if HasStatus(d, Done) then HasResult(d) && FailureReasonKey !in d
    else if HasStatus(d, Failed) then HasReason(d) && NoResult(d)
    else NoResult(d)
  }

  /** Updates that fit the status they are written with. */
  predicate Fits(status: Status, updates: Object) {
    && StatusKey !in updates
    && match status
       case Done => HasResult(updates) && FailureReasonKey in updates && updates[FailureReasonKey].Null?
       case Failed => HasReason(updates) && NoResult(updates)
       case _ => NoResult(updates)
  }

  /** A transition of an unfinished job to any status, with fitting updates. */
  lemma MergeAgrees(document: Object, job: string, status: Status, updates: Object, now: string)
    requires NoResult(document) && Fits(status, updates)
    ensures Agrees(Merge(document, job, status, updates, now))
  {
    MergeField(document, job, status, updates, now, ExitCodeKey);
    MergeField(document, job, status, updates, now, StdoutTailKey);
    MergeField(document, job, status, updates, now, ResultDownloadUrlKey);
    MergeField(document, job, status, updates, now, FailureReasonKey);
    MergeStatus(document, job, status, updates, now);
    hide Merge, HasStatus;
  }

  lemma UpdatesFit(m: Message, reason: string, n: Int32, tail: string, results: seq<Json>)
    requires m.Request? && Plausible(m)
    ensures Fits(Running, m.contract) && Fits(Failed, FailedUpdates(m.contract, reason))
    ensures Fits(Failed, RetryUpdates(m.contract, reason, n)) && Fits(Queued, RetryUpdates(m.contract, reason, n))
    ensures Fits(Done, DoneUpdates(m.contract, tail, results))
  {}

  // ---- What the handler is about to write ----

  predicate HandFits(pc: Pc) {
    && (pc.Settle? ==> Fits(pc.status, pc.updates))
    && (pc.Unlink? ==> Fits(Failed, pc.updates))
  }

  lemma TryFits(cfg: Config, s: System, m: Message, choice: Choice)
    requires m.Request? && Plausible(m) && HandFits(s.pc)
    ensures HandFits(Try(cfg, s, m, choice).pc)
  {
    hide Fits, Plausible, Merge, IsTerminal, FailedUpdates, RetryUpdates, DoneUpdates, TaskDlq.NextCount, FileCount,
      NotRegistered, RepublishFailed, Retried, Send;
    if s.pc.Guard? {
      UpdatesFit(m, NotRegistered(m.taskName), 0, "", []);
    } else if s.pc.Execute? {
      if choice.outcome.Success? { UpdatesFit(m, "", 0, choice.outcome.tail, choice.outcome.results); }
    } else if s.pc.Record? {
      UpdatesFit(m, s.pc.reason, TaskDlq.NextCount(m.tryCount, FileCount(s.dlq, m.job)), "", []);
    } else if s.pc.Publish? {
      if choice.sendError.Some? {
        UpdatesFit(m, RepublishFailed(s.pc.reason, choice.sendError.value), s.pc.tryCount, "", []);
      } else {
        UpdatesFit(m, s.pc.reason, s.pc.tryCount, "", []);
      }
    } else {
    }
  }

  lemma WorkFits(cfg: Config, s: System, choice: Choice)
    requires s.queue != [] && Plausible(s.queue[0].message) && HandFits(s.pc)
    ensures HandFits(Work(cfg, s, choice).pc)
  {
    var m := s.queue[0].message;
    if s.pc.Idle? {
      if m.Malformed? { MalformedFits(m); }
      hide Fits, Plausible, FailedUpdates;
    } else if s.pc.Unlink? || s.pc.Settle? || s.pc.Sweep? || s.pc.Return? {
      hide Fits, Plausible, Merge;
    } else {
      hide Fits, Plausible, Try;
      if m.Request? { TryFits(cfg, s, m, choice); }
    }
  }

  lemma MalformedFits(m: Message)
    requires m.Malformed? && Plausible(m)
    ensures Fits(Failed, FailedUpdates(m.contract, m.error))
  {}

  // ---- One job's document ----

  /** A step that fails a job for a malformed message although its document holds a result. */
  ghost predicate Spoils(s: System, l: Label, job: string) {
    && l.Handler? && s.queue != [] && s.queue[0].message.Malformed? && JobOf(s.queue[0]) == job
    && s.pc.Settle? && !NoResult(Document(s.redis, job))
  }

  /** A step that loses a job's document or issues its ID afresh. */
  ghost predicate Replaced(s: System, l: Label, job: string) {
    Terminal.Replaces(l, job) && Enabled(s, l)
  }

  /** The document agrees, or, when it was spoiled, is a failed one that holds a result. */
  predicate DocumentOk(d: Object, spoiled: bool) {
    if spoiled then HasStatus(d, Failed) && !NoResult(d) else Agrees(d)
  }

  lemma UnfinishedHasNoResult(d: Object, spoiled: bool)
    requires DocumentOk(d, spoiled) && !StatusDocument.Terminal(d)
    ensures NoResult(d) && !spoiled
  {}

  lemma SpoilingOk(document: Object, job: string, updates: Object, now: string)
    requires !NoResult(document) && Fits(Failed, updates)
    ensures DocumentOk(Merge(document, job, Failed, updates, now), true)
  {
    MergeField(document, job, Failed, updates, now, ExitCodeKey);
    MergeField(document, job, Failed, updates, now, StdoutTailKey);
    MergeField(document, job, Failed, updates, now, ResultDownloadUrlKey);
    MergeStatus(document, job, Failed, updates, now);
    hide Merge, HasStatus;
  }

  lemma WrongStatus(d: Object)
    requires DocumentOk(d, true)
    ensures !Agrees(d)
  {
    StatusTextsDiffer(Done, Failed);
  }

  lemma SettleKeeps(s: System, job: string, now: string, choice: Choice, spoiled: bool)
    requires s.queue != [] && JobOf(s.queue[0]) == job && s.pc.Settle? && Terminal.Guarded(s.pc, s.queue, s.redis)
    requires DocumentOk(Document(s.redis, job), spoiled) && HandFits(s.pc)
    ensures var t := SettleStep(s, job, s.pc.status, s.pc.updates, s.pc.sweep, now);
            DocumentOk(Document(t.redis, job), spoiled || Spoils(s, Handler(choice), job))
  {
    hide Merge, Agrees, Fits, NoResult, StatusDocument.Terminal, HasStatus;
    var d := Document(s.redis, job);
    if s.queue[0].message.Request? {
      UnfinishedHasNoResult(d, spoiled);
      MergeAgrees(d, job, s.pc.status, s.pc.updates, now);
    } else if NoResult(d) {
      MergeAgrees(d, job, s.pc.status, s.pc.updates, now);
    } else {
      SpoilingOk(d, job, s.pc.updates, now);
    }
  }

  lemma BeginKeeps(s: System, m: Message, now: string, spoiled: bool)
    requires m.Request? && Plausible(m) && !IsTerminal(s.redis, m.job) && DocumentOk(Document(s.redis, m.job), spoiled)
    ensures DocumentOk(Document(BeginStep(s, m, now).redis, m.job), spoiled)
  {
    UpdatesFit(m, "", 0, "", []);
    hide Merge, Agrees, Fits, NoResult, StatusDocument.Terminal, HasStatus, Plausible;
    UnfinishedHasNoResult(Document(s.redis, m.job), spoiled);
    MergeAgrees(Document(s.redis, m.job), m.job, Running, m.contract, now);
  }

  lemma OthersWriteNothing(cfg: Config, s: System, choice: Choice)
    requires s.queue != [] && !s.pc.Settle? && !(s.pc.Begin? && s.queue[0].message.Request?)
    ensures Work(cfg, s, choice).redis == s.redis
  {
    hide Merge, IsTerminal, FailedUpdates, RetryUpdates, DoneUpdates, TaskDlq.NextCount, FileCount, NotRegistered,
      RepublishFailed, Retried, Receive;
  }

  lemma WorkKeeps(cfg: Config, s: System, choice: Choice, job: string, spoiled: bool)
    requires s.queue != [] && Plausible(s.queue[0].message) && Terminal.Guarded(s.pc, s.queue, s.redis)
    requires DocumentOk(Document(s.redis, job), spoiled) && HandFits(s.pc)
    ensures DocumentOk(Document(Work(cfg, s, choice).redis, job), spoiled || Spoils(s, Handler(choice), job))
  {
    var m := s.queue[0].message;
    if JobOf(s.queue[0]) != job {
      Isolation.WorkTouchesOneJob(cfg, s, choice, job);
      hide Work, DocumentOk, Terminal.Guarded;
    } else if s.pc.Settle? {
      hide DocumentOk, SettleStep, Terminal.Guarded, HandFits, Spoils;
      SettleKeeps(s, job, choice.settledAt, choice, spoiled);
    } else if s.pc.Begin? && m.Request? {
      hide DocumentOk, BeginStep, IsTerminal;
      BeginKeeps(s, m, choice.startedAt, spoiled);
    } else {
      hide Work, DocumentOk, Terminal.Guarded;
      OthersWriteNothing(cfg, s, choice);
    }
  }

  lemma QueuedAgrees(job: string, taskName: string, now: string)
    ensures Agrees(QueuedDocument(job, taskName, now)) && Agrees(map[])
  {
    Terminal.QueuedDocumentUnfinished(job, taskName, now);
  }

  lemma EnvironmentKeeps(cfg: Config, s: System, l: Label, job: string, spoiled: bool)
    requires Enabled(s, l) && !l.Handler? && DocumentOk(Document(s.redis, job), spoiled) && HandFits(s.pc)
    ensures DocumentOk(Document(Do(cfg, s, l).redis, job), spoiled && !Replaced(s, l, job))
    ensures HandFits(Do(cfg, s, l).pc)
  {
    hide Work, Issued, IsUuid, Issuable, Plausible, Agrees, QueuedDocument, NoResult, HasStatus, Fits;
    if l.ApiWrite? {
      QueuedAgrees(l.job, l.order.taskName, l.now);
    } else if l.DropDocument? || l.DamageDocument? {
      QueuedAgrees("", "", "");
    } else {
    }
  }

  // ---- Runs ----

  /** A malformed message spoiled the job's document, and the document was not replaced since. */
  ghost predicate Spoiled(cfg: Config, ls: seq<Label>, job: string) {
    ls != []
    && var s, l := After(cfg, ls[..|ls| - 1]), ls[|ls| - 1];
       Spoils(s, l, job) || (Spoiled(cfg, ls[..|ls| - 1], job) && !Replaced(s, l, job))
  }

  lemma {:induction false} Holds(cfg: Config, ls: seq<Label>, job: string)
    ensures DocumentOk(Document(After(cfg, ls).redis, job), Spoiled(cfg, ls, job)) && HandFits(After(cfg, ls).pc)
  {
    if ls == [] {
      QueuedAgrees("", "", "");
    } else {
      var front, l := ls[..|ls| - 1], ls[|ls| - 1];
      var s, spoiled := After(cfg, front), Spoiled(cfg, front, job);
      Holds(cfg, front, job);
      Terminal.Holds(cfg, front);
      HeadPlausible(s);
      hide DocumentOk, HandFits, Work, Plausible, Terminal.Guarded, Terminal.AllPlausible, IsUuid, Issuable, NoResult;
      if !Enabled(s, l) {
      } else if l.Handler? {
        WorkFits(cfg, s, l.choice);
        WorkKeeps(cfg, s, l.choice, job, spoiled);
      } else {
        EnvironmentKeeps(cfg, s, l, job, spoiled);
      }
    }
  }

  lemma HeadPlausible(s: System)
    requires Terminal.Inv(s)
    ensures s.queue != [] ==> Plausible(s.queue[0].message)
  {
    hide Terminal.Guarded;
    assert s.queue != [] ==> s.queue[0] in s.queue;
  }

  /** Step k spoiled the document, and no later step replaced it. */
  ghost predicate SpoiledAt(cfg: Config, ls: seq<Label>, k: nat, job: string)
    requires k < |ls|
  {
    && Spoils(After(cfg, ls[..k]), ls[k], job)
    && forall i :: k < i < |ls| ==> !Replaced(After(cfg, ls[..i]), ls[i], job)
  }

  lemma SpoiledAtLast(cfg: Config, ls: seq<Label>, k: nat, job: string)
    requires k < |ls|
    ensures var n := |ls| - 1;
            SpoiledAt(cfg, ls, k, job) <==>
            if k == n then Spoils(After(cfg, ls[..n]), ls[n], job)
            else SpoiledAt(cfg, ls[..n], k, job) && !Replaced(After(cfg, ls[..n]), ls[n], job)
  {
    hide After, Spoils, Replaced;
    var front := ls[..|ls| - 1];
    assert forall i :: 0 <= i < |front| ==> front[..i] == ls[..i] && front[i] == ls[i];
    if k < |front| {
      assert SpoiledAt(cfg, ls, k, job) ==> !Replaced(After(cfg, ls[..|front|]), ls[|front|], job);
    }
  }

  lemma {:induction false} SpoiledHasStep(cfg: Config, ls: seq<Label>, job: string) returns (k: nat)
    requires Spoiled(cfg, ls, job)
    ensures k < |ls| && SpoiledAt(cfg, ls, k, job)
  {
    hide After, Spoils, Replaced, SpoiledAt;
    var n := |ls| - 1;
    if Spoils(After(cfg, ls[..n]), ls[n], job) {
      k := n;
    } else {
      k := SpoiledHasStep(cfg, ls[..n], job);
    }
    SpoiledAtLast(cfg, ls, k, job);
  }

  lemma {:induction false} StepSpoils(cfg: Config, ls: seq<Label>, k: nat, job: string)
    requires k < |ls| && SpoiledAt(cfg, ls, k, job)
    ensures Spoiled(cfg, ls, job)
  {
    hide After, Spoils, Replaced, SpoiledAt;
    SpoiledAtLast(cfg, ls, k, job);
    if k < |ls| - 1 { StepSpoils(cfg, ls[..|ls| - 1], k, job); }
  }

  /** In every reachable state, whatever fails and whoever sends: a job's document agrees with its
      status if and only if no step failed the job for a malformed message over a stored result, not
      counting documents that were lost or issued afresh since. */
  lemma AgreesUnlessSpoiled(cfg: Config, ls: seq<Label>, job: string)
    ensures Agrees(Document(After(cfg, ls).redis, job)) <==> forall k: nat :: k < |ls| ==> !SpoiledAt(cfg, ls, k, job)
  {
    hide After, Spoiled, Agrees, SpoiledAt;
    Holds(cfg, ls, job);
    if Spoiled(cfg, ls, job) {
      var k := SpoiledHasStep(cfg, ls, job);
      WrongStatus(Document(After(cfg, ls).redis, job));
    } else {
      forall k: nat | k < |ls| ensures !SpoiledAt(cfg, ls, k, job) {
        if SpoiledAt(cfg, ls, k, job) { StepSpoils(cfg, ls, k, job); }
      }
    }
  }

  // ---- Valid messages only ----

  ghost predicate AllRequests(es: seq<Envelope>) {
    forall e :: e in es ==> e.message.Request?
  }

  ghost predicate RequestsOnly(requests: map<string, Message>) {
    forall job :: job in requests ==> requests[job].Request?
  }

  ghost predicate ValidOnly(s: System) {
    AllRequests(s.queue) && AllRequests(s.log.accepted) && RequestsOnly(s.requests)
  }

  lemma SendKeepsValid(s: System, e: Envelope)
    requires ValidOnly(s) && e.message.Request?
    ensures ValidOnly(Send(s, e))
  {
    hide RequestsOnly;
  }

  lemma SameKeepsValid(s: System, t: System)
    requires ValidOnly(s) && t.requests == s.requests && t.log.accepted == s.log.accepted
    requires t.queue == s.queue || (s.queue != [] && t.queue == s.queue[1..])
    ensures ValidOnly(t)
  {
    hide RequestsOnly;
  }

  lemma TryFrame(cfg: Config, s: System, m: Message, choice: Choice)
    requires m.Request? && !s.pc.Publish?
    ensures var t := Try(cfg, s, m, choice);
            t.requests == s.requests && t.log.accepted == s.log.accepted && t.queue == s.queue
  {
    hide Merge, IsTerminal, FailedUpdates, RetryUpdates, DoneUpdates, TaskDlq.NextCount, FileCount, NotRegistered,
      TaskDlq.CanRetry;
    if s.pc.Record? {
    } else {
    }
  }

  lemma WorkFrame(cfg: Config, s: System, choice: Choice)
    requires s.queue != [] && !(s.pc.Publish? && s.queue[0].message.Request?)
    ensures var t := Work(cfg, s, choice);
            && t.requests == s.requests && t.log.accepted == s.log.accepted
            && (t.queue == s.queue || t.queue == s.queue[1..])
  {
    hide Merge, Try, Receive;
    if s.pc.Idle? || s.pc.Unlink? || s.pc.Settle? || s.pc.Sweep? || s.pc.Return? {
    } else {
      if s.queue[0].message.Request? { TryFrame(cfg, s, s.queue[0].message, choice); }
    }
  }

  lemma WorkKeepsValid(cfg: Config, s: System, choice: Choice)
    requires ValidOnly(s) && s.queue != []
    ensures ValidOnly(Work(cfg, s, choice))
  {
    var m, t := s.queue[0].message, Work(cfg, s, choice);
    if s.pc.Publish? && m.Request? {
      hide ValidOnly, Send, RetryUpdates, RepublishFailed;
      var u := if choice.sendError.Some? then s else Send(s, Retried(m, s.pc.tryCount));
      if choice.sendError.None? { SendKeepsValid(s, Retried(m, s.pc.tryCount)); }
      SameKeepsValid(u, t);
    } else {
      WorkFrame(cfg, s, choice);
      hide ValidOnly, Work;
      SameKeepsValid(s, t);
    }
  }

  lemma EnvironmentKeepsValid(cfg: Config, f: Faults, s: System, l: Label)
    requires !f.strangers.AnySenders? && Allowed(cfg, f, s, l) && Enabled(s, l) && !l.Handler? && ValidOnly(s)
    ensures ValidOnly(Do(cfg, s, l))
  {
    hide Work, QueuedDocument, RequestMessage, IsUuid, Issuable, Plausible, IsTerminal, Send;
    if l.ApiPublish? {
      SendKeepsValid(s, First(s.requests[l.job]));
    } else if l.Foreign? {
      SendKeepsValid(s, l.e);
    } else if l.Redeliver? {
      assert forall x :: x in s.queue[..l.at] + [l.e] + s.queue[l.at..] ==> x in s.queue || x == l.e;
    } else {
    }
  }

  lemma {:induction false} ValidStaysValid(cfg: Config, f: Faults, ls: seq<Label>, job: string)
    requires !f.strangers.AnySenders? && Run(cfg, f, ls)
    ensures ValidOnly(After(cfg, ls)) && !Spoiled(cfg, ls, job)
  {
    if ls != [] {
      var front, l := ls[..|ls| - 1], ls[|ls| - 1];
      var s := After(cfg, front);
      ValidStaysValid(cfg, f, front, job);
      HeadIsRequest(s);
      hide ValidOnly, Work, Allowed;
      if !Enabled(s, l) {
      } else if l.Handler? {
        WorkKeepsValid(cfg, s, l.choice);
      } else {
        EnvironmentKeepsValid(cfg, f, s, l);
      }
    }
  }

  lemma HeadIsRequest(s: System)
    requires ValidOnly(s)
    ensures s.queue != [] ==> s.queue[0].message.Request?
  {
    assert s.queue != [] ==> s.queue[0] in s.queue;
  }

  /** In every reachable state, under every fault, as long as all messages are valid. */
  lemma StatusAndFieldsAgree(cfg: Config, f: Faults, ls: seq<Label>, job: string)
    requires !f.strangers.AnySenders? && Run(cfg, f, ls)
    ensures var d := Document(After(cfg, ls).redis, job);
            && (HasStatus(d, Done) ==> HasResult(d) && FailureReasonKey !in d)
            && (HasStatus(d, Failed) ==> HasReason(d) && NoResult(d))
            && (HasStatus(d, Queued) || HasStatus(d, Running) ==> NoResult(d))
  {
    hide After, Run, Spoiled;
    var d := Document(After(cfg, ls).redis, job);
    ValidStaysValid(cfg, f, ls, job);
    Holds(cfg, ls, job);
    OneStatus(d);
  }

  lemma OneStatus(d: Object)
    ensures forall a: Status, b: Status :: HasStatus(d, a) && HasStatus(d, b) ==> a == b
  {
    forall a: Status, b: Status | HasStatus(d, a) && HasStatus(d, b) ensures a == b {
      StatusTextsDiffer(a, b);
    }
  }
}
