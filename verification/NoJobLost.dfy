/** While a published job is unfinished, its newest message is on the queue. */
module NoJobLost {
  import opened Json
  import opened StatusDocument
  import opened JobRequests
  import opened Protocol
  import opened Origin
  import Terminal
  import TaskDlq

  /** The highest count ever accepted for a job; -1 before it is published. */
  function Highest(accepted: seq<Envelope>, job: string): (h: int)
    ensures h >= -1
  {
    if accepted == [] then -1
    else
      var h, last := Highest(accepted[..|accepted| - 1], job), accepted[|accepted| - 1];
      if JobOf(last) == job && CountOf(last) > h then CountOf(last) else h
  }

  lemma HighestAppend(accepted: seq<Envelope>, e: Envelope, job: string)
    ensures Highest(accepted + [e], job)
            == if JobOf(e) == job && CountOf(e) > Highest(accepted, job) then CountOf(e) else Highest(accepted, job)
  {
    assert (accepted + [e])[..|accepted|] == accepted;
  }

  lemma {:induction false} HighestIsMaximal(accepted: seq<Envelope>, e: Envelope)
    requires e in accepted
    ensures CountOf(e) <= Highest(accepted, JobOf(e))
  {
    var front := accepted[..|accepted| - 1];
    if e in front { HighestIsMaximal(front, e); }
  }

  /** The newest message of a job, if it has been published, is among the given ones. */
  ghost predicate Alive(queue: seq<Envelope>, accepted: seq<Envelope>, job: string) {
    exists e :: e in queue && JobOf(e) == job && CountOf(e) == Highest(accepted, job)
  }

  /** Every published job is finished or alive. */
  ghost predicate Safe(queue: seq<Envelope>, accepted: seq<Envelope>, redis: Store) {
    forall job :: Highest(accepted, job) >= 0 ==> IsTerminal(redis, job) || Alive(queue, accepted, job)
  }

  /** The job in hand: alive while it is tried, and alive without the message in hand once that
      message has been replaced. */
  ghost predicate HandSafe(pc: Pc, queue: seq<Envelope>, accepted: seq<Envelope>, finished: bool, job: string) {
    && (pc.Begin? || pc.Execute? || pc.Record? || pc.Publish? ==> Alive(queue, accepted, job))
    && (pc.Settle? && !pc.status.IsTerminal() ==> queue != [] && Alive(queue[1..], accepted, job))
    && (pc.Sweep? || pc.Return? ==> finished || (queue != [] && Alive(queue[1..], accepted, job)))
  }

  function HandJob(queue: seq<Envelope>): string {
    if queue == [] then "" else JobOf(queue[0])
  }

  ghost predicate Inv(s: System) {
    && Safe(s.queue, s.log.accepted, s.redis)
    && HandSafe(s.pc, s.queue, s.log.accepted, IsTerminal(s.redis, HandJob(s.queue)), HandJob(s.queue))
  }

  ghost predicate Context(cfg: Config, s: System) {
    Origin.Inv(cfg, s) && Terminal.Inv(s)
  }

  // ---- What the surrounding invariants say of the message in hand ----

  lemma Hand(cfg: Config, s: System)
    requires Context(cfg, s) && s.queue != []
    ensures s.queue[0].message.Request? && StatusKey !in s.queue[0].message.contract
    ensures 0 <= CountOf(s.queue[0]) <= Highest(s.log.accepted, JobOf(s.queue[0]))
    ensures s.pc.Settle? ==> !s.pc.status.Running? && StatusKey !in s.pc.updates
                             && (s.pc.sweep ==> s.pc.status.IsTerminal())
  {
    HeadKnown(cfg, s);
    HighestIsMaximal(s.log.accepted, s.queue[0]);
    hide RequestsOk, DocumentsIssued, FilesIssued, AcceptedKnown, IdsAccepted, FilesBounded, QueueAccepted, IsTerminal,
      Highest;
    assert s.queue[0] in s.queue;
  }

  /** The retry about to be published: above the message in hand, and new unless already accepted. */
  lemma RetryFacts(cfg: Config, s: System, e: Envelope)
    requires Context(cfg, s) && s.queue != [] && s.queue[0].message.Request? && s.pc.Publish?
    requires e == Retried(s.queue[0].message, s.pc.tryCount)
    ensures JobOf(e) == JobOf(s.queue[0]) && CountOf(e) > CountOf(s.queue[0])
    ensures e.id in s.dedup ==> CountOf(e) <= Highest(s.log.accepted, JobOf(e))
  {
    HeadKnown(cfg, s);
    assert Known(cfg, s.requests, e);
    hide Terminal.Inv, RequestsOk, DocumentsIssued, FilesIssued, FilesBounded, QueueAccepted, Highest;
    if e.id in s.dedup {
      var a :| a in s.log.accepted && a.id == e.id;
      KnownIds(cfg, s.requests, a, e);
      HighestIsMaximal(s.log.accepted, e);
    }
  }

  lemma NotYetPublished(cfg: Config, s: System, job: string)
    requires Context(cfg, s) && job !in s.requests
    ensures Highest(s.log.accepted, job) == -1
    ensures s.queue != [] ==> JobOf(s.queue[0]) != job
  {
    hide Terminal.Inv, RequestsOk, DocumentsIssued, FilesIssued, FilesBounded, IdsAccepted, HandlerOk;
    assert s.queue != [] ==> s.queue[0] in s.queue;
    assert forall a :: a in s.log.accepted ==> Known(cfg, s.requests, a);
    NeverAccepted(s.log.accepted, job);
  }

  lemma {:induction false} NeverAccepted(accepted: seq<Envelope>, job: string)
    requires forall a :: a in accepted ==> JobOf(a) != job
    ensures Highest(accepted, job) == -1
  {
    if accepted != [] { NeverAccepted(accepted[..|accepted| - 1], job); }
  }

  // ---- Staying alive ----

  lemma AliveInLonger(queue: seq<Envelope>, longer: seq<Envelope>, accepted: seq<Envelope>, job: string)
    requires Alive(queue, accepted, job) && forall e :: e in queue ==> e in longer
    ensures Alive(longer, accepted, job)
  {
    var e :| e in queue && JobOf(e) == job && CountOf(e) == Highest(accepted, job);
    assert e in longer;
  }

  /** Appending a message keeps every job alive that was, and its own job if it is its newest. */
  lemma AliveAfterAppend(queue: seq<Envelope>, accepted: seq<Envelope>, e: Envelope, job: string)
    requires Alive(queue, accepted, job) || (JobOf(e) == job && CountOf(e) > Highest(accepted, job))
    ensures Alive(queue + [e], accepted + [e], job)
  {
    HighestAppend(accepted, e, job);
    hide Highest;
    if JobOf(e) == job && CountOf(e) > Highest(accepted, job) {
      assert e in queue + [e];
    } else {
      var x :| x in queue && JobOf(x) == job && CountOf(x) == Highest(accepted, job);
      assert x in queue + [e];
    }
  }

  /** A message above the one in hand makes that one dispensable. */
  lemma AliveWithoutHand(queue: seq<Envelope>, accepted: seq<Envelope>)
    requires queue != [] && Alive(queue, accepted, JobOf(queue[0]))
    requires CountOf(queue[0]) < Highest(accepted, JobOf(queue[0]))
    ensures Alive(queue[1..], accepted, JobOf(queue[0]))
  {
    var x :| x in queue && JobOf(x) == JobOf(queue[0]) && CountOf(x) == Highest(accepted, JobOf(queue[0]));
    assert x in queue[1..];
  }

  lemma AliveAfterPublish(queue: seq<Envelope>, accepted: seq<Envelope>, e: Envelope)
    requires queue != [] && JobOf(e) == JobOf(queue[0]) && CountOf(e) > CountOf(queue[0])
    requires Alive(queue, accepted, JobOf(e))
    ensures Alive((queue + [e])[1..], accepted + [e], JobOf(e))
  {
    assert (queue + [e])[1..] == queue[1..] + [e];
    hide Alive, Highest;
    if CountOf(e) <= Highest(accepted, JobOf(e)) { AliveWithoutHand(queue, accepted); }
    AliveAfterAppend(queue[1..], accepted, e, JobOf(e));
  }

  lemma SafeAfterAppend(queue: seq<Envelope>, accepted: seq<Envelope>, e: Envelope, redis: Store)
    requires Safe(queue, accepted, redis)
    ensures CountOf(e) >= 0 ==> Safe(queue + [e], accepted + [e], redis)
  {
    hide Alive, IsTerminal, Highest;
    forall job | CountOf(e) >= 0 && Highest(accepted + [e], job) >= 0 && !IsTerminal(redis, job)
      ensures Alive(queue + [e], accepted + [e], job)
    {
      HighestAppend(accepted, e, job);
      AliveAfterAppend(queue, accepted, e, job);
    }
  }

  lemma SafeAfterSend(s: System, e: Envelope)
    requires Safe(s.queue, s.log.accepted, s.redis) && CountOf(e) >= 0
    ensures Safe(Send(s, e).queue, Send(s, e).log.accepted, s.redis)
  {
    hide Safe;
    SafeAfterAppend(s.queue, s.log.accepted, e, s.redis);
  }

  // ---- The steps ----

  lemma MoveKeeps(cfg: Config, s: System, m: Message, outcome: Outcome)
    requires Inv(s) && s.queue != [] && m == s.queue[0].message && m.Request?
    requires Highest(s.log.accepted, JobOf(s.queue[0])) >= 0
    ensures Inv(ReceiveStep(s)) && Inv(GuardStep(cfg, s, m))
    ensures s.pc.Execute? ==> Inv(ExecuteStep(s, m, outcome))
  {
    hide Alive, Highest, IsTerminal, NotRegistered, FailedUpdates, DoneUpdates;
  }

  lemma RecordKeeps(cfg: Config, s: System, m: Message, reason: string, writable: bool)
    requires Inv(s) && s.pc == Record(reason) && m.Request?
    ensures Inv(RecordStep(cfg, s, m, reason, writable))
  {
    hide Alive, Safe, Highest, IsTerminal, FailedUpdates, RetryUpdates, TaskDlq.NextCount;
  }

  lemma RemoveKeeps(s: System, job: string)
    requires Inv(s)
    ensures s.pc.Unlink? ==> Inv(UnlinkStep(s, job, s.pc.updates))
    ensures s.pc.Sweep? ==> Inv(SweepStep(s, job))
  {
    hide Alive, Safe, Highest, IsTerminal;
  }

  lemma WriteSafe(queue: seq<Envelope>, accepted: seq<Envelope>, redis: Store, job: string, p: Payload)
    requires Safe(queue, accepted, redis)
    requires StatusDocument.Terminal(Fields(p)) || Highest(accepted, job) < 0 || Alive(queue, accepted, job)
    ensures Safe(queue, accepted, redis[job := p])
  {
    hide Alive, Highest, StatusDocument.Terminal;
    forall j | Highest(accepted, j) >= 0 ensures IsTerminal(redis[job := p], j) || Alive(queue, accepted, j) {
      assert j != job ==> IsTerminal(redis[job := p], j) == IsTerminal(redis, j);
    }
  }

  lemma BeginKeeps(s: System, m: Message, now: string)
    requires Inv(s) && s.queue != [] && m == s.queue[0].message && m.Request? && s.pc.Begin?
    ensures Inv(BeginStep(s, m, now))
  {
    hide Alive, Safe, Highest, Merge, IsTerminal;
    var document := Merge(Document(s.redis, m.job), m.job, Running, m.contract, now);
    WriteSafe(s.queue, s.log.accepted, s.redis, m.job, Parsed(Obj(document)));
  }

  lemma SettleKeeps(s: System, job: string, now: string)
    requires Inv(s) && s.queue != [] && job == JobOf(s.queue[0]) && s.pc.Settle? && StatusKey !in s.pc.updates
    ensures Inv(SettleStep(s, job, s.pc.status, s.pc.updates, s.pc.sweep, now))
  {
    MergeStatus(Document(s.redis, job), job, s.pc.status, s.pc.updates, now);
    hide Alive, Safe, Highest, Merge, StatusDocument.Terminal;
    var document := Merge(Document(s.redis, job), job, s.pc.status, s.pc.updates, now);
    if !s.pc.status.IsTerminal() { AliveInLonger(s.queue[1..], s.queue, s.log.accepted, job); }
    WriteSafe(s.queue, s.log.accepted, s.redis, job, Parsed(Obj(document)));
  }

  lemma PublishKeeps(s: System, m: Message, reason: string, n: Int32, sendError: Option<string>)
    requires Inv(s) && s.queue != [] && s.pc == Publish(reason, n) && m == s.queue[0].message && m.Request?
    requires n > CountOf(s.queue[0]) >= 0
    requires Retried(m, n).id in s.dedup ==> n <= Highest(s.log.accepted, m.job)
    ensures Inv(PublishStep(s, m, reason, n, sendError))
  {
    var e := Retried(m, n);
    assert CountOf(e) == n && JobOf(e) == m.job;
    hide Alive, Safe, Highest, IsTerminal, RepublishFailed, RetryUpdates, Retried;
    SafeAfterSend(s, e);
    if e.id in s.dedup {
      AliveWithoutHand(s.queue, s.log.accepted);
    } else {
      AliveAfterPublish(s.queue, s.log.accepted, e);
    }
  }

  lemma ReturnKeeps(s: System)
    requires Inv(s) && s.queue != [] && s.pc.Return?
    ensures Inv(ReturnStep(s))
  {
    hide IsTerminal, Highest;
    var rest, accepted := s.queue[1..], s.log.accepted;
    forall job | Highest(accepted, job) >= 0 && !IsTerminal(s.redis, job) ensures Alive(rest, accepted, job) {
      if job != JobOf(s.queue[0]) {
        var x :| x in s.queue && JobOf(x) == job && CountOf(x) == Highest(accepted, job);
        assert x in rest;
      }
    }
  }

  lemma TryKeeps(cfg: Config, s: System, m: Message, choice: Choice)
    requires Context(cfg, s) && Inv(s) && s.queue != [] && m == s.queue[0].message && m.Request?
    requires 0 <= CountOf(s.queue[0]) <= Highest(s.log.accepted, JobOf(s.queue[0]))
    ensures Inv(Try(cfg, s, m, choice))
  {
    hide Inv, Context, Highest, GuardStep, BeginStep, ExecuteStep, RecordStep, PublishStep;
    if s.pc.Begin? {
      BeginKeeps(s, m, choice.startedAt);
    } else if s.pc.Record? {
      RecordKeeps(cfg, s, m, s.pc.reason, choice.writable);
    } else if s.pc.Publish? {
      RetryFacts(cfg, s, Retried(m, s.pc.tryCount)); PublishKeeps(s, m, s.pc.reason, s.pc.tryCount, choice.sendError);
    } else {
      MoveKeeps(cfg, s, m, choice.outcome);
    }
  }

  lemma WorkKeeps(cfg: Config, s: System, choice: Choice)
    requires Context(cfg, s) && Inv(s) && s.queue != []
    ensures Inv(Work(cfg, s, choice))
  {
    hide Inv, Context, Highest, ReceiveStep, UnlinkStep, SettleStep, SweepStep, ReturnStep, Try;
    Hand(cfg, s);
    var m, job := s.queue[0].message, JobOf(s.queue[0]);
    if s.pc.Idle? {
      MoveKeeps(cfg, s, m, choice.outcome);
    } else if s.pc.Unlink? {
      RemoveKeeps(s, job);
    } else if s.pc.Settle? {
      SettleKeeps(s, job, choice.settledAt);
    } else if s.pc.Sweep? {
      RemoveKeeps(s, job);
    } else if s.pc.Return? {
      ReturnKeeps(s);
    } else {
      TryKeeps(cfg, s, m, choice);
    }
  }

  lemma FirstIsZero(cfg: Config, s: System, job: string)
    requires Context(cfg, s) && job in s.requests
    ensures CountOf(First(s.requests[job])) == 0 && (s.pc.Idle? || s.queue != [])
  {}

  lemma ApiPublishKeeps(cfg: Config, s: System, job: string)
    requires Context(cfg, s) && Inv(s) && job in s.requests
    ensures Inv(Send(s, First(s.requests[job])))
  {
    hide Context, Alive, Safe, Highest, IsTerminal, First;
    FirstIsZero(cfg, s, job);
    var e := First(s.requests[job]);
    SafeAfterSend(s, e);
    if e.id in s.dedup {
    } else if s.queue == [] {
    } else {
      var head := JobOf(s.queue[0]);
      assert (s.queue + [e])[1..] == s.queue[1..] + [e];
      assert (s.queue + [e])[0] == s.queue[0];
      if Alive(s.queue, s.log.accepted, head) { AliveAfterAppend(s.queue, s.log.accepted, e, head); }
      if Alive(s.queue[1..], s.log.accepted, head) { AliveAfterAppend(s.queue[1..], s.log.accepted, e, head); }
    }
  }

  lemma AliveAfterInsert(queue: seq<Envelope>, accepted: seq<Envelope>, e: Envelope, at: nat, job: string)
    requires at <= |queue|
    ensures Alive(queue, accepted, job) ==> Alive(queue[..at] + [e] + queue[at..], accepted, job)
    ensures at > 0 && Alive(queue[1..], accepted, job) ==> Alive((queue[..at] + [e] + queue[at..])[1..], accepted, job)
  {
    hide Alive, Highest;
    var longer := queue[..at] + [e] + queue[at..];
    assert queue == queue[..at] + queue[at..];
    if Alive(queue, accepted, job) { AliveInLonger(queue, longer, accepted, job); }
    if at > 0 && Alive(queue[1..], accepted, job) {
      assert longer[1..] == queue[1..at] + [e] + queue[at..];
      assert queue[1..] == queue[1..at] + queue[at..];
      AliveInLonger(queue[1..], longer[1..], accepted, job);
    }
  }

  lemma RedeliverKeeps(cfg: Config, s: System, e: Envelope, at: nat)
    requires Inv(s) && Enabled(s, Redeliver(e, at)) && (s.pc.Idle? || s.queue != [])
    ensures Inv(Do(cfg, s, Redeliver(e, at)))
  {
    hide Alive, Highest, IsTerminal;
    forall job
      ensures Alive(s.queue, s.log.accepted, job) ==> Alive(s.queue[..at] + [e] + s.queue[at..], s.log.accepted, job)
    {
      AliveAfterInsert(s.queue, s.log.accepted, e, at, job);
    }
    AliveAfterInsert(s.queue, s.log.accepted, e, at, HandJob(s.queue));
  }

  lemma LossKeeps(cfg: Config, s: System, job: string, p: Payload)
    requires Inv(s) && !IsTerminal(s.redis, job) && Fields(p) == map[]
    ensures Inv(s.(redis := s.redis - {job})) && Inv(s.(redis := s.redis[job := p]))
  {
    hide Alive, Highest, StatusDocument.Terminal;
    assert forall j :: IsTerminal(s.redis, j) ==> IsTerminal(s.redis - {job}, j) && IsTerminal(s.redis[job := p], j);
  }

  lemma ApiWriteKeeps(cfg: Config, s: System, job: string, order: Order, now: string)
    requires Context(cfg, s) && Inv(s) && job !in s.requests
    ensures Inv(ApiWriteStep(cfg, s, job, order, now))
  {
    NotYetPublished(cfg, s, job);
    Holding(cfg, s);
    hide Context, Alive, Safe, Highest, StatusDocument.Terminal, QueuedDocument, RequestMessage;
    WriteSafe(s.queue, s.log.accepted, s.redis, job, Parsed(Obj(QueuedDocument(job, order.taskName, now))));
  }

  lemma CrashKeeps(s: System, dlq: map<string, File>, dedup: set<DedupId>, crashed: seq<Envelope>)
    requires Inv(s)
    ensures Inv(s.(dlq := dlq)) && Inv(s.(dedup := dedup))
    ensures Inv(s.(pc := Idle, log := s.log.(crashed := crashed)))
  {
    hide Safe, Alive, IsTerminal;
  }

  lemma StepKeeps(cfg: Config, f: Faults, s: System, l: Label)
    requires !f.terminalLoss && f.strangers.Nobody? && Allowed(cfg, f, s, l)
    requires Context(cfg, s) && Inv(s)
    ensures Inv(Do(cfg, s, l))
  {
    if Enabled(s, l) {
      Holding(cfg, s);
      hide Inv, Context, Work, ApiWriteStep, Send, Issuable, IsUuid, IsTerminal;
      if l.Handler? {
        WorkKeeps(cfg, s, l.choice);
      } else if l.ApiPublish? {
        ApiPublishKeeps(cfg, s, l.job);
      } else if l.Redeliver? {
        RedeliverKeeps(cfg, s, l.e, l.at);
      } else if l.ApiWrite? {
        ApiWriteKeeps(cfg, s, l.job, l.order, l.now);
      } else if l.DropDocument? || l.DamageDocument? {
        LossKeeps(cfg, s, l.job, Garbage);
      } else {
        var t := Do(cfg, s, l);
        CrashKeeps(s, t.dlq, t.dedup, t.log.crashed);
      }
    }
  }

  lemma {:induction false} Holds(cfg: Config, f: Faults, ls: seq<Label>)
    requires ConfigOk(cfg) && !f.terminalLoss && f.strangers.Nobody? && Run(cfg, f, ls)
    ensures Context(cfg, After(cfg, ls)) && Inv(After(cfg, ls))
  {
    Origin.Holds(cfg, f, ls);
    Terminal.Holds(cfg, ls);
    if ls != [] {
      var front := ls[..|ls| - 1];
      Holds(cfg, f, front);
      hide Do, Inv, Allowed, Origin.Inv, Terminal.Inv;
      StepKeeps(cfg, f, After(cfg, front), ls[|ls| - 1]);
    }
  }

  /** No job is lost: in every run without foreign senders in which finished documents are kept, the
      highest count ever accepted for an unfinished job is on the queue. Crashes between any two
      effects, lost or damaged DLQ entries and unfinished documents, redelivered messages and
      swallowed or forgotten deduplication IDs are all permitted. */
  lemma NoJobIsLost(cfg: Config, f: Faults, ls: seq<Label>, a: Envelope)
    requires ConfigOk(cfg) && !f.terminalLoss && f.strangers.Nobody? && Run(cfg, f, ls)
    requires a in After(cfg, ls).log.accepted && !IsTerminal(After(cfg, ls).redis, JobOf(a))
    ensures exists e :: e in After(cfg, ls).queue && JobOf(e) == JobOf(a)
                        && forall b :: b in After(cfg, ls).log.accepted && JobOf(b) == JobOf(a) ==>
                                         CountOf(b) <= CountOf(e)
  {
    Holds(cfg, f, ls);
    var s := After(cfg, ls);
    forall b | b in s.log.accepted ensures CountOf(b) <= Highest(s.log.accepted, JobOf(b)) {
      HighestIsMaximal(s.log.accepted, b);
    }
    assert Known(cfg, s.requests, a);
    hide Highest, IsTerminal, Origin.Inv, Terminal.Inv;
    assert Alive(s.queue, s.log.accepted, JobOf(a));
    var e :| e in s.queue && JobOf(e) == JobOf(a) && CountOf(e) == Highest(s.log.accepted, JobOf(a));
  }
}
