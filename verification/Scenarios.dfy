/** Two short runs, from the initial state, in which a job's bookkeeping goes wrong. */
module Scenarios {
  import opened Json
  import opened Strings
  import opened StatusDocument
  import opened MessageValidation
  import opened JobRequests
  import opened Protocol
  import opened Messages
  import Backlog
  import DocumentFields
  import Terminal
  import TaskDlq

  /** A service issues and publishes a job. */
  function Issue(job: string, order: Order, now: string): seq<Label> {
    [ApiWrite(job, order, now)] + [ApiPublish(job)]
  }

  /** A fresh job whose task is registered, and which may be retried. */
  ghost predicate Startable(cfg: Config, job: string, order: Order) {
    ConfigOk(cfg) && cfg.maxRetries > 0 && IsUuid(job) && Issuable(order) && CStr(order.taskName) in cfg.tasks
  }

  const CALM := Faults(false, false, false, false, false, false, false, Nobody)

  // ---- Handler steps in a row ----

  function Repeated(c: Choice, n: nat): seq<Label> {
    if n == 0 then [] else Repeated(c, n - 1) + [Handler(c)]
  }

  ghost function Handled(cfg: Config, s: System, c: Choice, n: nat): System {
    if n == 0 then s else Do(cfg, Handled(cfg, s, c, n - 1), Handler(c))
  }

  lemma {:induction false} AfterRepeated(cfg: Config, f: Faults, ls: seq<Label>, c: Choice, n: nat)
    requires Run(cfg, f, ls) && (f.unwritable || c.writable)
    ensures Run(cfg, f, ls + Repeated(c, n))
    ensures After(cfg, ls + Repeated(c, n)) == Handled(cfg, After(cfg, ls), c, n)
  {
    if n == 0 {
      assert ls + [] == ls;
    } else {
      AfterRepeated(cfg, f, ls, c, n - 1);
      AfterOne(cfg, f, ls + Repeated(c, n - 1), Handler(c));
      assert ls + Repeated(c, n) == ls + Repeated(c, n - 1) + [Handler(c)];
    }
  }

  lemma AfterOne(cfg: Config, f: Faults, ls: seq<Label>, l: Label)
    requires Run(cfg, f, ls) && Allowed(cfg, f, After(cfg, ls), l)
    ensures Run(cfg, f, ls + [l]) && After(cfg, ls + [l]) == Do(cfg, After(cfg, ls), l)
  {
    assert (ls + [l])[..|ls|] == ls;
  }

  /** Up to the point where the task has run. */
  lemma RunsTask(cfg: Config, s: System, m: Message, c: Choice)
    requires s.pc.Idle? && s.queue != [] && s.queue[0].message == m && m.Request? && StatusKey !in m.contract
    requires m.taskName in cfg.tasks && !IsTerminal(s.redis, m.job)
    ensures var t := Handled(cfg, s, c, 3);
            && t == s.(redis := t.redis, pc := Execute, log := t.log)
            && t.log.failures == s.log.failures
            && t.redis == Saved(s.redis, m.job, Running, m.contract, c.startedAt) && !IsTerminal(t.redis, m.job)
  {
    hide Merge, StatusDocument.Terminal;
    MergeStatus(Document(s.redis, m.job), m.job, Running, m.contract, c.startedAt);
    var a, b := ReceiveStep(s), GuardStep(cfg, ReceiveStep(s), m);
    assert Handled(cfg, s, c, 1) == a;
    assert Handled(cfg, s, c, 2) == b;
    assert Handled(cfg, s, c, 3) == BeginStep(b, m, c.startedAt);
  }

  lemma {:induction false} HandledOn(cfg: Config, s: System, c: Choice, a: nat, b: nat)
    ensures Handled(cfg, s, c, a + b) == Handled(cfg, Handled(cfg, s, c, a), c, b)
  {
    hide Do;
    if b > 0 { HandledOn(cfg, s, c, a, b - 1); }
  }

  lemma Publishes(cfg: Config, s: System, m: Message, c: Choice)
    requires s.pc.Execute? && s.queue == [First(m)] && m.Request? && m.tryCount == 0
    requires c.outcome.Failure? && c.writable && c.sendError.None? && cfg.maxRetries > 0
    requires s.dlq == map[] && Retried(m, 1).id !in s.dedup
    ensures var t := Handled(cfg, s, c, 3);
            && t.pc == Settle(Queued, RetryUpdates(m.contract, c.outcome.reason, 1), false)
            && t.queue == [First(m), Retried(m, 1)] && t.dlq == map[m.job := Counting(1)]
  {
    hide Retried, RetryUpdates;
    var a := ExecuteStep(s, m, c.outcome);
    var b := RecordStep(cfg, a, m, c.outcome.reason, true);
    assert TaskDlq.NextCount(0, 0) == 1;
    assert Handled(cfg, s, c, 1) == a;
    assert Handled(cfg, s, c, 2) == b;
    assert b.pc == Publish(c.outcome.reason, 1);
    assert Handled(cfg, s, c, 3) == PublishStep(b, m, c.outcome.reason, 1, None);
  }

  lemma Requeues(cfg: Config, s: System, m: Message, updates: Object, c: Choice)
    requires s.pc == Settle(Queued, updates, false) && s.queue != [] && s.queue[0].message == m && m.Request?
    requires StatusKey !in updates
    ensures var t := Handled(cfg, s, c, 2);
            t.pc.Idle? && t.queue == s.queue[1..] && t.dlq == s.dlq && !IsTerminal(t.redis, m.job)
  {
    hide Merge, StatusDocument.Terminal;
    MergeStatus(Document(s.redis, m.job), m.job, Queued, updates, c.settledAt);
    var e := SettleStep(s, m.job, Queued, updates, false, c.settledAt);
    assert Handled(cfg, s, c, 1) == e;
    assert Handled(cfg, s, c, 2) == ReturnStep(e);
  }

  /** The task fails, the failure is recorded, and the message is republished. */
  lemma FailsRecorded(cfg: Config, s: System, m: Message, c: Choice)
    requires s.pc.Execute? && s.queue == [First(m)] && m.Request? && StatusKey !in m.contract && m.tryCount == 0
    requires c.outcome.Failure? && c.writable && c.sendError.None? && cfg.maxRetries > 0
    requires s.dlq == map[] && Retried(m, 1).id !in s.dedup
    ensures var t := Handled(cfg, s, c, 5);
            && t.pc.Idle? && t.queue == [Retried(m, 1)] && t.dlq == map[m.job := Counting(1)]
            && !IsTerminal(t.redis, m.job)
  {
    hide Handled, IsTerminal, Retried;
    Publishes(cfg, s, m, c);
    Requeues(cfg, Handled(cfg, s, c, 3), m, RetryUpdates(m.contract, c.outcome.reason, 1), c);
    HandledOn(cfg, s, c, 3, 2);
  }

  /** The task fails and the failure cannot be recorded: the job is closed. */
  lemma FailsUnrecorded(cfg: Config, s: System, m: Message, c: Choice)
    requires s.pc.Execute? && s.queue != [] && s.queue[0].message == m && m.Request? && StatusKey !in m.contract
    requires c.outcome.Failure? && !c.writable
    ensures var t := Handled(cfg, s, c, 4);
            t.pc.Idle? && t.dlq == s.dlq && IsTerminal(t.redis, m.job)
  {
    hide Merge, StatusDocument.Terminal;
    var updates := FailedUpdates(m.contract, c.outcome.reason);
    var a := ExecuteStep(s, m, c.outcome);
    var b := RecordStep(cfg, a, m, c.outcome.reason, false);
    assert Handled(cfg, s, c, 1) == a;
    assert Handled(cfg, s, c, 2) == b;
    MergeStatus(Document(s.redis, m.job), m.job, Failed, updates, c.settledAt);
    var d := SettleStep(b, m.job, Failed, updates, false, c.settledAt);
    assert Handled(cfg, s, c, 3) == d;
    assert Handled(cfg, s, c, 4) == ReturnStep(d);
  }

  /** The task succeeds and its result is stored. */
  lemma Succeeds(cfg: Config, s: System, m: Message, c: Choice)
    requires s.pc.Execute? && s.queue == [First(m)] && m.Request? && StatusKey !in m.contract
    requires c.outcome.Success?
    ensures var t := Handled(cfg, s, c, 4);
            && t.pc.Idle? && t.queue == [] && t.dedup == s.dedup
            && HasStatus(Document(t.redis, m.job), Done) && ExitCodeKey in Document(t.redis, m.job)
  {
    hide Merge, StatusDocument.Terminal;
    var updates := DoneUpdates(m.contract, c.outcome.tail, c.outcome.results);
    var a := ExecuteStep(s, m, c.outcome);
    assert Handled(cfg, s, c, 1) == a;
    MergeStatus(Document(s.redis, m.job), m.job, Done, updates, c.settledAt);
    MergeField(Document(s.redis, m.job), m.job, Done, updates, c.settledAt, ExitCodeKey);
    var b := SettleStep(a, m.job, Done, updates, true, c.settledAt);
    assert Handled(cfg, s, c, 2) == b;
    var d := SweepStep(b, m.job);
    assert Handled(cfg, s, c, 3) == d;
    assert Handled(cfg, s, c, 4) == ReturnStep(d);
  }

  // ---- The issued job ----

  lemma JobIsIssued(cfg: Config, f: Faults, job: string, order: Order, now: string)
    requires Startable(cfg, job, order)
    ensures Run(cfg, f, Issue(job, order, now))
    ensures var s, m := After(cfg, Issue(job, order, now)), Issued(job, cfg.bucket, order, now);
            && s.pc.Idle? && s.queue == [First(m)] && s.dlq == map[] && s.dedup == {Content(m)}
            && !IsTerminal(s.redis, job)
  {
    Terminal.QueuedDocumentUnfinished(job, order.taskName, now);
    hide IsUuid, Issuable, QueuedDocument, Issued, StatusDocument.Terminal;
    var first := [ApiWrite(job, order, now)];
    assert [] + first == first;
    AfterOne(cfg, f, [], ApiWrite(job, order, now));
    AfterOne(cfg, f, first, ApiPublish(job));
  }

  // ---- An entry left behind ----

  /** The job fails and is recorded, then fails again and cannot be. */
  function FailingTwice(job: string, order: Order, now: string, recorded: Choice, unrecorded: Choice): seq<Label> {
    Issue(job, order, now) + Repeated(recorded, 8) + Repeated(unrecorded, 7)
  }

  lemma FailsOnce(cfg: Config, f: Faults, job: string, order: Order, now: string, c: Choice)
    requires Startable(cfg, job, order) && c.outcome.Failure? && c.writable && c.sendError.None?
    ensures Run(cfg, f, Issue(job, order, now) + Repeated(c, 8))
    ensures var s, m := After(cfg, Issue(job, order, now) + Repeated(c, 8)), Issued(job, cfg.bucket, order, now);
            s.pc.Idle? && s.queue == [Retried(m, 1)] && s.dlq == map[job := Counting(1)] && !IsTerminal(s.redis, job)
  {
    hide Run, After, Handled, Repeated, IsTerminal, RequestMessage, RetryId, IsUuid, Issuable, Issue;
    var m := Issued(job, cfg.bucket, order, now);
    JobIsIssued(cfg, f, job, order, now);
    var s := After(cfg, Issue(job, order, now));
    RunsTask(cfg, s, m, c);
    FailsRecorded(cfg, Handled(cfg, s, c, 3), m, c);
    HandledOn(cfg, s, c, 3, 5);
    AfterRepeated(cfg, f, Issue(job, order, now), c, 8);
  }

  lemma FailsAgain(cfg: Config, f: Faults, ls: seq<Label>, m: Message, c: Choice)
    requires Run(cfg, f, ls) && f.unwritable && m.Request? && StatusKey !in m.contract && m.taskName in cfg.tasks
    requires c.outcome.Failure? && !c.writable
    requires var s := After(cfg, ls);
             s.pc.Idle? && s.queue != [] && s.queue[0].message == m && !IsTerminal(s.redis, m.job)
    ensures Run(cfg, f, ls + Repeated(c, 7))
    ensures var s, t := After(cfg, ls), After(cfg, ls + Repeated(c, 7));
            t.pc.Idle? && t.dlq == s.dlq && IsTerminal(t.redis, m.job)
  {
    hide Run, After, Handled, Repeated, IsTerminal;
    var s := After(cfg, ls);
    RunsTask(cfg, s, m, c);
    FailsUnrecorded(cfg, Handled(cfg, s, c, 3), m, c);
    HandledOn(cfg, s, c, 3, 4);
    AfterRepeated(cfg, f, ls, c, 7);
  }

  /** However a job fails twice, first recorded and then not, it ends failed while its entry is still
      counted, so the backlog is too high. */
  lemma UnrecordedFailureStrandsEntry(cfg: Config, job: string, order: Order, now: string, recorded: Choice,
                                      unrecorded: Choice)
    requires Startable(cfg, job, order)
    requires recorded.outcome.Failure? && recorded.writable && recorded.sendError.None?
    requires unrecorded.outcome.Failure? && !unrecorded.writable
    ensures var ls := FailingTwice(job, order, now, recorded, unrecorded);
            var s := After(cfg, ls);
            && Run(cfg, CALM.(unwritable := true), ls)
            && s.pc.Idle? && job in s.dlq && IsTerminal(s.redis, job) && |s.dlq| > |Backlog.Pending(s)|
  {
    hide Run, After, Repeated, IsTerminal, RequestMessage, RetryId, Issue, Backlog.Stranded, Backlog.Stranding, IsUuid,
      Issuable;
    var f, ls := CALM.(unwritable := true), Issue(job, order, now) + Repeated(recorded, 8);
    FailsOnce(cfg, f, job, order, now, recorded);
    FailsAgain(cfg, f, ls, Issued(job, cfg.bucket, order, now).(tryCount := 1), unrecorded);
    Backlog.BacklogIsExact(cfg, f, ls + Repeated(unrecorded, 7));
    var s := After(cfg, ls + Repeated(unrecorded, 7));
    assert job !in Backlog.Pending(s);
    assert Backlog.Stranded(cfg, ls + Repeated(unrecorded, 7)) != {};
  }

  // ---- A spoiled result ----

  /** A body that names a job and nothing else. */
  function Stray(job: string): Payload {
    Parsed(Obj(map[JobIdKey := Str(job)]))
  }

  lemma StrayIsMalformed(job: string)
    requires IsUuid(job)
    ensures View(Stray(job)) == Malformed(job, map[], "mode is required and must be a string")
  {
    UuidIsValidJobId(job);
    hide IsValidJobId, IsUuid;
  }

  /** The job succeeds, a stray message arrives, and it is handled. */
  function Straying(job: string, order: Order, now: string, c: Choice): seq<Label> {
    Issue(job, order, now) + Repeated(c, 7) + [Foreign(First(View(Stray(job))))] + Repeated(c, 2)
  }

  lemma SucceedsOnce(cfg: Config, f: Faults, job: string, order: Order, now: string, c: Choice)
    requires Startable(cfg, job, order) && c.outcome.Success? && c.writable
    ensures Run(cfg, f, Issue(job, order, now) + Repeated(c, 7))
    ensures var s := After(cfg, Issue(job, order, now) + Repeated(c, 7));
            && s.pc.Idle? && s.queue == [] && s.dedup == {Content(Issued(job, cfg.bucket, order, now))}
            && HasStatus(Document(s.redis, job), Done) && ExitCodeKey in Document(s.redis, job)
  {
    hide Run, After, Handled, Repeated, IsTerminal, RequestMessage, IsUuid, Issuable, Issue, HasStatus;
    var m := Issued(job, cfg.bucket, order, now);
    JobIsIssued(cfg, f, job, order, now);
    var s := After(cfg, Issue(job, order, now));
    RunsTask(cfg, s, m, c);
    Succeeds(cfg, Handled(cfg, s, c, 3), m, c);
    HandledOn(cfg, s, c, 3, 4);
    AfterRepeated(cfg, f, Issue(job, order, now), c, 7);
  }

  lemma FailsForStray(cfg: Config, s: System, m: Message, c: Choice)
    requires s.pc.Idle? && s.queue == [First(m)] && m.Malformed? && m.contract == map[]
    requires ExitCodeKey in Document(s.redis, m.job)
    ensures var d := Document(Handled(cfg, s, c, 2).redis, m.job);
            HasStatus(d, Failed) && ExitCodeKey in d
  {
    hide Merge, HasStatus;
    var updates := FailedUpdates(m.contract, m.error);
    var a := ReceiveStep(s);
    assert Handled(cfg, s, c, 1) == a;
    MergeStatus(Document(s.redis, m.job), m.job, Failed, updates, c.settledAt);
    MergeField(Document(s.redis, m.job), m.job, Failed, updates, c.settledAt, ExitCodeKey);
    assert Handled(cfg, s, c, 2) == SettleStep(a, m.job, Failed, updates, false, c.settledAt);
  }

  /** However a job succeeds, a later message that names it and nothing else leaves its document failed
      and holding the result. */
  lemma StrayMessageSpoilsResult(cfg: Config, job: string, order: Order, now: string, c: Choice)
    requires Startable(cfg, job, order) && c.outcome.Success? && c.writable
    ensures Run(cfg, CALM.(strangers := AnySenders), Straying(job, order, now, c))
    ensures HasStatus(Document(After(cfg, Issue(job, order, now) + Repeated(c, 7)).redis, job), Done)
    ensures var d := Document(After(cfg, Straying(job, order, now, c)).redis, job);
            HasStatus(d, Failed) && ExitCodeKey in d && !DocumentFields.Agrees(d)
  {
    StrayIsMalformed(job);
    hide Run, After, Handled, Repeated, View, IsUuid, Issuable, Issue, HasStatus, RequestMessage;
    var f, done, stray := CALM.(strangers := AnySenders), Issue(job, order, now) + Repeated(c, 7), View(Stray(job));
    SucceedsOnce(cfg, f, job, order, now, c);
    AfterOne(cfg, f, done, Foreign(First(stray)));
    var longer := done + [Foreign(First(stray))];
    FailsForStray(cfg, After(cfg, longer), stray, c);
    AfterRepeated(cfg, f, longer, c, 2);
    FailedWithResult(Document(After(cfg, longer + Repeated(c, 2)).redis, job));
  }

  lemma FailedWithResult(d: Object)
    requires HasStatus(d, Failed) && ExitCodeKey in d
    ensures !DocumentFields.Agrees(d)
  {
    StatusTextsDiffer(Done, Failed);
  }

  // ---- The same at one job ----

  const JOB := "00000000-0000-0000-0000-000000000000"
  const ORDER := Order("wordcount", [], [], None)
  const SETUP := Config(1, {"wordcount"}, "bucket")
  const FAILS := Choice(Failure("exit code 1"), true, None, "", "")
  const SUCCEEDS := Choice(Success("", []), true, None, "", "")

  lemma CanStart()
    ensures Startable(SETUP, JOB, ORDER)
  {
    assert '\0' !in "wordcount";
  }

  /** One retry allowed: fail once recorded and once not, or succeed and receive a stray message. */
  lemma ConcreteRuns()
    ensures var s := After(SETUP, FailingTwice(JOB, ORDER, "", FAILS, FAILS.(writable := false)));
            JOB in s.dlq && IsTerminal(s.redis, JOB) && |s.dlq| > |Backlog.Pending(s)|
    ensures !DocumentFields.Agrees(Document(After(SETUP, Straying(JOB, ORDER, "", SUCCEEDS)).redis, JOB))
  {
    CanStart();
    hide After, Run, FailingTwice, Straying, Startable, IsTerminal, DocumentFields.Agrees, Backlog.Pending, Document;
    UnrecordedFailureStrandsEntry(SETUP, JOB, ORDER, "", FAILS, FAILS.(writable := false));
    StrayMessageSpoilsResult(SETUP, JOB, ORDER, "", SUCCEEDS);
  }
}
