/** The log is the history: it holds exactly what an observer sees who compares the state before and
    after each step and never reads the log. */
module History {
  import opened Json
  import opened Strings
  import opened StatusDocument
  import opened JobRequests
  import opened Protocol
  import TaskDlq

  /** The job of the message in hand. */
  function HandJob(s: System): string {
    if s.queue == [] then "" else JobOf(s.queue[0])
  }

  /** The handler wrote a status. */
  predicate Closed(s: System, t: System) {
    || (s.pc.Begin? && t.pc.Execute?)
    || (s.pc.Settle? && (t.pc.Sweep? || t.pc.Return?))
  }

  /** A service stored the document of a fresh job. */
  predicate Stored(s: System, t: System, job: string) {
    job !in s.requests && job in t.requests
  }

  function WrittenJob(s: System, l: Label): string {
    if l.ApiWrite? then l.job else HandJob(s)
  }

  predicate Wrote(s: System, t: System, l: Label) {
    if l.ApiWrite? then Stored(s, t, l.job) else Closed(s, t)
  }

  /** The log with what one step shows added: the queue grew by a message under a new ID, a document was
      written, a retry left, a task began, a failure was counted, a job ran out of retries, the queue lost
      its head, the handler stopped with the message still queued. */
  function Noticed(log: Log, s: System, t: System, l: Label): Log {
    var job := HandJob(s);
    Log(if |t.queue| > |s.queue| && t.dedup != s.dedup then log.accepted + [t.queue[|t.queue| - 1]] else log.accepted,
        if Wrote(s, t, l) then log.writes + [Write(WrittenJob(s, l), Document(t.redis, WrittenJob(s, l)))]
        else log.writes,
        if s.pc.Publish? && t.pc.Settle? then log.retries + [Retry(job, s.pc.tryCount)] else log.retries,
        if s.pc.Guard? && t.pc.Begin? then log.attempts + [job] else log.attempts,
        if s.pc.Record? && (t.pc.Publish? || t.pc.Unlink?) then log.failures + [job] else log.failures,
        if s.pc.Record? && t.pc.Unlink? then log.exhausted + [job] else log.exhausted,
        if |t.queue| < |s.queue| then log.completed + [s.queue[0]] else log.completed,
        if !s.pc.Idle? && t.pc.Idle? && s.queue != [] && |t.queue| == |s.queue| then log.crashed + [s.queue[0]]
        else log.crashed)
  }

  ghost function Seen(cfg: Config, ls: seq<Label>): Log {
    if ls == [] then Log([], [], [], [], [], [], [], [])
    else
      var front := ls[..|ls| - 1];
      Noticed(Seen(cfg, front), After(cfg, front), After(cfg, ls), ls[|ls| - 1])
  }

  lemma GuardIsNoticed(cfg: Config, s: System, m: Message, c: Choice)
    requires s.queue != [] && s.queue[0].message == m && m.Request? && s.pc.Guard?
    ensures GuardStep(cfg, s, m).log == Noticed(s.log, s, GuardStep(cfg, s, m), Handler(c))
  {
    hide IsTerminal, FailedUpdates, NotRegistered, Document;
    if IsTerminal(s.redis, m.job) {
    } else if m.taskName !in cfg.tasks {
    }
  }

  lemma BeginIsNoticed(s: System, m: Message, c: Choice)
    requires s.queue != [] && s.queue[0].message == m && m.Request? && s.pc.Begin?
    ensures BeginStep(s, m, c.startedAt).log == Noticed(s.log, s, BeginStep(s, m, c.startedAt), Handler(c))
  {
    hide Merge;
  }

  lemma RecordIsNoticed(cfg: Config, s: System, m: Message, c: Choice)
    requires s.queue != [] && s.queue[0].message == m && m.Request? && s.pc.Record?
    ensures var t := RecordStep(cfg, s, m, s.pc.reason, c.writable); t.log == Noticed(s.log, s, t, Handler(c))
  {
    hide TaskDlq.NextCount, TaskDlq.CanRetry, RetryUpdates, FailedUpdates, FileCount;
  }

  lemma PublishIsNoticed(s: System, m: Message, c: Choice)
    requires s.queue != [] && s.queue[0].message == m && m.Request? && s.pc.Publish?
    ensures var t := PublishStep(s, m, s.pc.reason, s.pc.tryCount, c.sendError);
            t.log == Noticed(s.log, s, t, Handler(c))
  {
    hide RetryUpdates, RepublishFailed, Document;
    hide RetryId;
    if c.sendError.Some? {
    } else if Retried(m, s.pc.tryCount).id in s.dedup {
    }
  }

  lemma TryIsNoticed(cfg: Config, s: System, m: Message, c: Choice)
    requires s.queue != [] && s.queue[0].message == m && m.Request?
    ensures Try(cfg, s, m, c).log == Noticed(s.log, s, Try(cfg, s, m, c), Handler(c))
  {
    hide GuardStep, BeginStep, RecordStep, PublishStep, DoneUpdates;
    if s.pc.Guard? {
      GuardIsNoticed(cfg, s, m, c);
      hide Noticed;
    } else if s.pc.Begin? {
      BeginIsNoticed(s, m, c);
      hide Noticed;
    } else if s.pc.Record? {
      RecordIsNoticed(cfg, s, m, c);
      hide Noticed;
    } else if s.pc.Publish? {
      PublishIsNoticed(s, m, c);
      hide Noticed;
    } else {
      assert Try(cfg, s, m, c).log == s.log;
    }
  }

  lemma SettleIsNoticed(s: System, c: Choice)
    requires s.queue != [] && s.pc.Settle?
    ensures var t := SettleStep(s, JobOf(s.queue[0]), s.pc.status, s.pc.updates, s.pc.sweep, c.settledAt);
            t.log == Noticed(s.log, s, t, Handler(c))
  {
    hide Merge;
  }

  lemma WorkIsNoticed(cfg: Config, s: System, c: Choice)
    requires s.queue != []
    ensures Work(cfg, s, c).log == Noticed(s.log, s, Work(cfg, s, c), Handler(c))
  {
    hide Try, SettleStep, FailedUpdates, Document;
    if s.pc.Settle? {
      SettleIsNoticed(s, c);
      hide Noticed;
    } else if s.pc.Idle? || s.pc.Unlink? || s.pc.Sweep? || s.pc.Return? {
    } else if s.queue[0].message.Request? {
      TryIsNoticed(cfg, s, s.queue[0].message, c);
      hide Noticed;
    }
  }

  lemma StoringIsNoticed(cfg: Config, s: System, l: Label)
    requires l.ApiWrite?
    ensures Do(cfg, s, l).log == Noticed(s.log, s, Do(cfg, s, l), l)
  {
    hide QueuedDocument, Issued, Issuable, IsUuid;
  }

  lemma SendIsNoticed(s: System, e: Envelope, l: Label)
    requires !l.ApiWrite?
    ensures Send(s, e).log == Noticed(s.log, s, Send(s, e), l)
  {
    hide Document;
    if e.id in s.dedup {
    } else {
      assert e.id in Send(s, e).dedup;
    }
  }

  lemma StepIsNoticed(cfg: Config, s: System, l: Label)
    ensures Do(cfg, s, l).log == Noticed(s.log, s, Do(cfg, s, l), l)
  {
    hide Work, ApiWriteStep, Send, Issuable, IsUuid, Plausible, Document;
    if l.Handler? {
      if s.queue != [] { WorkIsNoticed(cfg, s, l.choice); }
    } else if l.ApiWrite? {
      StoringIsNoticed(cfg, s, l);
    } else if l.ApiPublish? {
      if l.job in s.requests { SendIsNoticed(s, First(s.requests[l.job]), l); }
    } else if l.Foreign? {
      SendIsNoticed(s, l.e, l);
    }
  }

  /** After any steps at all, the log is what was seen. */
  lemma {:induction false} LogIsHistory(cfg: Config, ls: seq<Label>)
    ensures After(cfg, ls).log == Seen(cfg, ls)
  {
    if ls != [] {
      var front := ls[..|ls| - 1];
      LogIsHistory(cfg, front);
      StepIsNoticed(cfg, After(cfg, front), ls[|ls| - 1]);
      hide Do, Noticed;
    }
  }

  // ---- Every stored document is in the log ----

  predicate Recorded(writes: seq<Write>, redis: Store) {
    forall job :: job in redis && IsObject(redis[job]) ==> Write(job, redis[job].value.fields) in writes
  }

  /** A step writes a status through the log, or leaves the documents alone. */
  ghost predicate WritesAlike(s: System, t: System) {
    || (t.redis == s.redis && t.log.writes == s.log.writes)
    || exists w: Write :: t.redis == s.redis[w.job := Parsed(Obj(w.document))] && t.log.writes == s.log.writes + [w]
  }

  lemma SetStatusWrites(s: System, t: System, job: string, status: Status, updates: Object, now: string)
    requires var u := SetStatus(s, job, status, updates, now); t.redis == u.redis && t.log.writes == u.log.writes
    ensures WritesAlike(s, t)
  {
    hide Merge;
    var w := Write(job, Merge(Document(s.redis, job), job, status, updates, now));
    assert t.redis == s.redis[w.job := Parsed(Obj(w.document))];
  }

  lemma TryWrites(cfg: Config, s: System, m: Message, c: Choice)
    requires m.Request?
    ensures WritesAlike(s, Try(cfg, s, m, c))
  {
    hide SetStatus, TaskDlq.NextCount, TaskDlq.CanRetry, IsTerminal, RetryUpdates, FailedUpdates, DoneUpdates, Send;
    if s.pc.Begin? {
      SetStatusWrites(s, Try(cfg, s, m, c), m.job, Running, m.contract, c.startedAt);
      hide WritesAlike;
    } else if s.pc.Publish? {
      PublishWritesNothing(s, m, c);
    }
  }

  lemma PublishWritesNothing(s: System, m: Message, c: Choice)
    requires m.Request? && s.pc.Publish?
    ensures var t := PublishStep(s, m, s.pc.reason, s.pc.tryCount, c.sendError);
            t.redis == s.redis && t.log.writes == s.log.writes
  {}

  lemma WorkWrites(cfg: Config, s: System, c: Choice)
    requires s.queue != []
    ensures WritesAlike(s, Work(cfg, s, c))
  {
    hide Try, SetStatus;
    if s.pc.Settle? {
      SetStatusWrites(s, Work(cfg, s, c), JobOf(s.queue[0]), s.pc.status, s.pc.updates, c.settledAt);
      hide WritesAlike;
    } else if s.queue[0].message.Request? {
      TryWrites(cfg, s, s.queue[0].message, c);
    }
  }

  lemma AlikeRecords(s: System, t: System)
    requires WritesAlike(s, t) && Recorded(s.log.writes, s.redis)
    ensures Recorded(t.log.writes, t.redis) && s.log.writes <= t.log.writes
  {}

  lemma StepRecords(cfg: Config, s: System, l: Label)
    requires Recorded(s.log.writes, s.redis)
    ensures Recorded(Do(cfg, s, l).log.writes, Do(cfg, s, l).redis) && s.log.writes <= Do(cfg, s, l).log.writes
  {
    hide Work, QueuedDocument, Issued;
    var t := Do(cfg, s, l);
    if l.Handler? && s.queue != [] {
      WorkWrites(cfg, s, l.choice);
      AlikeRecords(s, t);
    } else if l.ApiWrite? && Enabled(s, l) {
      var w := Write(l.job, QueuedDocument(l.job, l.order.taskName, l.now));
      assert t.redis == s.redis[w.job := Parsed(Obj(w.document))];
      AlikeRecords(s, t);
    } else {
      assert t.log.writes == s.log.writes;
    }
  }

  lemma {:induction false} StoredIsRecorded(cfg: Config, ls: seq<Label>)
    ensures Recorded(After(cfg, ls).log.writes, After(cfg, ls).redis)
  {
    if ls != [] {
      StoredIsRecorded(cfg, ls[..|ls| - 1]);
      StepRecords(cfg, After(cfg, ls[..|ls| - 1]), ls[|ls| - 1]);
      hide Do, Recorded;
    }
  }

  /** A document that is stored at any time of a run stays in the log of what was written. */
  lemma {:induction false} EveryDocumentIsLogged(cfg: Config, ls: seq<Label>, k: nat, job: string)
    requires k <= |ls|
    ensures var redis := After(cfg, ls[..k]).redis; job in redis && IsObject(redis[job]) ==>
              Write(job, redis[job].value.fields) in After(cfg, ls).log.writes
    decreases |ls|
  {
    hide Do;
    StoredIsRecorded(cfg, ls[..k]);
    if k == |ls| {
      assert ls[..k] == ls;
    } else {
      var front := ls[..|ls| - 1];
      assert front[..k] == ls[..k];
      EveryDocumentIsLogged(cfg, front, k, job);
      StoredIsRecorded(cfg, front);
      StepRecords(cfg, After(cfg, front), ls[|ls| - 1]);
      hide Recorded;
    }
  }

  // ---- What the environment can do ----

  /** Each fault, whenever its condition holds, does what its name says. */
  lemma FaultsMean(cfg: Config, s: System, l: Label)
    ensures var t := Do(cfg, s, l);
            match l
            case DropDocument(job) => job !in t.redis
            case DamageDocument(job) => job in s.redis ==> job in t.redis && !IsObject(t.redis[job])
            case DropFile(job) => job !in t.dlq
            case DamageFile(job) => job in s.dlq ==> job in t.dlq && FileCount(t.dlq, job) == 0
            case Forget(id) => id !in t.dedup
            case Redeliver(e, at) =>
              e in s.log.accepted && at <= |s.queue| && (s.pc.Idle? || at > 0) ==>
                && multiset(t.queue) == multiset(s.queue) + multiset{e} && t.queue[at] == e
                && (!s.pc.Idle? && s.queue != [] ==> t.queue[0] == s.queue[0])
            case Foreign(e) =>
              Plausible(e.message) && e.id !in s.dedup ==> t.queue == s.queue + [e] && e.id in t.dedup
            case Crash =>
              t.redis == s.redis && t.dlq == s.dlq && t.queue == s.queue && t.dedup == s.dedup
              && (s.queue != [] ==> t.pc.Idle?)
            case ApiPublish(job) =>
              job in s.requests && Content(s.requests[job]) !in s.dedup ==>
                exists e :: t.queue == s.queue + [e] && e.message == s.requests[job]
            case _ => true
  {
    hide Work, ApiWriteStep, Plausible;
    if l.Redeliver? && Enabled(s, l) {
      assert s.queue == s.queue[..l.at] + s.queue[l.at..];
    } else if l.ApiPublish? && Enabled(s, l) {
      var e := First(s.requests[l.job]);
      assert e.id !in s.dedup ==> Do(cfg, s, l).queue == s.queue + [e];
    }
  }

  /** An environment with every fault may take any step, short of a crash that could overflow a count. */
  lemma AnythingIsAllowed(cfg: Config, s: System, l: Label)
    ensures Allowed(cfg, Faults(true, true, true, true, true, true, true, AnySenders), s, l)
            <==> (l.Crash? ==> cfg.maxRetries + |s.log.crashed| + 1 < 2147483647)
  {}
}
