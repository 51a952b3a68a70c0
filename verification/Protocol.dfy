/**
  * The job lifecycle as a transition system: services that issue jobs, a FIFO queue that drops
  * repeated deduplication IDs, one serial worker whose handler is split at every visible effect,
  * and the faults of its environment. The message in hand stays at the head of the queue until the
  * handler returns.
  */
module Protocol {
  import opened Json
  import opened Strings
  import opened StatusDocument
  import opened JobRequests
  import TaskDlq

  /** A queue message as the worker sees it: not a JSON object or without a usable job ID, failing
      validation under a usable job ID, or a valid request. `body` is the message less its count. */
  datatype Message =
    | Noise
    | Malformed(job: string, contract: Object, error: string)
    | Request(job: string, taskName: string, contract: Object, body: Object, tryCount: Int32)

  /** Services publish under the hash of the body, the worker under an explicit ID. */
  datatype DedupId = Content(message: Message) | Explicit(id: string)

  datatype Envelope = Envelope(id: DedupId, message: Message)

  /** A DLQ entry as the worker reads it. */
  datatype File = Unreadable | Counting(tryCount: Int32)

  datatype Config = Config(maxRetries: nat, tasks: set<string>, bucket: string)

  /** Where the handler stands: the next effect it will make. */
  datatype Pc =
    | Idle
    | Guard                                                  // read the status
    | Begin                                                  // write "running"
    | Execute                                                // download, execute, upload
    | Record(reason: string)                                 // record the failure in the DLQ
    | Publish(reason: string, tryCount: Int32)               // republish the message
    | Unlink(updates: Object)                                // remove the DLQ entry, then fail the job
    | Settle(status: Status, updates: Object, sweep: bool)   // write the closing status
    | Sweep                                                  // remove the DLQ entry, then return
    | Return                                                 // return; the message is deleted

  datatype Retry = Retry(job: string, tryCount: int)
  datatype Write = Write(job: string, document: Object)

  /** What happened so far; no step reads it. */
  datatype Log = Log(accepted: seq<Envelope>, writes: seq<Write>, retries: seq<Retry>, attempts: seq<string>,
                     failures: seq<string>, exhausted: seq<string>, completed: seq<Envelope>,
                     crashed: seq<Envelope>)

  datatype System = System(redis: Store, queue: seq<Envelope>, dedup: set<DedupId>, dlq: map<string, File>, pc: Pc,
                           requests: map<string, Message>, log: Log)

  const Initial := System(map[], [], {}, map[], Idle, map[], Log([], [], [], [], [], [], [], []))

  function JobOf(e: Envelope): string {
    if e.message.Noise? then "" else e.message.job
  }

  function CountOf(e: Envelope): Int32 {
    if e.message.Request? then e.message.tryCount else 0
  }

  function FileCount(dlq: map<string, File>, job: string): Int32 {
    if job in dlq && dlq[job].Counting? then dlq[job].tryCount else 0
  }

  predicate Busy(s: System) {
    !s.pc.Idle? && s.queue != []
  }

  // ---- The handler ----

  datatype Outcome = Success(tail: string, results: seq<Json>) | Failure(reason: string)

  /** What the environment decides during one handler run. */
  datatype Choice = Choice(outcome: Outcome, writable: bool, sendError: Option<string>, startedAt: string,
                           settledAt: string)

  function NotRegistered(name: string): string {
    "task [" + name + "] is not registered in the whitelist"
  }

  function RepublishFailed(reason: string, error: string): string {
    reason + " (republish failed: " + error + ")"
  }

  function Retried(m: Message, n: Int32): Envelope
    requires m.Request?
  {
    Envelope(Explicit(RetryId(m.job, n)), m.(tryCount := n))
  }

  function First(m: Message): Envelope {
    Envelope(Content(m), m)
  }

  /** Publishing succeeds either way; a known deduplication ID is silently dropped. */
  function Send(s: System, e: Envelope): System {
    if e.id in s.dedup then s
    else s.(queue := s.queue + [e], dedup := s.dedup + {e.id}, log := s.log.(accepted := s.log.accepted + [e]))
  }

  function SetStatus(s: System, job: string, status: Status, updates: Object, now: string): System {
    var document := Merge(Document(s.redis, job), job, status, updates, now);
    s.(redis := s.redis[job := Parsed(Obj(document))],
       log := s.log.(writes := s.log.writes + [Write(job, document)]))
  }

  function Receive(m: Message): Pc {
    match m
    case Noise => Return
    case Malformed(_, contract, error) => Settle(Failed, FailedUpdates(contract, error), false)
    case Request(_, _, _, _, _) => Guard
  }

  function ReceiveStep(s: System): System
    requires s.queue != []
  {
    s.(pc := Receive(s.queue[0].message))
  }

  function GuardStep(cfg: Config, s: System, m: Message): System
    requires m.Request?
  {
    if IsTerminal(s.redis, m.job) then s.(pc := Return)
    else if m.taskName !in cfg.tasks then
      s.(pc := Settle(Failed, FailedUpdates(m.contract, NotRegistered(m.taskName)), true))
    else s.(pc := Begin, log := s.log.(attempts := s.log.attempts + [m.job]))
  }

  function BeginStep(s: System, m: Message, now: string): System
    requires m.Request?
  {
    SetStatus(s, m.job, Running, m.contract, now).(pc := Execute)
  }

  function ExecuteStep(s: System, m: Message, outcome: Outcome): System
    requires m.Request?
  {
    match outcome
    case Success(tail, results) => s.(pc := Settle(Done, DoneUpdates(m.contract, tail, results), true))
    case Failure(reason) => s.(pc := Record(reason))
  }

  function RecordStep(cfg: Config, s: System, m: Message, reason: string, writable: bool): System
    requires m.Request?
  {
    if !writable then s.(pc := Settle(Failed, FailedUpdates(m.contract, reason), false))
    else
      var n := TaskDlq.NextCount(m.tryCount, FileCount(s.dlq, m.job));
      var t := s.(dlq := s.dlq[m.job := Counting(n)], log := s.log.(failures := s.log.failures + [m.job]));
      if TaskDlq.CanRetry(n, cfg.maxRetries) then t.(pc := Publish(reason, n))
      else t.(pc := Unlink(RetryUpdates(m.contract, reason, n)),
              log := t.log.(exhausted := t.log.exhausted + [m.job]))
  }

  function PublishStep(s: System, m: Message, reason: string, n: Int32, sendError: Option<string>): System
    requires m.Request?
  {
    if sendError.Some? then s.(pc := Unlink(RetryUpdates(m.contract, RepublishFailed(reason, sendError.value), n)))
    else
      var t := Send(s, Retried(m, n));
      t.(pc := Settle(Queued, RetryUpdates(m.contract, reason, n), false),
         log := t.log.(retries := t.log.retries + [Retry(m.job, n)]))
  }

  function UnlinkStep(s: System, job: string, updates: Object): System {
    s.(dlq := s.dlq - {job}, pc := Settle(Failed, updates, false))
  }

  function SettleStep(s: System, job: string, status: Status, updates: Object, sweep: bool, now: string): System {
    SetStatus(s, job, status, updates, now).(pc := if sweep then Sweep else Return)
  }

  function SweepStep(s: System, job: string): System {
    s.(dlq := s.dlq - {job}, pc := Return)
  }

  function ReturnStep(s: System): System
    requires s.queue != []
  {
    s.(queue := s.queue[1..], pc := Idle, log := s.log.(completed := s.log.completed + [s.queue[0]]))
  }

  /** The next effect of the handler. */
  function Work(cfg: Config, s: System, choice: Choice): System
    requires s.queue != []
  {
    var m, job := s.queue[0].message, JobOf(s.queue[0]);
    match s.pc
    case Idle => ReceiveStep(s)
    case Unlink(updates) => UnlinkStep(s, job, updates)
    case Settle(status, updates, sweep) => SettleStep(s, job, status, updates, sweep, choice.settledAt)
    case Sweep => SweepStep(s, job)
    case Return => ReturnStep(s)
    case _ => if m.Request? then Try(cfg, s, m, choice) else s
  }

  /** The effects made only for a valid request. */
  function Try(cfg: Config, s: System, m: Message, choice: Choice): System
    requires m.Request?
  {
    match s.pc
    case Guard => GuardStep(cfg, s, m)
    case Begin => BeginStep(s, m, choice.startedAt)
    case Execute => ExecuteStep(s, m, choice.outcome)
    case Record(reason) => RecordStep(cfg, s, m, reason, choice.writable)
    case Publish(reason, n) => PublishStep(s, m, reason, n, choice.sendError)
    case _ => s
  }

  // ---- All steps ----

  datatype Label =
    | Handler(choice: Choice)
    | ApiWrite(job: string, order: Order, now: string)   // a service stores the queued document of a fresh job
    | ApiPublish(job: string)                            // a service publishes, or its client resends, the message
    | Crash
    | DropFile(job: string)
    | DamageFile(job: string)
    | DropDocument(job: string)
    | DamageDocument(job: string)
    | Forget(id: DedupId)                                // the deduplication window passes
    | Redeliver(e: Envelope, at: nat)                    // an accepted message is delivered again
    | Foreign(e: Envelope)                               // someone else publishes

  /** The message a service builds for an order, as the worker sees it. */
  function Issued(job: string, bucket: string, order: Order, now: string): Message {
    Request(job, CStr(order.taskName), map[TaskNameKey := Str(order.taskName), EnqueuedAtKey := Str(now)],
            RequestMessage(job, bucket, order, now), 0)
  }

  ghost predicate Issuable(order: Order) {
    Acceptable(order) && (order.timeoutSec.Some? ==> order.timeoutSec.value.Int?)
  }

  ghost predicate Enabled(s: System, l: Label) {
    match l
    case Handler(_) => s.queue != []
    case ApiWrite(job, order, _) => IsUuid(job) && job !in s.requests && Issuable(order)
    case ApiPublish(job) => job in s.requests
    case Crash => Busy(s)
    case DropFile(job) => job in s.dlq
    case DamageFile(job) => job in s.dlq
    case DropDocument(job) => job in s.redis
    case DamageDocument(job) => job in s.redis
    case Forget(_) => true
    case Redeliver(e, at) => e in s.log.accepted && at <= |s.queue| && (Busy(s) ==> at > 0)
    case Foreign(e) => Plausible(e.message)
  }

  /** Contract fields are only ever the two the worker restores, and only as strings. */
  predicate Plausible(m: Message) {
    !m.Noise? ==> m.contract.Keys <= {TaskNameKey, EnqueuedAtKey} && forall k :: k in m.contract ==> m.contract[k].Str?
  }

  ghost function ApiWriteStep(cfg: Config, s: System, job: string, order: Order, now: string): System {
    s.(redis := s.redis[job := Parsed(Obj(QueuedDocument(job, order.taskName, now)))],
       requests := s.requests[job := Issued(job, cfg.bucket, order, now)],
       log := s.log.(writes := s.log.writes + [Write(job, QueuedDocument(job, order.taskName, now))]))
  }

  /** One step; a label that is not enabled leaves the system as it is. */
  ghost function Do(cfg: Config, s: System, l: Label): System {
    if !Enabled(s, l) then s
    else
      match l
      case Handler(choice) => Work(cfg, s, choice)
      case ApiWrite(job, order, now) => ApiWriteStep(cfg, s, job, order, now)
      case ApiPublish(job) => Send(s, First(s.requests[job]))
      case Crash => s.(pc := Idle, log := s.log.(crashed := s.log.crashed + [s.queue[0]]))
      case DropFile(job) => s.(dlq := s.dlq - {job})
      case DamageFile(job) => s.(dlq := s.dlq[job := Unreadable])
      case DropDocument(job) => s.(redis := s.redis - {job})
      case DamageDocument(job) => s.(redis := s.redis[job := Garbage])
      case Forget(id) => s.(dedup := s.dedup - {id})
      case Redeliver(e, at) => s.(queue := s.queue[..at] + [e] + s.queue[at..])
      case Foreign(e) => Send(s, e)
  }

  // ---- Runs under an environment ----

  datatype Strangers = Nobody | ValidSenders | AnySenders

  /** The faults an environment may show. */
  datatype Faults = Faults(crashes: bool, fileLoss: bool, documentLoss: bool, terminalLoss: bool, redelivery: bool,
                           forgetting: bool, unwritable: bool, strangers: Strangers)

  /** Crashes are bounded so that no retry count can pass the largest `int`. */
  predicate Allowed(cfg: Config, f: Faults, s: System, l: Label) {
    match l
    case Handler(choice) => f.unwritable || choice.writable
    case ApiWrite(_, _, _) => true
    case ApiPublish(_) => true
    case Crash => f.crashes && cfg.maxRetries + |s.log.crashed| + 1 < INT32_MAX
    case DropFile(_) => f.fileLoss
    case DamageFile(_) => f.fileLoss
    case DropDocument(job) => f.documentLoss && (f.terminalLoss || !IsTerminal(s.redis, job))
    case DamageDocument(job) => f.documentLoss && (f.terminalLoss || !IsTerminal(s.redis, job))
    case Forget(_) => f.forgetting
    case Redeliver(_, _) => f.redelivery
    case Foreign(e) => f.strangers.AnySenders? || (f.strangers.ValidSenders? && e.message.Request?)
  }

  predicate ConfigOk(cfg: Config) {
    cfg.maxRetries < INT32_MAX && cfg.bucket != ""
  }

  ghost function After(cfg: Config, ls: seq<Label>): System {
    if ls == [] then Initial else Do(cfg, After(cfg, ls[..|ls| - 1]), ls[|ls| - 1])
  }

  ghost predicate Run(cfg: Config, f: Faults, ls: seq<Label>) {
    ls == [] || (Run(cfg, f, ls[..|ls| - 1]) && Allowed(cfg, f, After(cfg, ls[..|ls| - 1]), ls[|ls| - 1]))
  }
}
