/** The worker's message handler, and its refinement of the protocol. */
module TaskForgeWorker {
  import opened Json
  import opened Strings
  import opened StatusDocument
  import opened MessageValidation
  import opened JobRequests
  import opened Protocol
  import opened Messages
  import opened Handling
  import opened StdoutTail
  import opened Transfers
  import Backoff
  import TaskDlq

  // ---- The queue ----

  datatype Delivery = Delivery(id: DedupId, body: Payload)

  function EnvelopeOf(d: Delivery): Envelope {
    Envelope(d.id, View(d.body))
  }

  function Envelopes(ds: seq<Delivery>): (es: seq<Envelope>)
    ensures |es| == |ds| && forall i :: 0 <= i < |ds| ==> es[i] == EnvelopeOf(ds[i])
  {
    if ds == [] then [] else Envelopes(ds[..|ds| - 1]) + [EnvelopeOf(ds[|ds| - 1])]
  }

  lemma EnvelopesAppend(ds: seq<Delivery>, d: Delivery)
    ensures Envelopes(ds + [d]) == Envelopes(ds) + [EnvelopeOf(d)]
  {
    assert (ds + [d])[..|ds|] == ds;
  }

  /** A FIFO queue that accepts a deduplication ID once. */
  class FifoQueue {
    var deliveries: seq<Delivery>
    var seen: set<DedupId>

    constructor ()
      ensures deliveries == [] && seen == {}
    {
      deliveries, seen := [], {};
    }

    method Send(d: Delivery, error: Option<string>) returns (r: Result<()>)
      modifies this
      ensures error.Some? ==> r == Err(error.value) && deliveries == old(deliveries) && seen == old(seen)
      ensures error.None? ==> r == Ok(()) && seen == old(seen) + {d.id}
                              && deliveries == old(deliveries) + (if d.id in old(seen) then [] else [d])
    {
      if error.Some? { return Err(error.value); }
      if d.id !in seen {
        deliveries, seen := deliveries + [d], seen + {d.id};
      }
      r := Ok(());
    }

    method DeleteHead()
      requires deliveries != []
      modifies this`deliveries
      ensures deliveries == old(deliveries)[1..]
    {
      deliveries := deliveries[1..];
    }
  }

  // ---- DLQ entries as the protocol sees them ----

  function FileOf(p: Payload): File {
    if IsObject(p) && TryCountKey in p.value.fields && p.value.fields[TryCountKey].Int?
    then Counting(ToInt32(p.value.fields[TryCountKey].n)) else Unreadable
  }

  function FilesOf(entries: TaskDlq.Entries): (files: map<string, File>)
    ensures forall job :: FileCount(files, job) == TaskDlq.FileCount(entries, job)
  {
    map job | job in entries :: FileOf(entries[job])
  }

  lemma FilesAfterRecord(entries: TaskDlq.Entries, job: string, n: Int32, reason: string, request: string)
    ensures FilesOf(entries[job := TaskDlq.Entry(job, n, reason, request)]) == FilesOf(entries)[job := Counting(n)]
  {}

  lemma FilesAfterRemove(entries: TaskDlq.Entries, job: string)
    ensures FilesOf(entries - {job}) == FilesOf(entries) - {job}
  {}

  // ---- The environment of one handler run ----

  /** An exit code, and the captured standard output if its file can be opened. */
  datatype Execution = Execution(exitCode: int, stdout: Option<seq<Byte>>)

  /** `request` is the text of the message, `execute` runs a task by its name, arguments and timeout, and
      `text` is how bytes of a C++ string read as JSON text. */
  datatype World = World(request: string, storage: Storage, execute: (string, seq<string>, Int32) -> Result<Execution>,
                         text: seq<Byte> -> string, outputs: Result<seq<DirectoryEntry>>, writable: bool, draw: nat,
                         sendError: Option<string>, startedAt: string, settledAt: string)

  function Executed(job: Job, world: World): Result<Execution> {
    world.execute(job.taskName, job.arguments, job.timeoutSec)
  }

  /** The tail that is reported: the aligned last bytes of the output, nothing if there is no file. */
  function ReportedTail(world: World, stdout: Option<seq<Byte>>): string {
    world.text(if stdout.None? then [] else TailOf(stdout.value))
  }

  function ExitedWith(taskName: string, exitCode: int, tail: string): string {
    "task [" + taskName + "] exited with code " + FormatInt(exitCode) + ": " + tail
  }

  /** What running a task comes to in a world. */
  function TaskOutcome(job: Job, world: World): Outcome {
    var missing := FirstMissing(world.storage, job.downloads, 0);
    var executed := Executed(job, world);
    if missing < |job.downloads| then
      Failure(CannotDownload(job.downloads[missing].key, LastError(world.storage, missing, job.downloads[missing])))
    else if executed.Err? then Failure(executed.error)
    else if executed.value.exitCode != 0 then
      Failure(ExitedWith(job.taskName, executed.value.exitCode, ReportedTail(world, executed.value.stdout)))
    else if world.outputs.Err? then Failure("cannot iterate outputs directory: " + world.outputs.error)
    else
      var results := Results(world.storage, job.outputPrefix, Regulars(world.outputs.value));
      if results.Err? then Failure(results.error)
      else Success(ReportedTail(world, executed.value.stdout), results.value)
  }

  // ---- What that means ----

  predicate AllFetchable(job: Job, world: World) {
    AllFetched(world.storage, job.downloads, |job.downloads|)
  }

  /** A file can be uploaded under the job's prefix and linked to. */
  predicate Publishable(job: Job, world: World, filename: string) {
    world.storage.upload(job.outputPrefix + filename).Ok? && world.storage.presign(job.outputPrefix + filename).Ok?
  }

  /** Every input is fetched, the task exits with 0, and every regular output is published. */
  ghost predicate Succeeds(job: Job, world: World) {
    && AllFetchable(job, world)
    && var executed := world.execute(job.taskName, job.arguments, job.timeoutSec);
    && executed.Ok? && executed.value.exitCode == 0
    && world.outputs.Ok?
    && forall f :: DirectoryEntry(f, true) in world.outputs.value ==> Publishable(job, world, f)
  }

  /** The tail is the text of the aligned last bytes, and the results link the published files in order. */
  ghost predicate Yields(job: Job, world: World, tail: string, results: seq<Json>)
    requires Succeeds(job, world)
  {
    var executed := world.execute(job.taskName, job.arguments, job.timeoutSec).value;
    var files := Regulars(world.outputs.value);
    && tail == world.text(if executed.stdout.None? then [] else TailOf(executed.stdout.value))
    && AllLinked(job, world, files, results)
  }

  /** One result per file, in order: its name and a link to its prefixed key. */
  ghost predicate AllLinked(job: Job, world: World, files: seq<string>, results: seq<Json>) {
    && |results| == |files|
    && forall i :: 0 <= i < |files| ==>
                     var url := world.storage.presign(job.outputPrefix + files[i]);
                     url.Ok? && results[i] == Obj(map[OtherKey("filename") := Str(files[i]),
                                                      OtherKey("download_url") := Str(url.value),
                                                      MethodKey := Str("GET")])
  }

  /** The first input that cannot be fetched is to blame. */
  ghost predicate BlamesInput(job: Job, world: World, reason: string) {
    exists i :: 0 <= i < |job.downloads| && !Fetchable(world.storage, i, job.downloads[i])
                && AllFetched(world.storage, job.downloads, i)
                && reason == "cannot download s3 object [" + job.downloads[i].key + "]: "
                             + LastError(world.storage, i, job.downloads[i])
  }

  /** The first output that cannot be uploaded or linked to is to blame. */
  ghost predicate BlamesOutput(job: Job, world: World, files: seq<string>, reason: string) {
    exists i :: 0 <= i < |files| && (forall k :: 0 <= k < i ==> Publishable(job, world, files[k]))
                && var key := job.outputPrefix + files[i];
                   var uploaded, url := world.storage.upload(key), world.storage.presign(key);
                   if uploaded.Err? then reason == "cannot upload output [" + files[i] + "]: " + uploaded.error
                   else url.Err? && reason == "cannot presign output [" + files[i] + "]: " + url.error
  }

  /** The reason names the first thing that went wrong. */
  ghost predicate FailsBecause(job: Job, world: World, reason: string) {
    if !AllFetchable(job, world) then BlamesInput(job, world, reason)
    else
      var executed := world.execute(job.taskName, job.arguments, job.timeoutSec);
      if executed.Err? then reason == executed.error
      else if executed.value.exitCode != 0 then
        reason == "task [" + job.taskName + "] exited with code " + FormatInt(executed.value.exitCode) + ": "
                  + ReportedTail(world, executed.value.stdout)
      else if world.outputs.Err? then reason == "cannot iterate outputs directory: " + world.outputs.error
      else BlamesOutput(job, world, Regulars(world.outputs.value), reason)
  }

  lemma {:induction false} ResultsMean(job: Job, world: World, files: seq<string>)
    ensures var r := Results(world.storage, job.outputPrefix, files);
            && (r.Ok? <==> forall i :: 0 <= i < |files| ==> Publishable(job, world, files[i]))
            && (r.Ok? ==> |r.value| == |files|
                          && forall i :: 0 <= i < |files| ==>
                                           Transfer(world.storage, job.outputPrefix, files[i]) == Ok(r.value[i]))
            && (r.Err? ==> BlamesOutput(job, world, files, r.error))
  {
    if files != [] {
      TransferMeans(world.storage, job.outputPrefix, files[0]);
      ResultsMean(job, world, files[1..]);
      hide Transfer, Publishable;
      var r := Results(world.storage, job.outputPrefix, files);
      var rest := Results(world.storage, job.outputPrefix, files[1..]);
      if Transfer(world.storage, job.outputPrefix, files[0]).Err? {
        FirstIsPublishable(job, world, files[0]);
        assert BlamesOutput(job, world, files, r.error);
      } else {
        FirstIsPublishable(job, world, files[0]);
        if rest.Err? { BlameMoves(job, world, files, rest.error); }
      }
    }
  }

  lemma FirstIsPublishable(job: Job, world: World, filename: string)
    ensures Publishable(job, world, filename) <==> Transfer(world.storage, job.outputPrefix, filename).Ok?
  {
    TransferMeans(world.storage, job.outputPrefix, filename);
    hide Transfer;
  }

  lemma BlameMoves(job: Job, world: World, files: seq<string>, reason: string)
    requires files != [] && Publishable(job, world, files[0]) && BlamesOutput(job, world, files[1..], reason)
    ensures BlamesOutput(job, world, files, reason)
  {
    hide Publishable;
    var rest := files[1..];
    var i :| 0 <= i < |rest| && (forall k :: 0 <= k < i ==> Publishable(job, world, rest[k]))
             && var key := job.outputPrefix + rest[i];
                var uploaded, url := world.storage.upload(key), world.storage.presign(key);
                if uploaded.Err? then reason == "cannot upload output [" + rest[i] + "]: " + uploaded.error
                else url.Err? && reason == "cannot presign output [" + rest[i] + "]: " + url.error;
    assert files[i + 1] == rest[i];
    assert forall k :: 0 < k < i + 1 ==> files[k] == rest[k - 1];
  }

  lemma OutputsMean(job: Job, world: World, entries: seq<DirectoryEntry>)
    ensures var files, r := Regulars(entries), Results(world.storage, job.outputPrefix, Regulars(entries));
            && (r.Ok? <==> forall f :: DirectoryEntry(f, true) in entries ==> Publishable(job, world, f))
            && (if r.Ok? then AllLinked(job, world, files, r.value) else BlamesOutput(job, world, files, r.error))
  {
    hide Results, Regulars, Publishable, BlamesOutput;
    var files := Regulars(entries);
    ResultsMean(job, world, files);
    forall f ensures f in files <==> DirectoryEntry(f, true) in entries {
      RegularsMean(entries, f);
    }
    forall i | 0 <= i < |files|
      ensures Transfer(world.storage, job.outputPrefix, files[i]).Ok? ==>
                var url := world.storage.presign(job.outputPrefix + files[i]);
                url.Ok? && Transfer(world.storage, job.outputPrefix, files[i]).value
                           == Obj(map[OtherKey("filename") := Str(files[i]),
                                      OtherKey("download_url") := Str(url.value),
                                      MethodKey := Str("GET")])
    {
      TransferMeans(world.storage, job.outputPrefix, files[i]);
    }
    hide Transfer;
    if forall f :: DirectoryEntry(f, true) in entries ==> Publishable(job, world, f) {
      assert forall i :: 0 <= i < |files| ==> files[i] in files;
    } else {
      var f :| DirectoryEntry(f, true) in entries && !Publishable(job, world, f);
      var i :| 0 <= i < |files| && files[i] == f;
    }
  }

  /** The outcome is a success exactly if nothing went wrong, and otherwise names what went wrong first. */
  lemma OutcomeMeans(job: Job, world: World)
    ensures TaskOutcome(job, world).Success? <==> Succeeds(job, world)
    ensures var o := TaskOutcome(job, world);
            if o.Success? then Yields(job, world, o.tail, o.results) else FailsBecause(job, world, o.reason)
  {
    hide Fetchable, FirstMissing, LastError, Results, Regulars, Publishable, BlamesOutput, FormatInt, TailOf, AllLinked;
    FirstMissingMeans(world.storage, job.downloads, 0);
    if world.outputs.Ok? { OutputsMean(job, world, world.outputs.value); }
  }

  /** What the environment decides while a message is handled. */
  function ChoiceOf(body: Payload, world: World, writable: bool): Choice {
    var job := ReadJob(Fields(body));
    Choice(if job.Ok? then TaskOutcome(job.value, world) else Failure(""), writable, world.sendError, world.startedAt,
           world.settledAt)
  }

  /** The longer run only adds handler steps under one choice. */
  ghost predicate Extends(run: seq<Label>, longer: seq<Label>, choice: Choice) {
    run <= longer && forall i :: |run| <= i < |longer| ==> longer[i] == Handler(choice)
  }

  /** The number of inputs a message lists. */
  function InputCount(body: Payload): nat {
    var m := Fields(body);
    if DownloadS3Key in m && m[DownloadS3Key].Arr? then |m[DownloadS3Key].items| else 0
  }

  /** A valid message can be read, and the protocol sees what is read. */
  lemma Readable(message: Object)
    requires ValidateRequest(message).Ok?
    ensures ReadJob(message).Ok?
    ensures var job, m := ReadJob(message).value, View(Parsed(Obj(message)));
            && m.Request? && job.id == m.job != "" && m.taskName == job.taskName
            && m.contract == ContractFields(message)
            && m.tryCount == IntField(message, DlqTryCountKey)
            && |job.downloads| == InputCount(Parsed(Obj(message)))
  {
    ValidMessagesReadSafely(message);
    ValidateRequestMeaning(message);
    hide ReadJob, ValidateRequest, ContractFields, CStr;
  }

  lemma UploadedAre(prefix: string, world: World, r: Result<seq<Json>>)
    requires world.outputs.Ok? ==>
               var files := Regulars(world.outputs.value);
               && (r.Ok? ==> |r.value| == |files|
                             && forall i :: 0 <= i < |files| ==>
                                              Transfer(world.storage, prefix, files[i]) == Ok(r.value[i]))
               && (r.Err? ==> exists i :: 0 <= i < |files| && Transfer(world.storage, prefix, files[i]) == Err(r.error)
                                          && forall k :: 0 <= k < i ==> Transfer(world.storage, prefix, files[k]).Ok?)
    ensures world.outputs.Ok? ==> Results(world.storage, prefix, Regulars(world.outputs.value)) == r
  {
    hide Transfer, Results, Regulars;
    if world.outputs.Ok? {
      var files := Regulars(world.outputs.value);
      if r.Ok? {
        ResultsAre(world.storage, prefix, files, r.value);
      } else {
        var i :| 0 <= i < |files| && Transfer(world.storage, prefix, files[i]) == Err(r.error)
                 && forall k :: 0 <= k < i ==> Transfer(world.storage, prefix, files[k]).Ok?;
        ResultsFail(world.storage, prefix, files, i);
      }
    }
  }

  lemma OverlayNothing(base: Object, updates: Object)
    ensures Overlay(base, updates - updates.Keys) == base
  {}

  /** Applying one more update. */
  lemma OverlayStep(base: Object, updates: Object, rest: set<Key>, k: Key)
    requires k in rest && rest <= updates.Keys
    ensures var before := Overlay(base, updates - rest);
            Overlay(base, updates - (rest - {k})) == if updates[k].Null? then before - {k} else before[k := updates[k]]
  {}

  /** Nothing is taken from a queue, and at most one delivery is added at its end. */
  predicate AtMostOneMore(before: seq<Delivery>, after: seq<Delivery>) {
    before <= after && |after| <= |before| + 1
  }

  lemma SuccessIsReal(message: Object, world: World, c: Choice)
    requires ValidateRequest(message).Ok? && c == ChoiceOf(Parsed(Obj(message)), world, c.writable)
    requires c.outcome.Success?
    ensures ReadJob(message).Ok? && Succeeds(ReadJob(message).value, world)
  {
    Readable(message);
    OutcomeMeans(ReadJob(message).value, world);
    hide ReadJob, Succeeds, TaskOutcome, ValidateRequest, View;
  }

  lemma NoneMore(deliveries: seq<Delivery>)
    ensures AtMostOneMore(deliveries, deliveries)
  {}

  /** The least a retry waits before it is republished. */
  function RetryFloor(n: int): nat {
    if n <= 1 then 1000 else if n == 2 then 2000 else if n == 3 then 4000 else 8000
  }

  lemma RemovedEntry(entries: TaskDlq.Entries, job: string, entry: Payload)
    ensures entries[job := entry] - {job} == entries - {job}
  {}

  lemma ExtendsAll(a: seq<Label>, b: seq<Label>, c: seq<Label>, choice: Choice)
    requires Extends(a, b, choice) && Extends(b, c, choice)
    ensures Extends(a, c, choice)
  {}

  /** What publishing a retry changes. */
  lemma PublishEffect(s: System, m: Message, reason: string, n: Int32, sendError: Option<string>)
    requires m.Request?
    ensures var t, e := PublishStep(s, m, reason, n, sendError), Retried(m, n);
            && t.redis == s.redis && t.dlq == s.dlq
            && t.queue == s.queue + (if sendError.Some? || e.id in s.dedup then [] else [e])
            && t.dedup == (if sendError.Some? then s.dedup else s.dedup + {e.id})
            && t.pc == if sendError.Some? then
                         Protocol.Unlink(RetryUpdates(m.contract, RepublishFailed(reason, sendError.value), n))
                       else Protocol.Settle(Queued, RetryUpdates(m.contract, reason, n), false)
  {
    hide RetryUpdates, RepublishFailed, Retried;
  }

  lemma RetryEnvelope(message: Object, n: Int32, m: Message)
    requires ValidateRequest(message).Ok? && m == View(Parsed(Obj(message))) && m.Request?
    ensures EnvelopeOf(Delivery(Explicit(RetryId(m.job, n)), Parsed(Obj(Stamped(message, n))))) == Retried(m, n)
    ensures Retried(m, n).id == Explicit(RetryId(m.job, n))
  {
    ViewOfRetry(message, n);
    hide View, ValidateRequest, RetryId;
  }

  class Worker {
    const cfg: Config
    const whitelist: seq<string>
    const dlq: TaskDlq.Dlq
    const queue: FifoQueue
    const clock: Clock
    var redis: Store
    ghost var run: seq<Label>

    constructor (dlqPath: string, maxRetryCount: nat, whitelist: seq<string>, bucket: string)
      ensures Valid() && run == [] && fresh(dlq) && fresh(queue) && fresh(clock)
    {
      this.cfg := Config(maxRetryCount, (set name | name in whitelist), bucket);
      this.whitelist := whitelist;
      dlq := new TaskDlq.Dlq(dlqPath, maxRetryCount);
      queue := new FifoQueue();
      clock := new Clock();
      redis := map[];
      run := [];
      new;
      assert dlq.View() == map[];
    }

    /** The protocol state of this worker. */
    ghost function State(): System
      reads this
    {
      After(cfg, run)
    }

    ghost predicate Valid()
      reads this, dlq, queue
    {
      && cfg.maxRetries == dlq.maxRetryCount && cfg.tasks == (set name | name in whitelist)
      && State().redis == redis
      && State().queue == Envelopes(queue.deliveries) && State().dedup == queue.seen
      && State().dlq == FilesOf(dlq.View())
    }

    ghost method Take(l: Label)
      modifies this`run
      ensures run == old(run) + [l] && State() == Do(cfg, old(State()), l)
    {
      hide Do;
      run := run + [l];
      assert run[..|run| - 1] == old(run);
    }

    ghost method Step(choice: Choice)
      requires State().queue != []
      modifies this`run
      ensures run == old(run) + [Handler(choice)]
      ensures State() == Work(cfg, old(State()), choice)
    {
      hide Work, After;
      Take(Handler(choice));
    }

    /** A service stores the queued document of a fresh job. */
    method Store(job: string, order: Order, now: string)
      requires Valid() && IsUuid(job) && job !in State().requests && Issuable(order)
      modifies this`redis, this`run
      ensures Valid() && run == old(run) + [ApiWrite(job, order, now)] && State().pc == old(State().pc)
      ensures job in State().requests && State().requests[job] == Issued(job, cfg.bucket, order, now)
    {
      hide After, Envelopes, FilesOf, TaskDlq.EntriesOf, QueuedDocument, Issued, IsUuid, Issuable, Work;
      redis := redis[job := Parsed(Obj(QueuedDocument(job, order.taskName, now)))];
      Take(ApiWrite(job, order, now));
    }

    /** A service publishes the message of a job it issued, or fails to. */
    method Enqueue(job: string, body: Payload, queueError: Option<string>) returns (r: Result<()>)
      requires Valid() && job in State().requests && State().requests[job] == View(body)
      modifies this`run, queue
      ensures Valid() && State().pc == old(State().pc)
      ensures run == old(run) + (if queueError.None? then [ApiPublish(job)] else [])
      ensures r == if queueError.None? then Ok(()) else Err(queueError.value)
    {
      hide After, Envelopes, FilesOf, TaskDlq.EntriesOf, View, Work;
      var d := Delivery(Content(View(body)), body);
      EnvelopesAppend(queue.deliveries, d);
      r := queue.Send(d, queueError);
      if queueError.None? { Take(ApiPublish(job)); }
    }

    /** What a service does to the shared Redis and queue: it stores the document of a fresh job, then
        publishes its message. A failed publish leaves the document behind. */
    method Submit(job: string, order: Order, now: string, queueError: Option<string>) returns (r: Result<()>)
      requires Valid() && cfg.bucket != "" && IsUuid(job) && job !in State().requests && Issuable(order)
      modifies this`redis, this`run, queue
      ensures Valid() && State().pc == old(State().pc)
      ensures run == old(run) + [ApiWrite(job, order, now)] + (if queueError.None? then [ApiPublish(job)] else [])
      ensures r == if queueError.None? then Ok(()) else Err(queueError.value)
    {
      hide After, Valid, RequestMessage, Issued, View, IsUuid, Issuable;
      ViewOfIssued(job, cfg.bucket, order, now);
      Store(job, order, now);
      r := Enqueue(job, Parsed(Obj(RequestMessage(job, cfg.bucket, order, now))), queueError);
    }

    /** A crash between two effects: nothing stored changes, and the message in hand is still queued. */
    ghost method Interrupt()
      requires Valid() && queue.deliveries != [] && !State().pc.Idle?
      modifies this`run
      ensures Valid() && run == old(run) + [Crash] && State().pc.Idle?
    {
      hide After, Envelopes, FilesOf, TaskDlq.EntriesOf;
      Take(Crash);
    }

    // ---- Status documents ----

    /** Merges the updates into the stored document field by field; null erases a field. */
    method SetJobStatus(job: string, status: Status, updates: Object, now: string)
      modifies this`redis
      ensures redis == Saved(old(redis), job, status, updates, now)
    {
      var document: Object := map[];
      if job in redis && IsObject(redis[job]) {
        document := redis[job].value.fields;
      }
      assert document == Document(redis, job);
      document := document[JobIdKey := Str(job)];
      document := document[StatusKey := Str(status.Text())];
      ghost var base := document;
      hide Overlay;
      assert Overlay(base, updates - updates.Keys) == base by { OverlayNothing(base, updates); }
      var rest := updates.Keys;
      while rest != {}
        invariant rest <= updates.Keys && redis == old(redis)
        invariant document == Overlay(base, updates - rest)
        decreases rest
      {
        var k :| k in rest;
        OverlayStep(base, updates, rest, k);
        if updates[k].Null? {
          document := document - {k};
        } else {
          document := document[k := updates[k]];
        }
        rest := rest - {k};
      }
      assert updates - rest == updates;
      document := document[UpdatedAtKey := Str(now)];
      redis := redis[job := Parsed(Obj(document))];
    }

    /** The guard reads the stored status; anything unreadable counts as unfinished. */
    method IsTerminalStatus(job: string) returns (terminal: bool)
      ensures terminal == IsTerminal(redis, job)
    {
      if job !in redis || !IsObject(redis[job]) { return false; }
      var document := redis[job].value.fields;
      if StatusKey !in document || !document[StatusKey].Str? { return false; }
      var status := document[StatusKey].s;
      return status == "done" || status == "failed";
    }

    /** Linear search of the whitelist. */
    method FindTask(name: string) returns (found: Option<nat>)
      ensures found.None? ==> name !in whitelist
      ensures found.Some? ==> found.value < |whitelist| && whitelist[found.value] == name
                              && name !in whitelist[..found.value]
    {
      for i := 0 to |whitelist|
        invariant name !in whitelist[..i]
      {
        if whitelist[i] == name { return Some(i); }
      }
      assert whitelist[..|whitelist|] == whitelist;
      return None;
    }

    // ---- Effects, each with its protocol step ----

    /** The protocol sees message m in hand. */
    ghost predicate Holding(m: Message)
      reads this, dlq, queue
    {
      Valid() && queue.deliveries != [] && View(queue.deliveries[0].body) == m
    }

    /** Writes the closing status. */
    method Settle(job: string, status: Status, updates: Object, now: string, ghost m: Message, ghost c: Choice)
      requires Holding(m) && !m.Noise? && m.job == job && c.settledAt == now
      requires State().pc.Settle? && State().pc.status == status && State().pc.updates == updates
      modifies this`redis, this`run
      ensures Holding(m) && Extends(old(run), run, c)
      ensures State().pc == if old(State().pc.sweep) then Sweep else Return
      ensures redis == Saved(old(redis), job, status, updates, now)
    {
      hide After, Merge, Envelopes, FilesOf, View, TaskDlq.EntriesOf, Try;
      SetJobStatus(job, status, updates, now);
      Step(c);
    }

    /** Removes the DLQ entry. */
    method Unlink(job: string, ghost m: Message, ghost c: Choice)
      requires Holding(m) && m.Request? && m.job == job && (State().pc.Unlink? || State().pc.Sweep?)
      modifies this`run, dlq
      ensures Holding(m) && Extends(old(run), run, c)
      ensures State().pc == if old(State().pc.Unlink?) then Protocol.Settle(Failed, old(State().pc.updates), false)
                            else Return
      ensures dlq.View() == old(dlq.View()) - {job}
    {
      hide After, Envelopes, FilesOf, TaskDlq.EntriesOf, View, Try;
      FilesAfterRemove(dlq.View(), job);
      dlq.Remove(job);
      Step(c);
    }

    /** Writes "running". */
    method Begin(job: string, contract: Object, now: string, ghost m: Message, ghost c: Choice)
      requires Holding(m) && m.Request? && m.job == job && m.contract == contract && State().pc.Begin?
      requires c.startedAt == now
      modifies this`redis, this`run
      ensures Holding(m) && Extends(old(run), run, c) && State().pc.Execute?
      ensures redis == Saved(old(redis), job, Running, contract, now)
    {
      hide After, Merge, Envelopes, FilesOf, View, TaskDlq.EntriesOf;
      SetJobStatus(job, Running, contract, now);
      Step(c);
    }

    /** Counts the failure in the DLQ. */
    method RecordFailure(job: string, request: string, reason: string, inbound: Int32, writable: bool, ghost m: Message,
                         ghost c: Choice)
      returns (r: Result<Int32>)
      requires Holding(m) && m.Request? && m.job == job != "" && m.tryCount == inbound && State().pc == Record(reason)
      requires c.writable == dlq.Recordable(job, writable)
      modifies this`run, dlq
      ensures Holding(m) && Extends(old(run), run, c) && cfg.maxRetries == dlq.maxRetryCount
      ensures r.Err? ==> State().pc == Protocol.Settle(Failed, FailedUpdates(m.contract, reason), false)
      ensures r.Ok? ==> State().pc == if TaskDlq.CanRetry(r.value, cfg.maxRetries) then Publish(reason, r.value)
                                      else Protocol.Unlink(RetryUpdates(m.contract, reason, r.value))
      ensures r.Ok? <==> old(dlq.Recordable(job, writable))
      ensures r.Ok? ==> r.value == TaskDlq.NextCount(inbound, TaskDlq.FileCount(old(dlq.View()), job))
                        && dlq.View() == old(dlq.View())[job := TaskDlq.Entry(job, r.value, reason, request)]
      ensures r.Err? ==> dlq.directory == old(dlq.directory)
    {
      hide After, Envelopes, FilesOf, FailedUpdates, RetryUpdates, TaskDlq.EntriesOf, TaskDlq.NextCount,
        TaskDlq.CanRetry, TaskDlq.Entry, View;
      ghost var entries := dlq.View();
      r := dlq.RecordFailure(job, request, reason, inbound, writable);
      if r.Ok? { FilesAfterRecord(entries, job, r.value, reason, request); }
      Step(c);
    }

    /** Sends the stamped copy under its own deduplication ID. */
    method Republish(job: string, message: Object, reason: string, n: Int32, sendError: Option<string>,
                     ghost m: Message, ghost c: Choice)
      returns (r: Result<()>)
      requires Holding(m) && ValidateRequest(message).Ok? && m == View(Parsed(Obj(message)))
      requires m.Request? && m.job == job && State().pc == Publish(reason, n) && c.sendError == sendError
      modifies this`run, queue
      ensures Holding(m) && Extends(old(run), run, c) && AtMostOneMore(old(queue.deliveries), queue.deliveries)
      ensures r == if sendError.Some? then Err(sendError.value) else Ok(())
      ensures var d := Delivery(Explicit(job + "-retry-" + FormatInt(n)),
                                Parsed(Obj(message[DlqTryCountKey := Int(n)])));
              queue.deliveries == old(queue.deliveries)
                                  + if sendError.Some? || d.id in old(queue.seen) then [] else [d]
      ensures State().pc == if sendError.Some? then
                              Protocol.Unlink(RetryUpdates(m.contract, RepublishFailed(reason, sendError.value), n))
                            else Protocol.Settle(Queued, RetryUpdates(m.contract, reason, n), false)
    {
      hide After, FilesOf, RetryUpdates, RepublishFailed, TaskDlq.EntriesOf, View, ValidateRequest, Envelopes, RetryId,
        PublishStep, Retried;
      var d := Delivery(Explicit(RetryId(job, n)), Parsed(Obj(Stamped(message, n))));
      RetryIdText(job, n);
      RetryEnvelope(message, n, m);
      PublishEffect(State(), m, reason, n, sendError);
      EnvelopesAppend(queue.deliveries, d);
      r := queue.Send(d, sendError);
      Step(c);
    }

    /** Moves on past a decision that has no effect of its own. */
    ghost method Decide(m: Message, c: Choice)
      requires Holding(m) && (State().pc.Idle? || (m.Request? && (State().pc.Guard? || State().pc.Execute?)))
      modifies this`run
      ensures Holding(m) && Extends(old(run), run, c)
      ensures old(State().pc).Idle? ==> State().pc == Receive(m)
      ensures old(State().pc).Guard? ==>
                State().pc == if IsTerminal(redis, m.job) then Return
                              else if m.taskName !in whitelist then
                                Protocol.Settle(Failed, FailedUpdates(m.contract, NotRegistered(m.taskName)), true)
                              else Protocol.Begin
      ensures old(State().pc).Execute? ==>
                State().pc == if c.outcome.Failure? then Record(c.outcome.reason)
                              else
                                Protocol.Settle(Done, DoneUpdates(m.contract, c.outcome.tail, c.outcome.results), true)
    {
      hide After, Envelopes, FilesOf, TaskDlq.EntriesOf, View, IsTerminal, FailedUpdates, DoneUpdates, NotRegistered;
      Step(c);
    }

    // ---- The handler ----

    /** A deterministic failure: closes the job without a retry. */
    method FailWithoutRetry(job: string, message: Object, reason: string, now: string, ghost m: Message,
                            ghost c: Choice)
      requires Holding(m) && m.Request? && m.job == job && c.settledAt == now
      requires State().pc == Protocol.Settle(Failed, FailedUpdates(ContractFields(message), reason), true)
      modifies this`redis, this`run, dlq
      ensures Holding(m) && Extends(old(run), run, c) && State().pc.Return?
      ensures Reports(Document(redis, job), "failed", reason, now) && OnlyTouches(old(redis), redis, job)
      ensures dlq.View() == old(dlq.View()) - {job}
    {
      ContractFieldsMean(message);
      hide After, Valid, Holding, View, FailedUpdates, ContractFields, Saved, Document, Reports, OnlyTouches,
        TaskDlq.EntriesOf;
      FailureIsStored(redis, job, Failed, ContractFields(message), reason, now);
      SavedTouchesOne(redis, job, Failed, FailedUpdates(ContractFields(message), reason), now);
      Settle(job, Failed, FailedUpdates(ContractFields(message), reason), now, m, c);
      Unlink(job, m, c);
    }

    /** Fetches the inputs, runs the task and publishes its outputs. */
    method RunTask(job: Job, world: World) returns (outcome: Outcome)
      modifies clock
      ensures outcome == TaskOutcome(job, world)
      ensures outcome.Success? <==> Succeeds(job, world)
      ensures if outcome.Success? then Yields(job, world, outcome.tail, outcome.results)
              else FailsBecause(job, world, outcome.reason)
      ensures old(clock.slept) <= clock.slept
                <= old(clock.slept) + 2250 * |job.downloads| + (if outcome.Success? then 0 else 3000)
    {
      OutcomeMeans(job, world);
      hide Regulars, Transfer, Fetchable, LastError, CannotDownload, ExitedWith, Names, Results, FirstMissing, Succeeds,
        Yields, FailsBecause, LeastWaits, MostWaits, AtMostThreeEach;
      var downloaded, names, fetched, attempts := DownloadInputs(job.downloads, world.storage, clock);
      FirstMissingIs(world.storage, job.downloads, 0, fetched);
      if downloaded.Err? { return Failure(downloaded.error); }
      var execution := world.execute(job.taskName, job.arguments, job.timeoutSec);
      if execution.Err? { return Failure(execution.error); }
      var executed := execution.value;
      var bytes := ReadStdoutTail(executed.stdout);
      var tail := world.text(bytes);
      assert tail == ReportedTail(world, executed.stdout);
      if executed.exitCode != 0 { return Failure(ExitedWith(job.taskName, executed.exitCode, tail)); }
      var uploaded := UploadOutputs(job.outputPrefix, world.outputs, world.storage);
      UploadedAre(job.outputPrefix, world, uploaded);
      if uploaded.Err? { return Failure(uploaded.error); }
      outcome := Success(tail, uploaded.value);
    }

    /** Handles a valid message up to its end, or up to the failure that is to be recorded. */
    method ProcessJob(message: Object, world: World, ghost m: Message, ghost c: Choice) returns (r: Result<()>)
      requires Holding(m) && ValidateRequest(message).Ok? && m == View(Parsed(Obj(message))) && State().pc.Guard?
      requires c == ChoiceOf(Parsed(Obj(message)), world, c.writable)
      modifies this`redis, this`run, dlq, clock
      ensures Holding(m) && Extends(old(run), run, c)
      ensures r.Ok? ==> State().pc.Return?
      ensures r.Err? ==> State().pc == Record(r.error) && dlq.directory == old(dlq.directory)
      ensures OnlyTouches(old(redis), redis, m.job)
      ensures if IsTerminal(old(redis), m.job) then
                r.Ok? && redis == old(redis) && dlq.View() == old(dlq.View()) && clock.slept == old(clock.slept)
              else if m.taskName !in whitelist then
                && r.Ok? && dlq.View() == old(dlq.View()) - {m.job}
                && Reports(Document(redis, m.job), "failed",
                           "task [" + m.taskName + "] is not registered in the whitelist", world.settledAt)
              else if c.outcome.Success? then
                && r.Ok? && dlq.View() == old(dlq.View()) - {m.job}
                && Finished(Document(redis, m.job), c.outcome.tail, c.outcome.results, world.settledAt)
              else
                && r == Err(c.outcome.reason)
                && var d := Document(redis, m.job); StatusKey in d && d[StatusKey] == Str("running")
      ensures old(clock.slept) <= clock.slept
                <= old(clock.slept) + 2250 * InputCount(Parsed(Obj(message))) + (if r.Ok? then 0 else 3000)
    {
      ContractFieldsMean(message);
      hide After, Valid, Holding, View, IsTerminal, FailedUpdates, DoneUpdates, ContractFields, ReadJob,
        ValidateRequest, InputCount, TaskOutcome, Saved, Document, Reports, Finished, OnlyTouches,
        TaskDlq.EntriesOf, Succeeds, Yields, FailsBecause, Extends;
      Readable(message);
      var job := ReadJob(message).value;
      Decide(m, c);
      ghost var guarded := run;
      var terminal := IsTerminalStatus(job.id);
      if terminal {
        TouchesNothing(redis, job.id);
        return Ok(());
      }
      var found := FindTask(job.taskName);
      if found.None? {
        FailWithoutRetry(job.id, message, NotRegistered(job.taskName), world.settledAt, m, c);
        ExtendsAll(old(run), guarded, run, c);
        return Ok(());
      }
      r := RunAndClose(job, message, world, m, c);
      ExtendsAll(old(run), guarded, run, c);
    }

    /** Writes "running" and runs the task. */
    method TryTask(job: Job, contract: Object, world: World, ghost m: Message, ghost c: Choice)
      returns (outcome: Outcome)
      requires Holding(m) && m.Request? && m.job == job.id && m.contract == contract
      requires contract.Keys <= {TaskNameKey, EnqueuedAtKey}
      requires State().pc.Begin? && c.outcome == TaskOutcome(job, world) && c.startedAt == world.startedAt
      modifies this`redis, this`run, clock
      ensures Holding(m) && Extends(old(run), run, c) && OnlyTouches(old(redis), redis, m.job) && outcome == c.outcome
      ensures State().pc == if outcome.Failure? then Record(outcome.reason)
                            else Protocol.Settle(Done, DoneUpdates(contract, outcome.tail, outcome.results), true)
      ensures var d := Document(redis, m.job); StatusKey in d && d[StatusKey] == Str("running")
      ensures old(clock.slept) <= clock.slept
                <= old(clock.slept) + 2250 * |job.downloads| + (if outcome.Success? then 0 else 3000)
    {
      hide After, Valid, Holding, View, DoneUpdates, TaskOutcome, Saved, Document, OnlyTouches, TaskDlq.EntriesOf,
        Succeeds, Yields, FailsBecause, Extends;
      RunningIsStored(redis, job.id, contract, world.startedAt);
      SavedTouchesOne(redis, job.id, Running, contract, world.startedAt);
      Begin(job.id, contract, world.startedAt, m, c);
      ghost var begun := run;
      outcome := RunTask(job, world);
      Decide(m, c);
      ExtendsAll(old(run), begun, run, c);
    }

    /** Runs a registered task of an unfinished job, and closes the job if it succeeds. */
    method RunAndClose(job: Job, message: Object, world: World, ghost m: Message, ghost c: Choice)
      returns (r: Result<()>)
      requires Holding(m) && m.Request? && m.job == job.id && m.contract == ContractFields(message)
      requires State().pc.Begin? && c.outcome == TaskOutcome(job, world)
      requires c.startedAt == world.startedAt && c.settledAt == world.settledAt
      modifies this`redis, this`run, dlq, clock
      ensures Holding(m) && Extends(old(run), run, c) && OnlyTouches(old(redis), redis, m.job)
      ensures if c.outcome.Success? then
                && r.Ok? && State().pc.Return? && dlq.View() == old(dlq.View()) - {m.job}
                && Finished(Document(redis, m.job), c.outcome.tail, c.outcome.results, world.settledAt)
              else
                && r == Err(c.outcome.reason) && State().pc == Record(r.error) && dlq.directory == old(dlq.directory)
                && var d := Document(redis, m.job); StatusKey in d && d[StatusKey] == Str("running")
      ensures old(clock.slept) <= clock.slept
                <= old(clock.slept) + 2250 * |job.downloads| + (if r.Ok? then 0 else 3000)
    {
      ContractFieldsMean(message);
      hide After, Valid, Holding, View, DoneUpdates, ContractFields, TaskOutcome, Saved, Document, Finished,
        OnlyTouches, TaskDlq.EntriesOf, Extends;
      var contract := ContractFields(message);
      var outcome := TryTask(job, contract, world, m, c);
      if outcome.Failure? { return Err(outcome.reason); }
      ghost var tried, running := run, redis;
      Close(job.id, contract, outcome.tail, outcome.results, world.settledAt, m, c);
      TouchesTwice(old(redis), running, redis, job.id);
      ExtendsAll(old(run), tried, run, c);
      r := Ok(());
    }

    /** Writes "done" with the result, then removes the DLQ entry. */
    method Close(job: string, contract: Object, tail: string, results: seq<Json>, now: string, ghost m: Message,
                 ghost c: Choice)
      requires Holding(m) && m.Request? && m.job == job && contract.Keys <= {TaskNameKey, EnqueuedAtKey}
      requires State().pc == Protocol.Settle(Done, DoneUpdates(contract, tail, results), true) && c.settledAt == now
      modifies this`redis, this`run, dlq
      ensures Holding(m) && Extends(old(run), run, c) && State().pc.Return?
      ensures Finished(Document(redis, job), tail, results, now) && OnlyTouches(old(redis), redis, job)
      ensures dlq.View() == old(dlq.View()) - {job}
    {
      hide After, Valid, Holding, View, DoneUpdates, Saved, Document, Finished, OnlyTouches, TaskDlq.EntriesOf;
      ResultIsStored(redis, job, contract, tail, results, now);
      SavedTouchesOne(redis, job, Done, DoneUpdates(contract, tail, results), now);
      Settle(job, Done, DoneUpdates(contract, tail, results), now, m, c);
      Unlink(job, m, c);
    }

    /** Removes the DLQ entry, then fails the job with its count. */
    method GiveUp(job: string, contract: Object, reason: string, n: Int32, now: string, ghost m: Message,
                  ghost c: Choice)
      requires Holding(m) && m.Request? && m.job == job && c.settledAt == now
      requires contract.Keys <= {TaskNameKey, EnqueuedAtKey}
      requires State().pc == Protocol.Unlink(RetryUpdates(contract, reason, n))
      modifies this`redis, this`run, dlq
      ensures Holding(m) && Extends(old(run), run, c) && State().pc.Return?
      ensures OnlyTouches(old(redis), redis, job) && dlq.View() == old(dlq.View()) - {job}
      ensures Reports(Document(redis, job), "failed", reason, now) && Counts(Document(redis, job), n)
    {
      hide After, Valid, Holding, View, RetryUpdates, Saved, Document, Reports, Counts, OnlyTouches, TaskDlq.EntriesOf;
      RetryIsStored(redis, job, Failed, contract, reason, n, now);
      SavedTouchesOne(redis, job, Failed, RetryUpdates(contract, reason, n), now);
      Unlink(job, m, c);
      Settle(job, Failed, RetryUpdates(contract, reason, n), now, m, c);
    }

    /** Puts the job back to queued with its count. */
    method Requeue(job: string, contract: Object, reason: string, n: Int32, now: string, ghost m: Message,
                   ghost c: Choice)
      requires Holding(m) && m.Request? && m.job == job && c.settledAt == now
      requires contract.Keys <= {TaskNameKey, EnqueuedAtKey}
      requires State().pc == Protocol.Settle(Queued, RetryUpdates(contract, reason, n), false)
      modifies this`redis, this`run
      ensures Holding(m) && Extends(old(run), run, c) && State().pc.Return? && OnlyTouches(old(redis), redis, job)
      ensures Reports(Document(redis, job), "queued", reason, now) && Counts(Document(redis, job), n)
    {
      hide After, Valid, Holding, View, RetryUpdates, Saved, Document, Reports, Counts, OnlyTouches;
      RetryIsStored(redis, job, Queued, contract, reason, n, now);
      SavedTouchesOne(redis, job, Queued, RetryUpdates(contract, reason, n), now);
      Settle(job, Queued, RetryUpdates(contract, reason, n), now, m, c);
    }

    /** Fails a job whose failure could not be recorded, or whose message is malformed. */
    method FailPlainly(job: string, contract: Object, reason: string, now: string, ghost m: Message, ghost c: Choice)
      requires Holding(m) && !m.Noise? && m.job == job && c.settledAt == now
      requires contract.Keys <= {TaskNameKey, EnqueuedAtKey}
      requires State().pc == Protocol.Settle(Failed, FailedUpdates(contract, reason), false)
      modifies this`redis, this`run
      ensures Holding(m) && Extends(old(run), run, c) && State().pc.Return? && OnlyTouches(old(redis), redis, job)
      ensures Reports(Document(redis, job), "failed", reason, now)
    {
      hide After, Valid, Holding, View, FailedUpdates, Saved, Document, Reports, OnlyTouches;
      FailureIsStored(redis, job, Failed, contract, reason, now);
      SavedTouchesOne(redis, job, Failed, FailedUpdates(contract, reason), now);
      Settle(job, Failed, FailedUpdates(contract, reason), now, m, c);
    }

    /** Waits before a retry: 1, 2, 4 and then 8 seconds, and up to half as long again. */
    method Wait(n: Int32, draw: nat)
      modifies clock
      ensures var least := if n <= 1 then 1000 else if n == 2 then 2000 else if n == 3 then 4000 else 8000;
              old(clock.slept) + least <= clock.slept <= old(clock.slept) + least + least / 2
    {
      Backoff.RetryDelays(n);
      hide Backoff.Capped;
      clock.Backoff(n, Backoff.RETRY_BASE_MS, Backoff.RETRY_MAX_MS, draw);
    }

    /** Republishes the message with its new count and queues the job again, or gives it up. */
    method Retry(job: string, message: Object, reason: string, n: Int32, world: World, ghost m: Message,
                 ghost c: Choice)
      requires Holding(m) && ValidateRequest(message).Ok? && m == View(Parsed(Obj(message)))
      requires m.Request? && m.job == job && m.contract == ContractFields(message) && State().pc == Publish(reason, n)
      requires c.sendError == world.sendError && c.settledAt == world.settledAt
      modifies this`redis, this`run, dlq, queue
      ensures Holding(m) && Extends(old(run), run, c) && State().pc.Return? && OnlyTouches(old(redis), redis, job)
      ensures AtMostOneMore(old(queue.deliveries), queue.deliveries)
      ensures var d := Delivery(Explicit(job + "-retry-" + FormatInt(n)),
                                Parsed(Obj(message[DlqTryCountKey := Int(n)])));
              queue.deliveries == old(queue.deliveries)
                                  + if world.sendError.Some? || d.id in old(queue.seen) then [] else [d]
      ensures Counts(Document(redis, job), n)
      ensures if world.sendError.Some? then
                && Reports(Document(redis, job), "failed",
                           reason + " (republish failed: " + world.sendError.value + ")", world.settledAt)
                && dlq.View() == old(dlq.View()) - {job}
              else Reports(Document(redis, job), "queued", reason, world.settledAt) && dlq.View() == old(dlq.View())
    {
      ContractFieldsMean(message);
      hide After, Valid, Holding, View, RetryUpdates, ContractFields, ValidateRequest, Extends, AtMostOneMore, Document,
        Reports, Counts, OnlyTouches, TaskDlq.EntriesOf, FormatInt;
      var contract := ContractFields(message);
      var sent := Republish(job, message, reason, n, world.sendError, m, c);
      ghost var sentRun := run;
      if sent.Err? {
        GiveUp(job, contract, RepublishFailed(reason, sent.error), n, world.settledAt, m, c);
      } else {
        Requeue(job, contract, reason, n, world.settledAt, m, c);
      }
      ExtendsAll(old(run), sentRun, run, c);
    }

    /** Records a failure; republishes the message with the recorded count, or gives the job up. */
    method HandleProcessingFailure(message: Object, reason: string, world: World, ghost m: Message, ghost c: Choice)
      requires Holding(m) && ValidateRequest(message).Ok? && m == View(Parsed(Obj(message)))
      requires State().pc == Record(reason)
      requires c.sendError == world.sendError && c.settledAt == world.settledAt
      requires m.Request? && c.writable == dlq.Recordable(m.job, world.writable)
      modifies this`redis, this`run, dlq, queue, clock
      ensures Holding(m) && Extends(old(run), run, c) && State().pc.Return? && OnlyTouches(old(redis), redis, m.job)
      ensures AtMostOneMore(old(queue.deliveries), queue.deliveries)
      ensures var recorded := old(dlq.Recordable(m.job, world.writable));
              var n := TaskDlq.NextCount(m.tryCount, TaskDlq.FileCount(old(dlq.View()), m.job));
              var d := Delivery(Explicit(m.job + "-retry-" + FormatInt(n)),
                                Parsed(Obj(message[DlqTryCountKey := Int(n)])));
              && FailureHandled(Document(redis, m.job), old(dlq.View()), dlq.View(), m.job, reason, recorded, n,
                                cfg.maxRetries, world.sendError, world.request, world.settledAt)
              && (if recorded && n <= cfg.maxRetries then
                    && queue.deliveries == old(queue.deliveries)
                                           + (if world.sendError.Some? || d.id in old(queue.seen) then [] else [d])
                    && clock.slept >= old(clock.slept) + RetryFloor(n)
                  else queue.deliveries == old(queue.deliveries))
      ensures clock.slept <= old(clock.slept) + 12000
    {
      ContractFieldsMean(message);
      hide After, Valid, Holding, View, ContractFields, ReadJob, ValidateRequest, InputCount, Extends, Document,
        Reports, Counts, OnlyTouches, TaskDlq.EntriesOf, FormatInt, TaskDlq.NextCount, TaskDlq.FileCount, AtMostOneMore;
      Readable(message);
      var job, contract := ReadJob(message).value.id, ContractFields(message);
      var inbound := IntField(message, DlqTryCountKey);
      var recorded := RecordFailure(job, world.request, reason, inbound, world.writable, m, c);
      ghost var recordedRun := run;
      if recorded.Err? {
        FailPlainly(job, contract, reason, world.settledAt, m, c);
        NoneMore(queue.deliveries);
      } else if !TaskDlq.CanRetry(recorded.value, dlq.maxRetryCount) {
        RemovedEntry(old(dlq.View()), job, TaskDlq.Entry(job, recorded.value, reason, world.request));
        GiveUp(job, contract, reason, recorded.value, world.settledAt, m, c);
        NoneMore(queue.deliveries);
      } else {
        RemovedEntry(old(dlq.View()), job, TaskDlq.Entry(job, recorded.value, reason, world.request));
        Wait(recorded.value, world.draw);
        Retry(job, message, reason, recorded.value, world, m, c);
      }
      ExtendsAll(old(run), recordedRun, run, c);
    }

    /** What the environment will decide while a message is handled. */
    ghost function Decision(body: Payload, world: World): Choice
      reads dlq
    {
      ChoiceOf(body, world, dlq.Recordable(if View(body).Noise? then "" else View(body).job, world.writable))
    }

    /** Handles the message at the head of the queue, up to its deletion: the protocol's handler steps
        and nothing else, with what they leave in the job's document, in its entry and on the queue. */
    method HandleMessage(body: Payload, world: World)
      requires Holding(View(body)) && State().pc.Idle?
      modifies this`redis, this`run, dlq, queue, clock
      ensures Holding(View(body)) && State().pc.Return?
      ensures Extends(old(run), run, old(Decision(body, world)))
      ensures AtMostOneMore(old(queue.deliveries), queue.deliveries)
      ensures View(body).Noise? ==>
                redis == old(redis) && dlq.View() == old(dlq.View()) && queue.deliveries == old(queue.deliveries)
      ensures View(body).Malformed? ==>
                && ValidateRequest(Fields(body)).Err? && OnlyTouches(old(redis), redis, View(body).job)
                && Reports(Document(redis, View(body).job), "failed", ValidateRequest(Fields(body)).error,
                           world.settledAt)
                && dlq.View() == old(dlq.View()) && queue.deliveries == old(queue.deliveries)
      ensures View(body).Request? ==>
                var m, outcome := View(body), old(Decision(body, world)).outcome;
                var recorded, known := old(dlq.Recordable(m.job, world.writable)), m.taskName in whitelist;
                var n := TaskDlq.NextCount(m.tryCount, TaskDlq.FileCount(old(dlq.View()), m.job));
                var d := Delivery(Explicit(m.job + "-retry-" + FormatInt(n)),
                                  Parsed(Obj(Fields(body)[DlqTryCountKey := Int(n)])));
                && RequestHandled(old(redis), redis, old(dlq.View()), dlq.View(), m.job, m.taskName, known, outcome,
                                  recorded, n, cfg.maxRetries, world.sendError, world.request, world.settledAt)
                && (if Requeues(IsTerminal(old(redis), m.job), known, outcome, recorded, n, cfg.maxRetries,
                                world.sendError) then
                      && queue.deliveries == old(queue.deliveries) + (if d.id in old(queue.seen) then [] else [d])
                      && clock.slept >= old(clock.slept) + RetryFloor(n)
                    else queue.deliveries == old(queue.deliveries))
      ensures View(body).Request? && !IsTerminal(old(redis), View(body).job)
              && HasStatus(Document(redis, View(body).job), Done) ==>
                ReadJob(Fields(body)).Ok? && Succeeds(ReadJob(Fields(body)).value, world)
      ensures clock.slept <= old(clock.slept) + 2250 * InputCount(body) + 15000
    {
      hide After, Valid, Holding, FailedUpdates, ContractFields, ValidateRequest, IsValidJobId, InputCount,
        TaskOutcome, ReadJob, Reports, OnlyTouches, Document, TaskDlq.EntriesOf, Extends, AtMostOneMore, RequestHandled,
        TaskDlq.NextCount, TaskDlq.FileCount, FormatInt, IsTerminal, Succeeds, Requeues, HasStatus;
      ghost var m, c := View(body), Decision(body, world);
      NoneMore(queue.deliveries);
      Decide(m, c);
      if !IsObject(body) { return; }
      var message := body.value.fields;
      var validated := ValidateRequest(message);
      if validated.Err? {
        if HasString(message, JobIdKey) && IsValidJobId(message[JobIdKey].s) {
          ContractFieldsMean(message);
          ghost var received := run;
          FailPlainly(message[JobIdKey].s, ContractFields(message), validated.error, world.settledAt, m, c);
          ExtendsAll(old(run), received, run, c);
        }
        return;
      }
      ghost var received := run;
      HandleRequest(message, world, m, c);
      ExtendsAll(old(run), received, run, c);
    }

    /** Handles a valid message. */
    method HandleRequest(message: Object, world: World, ghost m: Message, ghost c: Choice)
      requires Holding(m) && ValidateRequest(message).Ok? && m == View(Parsed(Obj(message))) && State().pc.Guard?
      requires m.Request? && c == ChoiceOf(Parsed(Obj(message)), world, dlq.Recordable(m.job, world.writable))
      modifies this`redis, this`run, dlq, queue, clock
      ensures Holding(m) && Extends(old(run), run, c) && State().pc.Return?
      ensures AtMostOneMore(old(queue.deliveries), queue.deliveries)
      ensures var recorded, known := old(dlq.Recordable(m.job, world.writable)), m.taskName in whitelist;
              var n := TaskDlq.NextCount(m.tryCount, TaskDlq.FileCount(old(dlq.View()), m.job));
              var d := Delivery(Explicit(m.job + "-retry-" + FormatInt(n)),
                                Parsed(Obj(message[DlqTryCountKey := Int(n)])));
              && RequestHandled(old(redis), redis, old(dlq.View()), dlq.View(), m.job, m.taskName, known, c.outcome,
                                recorded, n, cfg.maxRetries, world.sendError, world.request, world.settledAt)
              && (if Requeues(IsTerminal(old(redis), m.job), known, c.outcome, recorded, n, cfg.maxRetries,
                              world.sendError) then
                    && queue.deliveries == old(queue.deliveries) + (if d.id in old(queue.seen) then [] else [d])
                    && clock.slept >= old(clock.slept) + RetryFloor(n)
                  else queue.deliveries == old(queue.deliveries))
      ensures !IsTerminal(old(redis), m.job) && HasStatus(Document(redis, m.job), Done) ==>
                ReadJob(message).Ok? && Succeeds(ReadJob(message).value, world)
      ensures clock.slept <= old(clock.slept) + 2250 * InputCount(Parsed(Obj(message))) + 15000
    {
      hide After, Valid, Holding, View, ValidateRequest, InputCount, TaskOutcome, ReadJob, Reports, Finished,
        FailureHandled, OnlyTouches, Document, TaskDlq.EntriesOf, Extends, AtMostOneMore, TaskDlq.NextCount,
        TaskDlq.FileCount, FormatInt, IsTerminal, Succeeds, HasStatus;
      NoneMore(queue.deliveries);
      ghost var before, entries := redis, dlq.View();
      ghost var recordable := dlq.Recordable(m.job, world.writable);
      var processed := ProcessJob(message, world, m, c);
      if processed.Err? {
        ghost var processedRun, running := run, redis;
        HandleProcessingFailure(message, processed.error, world, m, c);
        TouchesTwice(old(redis), running, redis, m.job);
        ExtendsAll(old(run), processedRun, run, c);
      }
      if !IsTerminal(before, m.job) && HasStatus(Document(redis, m.job), Done) {
        DoneMeansSuccess(before, redis, entries, dlq.View(), m.job, m.taskName, m.taskName in whitelist, c.outcome,
                         recordable, TaskDlq.NextCount(m.tryCount, TaskDlq.FileCount(entries, m.job)), cfg.maxRetries,
                         world.sendError, world.request, world.settledAt);
        SuccessIsReal(message, world, c);
      }
    }

    /** Receives the message at the head of the queue, handles it and deletes it. */
    method Consume(world: World)
      requires Valid() && queue.deliveries != [] && State().pc.Idle?
      modifies this`redis, this`run, dlq, queue, clock
      ensures Valid() && State().pc.Idle?
      ensures Extends(old(run), run, old(Decision(queue.deliveries[0].body, world)))
      ensures AtMostOneMore(old(queue.deliveries)[1..], queue.deliveries)
      ensures clock.slept <= old(clock.slept) + 2250 * InputCount(old(queue.deliveries)[0].body) + 15000
    {
      hide After, FilesOf, TaskDlq.EntriesOf, Envelopes, InputCount, View, Try, ChoiceOf, RequestHandled, Requeues,
        Reports, OnlyTouches, Succeeds, ReadJob, ValidateRequest, FormatInt, TaskDlq.NextCount, IsTerminal, Document;
      ghost var c := Decision(queue.deliveries[0].body, world);
      HandleMessage(queue.deliveries[0].body, world);
      TailEnvelopes(queue.deliveries);
      queue.DeleteHead();
      Step(c);
    }
  }

  lemma TailEnvelopes(ds: seq<Delivery>)
    requires ds != []
    ensures Envelopes(ds[1..]) == Envelopes(ds)[1..]
  {}
}
