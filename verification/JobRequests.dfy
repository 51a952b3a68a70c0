/** What a job request becomes: the queued status document and the request message. */
module JobRequests {
  import opened Json
  import opened Strings
  import opened ObjectKeys
  import opened MessageValidation
  import opened StatusDocument

  /** A request after a service has filled in its defaults. */
  datatype Order = Order(taskName: string, arguments: seq<string>, files: seq<string>, timeoutSec: Option<Json>)

  /** A field of a request body as the client sent it. */
  datatype Given<+T> = Absent | ExplicitNull | Value(value: T)

  datatype Submission = Submission(taskName: string, arguments: Given<seq<string>>, files: Given<seq<string>>,
                             timeoutSec: Given<Int64>)

  function OrEmpty<T>(g: Given<seq<T>>): seq<T> {
    if g.Value? then g.value else []
  }

  /** The input files a client named. */
  function InputsOf(request: Submission): seq<string> {
    if request.files.Value? then request.files.value else []
  }

  datatype UploadUrl = UploadUrl(filename: string, url: string, verb: string)

  predicate IsHex(c: char) {
    '0' <= c <= '9' || 'a' <= c <= 'f'
  }

  /** The canonical text of a UUID, the form every service issues. */
  predicate IsUuid(id: string) {
    |id| == 36
    && forall i :: 0 <= i < 36 ==> if i in {8, 13, 18, 23} then id[i] == '-' else IsHex(id[i])
  }

  lemma UuidIsValidJobId(id: string)
    requires IsUuid(id)
    ensures IsValidJobId(id)
    ensures forall i :: 0 <= i < |id| ==>
                          var n := id[i] as int;
                          if i in {8, 13, 18, 23} then n == 45 else 48 <= n <= 57 || 97 <= n <= 102
  {
    forall i | 0 <= i < |id| ensures IsJobIdChar(id[i]) {
      assert if i in {8, 13, 18, 23} then id[i] == '-' else IsHex(id[i]);
    }
  }

  function DownloadEntry(bucket: string, key: string): Json {
    Obj(map[BucketKey := Str(bucket), ObjectKeyKey := Str(key), MethodKey := Str("GET")])
  }

  function DownloadEntries(bucket: string, job: string, files: seq<string>): (r: seq<Json>)
    ensures |r| == |files|
    ensures forall i :: 0 <= i < |r| ==> r[i] == DownloadEntry(bucket, InputKey(job, files[i]))
  {
    if files == [] then []
    else DownloadEntries(bucket, job, files[..|files| - 1])
         + [DownloadEntry(bucket, InputKey(job, files[|files| - 1]))]
  }

  /** The presigned upload targets of the files, or the first presigning error. */
  function UploadUrls(job: string, files: seq<string>, presign: string -> Result<string>): (r: Result<seq<UploadUrl>>)
    ensures r.Ok? <==> forall f :: f in files ==> presign(InputKey(job, f)).Ok?
    ensures r.Ok? ==> |r.value| == |files|
                      && forall i :: 0 <= i < |files| ==>
                                       r.value[i] == UploadUrl(files[i], presign(InputKey(job, files[i])).value, "PUT")
  {
    if files == [] then Ok([])
    else
      var front, last := files[..|files| - 1], files[|files| - 1];
      assert forall f :: f in files <==> f in front || f == last;
      var urls :- UploadUrls(job, front, presign);
      var url :- presign(InputKey(job, last));
      Ok(urls + [UploadUrl(last, url, "PUT")])
  }

  /** The uploads and downloads of one more file. */
  lemma OneMoreFile(bucket: string, job: string, files: seq<string>, i: nat, presign: string -> Result<string>)
    requires i < |files|
    ensures DownloadEntries(bucket, job, files[..i + 1])
            == DownloadEntries(bucket, job, files[..i]) + [DownloadEntry(bucket, InputKey(job, files[i]))]
    ensures var before, url := UploadUrls(job, files[..i], presign), presign(InputKey(job, files[i])); before.Ok? ==>
              UploadUrls(job, files[..i + 1], presign)
              == if url.Err? then Err(url.error) else Ok(before.value + [UploadUrl(files[i], url.value, "PUT")])
  {
    assert files[..i + 1][..i] == files[..i];
    hide DownloadEntry, InputKey;
  }

  function Texts(ss: seq<string>): (r: seq<Json>)
    ensures |r| == |ss| && forall i :: 0 <= i < |r| ==> r[i] == Str(ss[i])
  {
    if ss == [] then [] else [Str(ss[0])] + Texts(ss[1..])
  }

  function Task(order: Order): Object {
    var task := map[NameKey := Str(order.taskName), ArgumentsKey := Arr(Texts(order.arguments))];
    if order.timeoutSec.Some? then task[TimeoutSecKey := order.timeoutSec.value] else task
  }

  function RequestMessage(job: string, bucket: string, order: Order, now: string): Object {
    QueueMessage(job, Task(order), DownloadEntries(bucket, job, order.files), now)
  }

  function QueueMessage(job: string, task: Object, downloads: seq<Json>, now: string): (m: Object) {
    map[JobIdKey := Str(job),
        ModeKey := Str("execute"),
        TaskKey := Obj(task),
        DownloadS3Key := Arr(downloads),
        OutputPrefixKey := Str(OutputPrefix(job)),
        EnqueuedAtKey := Str(now)]
  }

  function QueuedDocument(job: string, taskName: string, now: string): Object {
    map[JobIdKey := Str(job),
        TaskNameKey := Str(taskName),
        StatusKey := Str(Queued.Text()),
        EnqueuedAtKey := Str(now),
        UpdatedAtKey := Str(now)]
  }

  predicate SafeFilename(f: string) {
    f != "" && '/' !in f && '\\' !in f && !HasDots(f)
  }

  /** Two consecutive dots. */
  predicate HasDots(f: string) {
    exists i :: 0 <= i < |f| - 1 && f[i] == '.' && f[i + 1] == '.'
  }

  ghost predicate Acceptable(order: Order) {
    order.taskName != "" && forall f :: f in order.files ==> SafeFilename(f)
  }

  /** Messages built from acceptable requests pass validation exactly when the timeout is absent or
      an integer. */
  lemma MessageIsValid(job: string, bucket: string, order: Order, now: string)
    requires IsValidJobId(job) && bucket != "" && Acceptable(order)
    ensures ValidateRequest(RequestMessage(job, bucket, order, now)).Ok?
            <==> (order.timeoutSec.None? || order.timeoutSec.value.Int?)
    ensures ContractFields(RequestMessage(job, bucket, order, now))
            == map[TaskNameKey := Str(order.taskName), EnqueuedAtKey := Str(now)]
  {
    var m := RequestMessage(job, bucket, order, now);
    TaskIsShaped(order);
    DownloadsAreShaped(bucket, job, order.files);
    MessageFields(job, bucket, order, now);
    ValidateRequestMeaning(m);
    hide ValidateRequest, IsValidJobId, TaskShape, DownloadShape, Task, DownloadEntries, OutputPrefix, RequestMessage,
      Acceptable;
  }

  lemma MessageFields(job: string, bucket: string, order: Order, now: string)
    requires IsValidJobId(job)
    ensures var m := RequestMessage(job, bucket, order, now);
            && HasString(m, JobIdKey) && m[JobIdKey].s == job
            && HasString(m, ModeKey) && m[ModeKey].s == "execute" && HasText(m, OutputPrefixKey)
            && TaskKey in m && m[TaskKey] == Obj(Task(order))
            && DownloadS3Key in m && m[DownloadS3Key] == Arr(DownloadEntries(bucket, job, order.files))
            && HasString(m, EnqueuedAtKey) && m[EnqueuedAtKey] == Str(now)
  {
    hide Task, DownloadEntries, IsValidJobId;
    assert OutputPrefix(job)[0] == 'j';
  }

  lemma TaskIsShaped(order: Order)
    requires order.taskName != ""
    ensures TaskShape(Task(order)) <==> (order.timeoutSec.None? || order.timeoutSec.value.Int?)
    ensures HasString(Task(order), NameKey) && Task(order)[NameKey] == Str(order.taskName)
  {
    var task := Task(order);
    assert task[ArgumentsKey] == Arr(Texts(order.arguments));
    assert TimeoutSecKey in task <==> order.timeoutSec.Some?;
  }

  lemma DownloadsAreShaped(bucket: string, job: string, files: seq<string>)
    requires bucket != ""
    ensures forall e :: e in DownloadEntries(bucket, job, files) ==> DownloadShape(e)
  {
    forall e | e in DownloadEntries(bucket, job, files) ensures DownloadShape(e) {
      var i :| 0 <= i < |files| && e == DownloadEntry(bucket, InputKey(job, files[i]));
      assert InputKey(job, files[i])[0] == 'j';
    }
  }

  // ---- What the messages and documents say, field by field ----

  ghost predicate IsTaskFor(task: Object, name: string, arguments: seq<string>, timeout: Option<Json>) {
    && task.Keys == {NameKey, ArgumentsKey} + (if timeout.Some? then {TimeoutSecKey} else {})
    && task[NameKey] == Str(name)
    && task[ArgumentsKey].Arr? && |task[ArgumentsKey].items| == |arguments|
    && (forall i :: 0 <= i < |arguments| ==> task[ArgumentsKey].items[i] == Str(arguments[i]))
    && (timeout.Some? ==> task[TimeoutSecKey] == timeout.value)
  }

  ghost predicate AreInputsFor(entries: seq<Json>, job: string, bucket: string, files: seq<string>) {
    && |entries| == |files|
    && forall i :: 0 <= i < |files| ==>
                     entries[i] == Obj(map[BucketKey := Str(bucket),
                                           ObjectKeyKey := Str("jobs/" + job + "/inputs/" + files[i]),
                                           MethodKey := Str("GET")])
  }

  /** The message that asks for a task with these arguments, inputs and timeout. */
  ghost predicate IsRequestFor(m: Object, job: string, bucket: string, name: string, arguments: seq<string>,
                               files: seq<string>, timeout: Option<Json>, now: string) {
    && m.Keys == {JobIdKey, ModeKey, TaskKey, DownloadS3Key, OutputPrefixKey, EnqueuedAtKey}
    && m[JobIdKey] == Str(job) && m[ModeKey] == Str("execute") && m[EnqueuedAtKey] == Str(now)
    && m[OutputPrefixKey] == Str("jobs/" + job + "/outputs/")
    && m[TaskKey].Obj? && IsTaskFor(m[TaskKey].fields, name, arguments, timeout)
    && m[DownloadS3Key].Arr? && AreInputsFor(m[DownloadS3Key].items, job, bucket, files)
  }

  lemma InputsSay(job: string, bucket: string, files: seq<string>)
    ensures AreInputsFor(DownloadEntries(bucket, job, files), job, bucket, files)
  {
    forall i | 0 <= i < |files| ensures InputKey(job, files[i]) == "jobs/" + job + "/inputs/" + files[i] {
      KeyTexts(job, files[i]);
    }
    hide InputKey;
  }

  /** A built message asks for what was ordered. */
  lemma MessageSays(job: string, bucket: string, order: Order, now: string)
    ensures IsRequestFor(RequestMessage(job, bucket, order, now), job, bucket, order.taskName, order.arguments,
                         order.files, order.timeoutSec, now)
  {
    InputsSay(job, bucket, order.files);
    KeyTexts(job, "");
    hide DownloadEntries, AreInputsFor, OutputPrefix;
    assert IsTaskFor(Task(order), order.taskName, order.arguments, order.timeoutSec);
  }

  /** The document a service stores for a fresh job. */
  lemma DocumentSays(job: string, taskName: string, now: string)
    ensures QueuedDocument(job, taskName, now)
            == map[JobIdKey := Str(job), TaskNameKey := Str(taskName), StatusKey := Str("queued"),
                   EnqueuedAtKey := Str(now), UpdatedAtKey := Str(now)]
  {}

  ghost predicate AllSigned(job: string, files: seq<string>, presign: string -> Result<string>) {
    forall i :: 0 <= i < |files| ==> presign("jobs/" + job + "/inputs/" + files[i]).Ok?
  }

  /** The first file whose input key cannot be presigned. */
  ghost predicate FirstUnsigned(job: string, files: seq<string>, presign: string -> Result<string>, i: int) {
    && 0 <= i < |files| && presign("jobs/" + job + "/inputs/" + files[i]).Err?
    && AllSigned(job, files[..i], presign)
  }

  function SigningError(job: string, file: string, presign: string -> Result<string>): string {
    var url := presign("jobs/" + job + "/inputs/" + file);
    if url.Err? then url.error else ""
  }

  /** The upload targets of the files, each presigned for the file's input key. */
  ghost predicate AreUploadsFor(urls: seq<UploadUrl>, job: string, files: seq<string>,
                                presign: string -> Result<string>) {
    && |urls| == |files|
    && forall i :: 0 <= i < |files| ==>
                     var url := presign("jobs/" + job + "/inputs/" + files[i]);
                     url.Ok? && urls[i] == UploadUrl(files[i], url.value, "PUT")
  }

  lemma UrlsSay(job: string, files: seq<string>, presign: string -> Result<string>)
    ensures UploadUrls(job, files, presign).Ok? <==> AllSigned(job, files, presign)
    ensures UploadUrls(job, files, presign).Ok? ==>
              AreUploadsFor(UploadUrls(job, files, presign).value, job, files, presign)
  {
    forall i | 0 <= i < |files| ensures InputKey(job, files[i]) == "jobs/" + job + "/inputs/" + files[i] {
      KeyTexts(job, files[i]);
    }
    hide InputKey, UploadUrls;
    if AllSigned(job, files, presign) {
      forall f | f in files ensures presign(InputKey(job, f)).Ok? {
        var i :| 0 <= i < |files| && files[i] == f;
      }
    } else {
      var i :| 0 <= i < |files| && presign(InputKey(job, files[i])).Err?;
      assert files[i] in files;
    }
  }

  /** Stopping at the first presigning error. */
  lemma FirstFailure(job: string, files: seq<string>, i: nat, presign: string -> Result<string>)
    requires i < |files| && UploadUrls(job, files[..i], presign).Ok? && presign(InputKey(job, files[i])).Err?
    ensures FirstUnsigned(job, files, presign, i) && !AllSigned(job, files, presign)
    ensures SigningError(job, files[i], presign) == presign(InputKey(job, files[i])).error
  {
    UrlsSay(job, files[..i], presign);
    KeyTexts(job, files[i]);
    hide InputKey, UploadUrls;
  }

  /** Outputs of different jobs, as the worker names them from their messages, never share a key with each
      other or with any input. */
  lemma OutputsAreSeparate(j1: string, m1: Object, f1: string, j2: string, m2: Object, f2: string)
    requires IsValidJobId(j1) && IsValidJobId(j2) && ValidateRequest(m1).Ok? && ValidateRequest(m2).Ok?
    requires OutputPrefixKey in m1 && m1[OutputPrefixKey] == Str("jobs/" + j1 + "/outputs/")
    requires OutputPrefixKey in m2 && m2[OutputPrefixKey] == Str("jobs/" + j2 + "/outputs/")
    ensures ReadJob(m1).Ok? && ReadJob(m2).Ok?
    ensures var k1, k2 := ReadJob(m1).value.outputPrefix + f1, ReadJob(m2).value.outputPrefix + f2;
            && (k1 == k2 ==> j1 == j2 && f1 == f2)
            && k1 != InputKey(j2, f2)
  {
    ValidMessagesReadSafely(m1);
    ValidMessagesReadSafely(m2);
    hide ReadJob, ValidateRequest, CStr;
    PrefixIsKept(j1);
    PrefixIsKept(j2);
    JobIdHasNoNul(j1);
    JobIdHasNoNul(j2);
    hide IsValidJobId;
    KeysAreSeparate(j1, f1, j2, f2);
    KeysAreSeparate(j2, f2, j1, f1);
  }

  /** The same for what the services send for acceptable requests. */
  lemma IssuedOutputsAreSeparate(bucket: string, j1: string, o1: Order, t1: string, f1: string,
                                 j2: string, o2: Order, t2: string, f2: string)
    requires IsValidJobId(j1) && IsValidJobId(j2) && bucket != "" && Acceptable(o1) && Acceptable(o2)
    requires o1.timeoutSec.Some? ==> o1.timeoutSec.value.Int?
    requires o2.timeoutSec.Some? ==> o2.timeoutSec.value.Int?
    ensures var r1, r2 := ReadJob(RequestMessage(j1, bucket, o1, t1)), ReadJob(RequestMessage(j2, bucket, o2, t2));
            && r1.Ok? && r2.Ok?
            && (r1.value.outputPrefix + f1 == r2.value.outputPrefix + f2 ==> j1 == j2 && f1 == f2)
            && r1.value.outputPrefix + f1 != "jobs/" + j2 + "/inputs/" + f2
  {
    hide ReadJob, ValidateRequest, RequestMessage, IsValidJobId, Acceptable, ContractFields, InputKey, IsTaskFor,
      AreInputsFor;
    MessageIsValid(j1, bucket, o1, t1);
    MessageIsValid(j2, bucket, o2, t2);
    MessageSays(j1, bucket, o1, t1);
    MessageSays(j2, bucket, o2, t2);
    KeyTexts(j2, f2);
    OutputsAreSeparate(j1, RequestMessage(j1, bucket, o1, t1), f1, j2, RequestMessage(j2, bucket, o2, t2), f2);
  }

  lemma PrefixIsKept(job: string)
    requires IsValidJobId(job)
    ensures CStr("jobs/" + job + "/outputs/") == OutputPrefix(job)
  {
    JobIdHasNoNul(job);
    KeyTexts(job, "");
    assert '\0' !in "jobs/" && '\0' !in job && '\0' !in "/outputs/";
    assert '\0' !in "jobs/" + job + "/outputs/";
  }

  function Stamped(m: Object, n: Int32): Object {
    m[DlqTryCountKey := Int(n)]
  }

  /** The message after republishing it with each of the given counts in turn. */
  function StampedAll(m: Object, counts: seq<Int32>): Object {
    if counts == [] then m else Stamped(StampedAll(m, counts[..|counts| - 1]), counts[|counts| - 1])
  }

  /** Republishing keeps the validation verdict and the contract fields, to any depth. */
  lemma {:induction false} StampsKeepVerdict(m: Object, counts: seq<Int32>)
    ensures ValidateRequest(StampedAll(m, counts)) == ValidateRequest(m)
    ensures ContractFields(StampedAll(m, counts)) == ContractFields(m)
  {
    if counts != [] {
      var before := StampedAll(m, counts[..|counts| - 1]);
      StampsKeepVerdict(m, counts[..|counts| - 1]);
      StampKeepsVerdict(before, counts[|counts| - 1]);
    }
  }

  /** Whether two messages say the same under a key. */
  predicate SameAt(a: Object, b: Object, k: Key) {
    (k in a <==> k in b) && (k in a ==> a[k] == b[k])
  }

  lemma SameText(a: Object, b: Object, k: Key)
    requires SameAt(a, b, k)
    ensures HasText(a, k) == HasText(b, k) && HasString(a, k) == HasString(b, k)
  {}

  lemma SameFieldsSameVerdict(a: Object, b: Object)
    requires SameAt(a, b, JobIdKey) && SameAt(a, b, ModeKey) && SameAt(a, b, TaskKey) && SameAt(a, b, DownloadS3Key)
    requires SameAt(a, b, OutputPrefixKey)
    ensures ValidateRequest(a) == ValidateRequest(b)
  {
    SameText(a, b, JobIdKey);
    SameText(a, b, ModeKey);
    SameText(a, b, OutputPrefixKey);
    hide ValidateTask, ValidateDownloads, IsValidJobId, CStr, HasText, HasString;
  }

  lemma SameFieldsSameContract(a: Object, b: Object)
    requires SameAt(a, b, TaskKey) && SameAt(a, b, EnqueuedAtKey)
    ensures ContractFields(a) == ContractFields(b)
  {
    SameText(a, b, EnqueuedAtKey);
    hide HasString;
  }

  lemma StampKeepsVerdict(m: Object, n: Int32)
    ensures ValidateRequest(Stamped(m, n)) == ValidateRequest(m)
    ensures ContractFields(Stamped(m, n)) == ContractFields(m)
  {
    hide ValidateRequest, ContractFields;
    SameFieldsSameVerdict(Stamped(m, n), m);
    SameFieldsSameContract(Stamped(m, n), m);
  }
}
