/** The schema check on request messages, and the accesses that rely on it. */
module MessageValidation {
  import opened Json
  import opened Strings

  const JOB_ID_MAX := 64

  predicate IsJobIdChar(c: char) {
    'a' <= c <= 'z' || 'A' <= c <= 'Z' || '0' <= c <= '9' || c == '-' || c == '_'
  }

  predicate IsValidJobId(id: string) {
    id != "" && |id| <= JOB_ID_MAX && forall i :: 0 <= i < |id| ==> IsJobIdChar(id[i])
  }

  predicate HasText(o: Object, key: Key) {
    HasString(o, key) && o[key].s != ""
  }

  // ---- The check, in the order the worker makes it ----

  function ValidateRequest(message: Object): (r: Result<()>) {
    if !HasText(message, JobIdKey) then Err("job_id is required and must be a non-empty string")
    else if !IsValidJobId(message[JobIdKey].s) then Err("job_id must match [A-Za-z0-9_-]{1,64}")
    else if !HasString(message, ModeKey) then Err("mode is required and must be a string")
    else if message[ModeKey].s != "execute" then Err("unsupported mode: " + CStr(message[ModeKey].s))
    else if !(TaskKey in message && message[TaskKey].Obj?) then Err("task is required and must be an object")
    else
      var _ :- ValidateTask(message[TaskKey].fields);
      if !(DownloadS3Key in message && message[DownloadS3Key].Arr?) then
        Err("download_s3 is required and must be an array")
      else
        var _ :- ValidateDownloads(message[DownloadS3Key].items);
        if !HasText(message, OutputPrefixKey) then
          Err("output_prefix is required and must be a non-empty string")
        else
          Ok(())
  }

  function ValidateTask(task: Object): (r: Result<()>) {
    if !HasText(task, NameKey) then Err("task.name is required and must be a non-empty string")
    else if ArgumentsKey in task && !task[ArgumentsKey].Arr? then Err("task.arguments must be an array of strings")
    else if ArgumentsKey in task && !AllStrings(task[ArgumentsKey].items) then
      Err("task.arguments must contain only strings")
    else if TimeoutSecKey in task && !task[TimeoutSecKey].Int? then Err("task.timeout_sec must be an integer")
    else Ok(())
  }

  predicate AllStrings(items: seq<Json>) {
    items == [] || (items[0].Str? && AllStrings(items[1..]))
  }

  function ValidateDownloads(entries: seq<Json>): (r: Result<()>) {
    if entries == [] then Ok(())
    else
      var _ :- ValidateDownload(entries[0]);
      ValidateDownloads(entries[1..])
  }

  function ValidateDownload(entry: Json): (r: Result<()>) {
    if !entry.Obj? then Err("download_s3 entries must be objects")
    else if !HasText(entry.fields, BucketKey) then Err("download_s3.bucket is required and must be a non-empty string")
    else if !HasText(entry.fields, ObjectKeyKey) then Err("download_s3.key is required and must be a non-empty string")
    else if !HasString(entry.fields, MethodKey) then Err("download_s3.method is required and must be a string")
    else Ok(())
  }

  // ---- What the check means ----

  ghost predicate TaskShape(task: Object) {
    && HasString(task, NameKey) && task[NameKey].s != ""
    && (ArgumentsKey in task ==> task[ArgumentsKey].Arr? && forall a :: a in task[ArgumentsKey].items ==> a.Str?)
    && (TimeoutSecKey in task ==> task[TimeoutSecKey].Int?)
  }

  ghost predicate DownloadShape(entry: Json) {
    && entry.Obj?
    && HasString(entry.fields, BucketKey) && entry.fields[BucketKey].s != ""
    && HasString(entry.fields, ObjectKeyKey) && entry.fields[ObjectKeyKey].s != ""
    && HasString(entry.fields, MethodKey)
  }

  ghost predicate RequestShape(message: Object) {
    && HasString(message, JobIdKey) && IsValidJobId(message[JobIdKey].s)
    && HasString(message, ModeKey) && message[ModeKey].s == "execute"
    && TaskKey in message && message[TaskKey].Obj? && TaskShape(message[TaskKey].fields)
    && DownloadS3Key in message && message[DownloadS3Key].Arr?
    && (forall e :: e in message[DownloadS3Key].items ==> DownloadShape(e))
    && HasString(message, OutputPrefixKey) && message[OutputPrefixKey].s != ""
  }

  lemma {:induction false} AllStringsMeaning(items: seq<Json>)
    ensures AllStrings(items) <==> forall a :: a in items ==> a.Str?
  {
    if items != [] {
      AllStringsMeaning(items[1..]);
      assert forall a :: a in items <==> a == items[0] || a in items[1..];
    }
  }

  lemma ValidateDownloadMeaning(entry: Json)
    ensures ValidateDownload(entry).Ok? <==> DownloadShape(entry)
  {}

  /** The downloads pass when all entries do; otherwise the first bad entry decides the error. */
  lemma {:induction false} ValidateDownloadsMeaning(entries: seq<Json>)
    ensures ValidateDownloads(entries).Ok? <==> forall e :: e in entries ==> DownloadShape(e)
    ensures ValidateDownloads(entries).Err? ==>
              exists i :: 0 <= i < |entries| && ValidateDownload(entries[i]) == ValidateDownloads(entries)
                          && forall k :: 0 <= k < i ==> DownloadShape(entries[k])
  {
    hide ValidateDownload, DownloadShape;
    if entries != [] {
      var rest := entries[1..];
      ValidateDownloadMeaning(entries[0]);
      ValidateDownloadsMeaning(rest);
      assert forall e :: e in entries <==> e == entries[0] || e in rest;
      if ValidateDownload(entries[0]).Err? {
      } else if ValidateDownloads(rest).Err? {
        var i :| 0 <= i < |rest| && ValidateDownload(rest[i]) == ValidateDownloads(rest)
                 && forall k :: 0 <= k < i ==> DownloadShape(rest[k]);
        assert entries[i + 1] == rest[i];
        assert forall k :: 0 < k < i + 1 ==> entries[k] == rest[k - 1];
      } else {
      }
    }
  }

  /** The check succeeds exactly on messages of the required shape. */
  lemma ValidateRequestMeaning(message: Object)
    ensures ValidateRequest(message).Ok? <==> RequestShape(message)
  {
    if TaskKey in message && message[TaskKey].Obj? {
      var task := message[TaskKey].fields;
      if ArgumentsKey in task && task[ArgumentsKey].Arr? { AllStringsMeaning(task[ArgumentsKey].items); }
      assert ValidateTask(task).Ok? <==> TaskShape(task);
    }
    if DownloadS3Key in message && message[DownloadS3Key].Arr? {
      ValidateDownloadsMeaning(message[DownloadS3Key].items);
    }
  }

  /** A job ID in code points: 1 to 64 letters, digits, hyphens and underscores of ASCII. */
  lemma JobIdMeans(id: string)
    ensures IsValidJobId(id) <==>
            && 1 <= |id| <= 64
            && forall i :: 0 <= i < |id| ==>
                             var n := id[i] as int;
                             n == 45 || n == 95 || 48 <= n <= 57 || 65 <= n <= 90 || 97 <= n <= 122
  {
    assert forall c :: IsJobIdChar(c) <==>
                       var n := c as int; n == 45 || n == 95 || 48 <= n <= 57 || 65 <= n <= 90 || 97 <= n <= 122;
    hide IsJobIdChar;
  }

  /** What a rejected message is told: the first of these complaints that applies. */
  lemma FirstComplaint(m: Object)
    ensures var r := ValidateRequest(m);
            && (!HasText(m, JobIdKey) ==> r == Err("job_id is required and must be a non-empty string"))
            && (HasText(m, JobIdKey) ==>
                  if !IsValidJobId(m[JobIdKey].s) then r == Err("job_id must match [A-Za-z0-9_-]{1,64}")
                  else if !HasString(m, ModeKey) then r == Err("mode is required and must be a string")
                  else if m[ModeKey].s != "execute" then r == Err("unsupported mode: " + CStr(m[ModeKey].s))
                  else if !(TaskKey in m && m[TaskKey].Obj?) then r == Err("task is required and must be an object")
                  else if !HasText(m[TaskKey].fields, NameKey) then
                    r == Err("task.name is required and must be a non-empty string")
                  else true)
    ensures var r := ValidateRequest(m);
            HasText(m, JobIdKey) && IsValidJobId(m[JobIdKey].s) && HasString(m, ModeKey) && m[ModeKey].s == "execute"
            && TaskKey in m && m[TaskKey].Obj? && HasText(m[TaskKey].fields, NameKey) ==>
              var task := m[TaskKey].fields;
              if ArgumentsKey in task && !task[ArgumentsKey].Arr? then
                r == Err("task.arguments must be an array of strings")
              else if ArgumentsKey in task && exists a :: a in task[ArgumentsKey].items && !a.Str? then
                r == Err("task.arguments must contain only strings")
              else if TimeoutSecKey in task && !task[TimeoutSecKey].Int? then
                r == Err("task.timeout_sec must be an integer")
              else if !(DownloadS3Key in m && m[DownloadS3Key].Arr?) then
                r == Err("download_s3 is required and must be an array")
              else
                r == if ValidateDownloads(m[DownloadS3Key].items).Err? then ValidateDownloads(m[DownloadS3Key].items)
                     else if !HasText(m, OutputPrefixKey) then
                       Err("output_prefix is required and must be a non-empty string")
                     else Ok(())
  {
    if TaskKey in m && m[TaskKey].Obj? && ArgumentsKey in m[TaskKey].fields && m[TaskKey].fields[ArgumentsKey].Arr? {
      AllStringsMeaning(m[TaskKey].fields[ArgumentsKey].items);
    }
    hide IsValidJobId, CStr, ValidateDownloads, AllStrings;
  }

  /** What a rejected download entry is told. */
  lemma EntryComplaint(entry: Json)
    ensures var r := ValidateDownload(entry);
            if !entry.Obj? then r == Err("download_s3 entries must be objects")
            else if !HasText(entry.fields, BucketKey) then
              r == Err("download_s3.bucket is required and must be a non-empty string")
            else if !HasText(entry.fields, ObjectKeyKey) then
              r == Err("download_s3.key is required and must be a non-empty string")
            else r == if HasString(entry.fields, MethodKey) then Ok(())
                      else Err("download_s3.method is required and must be a string")
  {}

  // ---- Accesses that throw when the shape is wrong ----

  function At(o: Object, key: Key): Result<Json> {
    if key in o then Ok(o[key]) else Err("out of range")
  }

  function AsString(j: Json): Result<string> {
    if j.Str? then Ok(j.s) else Err("not a string")
  }

  function AsArray(j: Json): Result<seq<Json>> {
    if j.Arr? then Ok(j.items) else Err("not an array")
  }

  function AsObject(j: Json): Result<Object> {
    if j.Obj? then Ok(j.fields) else Err("not an object")
  }

  function AsInt64(j: Json): Result<Int64> {
    if j.Int? then Ok(j.n) else Err("not an integer")
  }

  function TextAt(o: Object, key: Key): Result<string> {
    var j :- At(o, key);
    var s :- AsString(j);
    Ok(CStr(s))
  }

  datatype Download = Download(bucket: string, key: string)

  datatype Job = Job(id: string, taskName: string, downloads: seq<Download>, arguments: seq<string>,
                     timeoutSec: Int32, outputPrefix: string)

  /** Everything processing a job reads from its message, by accesses that may throw. */
  function ReadJob(message: Object): Result<Job> {
    var id :- TextAt(message, JobIdKey);
    var taskValue :- At(message, TaskKey);
    var task :- AsObject(taskValue);
    var name :- TextAt(task, NameKey);
    var listValue :- At(message, DownloadS3Key);
    var list :- AsArray(listValue);
    var downloads :- ReadDownloads(list);
    var arguments :- ReadArguments(task);
    var timeout :- ReadTimeout(task);
    var prefix :- TextAt(message, OutputPrefixKey);
    Ok(Job(id, name, downloads, arguments, timeout, prefix))
  }

  function ReadDownloads(entries: seq<Json>): Result<seq<Download>> {
    if entries == [] then Ok([])
    else
      var o :- AsObject(entries[0]);
      var bucket :- TextAt(o, BucketKey);
      var key :- TextAt(o, ObjectKeyKey);
      var rest :- ReadDownloads(entries[1..]);
      Ok([Download(bucket, key)] + rest)
  }

  function ReadArguments(task: Object): Result<seq<string>> {
    if ArgumentsKey !in task then Ok([])
    else
      var items :- AsArray(task[ArgumentsKey]);
      ReadStrings(items)
  }

  function ReadStrings(items: seq<Json>): Result<seq<string>> {
    if items == [] then Ok([])
    else
      var s :- AsString(items[0]);
      var rest :- ReadStrings(items[1..]);
      Ok([CStr(s)] + rest)
  }

  function ReadTimeout(task: Object): Result<Int32> {
    if TimeoutSecKey !in task then Ok(0)
    else
      var n :- AsInt64(task[TimeoutSecKey]);
      Ok(ToInt32(n))
  }

  lemma {:induction false} ReadStringsSafe(items: seq<Json>)
    requires forall a :: a in items ==> a.Str?
    ensures ReadStrings(items).Ok? && |ReadStrings(items).value| == |items|
    ensures forall i :: 0 <= i < |items| ==> ReadStrings(items).value[i] == CStr(items[i].s)
  {
    if items != [] { ReadStringsSafe(items[1..]); }
  }

  lemma {:induction false} ReadDownloadsSafe(entries: seq<Json>)
    requires forall e :: e in entries ==> DownloadShape(e)
    ensures ReadDownloads(entries).Ok? && |ReadDownloads(entries).value| == |entries|
    ensures forall i :: 0 <= i < |entries| ==>
                          entries[i].Obj? && HasString(entries[i].fields, BucketKey)
                          && HasString(entries[i].fields, ObjectKeyKey)
                          && ReadDownloads(entries).value[i]
                             == Download(CStr(entries[i].fields[BucketKey].s), CStr(entries[i].fields[ObjectKeyKey].s))
  {
    if entries != [] {
      assert DownloadShape(entries[0]);
      ReadDownloadsSafe(entries[1..]);
    }
  }

  lemma JobIdHasNoNul(id: string)
    requires IsValidJobId(id)
    ensures CStr(id) == id && '/' !in id
  {
    assert forall i :: 0 <= i < |id| ==> IsJobIdChar(id[i]);
  }

  /** No access made for a message that passed the check throws, and the job is read off its fields. */
  lemma ValidMessagesReadSafely(message: Object)
    requires ValidateRequest(message).Ok?
    ensures ReadJob(message).Ok?
    ensures ReadJob(message).value.id == message[JobIdKey].s
    ensures ReadJob(message).value.taskName == CStr(message[TaskKey].fields[NameKey].s)
    ensures ReadJob(message).value.outputPrefix == CStr(message[OutputPrefixKey].s)
    ensures var entries, downloads := message[DownloadS3Key].items, ReadJob(message).value.downloads;
            && |downloads| == |entries|
            && forall i :: 0 <= i < |entries| ==>
                             entries[i].Obj? && HasString(entries[i].fields, BucketKey)
                             && HasString(entries[i].fields, ObjectKeyKey)
                             && downloads[i].bucket == CStr(entries[i].fields[BucketKey].s)
                             && downloads[i].key == CStr(entries[i].fields[ObjectKeyKey].s)
    ensures var task, arguments := message[TaskKey].fields, ReadJob(message).value.arguments;
            if ArgumentsKey !in task then arguments == []
            else
              && task[ArgumentsKey].Arr? && |arguments| == |task[ArgumentsKey].items|
              && forall i :: 0 <= i < |arguments| ==>
                               task[ArgumentsKey].items[i].Str? && arguments[i] == CStr(task[ArgumentsKey].items[i].s)
    ensures var task, timeout := message[TaskKey].fields, ReadJob(message).value.timeoutSec;
            if TimeoutSecKey !in task then timeout == 0
            else task[TimeoutSecKey].Int? && timeout == ToInt32(task[TimeoutSecKey].n)
  {
    ValidateRequestMeaning(message);
    JobIdHasNoNul(message[JobIdKey].s);
    ReadDownloadsSafe(message[DownloadS3Key].items);
    var task := message[TaskKey].fields;
    assert TextAt(task, NameKey).Ok?;
    if ArgumentsKey in task { ReadStringsSafe(task[ArgumentsKey].items); }
  }
}
