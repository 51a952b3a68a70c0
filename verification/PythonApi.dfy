/** The Python job service. */
module PythonApi {
  import opened Json
  import opened ObjectKeys
  import opened StatusDocument
  import opened JobRequests

  /** Lists may be left out but not be null; the name limits count characters. */
  ghost predicate Accepts(request: Submission) {
    && 1 <= |request.taskName| <= 128
    && !request.arguments.ExplicitNull? && !request.files.ExplicitNull?
    && (request.timeoutSec.Value? ==> 1 <= request.timeoutSec.value <= 3600)
    && forall f :: f in OrEmpty(request.files) ==> |f| <= 255 && SafeFilename(f)
  }

  function OrderOf(request: Submission): Order {
    Order(request.taskName, OrEmpty(request.arguments), OrEmpty(request.files),
          if request.timeoutSec.Value? then Some(Int(request.timeoutSec.value)) else None)
  }

  class JobService {
    const bucket: string
    var store: Store
    var sent: seq<Payload>

    constructor (bucket: string)
      ensures this.bucket == bucket && store == map[] && sent == []
    {
      this.bucket := bucket;
      store := map[];
      sent := [];
    }

    /** The queued document is stored before the message is published: a message is sent only for a
        job whose document was written, and a failed publish leaves the document behind. */
    method CreateJob(job: string, now: string, request: Submission, presign: string -> Result<string>,
                     storeError: Option<string>, queueError: Option<string>)
      returns (r: Result<seq<UploadUrl>>)
      modifies this
      ensures var signed := AllSigned(job, InputsOf(request), presign);
              && (r.Ok? <==> signed && storeError.None? && queueError.None?)
              && (r.Ok? ==> AreUploadsFor(r.value, job, InputsOf(request), presign))
              && store == (if signed && storeError.None?
                           then old(store)[job := Parsed(Obj(map[JobIdKey := Str(job),
                                                                 TaskNameKey := Str(request.taskName),
                                                                 StatusKey := Str("queued"),
                                                                 EnqueuedAtKey := Str(now),
                                                                 UpdatedAtKey := Str(now)]))]
                           else old(store))
              && sent == (if r.Ok? then old(sent) + [Parsed(Obj(RequestMessage(job, bucket, OrderOf(request), now)))]
                          else old(sent))
              && (!signed ==>
                    exists i :: FirstUnsigned(job, InputsOf(request), presign, i)
                                && r == Err(SigningError(job, InputsOf(request)[i], presign)))
              && (signed && storeError.Some? ==> r == Err(storeError.value))
              && (signed && storeError.None? && queueError.Some? ==>
                    r == Err("cannot enqueue job: " + queueError.value))
      ensures IsRequestFor(RequestMessage(job, bucket, OrderOf(request), now), job, bucket, request.taskName,
                           if request.arguments.Value? then request.arguments.value else [],
                           InputsOf(request),
                           if request.timeoutSec.Value? then Some(Int(request.timeoutSec.value)) else None,
                           now)
    {
      hide IsRequestFor, AllSigned, AreUploadsFor, FirstUnsigned, SigningError, UploadUrls, DownloadEntries,
        InputKey, DownloadEntry, QueuedDocument;
      var order := OrderOf(request);
      DocumentSays(job, order.taskName, now);
      MessageSays(job, bucket, order, now);
      var uploadUrls: seq<UploadUrl> := [];
      var downloads: seq<Json> := [];
      for i := 0 to |order.files|
        invariant UploadUrls(job, order.files[..i], presign) == Ok(uploadUrls)
        invariant downloads == DownloadEntries(bucket, job, order.files[..i])
        invariant store == old(store) && sent == old(sent)
      {
        var key := InputKey(job, order.files[i]);
        var url := presign(key);
        OneMoreFile(bucket, job, order.files, i, presign);
        if url.Err? {
          FirstFailure(job, order.files, i, presign);
          return Err(url.error);
        }
        uploadUrls := uploadUrls + [UploadUrl(order.files[i], url.value, "PUT")];
        downloads := downloads + [DownloadEntry(bucket, key)];
      }
      assert order.files[..|order.files|] == order.files;
      UrlsSay(job, order.files, presign);
      if storeError.Some? {
        return Err(storeError.value);
      }
      store := store[job := Parsed(Obj(QueuedDocument(job, order.taskName, now)))];
      var task := map[NameKey := Str(order.taskName), ArgumentsKey := Arr(Texts(order.arguments))];
      if request.timeoutSec.Value? {
        task := task[TimeoutSecKey := Int(request.timeoutSec.value)];
      }
      var message := QueueMessage(job, task, downloads, now);
      if queueError.Some? {
        return Err("cannot enqueue job: " + queueError.value);
      }
      sent := sent + [Parsed(Obj(message))];
      return Ok(uploadUrls);
    }
  }
}
