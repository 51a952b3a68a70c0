/** The Go job service. */
module GoApi {
  import opened Json
  import opened ObjectKeys
  import opened StatusDocument
  import opened JobRequests

  /** Bytes of a character in UTF-8. */
  function ByteLength(c: char): nat {
    var n := c as int;
    if n < 0x80 then 1 else if n < 0x800 then 2 else if n < 0x10000 then 3 else 4
  }

  function Bytes(s: string): nat {
    if s == [] then 0 else ByteLength(s[0]) + Bytes(s[1..])
  }

  /** The name limit counts bytes. */
  predicate ValidFilename(f: string) {
    f != "" && Bytes(f) <= 255 && '/' !in f && '\\' !in f && !HasDots(f)
  }

  lemma {:induction false} BytesBound(s: string)
    ensures |s| <= Bytes(s) <= 4 * |s|
    ensures (forall i :: 0 <= i < |s| ==> s[i] as int < 0x80) ==> Bytes(s) == |s|
  {
    if s != [] { BytesBound(s[1..]); }
  }

  /** A name of ASCII characters is valid exactly if it has 1 to 255 of them, no separator and no two
      dots in a row; other characters count for more. */
  lemma AsciiFilename(f: string)
    requires forall i :: 0 <= i < |f| ==> f[i] as int < 0x80
    ensures ValidFilename(f) <==>
            && 1 <= |f| <= 255
            && (forall i :: 0 <= i < |f| ==> f[i] as int != 47 && f[i] as int != 92)
            && forall i :: 0 <= i < |f| - 1 ==> !(f[i] == '.' && f[i + 1] == '.')
  {
    BytesBound(f);
    hide Bytes;
    assert '/' as int == 47 && '\\' as int == 92;
    assert '/' in f <==> exists i :: 0 <= i < |f| && f[i] as int == 47;
    assert '\\' in f <==> exists i :: 0 <= i < |f| && f[i] as int == 92;
  }

  /** The services agree on which names are safe; Go alone counts their bytes. */
  lemma SafeMeans(f: string)
    ensures ValidFilename(f) <==> SafeFilename(f) && Bytes(f) <= 255
    ensures |f| <= 255 && (forall i :: 0 <= i < |f| ==> f[i] as int < 0x80) ==> (ValidFilename(f) <==> SafeFilename(f))
  {
    BytesBound(f);
    hide Bytes, HasDots;
  }

  /** The loop over the input files: all names, or nothing at the first bad one. */
  method CollectFilenames(files: seq<string>) returns (r: Option<seq<string>>)
    ensures r.Some? <==> forall f :: f in files ==> ValidFilename(f)
    ensures r.Some? ==> r.value == files
  {
    var names: seq<string> := [];
    for i := 0 to |files|
      invariant names == files[..i]
      invariant forall f :: f in files[..i] ==> ValidFilename(f)
    {
      if !ValidFilename(files[i]) {
        return None;
      }
      names := names + [files[i]];
    }
    return Some(names);
  }

  ghost predicate Accepts(request: Submission) {
    && 1 <= |request.taskName| <= 128
    && (request.timeoutSec.Value? ==> 0 <= request.timeoutSec.value <= 3600)
    && forall f :: f in OrEmpty(request.files) ==> ValidFilename(f)
  }

  /** A nil argument list becomes empty, and a zero timeout is omitted from the message. */
  function OrderOf(request: Submission): Order {
    var timeout := if request.timeoutSec.Value? then request.timeoutSec.value else 0;
    Order(request.taskName, OrEmpty(request.arguments), OrEmpty(request.files),
          if timeout == 0 then None else Some(Int(timeout)))
  }

  class JobService {
    const bucket: string
    var store: Store
    var sent: seq<Payload>

    constructor (bucket: string)
      ensures this.bucket == bucket && store == map[] && sent == []
    {
      this.bucket := bucket;
      store := map[];
      sent := [];
    }

    /** The queued document is stored before the message is published: a message is sent only for a
        job whose document was written, and a failed publish leaves the document behind. */
    method CreateJob(job: string, now: string, request: Submission, presign: string -> Result<string>,
                     storeError: Option<string>, queueError: Option<string>)
      returns (r: Result<seq<UploadUrl>>)
      modifies this
      ensures var signed := AllSigned(job, InputsOf(request), presign);
              && (r.Ok? <==> signed && storeError.None? && queueError.None?)
              && (r.Ok? ==> AreUploadsFor(r.value, job, InputsOf(request), presign))
              && store == (if signed && storeError.None?
                           then old(store)[job := Parsed(Obj(map[JobIdKey := Str(job),
                                                                 TaskNameKey := Str(request.taskName),
                                                                 StatusKey := Str("queued"),
                                                                 EnqueuedAtKey := Str(now),
                                                                 UpdatedAtKey := Str(now)]))]
                           else old(store))
              && sent == (if r.Ok? then old(sent) + [Parsed(Obj(RequestMessage(job, bucket, OrderOf(request), now)))]
                          else old(sent))
              && (!signed ==>
                    exists i :: FirstUnsigned(job, InputsOf(request), presign, i)
                                && r == Err("presign input " + InputsOf(request)[i] + ": "
                                         + SigningError(job, InputsOf(request)[i], presign)))
              && (signed && storeError.Some? ==> r == Err("record queued status: " + storeError.value))
              && (signed && storeError.None? && queueError.Some? ==> r == Err("enqueue job: " + queueError.value))
      ensures IsRequestFor(RequestMessage(job, bucket, OrderOf(request), now), job, bucket, request.taskName,
                           if request.arguments.Value? then request.arguments.value else [],
                           InputsOf(request),
                           if request.timeoutSec.Value? && request.timeoutSec.value != 0
                           then Some(Int(request.timeoutSec.value)) else None,
                           now)
    {
      hide IsRequestFor, AllSigned, AreUploadsFor, FirstUnsigned, SigningError, UploadUrls, DownloadEntries,
        InputKey, DownloadEntry, QueuedDocument, Task;
      var order := OrderOf(request);
      DocumentSays(job, order.taskName, now);
      MessageSays(job, bucket, order, now);
      var uploadUrls: seq<UploadUrl> := [];
      var downloads: seq<Json> := [];
      for i := 0 to |order.files|
        invariant UploadUrls(job, order.files[..i], presign) == Ok(uploadUrls)
        invariant downloads == DownloadEntries(bucket, job, order.files[..i])
        invariant store == old(store) && sent == old(sent)
      {
        var key := InputKey(job, order.files[i]);
        var url := presign(key);
        OneMoreFile(bucket, job, order.files, i, presign);
        if url.Err? {
          FirstFailure(job, order.files, i, presign);
          return Err("presign input " + order.files[i] + ": " + url.error);
        }
        uploadUrls := uploadUrls + [UploadUrl(order.files[i], url.value, "PUT")];
        downloads := downloads + [DownloadEntry(bucket, key)];
      }
      assert order.files[..|order.files|] == order.files;
      UrlsSay(job, order.files, presign);
      if storeError.Some? {
        return Err("record queued status: " + storeError.value);
      }
      store := store[job := Parsed(Obj(QueuedDocument(job, order.taskName, now)))];
      var message := QueueMessage(job, Task(order), downloads, now);
      if queueError.Some? {
        return Err("enqueue job: " + queueError.value);
      }
      sent := sent + [Parsed(Obj(message))];
      return Ok(uploadUrls);
    }
  }
}
