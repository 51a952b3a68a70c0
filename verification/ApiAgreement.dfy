/** The three services against the worker's message schema, and against each other. */
module ApiAgreement {
  import opened Json
  import opened Strings
  import opened ObjectKeys
  import opened MessageValidation
  import opened JobRequests
  import opened Protocol
  import opened Messages
  import GoApi
  import PythonApi
  import JsApi

  /** What a Go or Python service sends for an accepted request always passes validation. */
  lemma GoAndPythonMessagesAreValid(job: string, bucket: string, request: Submission, now: string)
    requires IsUuid(job) && bucket != ""
    ensures GoApi.Accepts(request) ==> ValidateRequest(RequestMessage(job, bucket, GoApi.OrderOf(request), now)).Ok?
    ensures PythonApi.Accepts(request) ==>
              ValidateRequest(RequestMessage(job, bucket, PythonApi.OrderOf(request), now)).Ok?
  {
    UuidIsValidJobId(job);
    if GoApi.Accepts(request) {
      assert forall f :: f in OrEmpty(request.files) ==> GoApi.ValidFilename(f);
      MessageIsValid(job, bucket, GoApi.OrderOf(request), now);
    }
    if PythonApi.Accepts(request) { MessageIsValid(job, bucket, PythonApi.OrderOf(request), now); }
  }

  /** What the TypeScript service sends passes exactly when the timeout is not an explicit null. */
  lemma JsMessagesAreValid(job: string, bucket: string, request: Submission, now: string)
    requires IsUuid(job) && bucket != "" && JsApi.Accepts(request)
    ensures ValidateRequest(RequestMessage(job, bucket, JsApi.OrderOf(request), now)).Ok?
            <==> !request.timeoutSec.ExplicitNull?
  {
    UuidIsValidJobId(job);
    MessageIsValid(job, bucket, JsApi.OrderOf(request), now);
  }

  lemma TaskOfMessage(job: string, bucket: string, order: Order, now: string)
    ensures var m := RequestMessage(job, bucket, order, now); TaskKey in m && m[TaskKey] == Obj(Task(order))
  {}

  /** On requests all three accept, Go and Python build the same message, and the TypeScript one is
      the same exactly when the timeout is not an explicit null. */
  lemma ServicesAgree(job: string, bucket: string, request: Submission, now: string)
    requires GoApi.Accepts(request) && PythonApi.Accepts(request) && JsApi.Accepts(request)
    ensures RequestMessage(job, bucket, GoApi.OrderOf(request), now)
            == RequestMessage(job, bucket, PythonApi.OrderOf(request), now)
    ensures RequestMessage(job, bucket, JsApi.OrderOf(request), now)
            == RequestMessage(job, bucket, GoApi.OrderOf(request), now)
            <==> !request.timeoutSec.ExplicitNull?
  {
    assert GoApi.OrderOf(request) == PythonApi.OrderOf(request);
    if request.timeoutSec.ExplicitNull? {
      assert TimeoutSecKey in Task(JsApi.OrderOf(request)) && TimeoutSecKey !in Task(GoApi.OrderOf(request));
      TaskOfMessage(job, bucket, JsApi.OrderOf(request), now);
      TaskOfMessage(job, bucket, GoApi.OrderOf(request), now);
    } else {
      assert JsApi.OrderOf(request) == GoApi.OrderOf(request);
    }
  }

  /** A request all three accept for which the TypeScript service sends an invalid message. */
  lemma NullTimeoutIsRejected(job: string, now: string)
    requires IsUuid(job)
    ensures var request := Submission("wordcount", Absent, Absent, ExplicitNull);
            && GoApi.Accepts(request) && PythonApi.Accepts(request) && JsApi.Accepts(request)
            && ValidateRequest(RequestMessage(job, "b", JsApi.OrderOf(request), now)).Err?
  {
    JsMessagesAreValid(job, "b", Submission("wordcount", Absent, Absent, ExplicitNull), now);
  }

  lemma AcceptedAreIssuable(request: Submission)
    ensures GoApi.Accepts(request) ==> Issuable(GoApi.OrderOf(request))
    ensures PythonApi.Accepts(request) ==> Issuable(PythonApi.OrderOf(request))
    ensures JsApi.Accepts(request) ==> (Issuable(JsApi.OrderOf(request)) <==> !request.timeoutSec.ExplicitNull?)
  {
    assert GoApi.Accepts(request) ==> forall f :: f in OrEmpty(request.files) ==> GoApi.ValidFilename(f);
  }

  /** A service's two effects are the protocol's: the stored document is its write step, and the worker
      sees the sent message as the request that step issued. */
  lemma IssuingIsAProtocolStep(cfg: Config, s: System, job: string, order: Order, now: string)
    requires IsUuid(job) && cfg.bucket != "" && job !in s.requests && Issuable(order)
    ensures var t := Do(cfg, s, ApiWrite(job, order, now));
            && t.redis == s.redis[job := Parsed(Obj(QueuedDocument(job, order.taskName, now)))]
            && job in t.requests && t.requests[job] == View(Parsed(Obj(RequestMessage(job, cfg.bucket, order, now))))
            && Do(cfg, t, ApiPublish(job))
               == Send(t, First(View(Parsed(Obj(RequestMessage(job, cfg.bucket, order, now))))))
  {
    hide View, Issued, QueuedDocument, RequestMessage, Send;
    ViewOfIssued(job, cfg.bucket, order, now);
  }

  const UUID := "00000000-0000-0000-0000-000000000000"
  const NUL_NAME := "a\0b"

  lemma NulNameIsValid()
    ensures SafeFilename(NUL_NAME) && GoApi.ValidFilename(NUL_NAME) && '\0' in NUL_NAME && CStr(NUL_NAME) == "a"
  {
    var name := NUL_NAME;
    assert name[0] == 'a' && name[1] == '\0' && name[2] == 'b';
    assert GoApi.Bytes(name[1..][1..][1..]) == 0;
    assert GoApi.Bytes(name[1..][1..]) == 1;
    assert GoApi.Bytes(name[1..]) == 2;
    CStrOfPrefix("a", "\0b");
    assert name == "a" + "\0b";
  }

  lemma UuidHasNoNul()
    ensures IsUuid(UUID) && '\0' !in UUID
  {
    UuidIsValidJobId(UUID);
    JobIdHasNoNul(UUID);
  }

  /** A request all three accept whose input the worker can neither ask for nor store: it asks for a key
      nobody was given a URL for, and takes the name to be another. */
  lemma NulNameIsMisread()
    ensures var request := Submission("wordcount", Absent, Value([NUL_NAME]), Absent);
            && GoApi.Accepts(request) && PythonApi.Accepts(request) && JsApi.Accepts(request)
    ensures IsUuid(UUID)
    ensures CStr(InputKey(UUID, NUL_NAME)) == InputKey(UUID, "a") && InputKey(UUID, "a") != InputKey(UUID, NUL_NAME)
    ensures KeyFilename(CStr(InputKey(UUID, NUL_NAME))) == "a"
  {
    NulNameIsValid();
    UuidHasNoNul();
    hide InputKey, KeyFilename, IsUuid, CStr, SafeFilename, GoApi.ValidFilename;
    SafeHasNoSlash(NUL_NAME);
    RequestedKey(UUID, NUL_NAME);
    DownloadedName(UUID, NUL_NAME);
  }

  lemma SafeHasNoSlash(f: string)
    requires SafeFilename(f)
    ensures '/' !in f
  {}
}
