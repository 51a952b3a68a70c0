/** Queue messages as the worker sees them. */
module Messages {
  import opened Json
  import opened Strings
  import opened StatusDocument
  import opened MessageValidation
  import opened JobRequests
  import opened Protocol

  /** What handling makes of a message body. */
  function View(body: Payload): Message {
    if !IsObject(body) then Noise
    else
      var m := body.value.fields;
      var verdict := ValidateRequest(m);
      if verdict.Err? then
        if HasString(m, JobIdKey) && IsValidJobId(m[JobIdKey].s) then
          Malformed(m[JobIdKey].s, ContractFields(m), verdict.error)
        else Noise
      else
        ValidateRequestMeaning(m);
        Request(m[JobIdKey].s, CStr(m[TaskKey].fields[NameKey].s), ContractFields(m), m - {DlqTryCountKey},
                IntField(m, DlqTryCountKey))
  }

  /** Which messages are requests, which fail the job they name, and which are dropped. */
  lemma ViewMeans(body: Payload)
    ensures View(body).Request? <==> IsObject(body) && ValidateRequest(Fields(body)).Ok?
    ensures View(body).Malformed? <==>
            IsObject(body) && ValidateRequest(Fields(body)).Err?
            && HasString(Fields(body), JobIdKey) && IsValidJobId(Fields(body)[JobIdKey].s)
    ensures View(body).Malformed? ==>
              var m, v := Fields(body), View(body);
              v.job == m[JobIdKey].s && v.contract == ContractFields(m) && ValidateRequest(m) == Err(v.error)
  {
    hide ValidateRequest, IsValidJobId, CStr, ContractFields, RequestShape;
  }

  /** What the worker takes from a request. */
  lemma RequestMeans(m: Object)
    requires ValidateRequest(m).Ok?
    ensures HasString(m, JobIdKey) && TaskKey in m && m[TaskKey].Obj? && HasString(m[TaskKey].fields, NameKey)
    ensures var v := View(Parsed(Obj(m)));
            && v.Request? && v.job == m[JobIdKey].s && v.taskName == CStr(m[TaskKey].fields[NameKey].s)
            && v.contract == ContractFields(m)
            && v.tryCount == (if DlqTryCountKey in m && m[DlqTryCountKey].Int? then ToInt32(m[DlqTryCountKey].n) else 0)
            && (forall k :: k in v.body <==> k in m && k != DlqTryCountKey)
            && (forall k :: k in v.body ==> v.body[k] == m[k])
  {
    ValidateRequestMeaning(m);
    hide ValidateRequest, IsValidJobId, CStr, ContractFields;
  }

  /** Only the two contract fields are ever restored, and only as strings. */
  lemma ViewIsPlausible(body: Payload)
    ensures Plausible(View(body))
  {
    hide ValidateRequest, IsValidJobId, CStr;
  }

  /** The worker sees a published request as what its service issued. */
  lemma ViewOfIssued(job: string, bucket: string, order: Order, now: string)
    requires IsUuid(job) && bucket != "" && Issuable(order)
    ensures View(Parsed(Obj(RequestMessage(job, bucket, order, now)))) == Issued(job, bucket, order, now)
  {
    hide ValidateRequest, IsValidJobId, ContractFields, IsUuid, Acceptable, CStr;
    var m := RequestMessage(job, bucket, order, now);
    UuidIsValidJobId(job);
    MessageIsValid(job, bucket, order, now);
    TaskName(order);
    assert m - {DlqTryCountKey} == m;
  }

  lemma TaskName(order: Order)
    ensures NameKey in Task(order) && Task(order)[NameKey] == Str(order.taskName)
  {}

  /** A republished copy is the same request with another count. */
  lemma ViewOfRetry(m: Object, n: Int32)
    requires ValidateRequest(m).Ok?
    ensures View(Parsed(Obj(m))).Request?
    ensures View(Parsed(Obj(Stamped(m, n)))) == View(Parsed(Obj(m))).(tryCount := n)
  {
    StampKeepsVerdict(m, n);
    ValidateRequestMeaning(m);
    hide ValidateRequest, IsValidJobId, ContractFields, CStr;
    assert Stamped(m, n) - {DlqTryCountKey} == m - {DlqTryCountKey};
  }
}
