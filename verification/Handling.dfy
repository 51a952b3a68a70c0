/** What a handled message leaves in the job's document and DLQ entry, field by field. */
module Handling {
  import opened Json
  import opened StatusDocument
  import opened Protocol
  import TaskDlq

  /** A status, a failure reason and a time. */
  predicate Reports(d: Object, status: string, reason: string, now: string) {
    && StatusKey in d && d[StatusKey] == Str(status)
    && FailureReasonKey in d && d[FailureReasonKey] == Str(reason)
    && UpdatedAtKey in d && d[UpdatedAtKey] == Str(now)
  }

  predicate Counts(d: Object, n: int) {
    RetryCountKey in d && d[RetryCountKey].Int? && d[RetryCountKey].n == n
  }

  /** Done, with exit code 0, the tail, the results and no failure reason. */
  predicate Finished(d: Object, tail: string, results: seq<Json>, now: string) {
    && StatusKey in d && d[StatusKey] == Str("done")
    && ExitCodeKey in d && d[ExitCodeKey] == Int(0)
    && StdoutTailKey in d && d[StdoutTailKey] == Str(tail)
    && ResultDownloadUrlKey in d && d[ResultDownloadUrlKey] == Arr(results)
    && FailureReasonKey !in d
    && UpdatedAtKey in d && d[UpdatedAtKey] == Str(now)
  }

  /** Documents of other jobs are as they were. */
  predicate OnlyTouches(before: Store, after: Store, job: string) {
    after - {job} == before - {job}
  }

  /** A failed attempt. Unrecorded: the job fails. Out of retries: it fails with its count and without
      its entry. Not republished: the same, and the reason says so. Otherwise it is queued again with
      its count, and its entry remembers it. */
  predicate FailureHandled(d: Object, before: TaskDlq.Entries, after: TaskDlq.Entries, job: string, reason: string,
                           recorded: bool, n: Int32, max: int, sendError: Option<string>, request: string, now: string)
  {
    if !recorded then Reports(d, "failed", reason, now) && after == before
    else if n > max then Reports(d, "failed", reason, now) && Counts(d, n) && after == before - {job}
    else if sendError.Some? then
      && Reports(d, "failed", reason + " (republish failed: " + sendError.value + ")", now) && Counts(d, n)
      && after == before - {job}
    else
      && Reports(d, "queued", reason, now) && Counts(d, n)
      && after == before[job := Parsed(Obj(map[JobIdKey := Str(job),
                                               TryCountKey := Int(n),
                                               FailureReasonKey := Str(reason),
                                               OtherKey("request_message") := Str(request)]))]
  }

  lemma SavedTouchesOne(redis: Store, job: string, status: Status, updates: Object, now: string)
    ensures OnlyTouches(redis, Saved(redis, job, status, updates, now), job)
  {
    hide Merge;
  }

  lemma TouchesNothing(redis: Store, job: string)
    ensures OnlyTouches(redis, redis, job)
  {}

  lemma TouchesTwice(a: Store, b: Store, c: Store, job: string)
    requires OnlyTouches(a, b, job) && OnlyTouches(b, c, job)
    ensures OnlyTouches(a, c, job)
  {}

  lemma FailureIsStored(redis: Store, job: string, status: Status, contract: Object, reason: string, now: string)
    requires contract.Keys <= {TaskNameKey, EnqueuedAtKey}
    ensures Reports(Document(Saved(redis, job, status, FailedUpdates(contract, reason), now), job), status.Text(),
                    reason, now)
  {
    var document, updates := Document(redis, job), FailedUpdates(contract, reason);
    MergeField(document, job, status, updates, now, FailureReasonKey);
    MergeStatus(document, job, status, updates, now);
    hide Merge;
  }

  lemma RetryIsStored(redis: Store, job: string, status: Status, contract: Object, reason: string, n: Int32,
                      now: string)
    requires contract.Keys <= {TaskNameKey, EnqueuedAtKey}
    ensures var d := Document(Saved(redis, job, status, RetryUpdates(contract, reason, n), now), job);
            Reports(d, status.Text(), reason, now) && Counts(d, n)
  {
    var document, updates := Document(redis, job), RetryUpdates(contract, reason, n);
    MergeField(document, job, status, updates, now, FailureReasonKey);
    MergeField(document, job, status, updates, now, RetryCountKey);
    MergeStatus(document, job, status, updates, now);
    hide Merge;
  }

  lemma ResultIsStored(redis: Store, job: string, contract: Object, tail: string, results: seq<Json>, now: string)
    requires contract.Keys <= {TaskNameKey, EnqueuedAtKey}
    ensures Finished(Document(Saved(redis, job, Done, DoneUpdates(contract, tail, results), now), job), tail, results,
                     now)
  {
    var document, updates := Document(redis, job), DoneUpdates(contract, tail, results);
    MergeField(document, job, Done, updates, now, ExitCodeKey);
    MergeField(document, job, Done, updates, now, StdoutTailKey);
    MergeField(document, job, Done, updates, now, ResultDownloadUrlKey);
    MergeField(document, job, Done, updates, now, FailureReasonKey);
    MergeStatus(document, job, Done, updates, now);
    hide Merge;
  }

  /** "running", and nothing else but the time and the contract fields. */
  lemma RunningIsStored(redis: Store, job: string, contract: Object, now: string)
    requires contract.Keys <= {TaskNameKey, EnqueuedAtKey}
    ensures var d := Document(Saved(redis, job, Running, contract, now), job);
            && StatusKey in d && d[StatusKey] == Str("running")
            && UpdatedAtKey in d && d[UpdatedAtKey] == Str(now)
  {
    MergeField(Document(redis, job), job, Running, contract, now, OtherKey(""));
    MergeStatus(Document(redis, job), job, Running, contract, now);
    hide Merge;
  }

  /** A failed attempt that goes back to the queue. */
  predicate Requeues(finished: bool, known: bool, outcome: Outcome, recorded: bool, n: Int32, max: int,
                     sendError: Option<string>)
  {
    !finished && known && outcome.Failure? && recorded && n <= max && sendError.None?
  }

  /** A handled request. Finished before: nothing changes. Task unknown: the job fails at once. Else it is
      done, or its failed attempt is handled. */
  predicate RequestHandled(redis0: Store, redis: Store, before: TaskDlq.Entries, after: TaskDlq.Entries, job: string,
                           taskName: string, known: bool, outcome: Outcome, recorded: bool, n: Int32, max: int,
                           sendError: Option<string>, request: string, now: string)
  {
    var d := Document(redis, job);
    && OnlyTouches(redis0, redis, job)
    && if IsTerminal(redis0, job) then redis == redis0 && after == before
       else if !known then
         && Reports(d, "failed", "task [" + taskName + "] is not registered in the whitelist", now)
         && after == before - {job}
       else if outcome.Success? then Finished(d, outcome.tail, outcome.results, now) && after == before - {job}
       else FailureHandled(d, before, after, job, outcome.reason, recorded, n, max, sendError, request, now)
  }

  /** A job that handling made done had a successful outcome. */
  lemma DoneMeansSuccess(redis0: Store, redis: Store, before: TaskDlq.Entries, after: TaskDlq.Entries, job: string,
                         taskName: string, known: bool, outcome: Outcome, recorded: bool, n: Int32, max: int,
                         sendError: Option<string>, request: string, now: string)
    requires RequestHandled(redis0, redis, before, after, job, taskName, known, outcome, recorded, n, max, sendError,
                            request, now)
    requires !IsTerminal(redis0, job) && HasStatus(Document(redis, job), Done)
    ensures outcome.Success?
  {
    assert "done"[0] != "failed"[0] && "done"[0] != "queued"[0];
  }
}
