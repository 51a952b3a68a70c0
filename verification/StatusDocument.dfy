/** Job status documents as the worker reads and merges them. */
module StatusDocument {
  import opened Json

  type Store = map<string, Payload>

  datatype Status = Queued | Running | Done | Failed {
    function Text(): string {
      match this
      case Queued => "queued"
      case Running => "running"
      case Done => "done"
      case Failed => "failed"
    }

    predicate IsTerminal() {
      Done? || Failed?
    }
  }

  lemma StatusTextsDiffer(a: Status, b: Status)
    ensures a.Text() == b.Text() ==> a == b
  {
    assert "queued"[0] == 'q' && "running"[0] == 'r' && "done"[0] == 'd' && "failed"[0] == 'f';
  }

  /** The document stored for a job; empty when it is missing or damaged. */
  function Document(redis: Store, job: string): Object {
    if job in redis then Fields(redis[job]) else map[]
  }

  predicate HasStatus(document: Object, status: Status) {
    StatusKey in document && document[StatusKey] == Str(status.Text())
  }

  predicate Terminal(document: Object) {
    HasStatus(document, Done) || HasStatus(document, Failed)
  }

  /** The guard against redelivered messages of finished jobs. */
  predicate IsTerminal(redis: Store, job: string) {
    Terminal(Document(redis, job))
  }

  function Overlay(base: Object, updates: Object): Object {
    map k | k in base.Keys + updates.Keys && !(k in updates && updates[k].Null?) ::
      if k in updates then updates[k] else base[k]
  }

  /** The document after a transition: null updates erase a field, others set it. */
  function Merge(document: Object, job: string, status: Status, updates: Object, now: string): Object {
    var base := document[JobIdKey := Str(job)][StatusKey := Str(status.Text())];
    Overlay(base, updates)[UpdatedAtKey := Str(now)]
  }

  function Saved(redis: Store, job: string, status: Status, updates: Object, now: string): Store {
    redis[job := Parsed(Obj(Merge(Document(redis, job), job, status, updates, now)))]
  }

  /** What a transition leaves in each field it does not own. */
  lemma MergeField(document: Object, job: string, status: Status, updates: Object, now: string, k: Key)
    requires k !in {JobIdKey, StatusKey, UpdatedAtKey}
    ensures var d := Merge(document, job, status, updates, now);
            && UpdatedAtKey in d && d[UpdatedAtKey] == Str(now)
            && (JobIdKey !in updates ==> JobIdKey in d && d[JobIdKey] == Str(job))
            && (k in d <==> if k in updates then !updates[k].Null? else k in document)
            && (k in d ==> d[k] == if k in updates then updates[k] else document[k])
  {}

  lemma MergeStatus(document: Object, job: string, status: Status, updates: Object, now: string)
    requires StatusKey !in updates
    ensures var d := Merge(document, job, status, updates, now);
            && HasStatus(d, status)
            && (forall other: Status :: HasStatus(d, other) ==> other == status)
            && (Terminal(d) <==> status.IsTerminal())
  {
    var d := Merge(document, job, status, updates, now);
    assert StatusKey in d && d[StatusKey] == Str(status.Text());
    forall other: Status | HasStatus(d, other) ensures other == status {
      StatusTextsDiffer(other, status);
    }
  }

  /** The fields every transition restores from the message, each only if it is well formed. */
  function ContractFields(message: Object): Object {
    (if TaskKey in message && message[TaskKey].Obj? && HasString(message[TaskKey].fields, NameKey)
     then map[TaskNameKey := message[TaskKey].fields[NameKey]] else map[])
    + (if HasString(message, EnqueuedAtKey) then map[EnqueuedAtKey := message[EnqueuedAtKey]] else map[])
  }

  /** The restored fields are the task's name and the enqueue time, each exactly when it is a string. */
  lemma ContractFieldsMean(message: Object)
    ensures var contract := ContractFields(message);
            && contract.Keys <= {TaskNameKey, EnqueuedAtKey}
            && (TaskNameKey in contract <==>
                  TaskKey in message && message[TaskKey].Obj? && HasString(message[TaskKey].fields, NameKey))
            && (TaskNameKey in contract ==> contract[TaskNameKey] == message[TaskKey].fields[NameKey])
            && (EnqueuedAtKey in contract <==> HasString(message, EnqueuedAtKey))
            && (EnqueuedAtKey in contract ==> contract[EnqueuedAtKey] == message[EnqueuedAtKey])
  {}

  function FailedUpdates(contract: Object, reason: string): Object {
    contract[FailureReasonKey := Str(reason)]
  }

  function RetryUpdates(contract: Object, reason: string, tryCount: Int32): Object {
    FailedUpdates(contract, reason)[RetryCountKey := Int(tryCount)]
  }

  function DoneUpdates(contract: Object, tail: string, results: seq<Json>): Object {
    contract
    [ExitCodeKey := Int(0)]
    [StdoutTailKey := Str(tail)]
    [ResultDownloadUrlKey := Arr(results)]
    [FailureReasonKey := Null]
  }
}
