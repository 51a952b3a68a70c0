# TaskForge job lifecycle, verified

TaskForge runs whitelisted command-line tasks as jobs. A job service (Go, Python or TypeScript) stores a
`queued` status document in Redis and publishes a request message to an SQS FIFO queue. A serial C++ worker
takes the head of the queue, skips jobs that are already `done` or `failed`, runs the task, and either
finishes the job or records the failure in a file DLQ and republishes the message with a higher
`dlq_try_count` under the deduplication ID `<job>-retry-<n>`. The retry count therefore lives in three
places: the message, the DLQ entry and the status document.

The project models that lifecycle and proves what every run keeps, under crashes between any two effects,
redelivery, expiry of deduplication IDs, loss or damage of DLQ entries and of status documents, and an
unwritable DLQ.

## How the model is built

- `Json`, `Strings`, `StatusDocument`, `MessageValidation`, `ObjectKeys`, `JobRequests`, `Backoff`, `StdoutTail`:
  the pure parts. JSON is a datatype; text that does not parse is `Garbage`; C strings end at the first NUL;
  32-bit counts are narrowed explicitly.
- `TaskDlq`, `Transfers`, `TaskForgeWorker`, `GoApi`, `PythonApi`, `JsApi`: the imperative parts, as classes and
  methods with the loops and the order of effects of the program.
- `Protocol`: the lifecycle as a transition system. `Work` is the next effect of the handler, `Do` any step,
  `After(cfg, ls)` the state after the steps `ls`, and `Run(cfg, f, ls)` says that `ls` shows only the faults `f`
  allows. The message in hand stays at the head of the queue until the handler returns, so a crash redelivers it.
- `Handling` says what a handled message leaves in the job's document and DLQ entry, field by field.
- `Messages` says how the protocol sees a message body. `TaskForgeWorker.Worker` carries a ghost `run`, and
  `Valid()` says that its Redis, queue, deduplication set and DLQ files are those of `After(cfg, run)`. Handling a
  message extends `run` by handler steps only, a service's submission by its two service steps, and a crash after
  any effect by `Crash`; all keep `Valid()`. Every theorem about `After` is therefore about what submissions,
  handling and crashes leave in the worker's own fields. The remaining faults are steps of the protocol only.
- `Origin`, `Terminal`, `NoJobLost`, `EveryJobEnds`, `Drain`, `RetryCounts`, `SingleDelivery`, `DlqCache`,
  `CounterAgreement`, `ContractFields`, `DocumentFields`, `Backlog`, `Isolation`, `History`, `ApiAgreement`,
  `WorkerGuarantees`: one property each; `Scenarios` holds the runs in which two of them fail. The invariants speak
  of one job at a time or of one field of the state; each has a lemma per step, a lemma that assembles the steps,
  and an induction over the run.

Assumptions are stated per theorem through `Faults`: `terminalLoss` is the loss of a finished job's document,
`strangers` are senders other than the services and the worker (none, valid messages only, or anything).
`ConfigOk` asks for a non-empty bucket and a retry limit below the largest `int`; crashes are bounded so that no
count passes the largest `int`, where the program's increment is undefined. Redis answers reads and writes.

## Results that are false as first expected

- A file name with a NUL is accepted by all services, but the worker cuts the object key at the NUL: it asks for an
  object nobody was given a URL to upload, and would store it under the part before the NUL. The requested key and
  name are the issued ones if and only if the name holds no NUL (`ObjectKeys.RequestedKey`,
  `ObjectKeys.DownloadedName`, `Transfers.InputsKeepTheirNames`, and `ApiAgreement.NulNameIsMisread` at one request).
- The TypeScript service passes an explicit `timeout_sec: null` on, and the worker then rejects the message. Its
  messages are valid, and equal to those of the other two, if and only if the timeout is not an explicit null
  (`ApiAgreement.JsMessagesAreValid`, `ApiAgreement.ServicesAgree`).
- Clamping the backoff shift is invisible if and only if the base is 0 or 16 doublings reach the cap
  (`Backoff.CappedMeetsIdeal`).
- A malformed message that names a job fails it, even a done one. In every run, whatever fails and whoever sends, a
  job's document agrees with its status if and only if no step failed the job for a malformed message over a stored
  result, not counting documents lost or issued afresh since (`DocumentFields.AgreesUnlessSpoiled`); a run that spoils
  a result is `Scenarios.StrayMessageSpoilsResult`.
- When a failure cannot be recorded, the job is closed and an entry left by an earlier failure stays. With no crash,
  no lost DLQ entry, no lost finished document and no foreign sender, whenever the handler is idle the backlog exceeds
  the number of unfinished failed jobs by exactly the number of such jobs, so it is exact if and only if no failure
  went unrecorded after a recorded one (`Backlog.BacklogIsExact`); a run that ends with the backlog too high is
  `Scenarios.UnrecordedFailureStrandsEntry`.
- The repository's README.md:181 says that unregistered tasks fail after their retries; the code fails them at once
  (Main/TaskForgeWorker.cpp:487-496), and the model follows the code.

## Model

| member | source | states |
|---|---|---|
| NoJobLost.NoJobIsLost | Main/TaskForgeWorker.cpp:651-735 | While a published job is unfinished, a message with the highest count ever accepted for it is on the queue: over every run with crashes, redelivery, lost or damaged DLQ entries, lost unfinished documents, forgotten or reused deduplication IDs and an unwritable DLQ |
| NoJobLost.RetryFacts | Main/TaskForgeWorker.cpp:699-712 | A retry about to be sent counts above the message in hand, and if deduplication swallows it then a message with at least that count was accepted before |
| EveryJobEnds.JobsAreBounded | Main/TaskForgeWorker.cpp:684-734 | With exact deduplication, at most max + 1 messages are accepted and at most max + 1 handler runs complete per job, and attempts are at most max + 1 plus the crashes of its handler, even when DLQ entries are lost |
| EveryJobEnds.NoMessageLeftMeansFinished | Main/TaskForgeWorker.cpp:410-468 | A published job with no message on the queue is done or failed |
| Drain.WorkLowers | Main/TaskForgeWorker.cpp:410-468 | Every handler step lowers a measure over the queued messages and the position of the handler, whatever the outcomes |
| Drain.EveryPublishedJobEnds | Main/TaskForgeWorker.cpp:684-734 | From every reachable state, left alone, the handler empties the queue within that measure, and then every published job is done or failed, for every sequence of outcomes |
| Drain.PotentialBound | Main/TaskForgeWorker.cpp:684-697 | The measure is at most a constant of the retry limit for each queued message |
| DlqCache.DlqIsOnlyACache | Main/TaskDLQ.cpp:27-53 | A crash-free single-delivery run that loses or damages DLQ entries at any time, and the same run without the losses, reach the same documents, queue and history of writes and messages; they differ at most in the DLQ |
| SingleDelivery.Holds | Main/TaskForgeWorker.cpp:663-672 | In crash-free single-delivery runs a job has at most one live message, which is its newest, and no DLQ entry is ahead of it |
| SingleDelivery.NextOfHand | Main/TaskDLQ.cpp:29-53 | In those runs the recorded count is the count of the message in hand plus one, whatever the DLQ entry says |
| Terminal.TerminalIsAbsorbing | Main/TaskForgeWorker.cpp:478-485 | Once a document is done or failed, no later step runs the job again or unfinishes it, in any environment that keeps the document; without a malformed message for the job the document does not change at all |
| RetryCounts.RetriesIncrease | Main/TaskForgeWorker.cpp:672-712 | With DLQ entries kept and any sent message redelivered any number of times, the republished counts of a job strictly increase and it is attempted at most max + 1 times |
| RetryCounts.RetryIdsAreNeverReused | Main/TaskForgeWorker.cpp:710-712 | No two retries of a run, of whatever jobs, use the same deduplication ID |
| ContractFields.ContractFieldsSurvive | Main/TaskForgeWorker.cpp:51-74 | Every document ever written for an issued job, and the stored one, carries the job ID and the task name and enqueue time it was issued with, under every loss of documents |
| ContractFields.MergeKeeps | Main/TaskForgeWorker.cpp:737-780 | A transition whose updates carry the contract fields restores them, and the job ID, whatever the stored document was |
| DocumentFields.StatusAndFieldsAgree | Main/TaskForgeWorker.cpp:529-548 | While all messages are valid, in every reachable state a done document has exit code 0, a tail, results and no failure reason, a failed one has a failure reason and no result, a queued or running one has no result |
| DocumentFields.AgreesUnlessSpoiled | Main/TaskForgeWorker.cpp:436-455 | In every state after any steps at all, a job's document agrees with its status exactly if no step failed the job for a malformed message over a stored result with no loss or fresh issue of the document since |
| Scenarios.StrayMessageSpoilsResult | Main/TaskForgeWorker.cpp:443-455 | However a job succeeds, a later message that names it and nothing else leaves its document failed and holding the result |
| CounterAgreement.CountersAgree | Main/TaskForgeWorker.cpp:684-734 | In crash-free, loss-free, single-delivery runs, whenever the handler is idle, a queued job has the same count in its document, in its DLQ entry and in its single message; before publication all are absent |
| CounterAgreement.ExhaustedAtMaxPlusOne | Main/TaskForgeWorker.cpp:685-697 | In those runs a job out of retries has failed with retry_count exactly max + 1 |
| Backlog.BacklogIsExact | Main/TaskDLQ.cpp:80-98 | With no crash, lost entry, lost finished document or foreign sender, whenever the handler is idle, DLQ entries exist exactly for the unfinished jobs with a recorded failure and, besides them, for the jobs whose later failure went unrecorded; the numbers add up, and the entries are exactly the unfinished failed jobs if and only if no step was such a failure, which a writable DLQ rules out |
| Backlog.Holds | Main/TaskForgeWorker.cpp:673-682 | At every point of every run without crash, lost entry, lost finished document or foreign sender, a job either has the entry its handler position and recorded failures call for, or an unrecorded failure closed it and its entry stays for good |
| Scenarios.UnrecordedFailureStrandsEntry | Main/TaskForgeWorker.cpp:672-682 | However a job fails twice, first recorded and then not, it ends failed with its entry still counted, so the backlog is too high |
| Scenarios.ConcreteRuns | Main/TaskForgeWorker.cpp:672-682 | Both failures at one job, order and configuration |
| WorkerGuarantees.AcceptedJobsAreKept | Main/TaskForgeWorker.cpp:651-735 | In a worker's own state an accepted job is done or failed in its Redis, or a message of it with at least the accepted count is on its queue |
| WorkerGuarantees.PendingCount | Main/TaskForgeWorker.cpp:386-408 | In a worker whose run has no crash, loss or foreign sender, between handler runs, the file count the monitor reads is the number of unfinished jobs that have failed plus the number of jobs with an entry left behind; only the former when the DLQ is writable |
| WorkerGuarantees.HandlingKeepsRun | Main/TaskForgeWorker.cpp:410-468 | Handling a message keeps a worker's run within the faults of its environment, with an unwritable DLQ as the only fault it can add |
| WorkerGuarantees.SubmittingKeepsRun | Interface/golang/internal/service/job.go:131-158 | Submitting a job adds no fault to a run, whether or not its message is published |
| WorkerGuarantees.InterruptingKeepsRun | README.md:64 | A crash keeps a run within the faults of an environment that allows crashes, up to the bound on counts |
| Isolation.ApiNeverOverwrites | Interface/golang/internal/service/job.go:109-158 | When a service stores the document of a fresh job, no document of it exists or was ever written, it has no DLQ entry, and no message of it was ever accepted |
| Isolation.StepsTouchOneJob | Main/TaskForgeWorker.cpp:737-780 | A step about one job leaves the document and the DLQ entry of every other job as they are |
| History.LogIsHistory | Main/TaskForgeWorker.cpp:410-735 | After any steps at all, the accepted messages, written documents, retries, attempts, failures, exhausted jobs, completions and crashes that the theorems speak of are exactly what an observer sees from the states before and after each step |
| History.EveryDocumentIsLogged | Main/TaskForgeWorker.cpp:737-780 | A readable document stored at any point of any run is among the documents written |
| History.FaultsMean | README.md:64 | Each fault, whenever its condition holds, has its effect: lost or damaged documents and entries, a redelivered message beside the one in hand, a forgotten ID, a foreign message, and a crash that changes nothing stored |
| Origin.Holds | Main/TaskForgeWorker.cpp:699-712 | Without foreign senders every accepted message is an issued request stamped with a count from 0 to max, every document and DLQ entry belongs to an issued job, and DLQ counts are bounded by max plus the crashes |
| Origin.KnownIds | Main/TaskForgeWorker.cpp:710-712 | Two such messages have the same deduplication ID exactly when they are the same message, that is the same job and count |
| TaskForgeWorker.Worker.HandleMessage | Main/TaskForgeWorker.cpp:410-468 | Handling the head of the queue makes the protocol's handler steps and nothing else. A message that names no job changes nothing; a malformed one fails its job with the validation error; a valid one leaves its job's document, DLQ entry and message field by field as the outcome says: untouched if finished before, failed at once if the task is unknown, done with tail and results, failed or queued again with reason and count. A job made done fetched every input, exited with 0 and published every output. A retry waits 1000, 2000, 4000 or 8000 ms at least, and all sleeping is bounded |
| TaskForgeWorker.Worker.HandleRequest | Main/TaskForgeWorker.cpp:457-467 | The same for a valid message: the republished copy is the message with the new count, under the retry ID, and is the only one added |
| TaskForgeWorker.Worker.Consume | README.md:64 | Handling and then deleting a message leaves the protocol idle, with that message gone and at most one added |
| TaskForgeWorker.Worker.Submit | Interface/golang/internal/service/job.go:131-158 | A submission to the shared Redis and queue is the protocol's two service steps, or only the first when publishing fails |
| TaskForgeWorker.Worker.Interrupt | README.md:64 | A crash after any effect leaves the worker's fields a state of the protocol, with the message in hand still queued |
| TaskForgeWorker.Worker.ProcessJob | Main/TaskForgeWorker.cpp:470-557 | Guard, whitelist, running, task, done: a finished job is left alone, an unknown task fails with its text, a success stores exit code 0, the tail and the results and erases the failure reason, and a failure is returned with the document at "running" and the DLQ untouched; no other job's document changes |
| TaskForgeWorker.Worker.RunTask | Main/TaskForgeWorker.cpp:502-540 | Succeeds exactly if every input is fetched within three attempts, the task exits with 0, and every regular output is uploaded and presigned under the prefix; then the tail is the aligned tail of the output and the results link the files in order. Otherwise the reason names the first input, error, exit code or output to blame |
| TaskForgeWorker.OutcomeMeans | Main/TaskForgeWorker.cpp:502-540 | The outcome the protocol is given has that meaning: success if and only if nothing went wrong, and the text of what went wrong first |
| TaskForgeWorker.Worker.FailWithoutRetry | Main/TaskForgeWorker.cpp:639-649 | The job's document reports the failure with the reason, and its DLQ entry is gone |
| TaskForgeWorker.Worker.HandleProcessingFailure | Main/TaskForgeWorker.cpp:651-735 | Unrecorded: the job fails. Out of retries: it fails with the recorded count and without an entry. Not republished: the same, with the send error in the reason. Otherwise it is queued with the count, its entry holds count, reason and request, and exactly the stamped message is added under its retry ID after the backoff; sleeps at most 12000 ms |
| TaskForgeWorker.Worker.Wait | Main/TaskForgeWorker.cpp:704-708 | Sleeps 1000, 2000, 4000 and then 8000 ms for the first, second, third and later failures, and at most half as much again |
| Handling.ResultIsStored | Main/TaskForgeWorker.cpp:542-548 | The document stored for a success holds "done", exit code 0, the tail, the results and no failure reason, whatever was stored before |
| Handling.RetryIsStored | Main/TaskForgeWorker.cpp:691-734 | The document stored for a counted failure holds the status, the reason, the count and the time, whatever was stored before |
| Handling.FailureIsStored | Main/TaskForgeWorker.cpp:643-645 | The document stored for a plain failure holds the status, the reason and the time |
| Handling.DoneMeansSuccess | Main/TaskForgeWorker.cpp:478-548 | An unfinished job that handling leaves done had a successful outcome |
| TaskForgeWorker.Worker.RecordFailure | Main/TaskForgeWorker.cpp:666-682 | Counts the failure from the message and the file and decides between closing, retrying and giving up |
| TaskForgeWorker.Worker.Republish | Main/TaskForgeWorker.cpp:699-727 | Sends the stamped message under its retry ID, so the protocol sees the same request with the new count |
| TaskForgeWorker.Worker.SetJobStatus | Main/TaskForgeWorker.cpp:737-780 | The field-by-field merge stores exactly the overlay of the updates on the stored document, null erasing a field |
| TaskForgeWorker.Worker.IsTerminalStatus | Main/TaskForgeWorker.cpp:782-812 | True exactly when the stored document is readable and its status is done or failed |
| TaskForgeWorker.Worker.FindTask | Main/TaskExecutor.cpp:27-38 | The first definition of that name, or none if no definition has it |
| TaskForgeWorker.Readable | Main/TaskForgeWorker.cpp:472-474 | What processing reads from a valid message is what the protocol sees of it |
| StatusDocument.MergeField | Main/TaskForgeWorker.cpp:761-771 | After a transition each field holds its update, is gone if the update is null, and is otherwise unchanged; the update time is the given one and the job ID the job's |
| StatusDocument.MergeStatus | Main/TaskForgeWorker.cpp:759-760 | After a transition the status is the given one and no other, and it is finished exactly if that status is |
| StatusDocument.ContractFieldsMean | Main/TaskForgeWorker.cpp:55-74 | Restored are the task name and the enqueue time, each exactly if the message holds it as a string, with the message's value, and nothing else |
| TaskDlq.Dlq.RecordFailure | Main/TaskDLQ.cpp:24-70 | The count is one above the larger of message and file; the job's file, and no other, becomes the job ID, that count, the reason and the text of the failed message; for a non-empty ID that is the job's entry; it fails exactly if the file cannot be written or a directory is in its place, and then nothing changes and the error names the file |
| TaskDlq.Dlq.Remove | Main/TaskDLQ.cpp:72-76 | Removes the job's file and no other, so its entry and no other; a directory in its place goes only if empty |
| TaskDlq.Dlq.PendingCount | Main/TaskDLQ.cpp:80-98 | The number of regular files with the extension and a non-empty stem, which is the number of jobs that have an entry |
| TaskDlq.CountedNamesAreEntries | Main/TaskDLQ.cpp:89-100 | Counted file names and jobs with an entry correspond one to one |
| TaskDlq.NextCountMeans | Main/TaskDLQ.cpp:29-53 | The next count is 1 if neither message nor file has a positive one, and otherwise one above the larger, short of the largest int, where the program leaves it undefined and the model wraps |
| StdoutTail.ReadStdoutTail | Main/TaskExecutor.cpp:145-180 | The buffer after the loop is the file's aligned tail; empty if the file cannot be opened |
| StdoutTail.TailOfText | Main/TaskExecutor.cpp:156-177 | For valid UTF-8 (sections 3 and 4 of RFC 3629) the tail is valid, is the longest valid suffix of at most 2048 bytes, and is at most 3 bytes short of the limit |
| StdoutTail.TailOfBytes | Main/TaskExecutor.cpp:156-177 | For any bytes the tail is a suffix, the whole file when it fits, and when cut does not start with a continuation byte |
| StdoutTail.SuffixValid | Main/TaskExecutor.cpp:163-177 | A suffix of valid UTF-8 is valid exactly when it does not start with a continuation byte |
| StdoutTail.BoundaryNear | Main/TaskExecutor.cpp:163-177 | In valid UTF-8 a character starts within any four consecutive bytes |
| MessageValidation.ValidateRequestMeaning | Main/MessageValidation.cpp:24-114 | Validation succeeds exactly on messages of the required shape, quantified over arguments and download entries |
| MessageValidation.ValidateDownloadsMeaning | Main/MessageValidation.cpp:84-107 | The download entries pass exactly if each has its shape, and the first bad one decides the error |
| MessageValidation.FirstComplaint | Main/MessageValidation.cpp:24-114 | The error is the text of the first of the checks, in the program's order, that the message fails |
| MessageValidation.EntryComplaint | Main/MessageValidation.cpp:86-105 | The same for one download entry |
| MessageValidation.JobIdMeans | Main/MessageValidation.cpp:11-22 | A job ID is valid exactly if it has 1 to 64 characters, by code point letters, digits, hyphens or underscores |
| MessageValidation.ValidMessagesReadSafely | Main/TaskForgeWorker.cpp:472-534 | No unchecked access made while processing or downloading a valid message throws, and what is read is what the message holds: ID, task name, prefix, the bucket and key of each entry in order, the arguments (none if absent) and the narrowed timeout (0 if absent) |
| Messages.ViewOfIssued | Interface/golang/internal/service/job.go:145-152 | The worker sees a published message as the request its service issued |
| Messages.ViewMeans | Main/TaskForgeWorker.cpp:410-455 | A body is a request exactly if it is a valid object, fails a job exactly if it is an invalid object with a usable job ID, then with the validation error, and is otherwise dropped |
| Messages.RequestMeans | Main/TaskForgeWorker.cpp:470-474 | Of a request the worker takes the ID, the task name up to a NUL, the contract fields and the narrowed count (0 if absent) |
| Messages.ViewOfRetry | Main/TaskForgeWorker.cpp:653-699 | A republished copy is the same request with another count |
| Messages.ViewIsPlausible | Main/TaskForgeWorker.cpp:51-74 | Of any message only the two contract fields are restored, and only as strings |
| JobRequests.MessageIsValid | Interface/python/src/app/services/job_service.py:79-93 | A message built from an acceptable request is valid exactly when its timeout is absent or an integer, and its contract fields are the issued ones |
| JobRequests.MessageSays | Interface/golang/internal/service/job.go:117-152 | A built message has exactly its six fields: ID, mode, time, the prefix jobs/ID/outputs/, the task with the ordered name, arguments and timeout, and one entry per file with key jobs/ID/inputs/name |
| JobRequests.UrlsSay | Interface/golang/internal/service/job.go:119-129 | All upload targets are produced exactly if every input key is presigned, and each is the link of its file's key |
| JobRequests.IssuedOutputsAreSeparate | Main/TaskForgeWorker.cpp:534-608 | The output keys the worker derives from the messages of two orders coincide only for one job and name, and never with an input key |
| JobRequests.OutputsAreSeparate | Main/TaskForgeWorker.cpp:534-608 | The same for any valid messages with such prefixes, as after republishing |
| JobRequests.StampsKeepVerdict | Main/TaskForgeWorker.cpp:653-699 | Republishing to any depth keeps the validation verdict and the contract fields |
| GoApi.CollectFilenames | Interface/golang/internal/http/handlers/jobs.go:49-57 | Returns all names, or none at the first bad one |
| GoApi.AsciiFilename | Interface/golang/internal/http/handlers/jobs.go:109-120 | An ASCII name passes exactly if it has 1 to 255 characters, no slash or backslash and no two dots in a row |
| GoApi.SafeMeans | Interface/golang/internal/http/handlers/jobs.go:109-120 | The names Go accepts are the safe ones of at most 255 bytes |
| GoApi.JobService.CreateJob | Interface/golang/internal/service/job.go:113-161 | Presigns in order, stores the queued document, then sends the message: sent only if stored, stored only if all presigned. Document, message and upload targets hold the submitted name, arguments, files and timeout (none if 0) in literal fields and keys; each failure reports its own text, presigning the first file that fails |
| PythonApi.JobService.CreateJob | Interface/python/src/app/services/job_service.py:54-100 | The same for the Python service, which builds its task step by step and leaves out an absent or null timeout |
| JsApi.JobService.CreateJob | Interface/js/src/jobs/jobs.service.ts:53-102 | The same for the TypeScript service, which leaves out an absent timeout and passes a null one on |
| ApiAgreement.GoAndPythonMessagesAreValid | Interface/golang/internal/service/job.go:117-152 | What the Go and Python services send for an accepted request is valid |
| ApiAgreement.JsMessagesAreValid | Interface/js/src/jobs/jobs.service.ts:57-91 | What the TypeScript service sends is valid exactly when the timeout is not an explicit null |
| ApiAgreement.ServicesAgree | Interface/js/src/jobs/jobs.service.ts:57-91 | On requests all three accept, Go and Python build the same message, and TypeScript the same exactly when the timeout is not an explicit null |
| ApiAgreement.NullTimeoutIsRejected | Interface/js/src/jobs/jobs.service.ts:86-86 | A request all three accept for which the TypeScript message is invalid |
| ApiAgreement.AcceptedAreIssuable | Interface/golang/internal/http/handlers/jobs.go:30-57 | Accepted requests are ones the protocol's services issue |
| ApiAgreement.IssuingIsAProtocolStep | Interface/golang/internal/service/job.go:131-158 | Storing the document and sending the message are the protocol's two service steps |
| ObjectKeys.KeyFilenameOfPath | Main/TaskForgeWorker.cpp:90-99 | The name recovered from a key is what follows its last separator, the whole key if there is none |
| ObjectKeys.DownloadedName | Main/TaskForgeWorker.cpp:563-567 | The worker recovers a requested name up to its first NUL, so the name itself exactly if it holds none |
| ObjectKeys.RequestedKey | Main/TaskForgeWorker.cpp:563-573 | The key the worker asks the store for is the issued one exactly if the name holds no NUL |
| ApiAgreement.NulNameIsMisread | Main/TaskForgeWorker.cpp:563-573 | A request all three services accept for which the worker asks for another key and takes another name |
| ObjectKeys.KeysAreSeparate | Main/TaskForgeWorker.cpp:607-608 | Keys of different jobs or names differ, and no input key is an output key |
| ObjectKeys.KeyTexts | Interface/golang/internal/service/job.go:120-150 | An input key is the text jobs/ID/inputs/name and the output prefix the text jobs/ID/outputs/ |
| Transfers.DownloadInputs | Main/TaskForgeWorker.cpp:559-593 | Fetches each entry's bucket and key in order and succeeds exactly if every entry succeeds within three attempts, leaving exactly the names of the keys; otherwise reports the first entry that fails and its last error; at most three attempts at each entry; sleeps at least 500, 1000 and 2000 ms after the first, second and third failed attempt at an entry and at most half as much again |
| Transfers.Fetch | Main/TaskForgeWorker.cpp:569-584 | At most three attempts, each but the last failed; sleeps 500, 1500 or 3500 ms for one, two or three failures, and at most half as much again |
| Transfers.UploadOutputs | Main/TaskForgeWorker.cpp:595-637 | One result per regular file in listing order under the prefixed key, or the first error |
| Transfers.TransferMeans | Main/TaskForgeWorker.cpp:607-628 | A file yields a result exactly if its prefixed key is uploaded and presigned; the result holds its name and that link, and otherwise the error tells which of the two failed |
| Transfers.RegularsMean | Main/TaskForgeWorker.cpp:600-605 | The files considered are exactly the regular entries of the directory |
| Transfers.InputsKeepTheirNames | Interface/golang/internal/service/job.go:119-128 | The inputs of a service's message are stored under exactly the requested names if and only if no name holds a NUL |
| Backoff.CappedMeetsIdeal | Main/TaskForgeWorker.cpp:34-49 | The clamped delay is the ideal doubling delay for every attempt exactly if the base is 0 or base * 65536 reaches the cap |
| Backoff.CappedMonotone | Main/TaskForgeWorker.cpp:34-49 | Delays never shrink with the attempt, never pass the cap, and fit 64 bits |
| Backoff.Delay | Main/TaskForgeWorker.cpp:45-48 | The jittered delay lies between the capped delay and one and a half times it |
| Backoff.DownloadWaits | Main/TaskForgeWorker.cpp:571-584 | The longest waits after one, two and three failed downloads are 750, 2250 and 5250 ms |
| Backoff.RetryDelays | Main/TaskForgeWorker.cpp:25-49 | The capped delay of a retry is 1000, 2000, 4000 and from the fourth on 8000 ms |
| Strings.RetryIdInjective | Main/TaskForgeWorker.cpp:710-712 | Retry IDs determine the job and the count, even for job IDs that contain "-retry-" |
| Strings.RetryIdText | Main/TaskForgeWorker.cpp:710-712 | The ID is the job ID, "-retry-" and the decimal count |
| Strings.DecimalRoundTrip | Main/TaskForgeWorker.cpp:712-712 | A formatted count reads back as itself and has no leading zero |

## Left out

- JSON text: parsing and serialising are taken as inverse to each other; a field name the program does not use is `OtherKey`.
- Content-based deduplication: the service's ID stands for the message as the worker sees it, so hash collisions are not modelled.
- Failing Redis reads and writes: the worker logs a failed save and goes on, which the protocol does not show.
- Two workers handling one job at once after a visibility timeout: the consumer is serial, as the program assumes.
- Backlog.BacklogIsExact: does not cover crashes, because a crash between writing "done" and removing the entry leaves an entry, and one between removing the entry and writing "failed" leaves an unfinished failed job without one; nor malformed messages, which fail a job and keep its entry.
- Orders whose message is invalid: a TypeScript request with an explicit null timeout also stores a document and sends a message, but is no `ApiWrite`, so the theorems without foreign senders say nothing of a run with such a request.
- Drain.EveryPublishedJobEnds: assumes that the handler is scheduled and does not crash while it drains the queue.
- TaskForgeWorker.Worker: losses of documents and DLQ entries, redelivery and forgotten deduplication IDs are protocol steps without a method of their own.
- Process execution, its timer and the temporary directory: an execution is a function of task name, arguments and timeout to an exit code and captured output, or an error; how bytes read as JSON text is a parameter.
- Object contents, presigned URLs, timestamps and time-to-live values: opaque values.
- Start-up, shutdown, connections, configuration clamping, the task catalogue, HTTP routing and health checks.
