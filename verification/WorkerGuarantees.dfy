/** What the protocol's theorems say of a worker's own Redis, queue and DLQ files. */
module WorkerGuarantees {
  import opened Json
  import opened StatusDocument
  import opened JobRequests
  import opened Protocol
  import opened Messages
  import opened TaskForgeWorker
  import Backlog
  import NoJobLost
  import TaskDlq

  /** An unfinished job of an accepted message is still on the worker's queue, with at least that count. */
  lemma AcceptedJobsAreKept(worker: Worker, f: Faults, a: Envelope)
    requires worker.Valid()
    requires ConfigOk(worker.cfg) && !f.terminalLoss && f.strangers.Nobody? && Run(worker.cfg, f, worker.run)
    requires a in worker.State().log.accepted
    ensures IsTerminal(worker.redis, JobOf(a))
            || exists d :: d in worker.queue.deliveries && JobOf(EnvelopeOf(d)) == JobOf(a)
                           && CountOf(EnvelopeOf(d)) >= CountOf(a)
  {
    hide After, Run, FilesOf, IsTerminal, TaskDlq.EntriesOf, View, JobOf, CountOf;
    var s := worker.State();
    if !IsTerminal(s.redis, JobOf(a)) {
      NoJobLost.NoJobIsLost(worker.cfg, f, worker.run, a);
      var e :| e in s.queue && JobOf(e) == JobOf(a)
               && forall b :: b in s.log.accepted && JobOf(b) == JobOf(a) ==> CountOf(b) <= CountOf(e);
      var i :| 0 <= i < |s.queue| && s.queue[i] == e;
      assert worker.queue.deliveries[i] in worker.queue.deliveries;
    }
  }

  // ---- Staying within the faults of an environment ----

  lemma OneMoreStep(cfg: Config, f: Faults, run: seq<Label>, l: Label)
    requires Run(cfg, f, run) && Allowed(cfg, f, After(cfg, run), l)
    ensures Run(cfg, f, run + [l])
  {
    assert (run + [l])[..|run|] == run;
  }

  /** Handling messages adds only faults the environment allows: none unless the DLQ is unwritable. */
  lemma {:induction false} HandlingKeepsRun(cfg: Config, f: Faults, run: seq<Label>, longer: seq<Label>, c: Choice)
    requires Run(cfg, f, run) && Extends(run, longer, c) && (f.unwritable || c.writable)
    ensures Run(cfg, f, longer)
    decreases |longer|
  {
    if longer != run {
      var front := longer[..|longer| - 1];
      HandlingKeepsRun(cfg, f, run, front, c);
      hide After;
      OneMoreStep(cfg, f, front, longer[|front|]);
      assert longer == front + [longer[|front|]];
    }
  }

  /** Submitting a job adds no fault, whether or not its message is published. */
  lemma SubmittingKeepsRun(cfg: Config, f: Faults, run: seq<Label>, job: string, order: Order, now: string)
    requires Run(cfg, f, run)
    ensures Run(cfg, f, run + [ApiWrite(job, order, now)])
    ensures Run(cfg, f, run + [ApiWrite(job, order, now)] + [ApiPublish(job)])
  {
    hide After, Run;
    OneMoreStep(cfg, f, run, ApiWrite(job, order, now));
    OneMoreStep(cfg, f, run + [ApiWrite(job, order, now)], ApiPublish(job));
  }

  /** A crash is a fault that must be allowed, up to the bound on counts. */
  lemma InterruptingKeepsRun(cfg: Config, f: Faults, run: seq<Label>)
    requires Run(cfg, f, run) && f.crashes && cfg.maxRetries + |After(cfg, run).log.crashed| + 1 < INT32_MAX
    ensures Run(cfg, f, run + [Crash])
  {
    hide After, Run;
    OneMoreStep(cfg, f, run, Crash);
  }

  // ---- Between handler runs ----

  lemma SameSize(entries: TaskDlq.Entries)
    ensures |FilesOf(entries)| == |entries|
  {
    assert FilesOf(entries).Keys == entries.Keys;
  }

  /** Between handler runs the file count is the number of unfinished jobs that have failed, plus that of
      the jobs whose entry an unrecorded failure left behind; a writable DLQ leaves none behind. */
  method PendingCount(worker: Worker, ghost f: Faults) returns (count: nat)
    requires worker.Valid() && worker.State().pc.Idle?
    requires ConfigOk(worker.cfg) && !f.crashes && !f.fileLoss && !f.terminalLoss && f.strangers.Nobody?
    requires Run(worker.cfg, f, worker.run)
    ensures count == |Backlog.Pending(worker.State())| + |Backlog.Stranded(worker.cfg, worker.run)|
    ensures !f.unwritable ==> count == |Backlog.Pending(worker.State())|
  {
    hide After, Run, FilesOf, Backlog.Pending, Backlog.Stranded, Backlog.Stranding, TaskDlq.EntriesOf, Envelopes;
    Backlog.BacklogIsExact(worker.cfg, f, worker.run);
    SameSize(worker.dlq.View());
    count := worker.dlq.PendingCount();
  }
}
