/** With exact deduplication, a job is accepted, completed and attempted a bounded number of times. */
module EveryJobEnds {
  import opened Json
  import opened StatusDocument
  import opened JobRequests
  import opened Protocol
  import opened Origin
  import NoJobLost

  /** Messages of a job in a sequence. */
  function Tally(es: seq<Envelope>, job: string): nat {
    if es == [] then 0
    else Tally(es[..|es| - 1], job) + (if JobOf(es[|es| - 1]) == job then 1 else 0)
  }

  lemma TallyAppend(es: seq<Envelope>, e: Envelope, job: string)
    ensures Tally(es + [e], job) == Tally(es, job) + if JobOf(e) == job then 1 else 0
  {
    assert (es + [e])[..|es|] == es;
  }

  ghost predicate Distinct(es: seq<Envelope>) {
    forall e :: multiset(es)[e] <= 1
  }

  // ---- At most one message per count ----

  function Counts(es: seq<Envelope>, job: string): set<int> {
    set e | e in es && JobOf(e) == job :: CountOf(e)
  }

  lemma {:induction false} TallyIsCounts(cfg: Config, requests: map<string, Message>, es: seq<Envelope>, job: string)
    requires AcceptedKnown(cfg, requests, es) && Distinct(es)
    ensures Tally(es, job) == |Counts(es, job)|
  {
    hide Known, JobOf, CountOf;
    if es == [] {
      assert Counts(es, job) == {};
    } else {
      var front, last := es[..|es| - 1], es[|es| - 1];
      assert es == front + [last];
      assert multiset(es)[last] == multiset(front)[last] + 1;
      assert forall e :: multiset(front)[e] <= multiset(es)[e];
      TallyIsCounts(cfg, requests, front, job);
      if JobOf(last) == job {
        forall e | e in front && JobOf(e) == job ensures CountOf(e) != CountOf(last) {
          KnownIds(cfg, requests, e, last);
        }
        assert Counts(es, job) == Counts(front, job) + {CountOf(last)};
      } else {
        assert Counts(es, job) == Counts(front, job);
      }
    }
  }

  function Range(n: nat): (r: set<int>)
    ensures forall x :: x in r <==> 0 <= x < n
    ensures |r| == n
  {
    if n == 0 then {} else Range(n - 1) + {n - 1}
  }

  lemma SubsetSize(a: set<int>, b: set<int>)
    requires a <= b
    ensures |a| <= |b|
  {
    assert b == a + (b - a);
  }

  lemma TallyBound(cfg: Config, requests: map<string, Message>, es: seq<Envelope>, job: string)
    requires AcceptedKnown(cfg, requests, es) && Distinct(es)
    ensures Tally(es, job) <= cfg.maxRetries + 1
  {
    TallyIsCounts(cfg, requests, es, job);
    assert Counts(es, job) <= Range(cfg.maxRetries + 1);
    SubsetSize(Counts(es, job), Range(cfg.maxRetries + 1));
  }

  // ---- The invariant ----

  ghost predicate IdsTaken(accepted: seq<Envelope>, dedup: set<DedupId>) {
    forall e :: e in accepted ==> e.id in dedup
  }

  /** Every accepted message is on the queue or completed, and none twice. */
  predicate Conserved(accepted: seq<Envelope>, queue: seq<Envelope>, completed: seq<Envelope>) {
    multiset(accepted) == multiset(queue) + multiset(completed)
  }

  /** The message whose handler has passed the guard. */
  function InHand(pc: Pc, queue: seq<Envelope>): seq<Envelope> {
    if pc.Idle? || pc.Guard? || queue == [] then [] else [queue[0]]
  }

  /** Every attempt was completed, crashed, or is in hand. */
  ghost predicate AttemptsCovered(attempts: seq<string>, completed: seq<Envelope>, crashed: seq<Envelope>,
                                  hand: seq<Envelope>)
  {
    forall job :: multiset(attempts)[job] <= Tally(completed, job) + Tally(crashed, job) + Tally(hand, job)
  }

  ghost predicate Inv(s: System) {
    && IdsTaken(s.log.accepted, s.dedup)
    && Distinct(s.log.accepted)
    && Conserved(s.log.accepted, s.queue, s.log.completed)
    && AttemptsCovered(s.log.attempts, s.log.completed, s.log.crashed, InHand(s.pc, s.queue))
  }

  lemma TallyOne(e: Envelope, job: string)
    ensures Tally([e], job) == (if JobOf(e) == job then 1 else 0) && Tally([], job) == 0
  {
    assert [] + [e] == [e];
    TallyAppend([], e, job);
  }

  lemma DistinctAppend(accepted: seq<Envelope>, dedup: set<DedupId>, e: Envelope)
    requires IdsTaken(accepted, dedup) && Distinct(accepted) && e.id !in dedup
    ensures IdsTaken(accepted + [e], dedup + {e.id}) && Distinct(accepted + [e])
  {
    assert e !in accepted;
    assert multiset(accepted)[e] == 0;
    assert multiset(accepted + [e]) == multiset(accepted) + multiset{e};
  }

  lemma ConservedAppend(accepted: seq<Envelope>, queue: seq<Envelope>, completed: seq<Envelope>, e: Envelope)
    requires Conserved(accepted, queue, completed)
    ensures Conserved(accepted + [e], queue + [e], completed)
  {
    assert multiset(accepted + [e]) == multiset(accepted) + multiset{e};
    assert multiset(queue + [e]) == multiset(queue) + multiset{e};
  }

  lemma SendKeeps(s: System, e: Envelope)
    requires Inv(s) && (s.pc.Idle? || s.queue != [])
    ensures Inv(Send(s, e))
  {
    hide AttemptsCovered, IdsTaken, Distinct, Conserved;
    if e.id in s.dedup {
    } else {
      DistinctAppend(s.log.accepted, s.dedup, e);
      ConservedAppend(s.log.accepted, s.queue, s.log.completed, e);
      assert InHand(s.pc, s.queue + [e]) == InHand(s.pc, s.queue);
    }
  }

  lemma PublishKeeps(s: System, m: Message, reason: string, n: Int32, sendError: Option<string>)
    requires Inv(s) && s.queue != [] && m.Request? && s.pc.Publish?
    ensures Inv(PublishStep(s, m, reason, n, sendError))
  {
    SendKeeps(s, Retried(m, n));
    hide Retried, IdsTaken, Distinct, Conserved, AttemptsCovered, RetryUpdates, RepublishFailed;
  }

  /** Once a handler run is over its message covers the attempt it made. */
  lemma ReturnKeeps(s: System)
    requires Inv(s) && s.queue != [] && s.pc.Return?
    ensures Inv(ReturnStep(s))
  {
    var head := s.queue[0];
    assert s.queue == [head] + s.queue[1..];
    forall job ensures Tally(s.log.completed + [head], job) == Tally(s.log.completed, job) + Tally([head], job) {
      TallyAppend(s.log.completed, head, job);
      TallyOne(head, job);
    }
    hide Tally, IdsTaken, Distinct;
    assert forall job :: Tally([], job) == 0 by { TallyOne(head, ""); forall job { TallyOne(head, job); } }
  }

  lemma CrashKeeps(s: System)
    requires Inv(s) && Busy(s)
    ensures Inv(s.(pc := Idle, log := s.log.(crashed := s.log.crashed + [s.queue[0]])))
  {
    var head := s.queue[0];
    forall job
      ensures Tally(s.log.crashed + [head], job) == Tally(s.log.crashed, job) + Tally([head], job)
      ensures Tally([], job) == 0
    {
      TallyAppend(s.log.crashed, head, job);
      TallyOne(head, job);
    }
    hide Tally, IdsTaken, Distinct, Conserved;
  }

  lemma CoveredInHand(attempts: seq<string>, completed: seq<Envelope>, crashed: seq<Envelope>, e: Envelope)
    requires AttemptsCovered(attempts, completed, crashed, [])
    ensures AttemptsCovered(attempts, completed, crashed, [e])
    ensures AttemptsCovered(attempts + [JobOf(e)], completed, crashed, [e])
  {
    forall job
      ensures Tally([e], job) == if job == JobOf(e) then 1 else 0
      ensures Tally([], job) == 0
    {
      TallyOne(e, job);
    }
    hide Tally;
  }

  lemma GuardKeeps(cfg: Config, s: System, m: Message)
    requires Inv(s) && s.queue != [] && m == s.queue[0].message && m.Request? && s.pc.Guard?
    ensures Inv(GuardStep(cfg, s, m))
  {
    hide Tally, IdsTaken, Distinct, Conserved, AttemptsCovered, IsTerminal, NotRegistered, FailedUpdates;
    CoveredInHand(s.log.attempts, s.log.completed, s.log.crashed, s.queue[0]);
  }

  lemma QuietKeeps(cfg: Config, s: System, m: Message, job: string, choice: Choice)
    requires Inv(s) && s.queue != [] && !s.pc.Idle? && !s.pc.Guard?
    ensures s.pc.Unlink? ==> Inv(UnlinkStep(s, job, s.pc.updates))
    ensures s.pc.Settle? ==> Inv(SettleStep(s, job, s.pc.status, s.pc.updates, s.pc.sweep, choice.settledAt))
    ensures Inv(SweepStep(s, job))
    ensures m.Request? ==> Inv(BeginStep(s, m, choice.startedAt)) && Inv(ExecuteStep(s, m, choice.outcome))
    ensures m.Request? && s.pc.Record? ==> Inv(RecordStep(cfg, s, m, s.pc.reason, choice.writable))
  {
    hide IdsTaken, Distinct, Conserved, AttemptsCovered, Merge, DoneUpdates, FailedUpdates, RetryUpdates, FileCount;
  }

  lemma ReceiveKeeps(s: System)
    requires Inv(s) && s.queue != [] && s.pc.Idle? && s.queue[0].message.Request?
    ensures Inv(ReceiveStep(s))
  {
    hide IdsTaken, Distinct, Conserved, AttemptsCovered;
  }

  lemma TryKeeps(cfg: Config, s: System, m: Message, choice: Choice)
    requires Inv(s) && s.queue != [] && m == s.queue[0].message && m.Request? && !s.pc.Idle?
    ensures Inv(Try(cfg, s, m, choice))
  {
    hide Inv, GuardStep, BeginStep, ExecuteStep, RecordStep, PublishStep, UnlinkStep, SettleStep, SweepStep;
    if s.pc.Guard? {
      GuardKeeps(cfg, s, m);
    } else if s.pc.Publish? {
      PublishKeeps(s, m, s.pc.reason, s.pc.tryCount, choice.sendError);
    } else {
      QuietKeeps(cfg, s, m, m.job, choice);
    }
  }

  lemma WorkKeeps(cfg: Config, s: System, choice: Choice)
    requires Inv(s) && s.queue != [] && s.queue[0].message.Request?
    ensures Inv(Work(cfg, s, choice))
  {
    var m, job := s.queue[0].message, JobOf(s.queue[0]);
    hide Inv, ReceiveStep, BeginStep, ExecuteStep, RecordStep, UnlinkStep, SettleStep, SweepStep, ReturnStep, Try;
    if s.pc.Idle? {
      ReceiveKeeps(s);
    } else if s.pc.Unlink? {
      QuietKeeps(cfg, s, m, job, choice);
    } else if s.pc.Settle? {
      QuietKeeps(cfg, s, m, job, choice);
    } else if s.pc.Sweep? {
      QuietKeeps(cfg, s, m, job, choice);
    } else if s.pc.Return? {
      ReturnKeeps(s);
    } else {
      TryKeeps(cfg, s, m, choice);
    }
  }

  lemma StepKeeps(cfg: Config, f: Faults, s: System, l: Label)
    requires !f.redelivery && !f.forgetting && f.strangers.Nobody? && Allowed(cfg, f, s, l)
    requires Origin.Inv(cfg, s) && Inv(s)
    ensures Inv(Do(cfg, s, l))
  {
    if Enabled(s, l) {
      hide Origin.Inv, Inv, Work, Send, Issuable, IsUuid, QueuedDocument, Issued, IsTerminal;
      Heads(cfg, s);
      if l.Handler? {
        WorkKeeps(cfg, s, l.choice);
      } else if l.ApiPublish? {
        SendKeeps(s, First(s.requests[l.job]));
      } else if l.Crash? {
        CrashKeeps(s);
      } else {
        EnvironmentKeeps(cfg, s, l);
      }
    }
  }

  lemma Heads(cfg: Config, s: System)
    requires Origin.Inv(cfg, s)
    ensures s.pc.Idle? || s.queue != []
    ensures s.queue != [] ==> s.queue[0].message.Request?
  {
    hide Origin.Inv;
    Origin.Holding(cfg, s);
    if s.queue != [] { Origin.Hand(cfg, s); }
  }

  /** Steps that lose or store something: messages and attempts stay. */
  lemma EnvironmentKeeps(cfg: Config, s: System, l: Label)
    requires Inv(s)
    requires l.ApiWrite? || l.DropFile? || l.DamageFile? || l.DropDocument? || l.DamageDocument?
    ensures Inv(Do(cfg, s, l))
  {
    hide Inv, Work, Send, Issuable, IsUuid, QueuedDocument, Issued;
    SameKeeps(s, Do(cfg, s, l));
  }

  lemma SameKeeps(s: System, t: System)
    requires Inv(s) && t.queue == s.queue && t.dedup == s.dedup && t.pc == s.pc && t.log.accepted == s.log.accepted
    requires t.log.attempts == s.log.attempts && t.log.completed == s.log.completed && t.log.crashed == s.log.crashed
    ensures Inv(t)
  {}

  lemma {:induction false} Holds(cfg: Config, f: Faults, ls: seq<Label>)
    requires ConfigOk(cfg) && !f.redelivery && !f.forgetting && f.strangers.Nobody? && Run(cfg, f, ls)
    ensures Inv(After(cfg, ls))
  {
    if ls != [] {
      var front := ls[..|ls| - 1];
      Holds(cfg, f, front);
      Origin.Holds(cfg, f, front);
      hide Do, Inv, Allowed, Origin.Inv;
      StepKeeps(cfg, f, After(cfg, front), ls[|ls| - 1]);
    }
  }

  // ---- The bounds ----

  lemma SubDistinct(part: seq<Envelope>, whole: seq<Envelope>)
    requires multiset(part) <= multiset(whole) && Distinct(whole)
    ensures Distinct(part) && forall e :: e in part ==> e in whole
  {
    forall e | e in part ensures e in whole {
      assert multiset(part)[e] > 0;
      assert e in multiset(whole);
    }
  }

  /** With exact deduplication and no redelivery of deleted messages, whatever else fails: at most
      max + 1 messages of a job are ever accepted, at most max + 1 handler runs complete for it, and
      it is attempted at most once per completed run plus once per crash. */
  lemma JobsAreBounded(cfg: Config, f: Faults, ls: seq<Label>, job: string)
    requires ConfigOk(cfg) && !f.redelivery && !f.forgetting && f.strangers.Nobody? && Run(cfg, f, ls)
    ensures var log := After(cfg, ls).log;
            && Tally(log.accepted, job) <= cfg.maxRetries + 1
            && Tally(log.completed, job) <= cfg.maxRetries + 1
            && multiset(log.attempts)[job] <= cfg.maxRetries + 1 + Tally(log.crashed, job)
  {
    hide After, Run;
    Holds(cfg, f, ls);
    Origin.Holds(cfg, f, ls);
    var s := After(cfg, ls);
    var done := s.log.completed + InHand(s.pc, s.queue);
    if InHand(s.pc, s.queue) != [] {
      assert s.queue == [s.queue[0]] + s.queue[1..];
      TallyAppend(s.log.completed, s.queue[0], job);
      TallyOne(s.queue[0], job);
    } else {
      assert done == s.log.completed;
      assert Tally([], job) == 0;
    }
    assert multiset(done) <= multiset(s.log.accepted);
    SubDistinct(done, s.log.accepted);
    SubDistinct(s.log.completed, s.log.accepted);
    hide Tally, RequestsOk, DocumentsIssued, FilesIssued, FilesBounded, Known;
    TallyBound(cfg, s.requests, s.log.accepted, job);
    TallyBound(cfg, s.requests, s.log.completed, job);
    TallyBound(cfg, s.requests, done, job);
  }

  /** A published job that has no message left is done or failed. */
  lemma NoMessageLeftMeansFinished(cfg: Config, f: Faults, ls: seq<Label>, a: Envelope)
    requires ConfigOk(cfg) && !f.terminalLoss && f.strangers.Nobody? && Run(cfg, f, ls)
    requires a in After(cfg, ls).log.accepted
    requires forall e :: e in After(cfg, ls).queue ==> JobOf(e) != JobOf(a)
    ensures IsTerminal(After(cfg, ls).redis, JobOf(a))
  {
    if !IsTerminal(After(cfg, ls).redis, JobOf(a)) {
      NoJobLost.NoJobIsLost(cfg, f, ls, a);
    }
  }
}
