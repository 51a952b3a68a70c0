/** Left to itself, the worker finishes every published job. */
module Drain {
  import opened Json
  import opened Strings
  import opened StatusDocument
  import opened Protocol
  import opened Origin
  import EveryJobEnds
  import TaskDlq

  // ---- A potential that every effect of the handler lowers ----

  function Weight(cfg: Config, e: Envelope): int {
    20 * (cfg.maxRetries + 1 - CountOf(e))
  }

  function Load(cfg: Config, es: seq<Envelope>): int {
    if es == [] then 0 else Weight(cfg, es[0]) + Load(cfg, es[1..])
  }

  lemma {:induction false} LoadAppend(cfg: Config, es: seq<Envelope>, e: Envelope)
    ensures Load(cfg, es + [e]) == Load(cfg, es) + Weight(cfg, e)
  {
    if es == [] {
      assert es + [e] == [e] && [e][1..] == [];
    } else {
      assert (es + [e])[1..] == es[1..] + [e];
      LoadAppend(cfg, es[1..], e);
    }
  }

  /** What is left to do for the message in hand. */
  function HandLoad(pc: Pc, weight: int): int {
    match pc
    case Idle => weight
    case Guard => weight - 1
    case Begin => weight - 2
    case Execute => weight - 3
    case Record(_) => weight - 4
    case Publish(_, _) => weight - 5
    case Unlink(_) => 4
    case Settle(_, _, _) => 3
    case Sweep => 2
    case Return => 1
  }

  function Potential(cfg: Config, s: System): int {
    if s.queue == [] then 0 else HandLoad(s.pc, Weight(cfg, s.queue[0])) + Load(cfg, s.queue[1..])
  }

  ghost predicate Light(cfg: Config, es: seq<Envelope>) {
    forall e :: e in es ==> 0 <= CountOf(e) <= cfg.maxRetries
  }

  function FullWeight(cfg: Config): nat {
    20 * (cfg.maxRetries + 1)
  }

  lemma {:induction false} LoadIsNatural(cfg: Config, es: seq<Envelope>)
    requires Light(cfg, es)
    ensures 0 <= Load(cfg, es) <= |es| * FullWeight(cfg)
  {
    if es != [] {
      assert es[0] in es && forall e :: e in es[1..] ==> e in es;
      LoadIsNatural(cfg, es[1..]);
      assert 0 <= Weight(cfg, es[0]) <= FullWeight(cfg);
      OneMore(|es| - 1, FullWeight(cfg));
      hide Light, Weight, FullWeight;
    }
  }

  lemma OneMore(n: nat, w: nat)
    ensures n * w + w == (n + 1) * w
  {}

  lemma QueueIsLight(cfg: Config, s: System)
    requires Origin.Inv(cfg, s)
    ensures Light(cfg, s.queue) && Light(cfg, s.queue[if s.queue == [] then 0 else 1..])
    ensures s.queue != [] ==> s.queue[0].message.Request?
    ensures s.queue != [] && s.pc.Publish? ==> s.pc.tryCount > CountOf(s.queue[0])
  {
    hide RequestsOk, DocumentsIssued, FilesIssued, IdsAccepted, FilesBounded;
    assert forall e :: e in s.queue ==> Known(cfg, s.requests, e);
    if s.queue != [] { assert s.queue[0] in s.queue; }
  }

  lemma PotentialIsNatural(cfg: Config, s: System)
    requires Origin.Inv(cfg, s)
    ensures Potential(cfg, s) >= 0
  {
    QueueIsLight(cfg, s);
    hide Origin.Inv, Load;
    if s.queue != [] {
      assert s.queue[0] in s.queue;
      LoadIsNatural(cfg, s.queue[1..]);
    }
  }

  lemma RetryIsLighter(cfg: Config, e: Envelope, n: Int32)
    requires e.message.Request? && CountOf(e) < n && CountOf(e) <= cfg.maxRetries
    ensures Weight(cfg, Retried(e.message, n)) <= Weight(cfg, e) - 20
  {
    hide RetryId;
  }

  lemma PublishLowers(cfg: Config, s: System, m: Message, reason: string, n: Int32, sendError: Option<string>)
    requires s.queue != [] && m == s.queue[0].message && m.Request? && s.pc == Publish(reason, n)
    requires CountOf(s.queue[0]) < n && CountOf(s.queue[0]) <= cfg.maxRetries
    ensures Potential(cfg, PublishStep(s, m, reason, n, sendError)) < Potential(cfg, s)
  {
    hide Load, RetryUpdates, RepublishFailed, Retried;
    var e := Retried(m, n);
    RetryIsLighter(cfg, s.queue[0], n);
    LoadAppend(cfg, s.queue[1..], e);
    assert (s.queue + [e])[1..] == s.queue[1..] + [e];
    if sendError.Some? {
    } else if e.id in s.dedup {
    } else {
    }
  }

  lemma ReturnLowers(cfg: Config, s: System)
    requires s.queue != [] && s.pc.Return?
    ensures Potential(cfg, ReturnStep(s)) < Potential(cfg, s)
  {}

  lemma OtherLowers(cfg: Config, s: System, m: Message, job: string, choice: Choice)
    requires s.queue != [] && m == s.queue[0].message && m.Request? && CountOf(s.queue[0]) <= cfg.maxRetries
    ensures s.pc.Idle? ==> Potential(cfg, ReceiveStep(s)) < Potential(cfg, s)
    ensures s.pc.Unlink? ==> Potential(cfg, UnlinkStep(s, job, s.pc.updates)) < Potential(cfg, s)
    ensures s.pc.Settle? ==> Potential(cfg, SettleStep(s, job, s.pc.status, s.pc.updates, s.pc.sweep, choice.settledAt))
                             < Potential(cfg, s)
    ensures s.pc.Sweep? ==> Potential(cfg, SweepStep(s, job)) < Potential(cfg, s)
  {
    hide Load, Merge, FailedUpdates;
  }

  lemma TryLowers(cfg: Config, s: System, m: Message, choice: Choice)
    requires s.queue != [] && m == s.queue[0].message && m.Request? && CountOf(s.queue[0]) <= cfg.maxRetries
    ensures s.pc.Guard? ==> Potential(cfg, GuardStep(cfg, s, m)) < Potential(cfg, s)
    ensures s.pc.Begin? ==> Potential(cfg, BeginStep(s, m, choice.startedAt)) < Potential(cfg, s)
    ensures s.pc.Execute? ==> Potential(cfg, ExecuteStep(s, m, choice.outcome)) < Potential(cfg, s)
    ensures s.pc.Record? ==> Potential(cfg, RecordStep(cfg, s, m, s.pc.reason, choice.writable)) < Potential(cfg, s)
  {
    hide Load, Merge, IsTerminal, NotRegistered, FailedUpdates, DoneUpdates, RetryUpdates, FileCount, TaskDlq.NextCount;
  }

  /** Every effect of the handler brings the queue closer to empty. */
  lemma WorkLowers(cfg: Config, s: System, choice: Choice)
    requires Origin.Inv(cfg, s) && s.queue != []
    ensures Potential(cfg, Work(cfg, s, choice)) < Potential(cfg, s)
  {
    QueueIsLight(cfg, s);
    assert s.queue[0] in s.queue;
    hide Origin.Inv, Potential, ReceiveStep, GuardStep, BeginStep, ExecuteStep, RecordStep, PublishStep, UnlinkStep,
      SettleStep, SweepStep, ReturnStep;
    var m, job := s.queue[0].message, JobOf(s.queue[0]);
    if s.pc.Publish? {
      PublishLowers(cfg, s, m, s.pc.reason, s.pc.tryCount, choice.sendError);
    } else if s.pc.Return? {
      ReturnLowers(cfg, s);
    } else {
      OtherLowers(cfg, s, m, job, choice);
      TryLowers(cfg, s, m, choice);
    }
  }

  // ---- Handler runs appended to any run ----

  function Handlers(choices: nat -> Choice, n: nat): seq<Label> {
    if n == 0 then [] else Handlers(choices, n - 1) + [Handler(choices(n - 1))]
  }

  lemma Extend(cfg: Config, f: Faults, ls: seq<Label>, choices: nat -> Choice, n: nat)
    requires f.unwritable && Run(cfg, f, ls + Handlers(choices, n))
    ensures Run(cfg, f, ls + Handlers(choices, n + 1))
    ensures After(cfg, ls + Handlers(choices, n + 1))
            == Do(cfg, After(cfg, ls + Handlers(choices, n)), Handler(choices(n)))
  {
    var all := ls + Handlers(choices, n + 1);
    assert all == (ls + Handlers(choices, n)) + [Handler(choices(n))];
    assert all[..|all| - 1] == ls + Handlers(choices, n);
    hide Do;
  }

  lemma {:induction false} DrainFrom(cfg: Config, f: Faults, ls: seq<Label>, choices: nat -> Choice, n: nat)
    returns (m: nat)
    requires ConfigOk(cfg) && !f.terminalLoss && f.strangers.Nobody? && f.unwritable
    requires Run(cfg, f, ls + Handlers(choices, n))
    ensures Run(cfg, f, ls + Handlers(choices, m)) && After(cfg, ls + Handlers(choices, m)).queue == []
    ensures m <= n + Potential(cfg, After(cfg, ls + Handlers(choices, n)))
    decreases Potential(cfg, After(cfg, ls + Handlers(choices, n)))
  {
    var s := After(cfg, ls + Handlers(choices, n));
    Origin.Holds(cfg, f, ls + Handlers(choices, n));
    PotentialIsNatural(cfg, s);
    if s.queue == [] {
      m := n;
    } else {
      Extend(cfg, f, ls, choices, n);
      WorkLowers(cfg, s, choices(n));
      Origin.Holds(cfg, f, ls + Handlers(choices, n + 1));
      PotentialIsNatural(cfg, Work(cfg, s, choices(n)));
      hide Origin.Inv, Potential, Work, Run, Handlers;
      m := DrainFrom(cfg, f, ls, choices, n + 1);
    }
  }

  /** Every job ends: after any run, however many faults it saw, as soon as the worker is left alone
      the queue empties within a number of effects fixed by its length, whatever every execution,
      DLQ write and publish gives, and then every published job is done or failed. (`f.unwritable` admits
      every choice.) */
  lemma EveryPublishedJobEnds(cfg: Config, f: Faults, ls: seq<Label>, choices: nat -> Choice)
    requires ConfigOk(cfg) && !f.terminalLoss && f.strangers.Nobody? && f.unwritable && Run(cfg, f, ls)
    ensures exists m: nat ::
              m <= Potential(cfg, After(cfg, ls))
              && var t := After(cfg, ls + Handlers(choices, m));
                 t.queue == [] && forall a :: a in t.log.accepted ==> IsTerminal(t.redis, JobOf(a))
  {
    assert ls + Handlers(choices, 0) == ls;
    var m := DrainFrom(cfg, f, ls, choices, 0);
    var t := After(cfg, ls + Handlers(choices, m));
    forall a | a in t.log.accepted ensures IsTerminal(t.redis, JobOf(a)) {
      EveryJobEnds.NoMessageLeftMeansFinished(cfg, f, ls + Handlers(choices, m), a);
    }
  }

  /** The number of effects is at most 20 (max + 1) for each message on the queue. */
  lemma PotentialBound(cfg: Config, s: System)
    requires Origin.Inv(cfg, s)
    ensures Potential(cfg, s) <= |s.queue| * FullWeight(cfg)
  {
    QueueIsLight(cfg, s);
    if s.queue != [] {
      assert s.queue[0] in s.queue;
      assert HandLoad(s.pc, Weight(cfg, s.queue[0])) <= FullWeight(cfg);
      LoadIsNatural(cfg, s.queue[1..]);
      OneMore(|s.queue| - 1, FullWeight(cfg));
      hide Origin.Inv, Load, Light, Weight, HandLoad, FullWeight;
    }
  }
}
