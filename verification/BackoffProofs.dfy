/** What the run task does between its clients: which ending is followed by which wait, how long the waits are, and
    that the log of these things is what the environment answered. */
module BackoffProofs {
  import opened Wrappers
  import opened Schemas
  import opened Ingestor
  import opened IngestorProofs

  // ---------------------------------------------------------------- what follows what

  // The answers after which the source sleeps off a failure; a stale link is not one.
  predicate Backs(e: Entry) {
    e.FactoryRaised? || e.DialRaised? || (e.StreamOver? && (e.how == Ended || e.how == Errored))
  }

  // Of two successive entries of one run.
  ghost predicate Follows(e: Entry, e': Entry) {
    && (e'.Slept? <==> Backs(e))
    && (e'.Polled? <==> e.SaidOffline?)
    && (e.Built? <==> e'.DialRaised? || e'.StreamOver? || (e'.SaidOffline? && !GoesOn(e)))
    && (e'.Built? || e'.FactoryRaised? ==> GoesOn(e))
  }

  // After these the loop comes round without waiting any more.
  predicate GoesOn(e: Entry) {
    e.RunBegan? || e.Slept? || e.Polled? || (e.StreamOver? && e.how == Stale)
  }

  ghost predicate Orderly(log: seq<Entry>) {
    && (log != [] ==> log[0].RunBegan?)
    && forall n :: 0 < n < |log| && !log[n].RunBegan? ==> Follows(log[n - 1], log[n])
  }

  // The latest entry, by where the run task is.
  predicate At(pc: Pc, e: Entry) {
    match pc
    case Created => e.RunBegan?
    case Dialing | Draining(_) => e.Built?
    case Closing(stale, _, raising) => raising || (e.StreamOver? && (stale <==> e.how == Stale))
    case OfflineSleep => e.SaidOffline?
    case BackoffSleep => Backs(e)
    case Done => true
  }

  ghost predicate OrderOk(s: Sys) {
    Orderly(s.log) && (Busy(s) ==> s.log != [] && At(s.tasks[s.current.value].pc, s.log[|s.log| - 1]))
  }

  lemma OrderlySnoc(log: seq<Entry>, e: Entry)
    requires Orderly(log) && log != [] && Follows(log[|log| - 1], e)
    ensures Orderly(log + [e])
  {
    var l := log + [e];
    forall n | 0 < n < |l| && !l[n].RunBegan? ensures Follows(l[n - 1], l[n]) {
      if n < |log| {
        assert Follows(log[n - 1], log[n]);
      }
    }
  }

  lemma HeadKeepsOrder(cfg: Config, s: Sys, t: Task, factory: Factory)
    requires s.current.Some? && s.current.value < |s.tasks|
    requires Orderly(s.log) && s.log != [] && GoesOn(s.log[|s.log| - 1])
    ensures OrderOk(LoopHead(cfg, s, s.current.value, t, factory))
  {
    hide Orderly;
    if KeepsGoing(s, t) {
      match factory {
        case Builds => OrderlySnoc(s.log, Built);
        case Fails => OrderlySnoc(s.log, FactoryRaised);
        case SaysOffline => OrderlySnoc(s.log, SaidOffline);
      }
    }
  }

  lemma SleepKeepsOrder(cfg: Config, s: Sys, factory: Factory, jitter: real)
    requires OrderOk(s) && Busy(s)
    ensures OrderOk(TaskStep(cfg, s, SleepOver(s.current.value, factory, jitter)))
  {
    hide Orderly, LoopHead;
    var t := s.tasks[s.current.value];
    var e := if t.pc == OfflineSleep then Polled else Slept(t.backoff, t.backoff + jitter);
    if t.pc == OfflineSleep || t.pc == BackoffSleep {
      OrderlySnoc(s.log, e);
      var t' := if t.pc == OfflineSleep then t else t.(backoff := Doubled(cfg, t.backoff));
      HeadKeepsOrder(cfg, s.(log := s.log + [e]), t', factory);
    }
  }

  lemma DialKeepsOrder(cfg: Config, s: Sys, a: Action)
    requires OrderOk(s) && Busy(s) && (a.ConnectReturned? || a.ConnectOffline? || a.ConnectFailed?)
    requires s.current == Some(a.i)
    ensures OrderOk(TaskStep(cfg, s, a))
  {
    hide Orderly;
    if s.tasks[a.i].pc == Dialing {
      OrderlySnoc(s.log, SaidOffline);
      OrderlySnoc(s.log, DialRaised);
    }
  }

  lemma StreamKeepsOrder(cfg: Config, s: Sys, how: StreamEnd)
    requires OrderOk(s) && Busy(s)
    ensures OrderOk(TaskStep(cfg, s, StreamEnds(s.current.value, how)))
  {
    hide Orderly;
    var t := s.tasks[s.current.value];
    if t.pc.Draining? {
      OrderlySnoc(s.log, StreamOver(t.client, how, t.pc.received));
    }
  }

  lemma CloseKeepsOrder(cfg: Config, s: Sys, factory: Factory)
    requires OrderOk(s) && Busy(s)
    ensures OrderOk(TaskStep(cfg, s, CloseReturned(s.current.value, factory)))
  {
    hide Orderly, LoopHead;
    var i, t := s.current.value, s.tasks[s.current.value];
    if t.pc.Closing? && !t.pc.raising && t.pc.stale {
      HeadKeepsOrder(cfg, s, t, factory);
      HeadKeepsOrder(cfg, s, t.(backoff := cfg.backoffInitial), factory);
    }
  }

  lemma TaskKeepsOrder(cfg: Config, s: Sys, a: Action)
    requires OrderOk(s) && Busy(s) && !a.Start? && !a.Stop? && !a.StopperResumes? && s.current == Some(a.i)
    ensures OrderOk(TaskStep(cfg, s, a))
  {
    hide Orderly, LoopHead, AfterDrain;
    match a {
      case TaskStarts(i, factory) =>
        if s.tasks[i].pc == Created {
          HeadKeepsOrder(cfg, s, s.tasks[i], factory);
        }
      case ConnectReturned(_, _) => DialKeepsOrder(cfg, s, a);
      case ConnectOffline(_) => DialKeepsOrder(cfg, s, a);
      case ConnectFailed(_) => DialKeepsOrder(cfg, s, a);
      case SleepOver(_, factory, jitter) => SleepKeepsOrder(cfg, s, factory, jitter);
      case StreamEnds(_, how) => StreamKeepsOrder(cfg, s, how);
      case CloseReturned(_, factory) => CloseKeepsOrder(cfg, s, factory);
      case _ =>
    }
  }

  lemma FinishKeepsOrder(cfg: Config, s: Sys)
    requires OrderOk(s)
    ensures OrderOk(FinishStop(cfg, s))
  {
    if s.lock.Starting? {
      var log := s.log + [RunBegan(s.lock.uniqueId)];
      forall n | 0 < n < |log| && !log[n].RunBegan? ensures Follows(log[n - 1], log[n]) {
        assert Follows(s.log[n - 1], s.log[n]);
      }
    }
  }

  lemma StepKeepsOrder(cfg: Config, s: Sys, a: Action)
    requires TasksOk(s) && OrderOk(s)
    ensures OrderOk(Step(cfg, s, a))
  {
    hide TaskStep, FinishStop, Orderly;
    match a {
      case Start(id) => FinishKeepsOrder(cfg, s.(stopRequested := true, lock := Starting(id)));
      case Stop => FinishKeepsOrder(cfg, s.(stopRequested := true, lock := Stopping));
      case StopperResumes => FinishKeepsOrder(cfg, s);
      case _ =>
        if Running(s, a.i) {
          TaskKeepsOrder(cfg, s, a);
        }
    }
  }

  /** Every ending has its own wait, in every schedule: of two successive entries of a run, the later is a backoff
      sleep exactly if the earlier is a stream that ended or errored, a dial that failed or a factory that raised;
      it is an offline poll exactly if the earlier is an offline answer; and after a stale stream, as after each of
      those waits, the loop comes round at once. */
  lemma {:induction false} EachEndingHasItsWait(cfg: Config, actions: seq<Action>)
    ensures OrderOk(Run(cfg, actions))
  {
    if actions != [] {
      var before := actions[..|actions| - 1];
      EachEndingHasItsWait(cfg, before);
      RunInv(cfg, before);
      StepKeepsOrder(cfg, Run(cfg, before), actions[|actions| - 1]);
    }
  }

  // Two successive clients of one run.
  ghost predicate SuccessiveBuilds(log: seq<Entry>, i: nat, j: nat) {
    && i < j < |log| && log[i].Built? && log[j].Built?
    && forall n :: i < n < j ==> !log[n].Built? && !log[n].RunBegan?
  }

  ghost predicate NoWaitBetween(log: seq<Entry>, i: nat, j: nat) {
    forall n :: i < n < j && n < |log| ==> !log[n].Slept? && !log[n].Polled?
  }

  /** Only a stale link is redialled at once: between two successive clients of one run there is no wait at all
      exactly if the first one's stream went stale and nothing else came between; and a backoff sleep comes next
      exactly if its stream ended or errored, or its dial failed. */
  lemma OnlyStaleRedialsAtOnce(cfg: Config, actions: seq<Action>, i: nat, j: nat)
    requires SuccessiveBuilds(Run(cfg, actions).log, i, j)
    ensures var log := Run(cfg, actions).log;
            && i + 1 < j
            && (NoWaitBetween(log, i, j) <==> j == i + 2 && log[i + 1].StreamOver? && log[i + 1].how == Stale)
            && (i + 2 < j && log[i + 2].Slept?
                <==> || log[i + 1].DialRaised?
                     || (log[i + 1].StreamOver? && (log[i + 1].how == Ended || log[i + 1].how == Errored)))
  {
    EachEndingHasItsWait(cfg, actions);
    var log := Run(cfg, actions).log;
    assert Follows(log[i], log[i + 1]);
    assert Follows(log[i + 1], log[i + 2]);
    if i + 2 < j {
      assert Follows(log[i + 2], log[i + 3]);
      var wait := if log[i + 2].Slept? || log[i + 2].Polled? then i + 2 else i + 3;
      assert log[wait].Slept? || log[wait].Polled?;
    }
  }

  // ---------------------------------------------------------------- how long the sleeps are

  // Backoff sleeps since the run began or since a connection that had delivered an event ended.
  function Sleeps(log: seq<Entry>): nat {
    if log == [] then 0 else
    var e, before := log[|log| - 1], Sleeps(log[..|log| - 1]);
    if e.Slept? then before + 1
    else if e.RunBegan? || (e.StreamOver? && e.delivered) then 0
    else before
  }

  function Raised(x: real, k: nat): real {
    x * Pow2(k) as real
  }

  function ClosedForm(cfg: Config, k: nat): real {
    MinReal(Raised(cfg.backoffInitial, k), cfg.backoffMax)
  }

  ghost predicate SleepsOk(cfg: Config, log: seq<Entry>) {
    forall k :: 0 <= k < |log| && log[k].Slept? ==>
      && log[k].backoff == ClosedForm(cfg, Sleeps(log[..k]))
      && log[k].backoff <= log[k].seconds <= 1.25 * log[k].backoff
  }

  // The backoff is reset only once the client that delivered something has been closed.
  predicate BackoffAt(cfg: Config, t: Task, log: seq<Entry>) {
    match t.pc
    case Closing(_, received, raising) =>
      raising || if received then Sleeps(log) == 0 else t.backoff == ClosedForm(cfg, Sleeps(log))
    case _ => t.backoff == ClosedForm(cfg, Sleeps(log))
  }

  ghost predicate BackoffOk(cfg: Config, s: Sys) {
    (Busy(s) ==> BackoffAt(cfg, s.tasks[s.current.value], s.log)) && SleepsOk(cfg, s.log)
  }

  lemma RaisedOnce(x: real, k: nat)
    ensures Raised(x, 0) == x && Raised(x, k + 1) == 2.0 * Raised(x, k)
  {
  }

  lemma {:induction false} RaisedAway(x: real, k: nat)
    ensures (x >= 0.0 ==> Raised(x, k) >= x) && (x <= 0.0 ==> Raised(x, k) <= x)
  {
    hide Raised;
    RaisedOnce(x, if k > 0 then k - 1 else 0);
    if k > 0 {
      RaisedAway(x, k - 1);
    }
  }

  lemma DoubledClosedForm(cfg: Config, k: nat)
    requires cfg.backoffInitial <= cfg.backoffMax
    ensures Doubled(cfg, ClosedForm(cfg, k)) == ClosedForm(cfg, k + 1)
  {
    hide Raised;
    RaisedOnce(cfg.backoffInitial, k);
    RaisedAway(cfg.backoffInitial, k);
  }

  lemma FirstIsInitial(cfg: Config)
    requires cfg.backoffInitial <= cfg.backoffMax
    ensures ClosedForm(cfg, 0) == cfg.backoffInitial
  {
    RaisedOnce(cfg.backoffInitial, 0);
  }

  lemma SleepsSnoc(log: seq<Entry>, e: Entry)
    ensures Sleeps(log + [e]) == if e.Slept? then Sleeps(log) + 1
                                 else if e.RunBegan? || (e.StreamOver? && e.delivered) then 0 else Sleeps(log)
  {
    assert (log + [e])[..|log|] == log;
  }

  lemma SleepsOkSnoc(cfg: Config, log: seq<Entry>, e: Entry)
    requires SleepsOk(cfg, log)
    requires e.Slept? ==> e.backoff == ClosedForm(cfg, Sleeps(log)) && e.backoff <= e.seconds <= 1.25 * e.backoff
    ensures SleepsOk(cfg, log + [e])
  {
    var l := log + [e];
    forall k | 0 <= k < |l| && l[k].Slept?
      ensures l[k].backoff == ClosedForm(cfg, Sleeps(l[..k])) && l[k].backoff <= l[k].seconds <= 1.25 * l[k].backoff
    {
      assert l[..k] == log[..k];
      assert log[..|log|] == log;
    }
  }

  // An entry of no consequence for the backoff.
  lemma NeutralEntry(cfg: Config, log: seq<Entry>, e: Entry)
    requires SleepsOk(cfg, log) && !e.Slept? && !e.RunBegan? && !(e.StreamOver? && e.delivered)
    ensures SleepsOk(cfg, log + [e]) && Sleeps(log + [e]) == Sleeps(log)
  {
    SleepsSnoc(log, e);
    SleepsOkSnoc(cfg, log, e);
  }

  lemma HeadKeepsBackoff(cfg: Config, s: Sys, t: Task, factory: Factory)
    requires s.current.Some? && s.current.value < |s.tasks| && !t.pc.Closing?
    requires SleepsOk(cfg, s.log) && t.backoff == ClosedForm(cfg, Sleeps(s.log))
    ensures BackoffOk(cfg, LoopHead(cfg, s, s.current.value, t, factory))
  {
    hide Sleeps, SleepsOk, ClosedForm;
    NeutralEntry(cfg, s.log, Built);
    NeutralEntry(cfg, s.log, FactoryRaised);
    NeutralEntry(cfg, s.log, SaidOffline);
  }

  lemma SleepKeepsBackoff(cfg: Config, s: Sys, factory: Factory, jitter: real)
    requires cfg.backoffInitial <= cfg.backoffMax && BackoffOk(cfg, s) && Busy(s)
    ensures BackoffOk(cfg, TaskStep(cfg, s, SleepOver(s.current.value, factory, jitter)))
  {
    hide Sleeps, SleepsOk, ClosedForm, LoopHead, Doubled;
    var t := s.tasks[s.current.value];
    if t.pc == OfflineSleep {
      NeutralEntry(cfg, s.log, Polled);
      HeadKeepsBackoff(cfg, s.(log := s.log + [Polled]), t, factory);
    } else if t.pc == BackoffSleep && 0.0 <= jitter <= t.backoff * 0.25 {
      var e := Slept(t.backoff, t.backoff + jitter);
      SleepsSnoc(s.log, e);
      SleepsOkSnoc(cfg, s.log, e);
      DoubledClosedForm(cfg, Sleeps(s.log));
      HeadKeepsBackoff(cfg, s.(log := s.log + [e]), t.(backoff := Doubled(cfg, t.backoff)), factory);
    }
  }

  lemma DialKeepsBackoff(cfg: Config, s: Sys, a: Action)
    requires BackoffOk(cfg, s) && Busy(s) && (a.ConnectReturned? || a.ConnectOffline? || a.ConnectFailed?)
    requires s.current == Some(a.i)
    ensures BackoffOk(cfg, TaskStep(cfg, s, a))
  {
    hide Sleeps, SleepsOk, ClosedForm;
    NeutralEntry(cfg, s.log, SaidOffline);
    NeutralEntry(cfg, s.log, DialRaised);
  }

  lemma StreamKeepsBackoff(cfg: Config, s: Sys, how: StreamEnd)
    requires BackoffOk(cfg, s) && Busy(s)
    ensures BackoffOk(cfg, TaskStep(cfg, s, StreamEnds(s.current.value, how)))
  {
    hide Sleeps, SleepsOk, ClosedForm;
    var t := s.tasks[s.current.value];
    if t.pc.Draining? {
      var e := StreamOver(t.client, how, t.pc.received);
      SleepsSnoc(s.log, e);
      SleepsOkSnoc(cfg, s.log, e);
    }
  }

  lemma CloseKeepsBackoff(cfg: Config, s: Sys, factory: Factory)
    requires cfg.backoffInitial <= cfg.backoffMax && BackoffOk(cfg, s) && Busy(s)
    ensures BackoffOk(cfg, TaskStep(cfg, s, CloseReturned(s.current.value, factory)))
  {
    hide Sleeps, SleepsOk, ClosedForm;
    var t := s.tasks[s.current.value];
    if t.pc.Closing? && !t.pc.raising {
      FirstIsInitial(cfg);
      ClosedThenOn(cfg, s, if t.pc.received then t.(backoff := cfg.backoffInitial) else t, factory);
    }
  }

  // The tail of _run's turn, once the backoff is settled.
  lemma ClosedThenOn(cfg: Config, s: Sys, t: Task, factory: Factory)
    requires Busy(s) && SleepsOk(cfg, s.log) && t.backoff == ClosedForm(cfg, Sleeps(s.log))
    ensures BackoffOk(cfg, LoopHead(cfg, s, s.current.value, t, factory))
    ensures BackoffOk(cfg, Put(s, s.current.value, t.(pc := Done)))
    ensures BackoffOk(cfg, Put(s, s.current.value, t.(pc := BackoffSleep)))
  {
    hide Sleeps, SleepsOk, ClosedForm;
    NeutralEntry(cfg, s.log, Built);
    NeutralEntry(cfg, s.log, FactoryRaised);
    NeutralEntry(cfg, s.log, SaidOffline);
  }

  lemma TaskKeepsBackoff(cfg: Config, s: Sys, a: Action)
    requires cfg.backoffInitial <= cfg.backoffMax && BackoffOk(cfg, s) && Busy(s)
    requires !a.Start? && !a.Stop? && !a.StopperResumes? && s.current == Some(a.i)
    ensures BackoffOk(cfg, TaskStep(cfg, s, a))
  {
    hide Sleeps, SleepsOk, ClosedForm, LoopHead, AfterDrain;
    match a {
      case TaskStarts(i, factory) =>
        if s.tasks[i].pc == Created {
          HeadKeepsBackoff(cfg, s, s.tasks[i], factory);
        }
      case ConnectReturned(_, _) => DialKeepsBackoff(cfg, s, a);
      case ConnectOffline(_) => DialKeepsBackoff(cfg, s, a);
      case ConnectFailed(_) => DialKeepsBackoff(cfg, s, a);
      case SleepOver(_, factory, jitter) => SleepKeepsBackoff(cfg, s, factory, jitter);
      case StreamEnds(_, how) => StreamKeepsBackoff(cfg, s, how);
      case CloseReturned(_, factory) => CloseKeepsBackoff(cfg, s, factory);
      case _ =>
    }
  }

  lemma FinishKeepsBackoff(cfg: Config, s: Sys)
    requires cfg.backoffInitial <= cfg.backoffMax && BackoffOk(cfg, s)
    ensures BackoffOk(cfg, FinishStop(cfg, s))
  {
    hide SleepsOk, ClosedForm;
    FirstIsInitial(cfg);
    if s.lock.Starting? {
      SleepsSnoc(s.log, RunBegan(s.lock.uniqueId));
      SleepsOkSnoc(cfg, s.log, RunBegan(s.lock.uniqueId));
    }
  }

  lemma StepKeepsBackoff(cfg: Config, s: Sys, a: Action)
    requires cfg.backoffInitial <= cfg.backoffMax && TasksOk(s) && BackoffOk(cfg, s)
    ensures BackoffOk(cfg, Step(cfg, s, a))
  {
    hide TaskStep, FinishStop, SleepsOk, ClosedForm;
    match a {
      case Start(id) => FinishKeepsBackoff(cfg, s.(stopRequested := true, lock := Starting(id)));
      case Stop => FinishKeepsBackoff(cfg, s.(stopRequested := true, lock := Stopping));
      case StopperResumes => FinishKeepsBackoff(cfg, s);
      case _ =>
        if Running(s, a.i) {
          TaskKeepsBackoff(cfg, s, a);
        }
    }
  }

  /** Backoff in closed form: whenever the run task is at or before a wait, so at every head of its loop, its
      backoff is min(initial * 2^k, max) for the k of Sleeps: offline polls and stale links leave k alone, and only
      a connection that delivered something resets it. Each sleep lasts between 1 and 1.25 times the backoff. */
  lemma {:induction false} BackoffClosedForm(cfg: Config, actions: seq<Action>)
    requires cfg.backoffInitial <= cfg.backoffMax
    ensures BackoffOk(cfg, Run(cfg, actions))
  {
    if actions != [] {
      var before := actions[..|actions| - 1];
      BackoffClosedForm(cfg, before);
      RunInv(cfg, before);
      StepKeepsBackoff(cfg, Run(cfg, before), actions[|actions| - 1]);
    }
  }

  ghost predicate FollowsClosedForm(cfg: Config, actions: seq<Action>) {
    BackoffOk(cfg, Run(cfg, actions))
  }

  lemma StartsAboveTheCap(cfg: Config)
    requires cfg.backoffMax < cfg.backoffInitial
    ensures !BackoffOk(cfg, Launched(cfg))
  {
    assert Busy(Launched(cfg)) && Launched(cfg).tasks[0].backoff == cfg.backoffInitial;
  }

  /** For any settings at all, the closed form holds in every run exactly if the initial backoff respects the
      cap: otherwise already a fresh run task starts above it. */
  lemma ClosedFormExactly(cfg: Config)
    ensures (forall actions :: FollowsClosedForm(cfg, actions)) <==> cfg.backoffInitial <= cfg.backoffMax
  {
    if cfg.backoffInitial <= cfg.backoffMax {
      forall actions ensures FollowsClosedForm(cfg, actions) {
        BackoffClosedForm(cfg, actions);
      }
    } else {
      LaunchedByStart(cfg);
      StartsAboveTheCap(cfg);
      assert !FollowsClosedForm(cfg, [Start("x")]);
    }
  }

  // ---------------------------------------------------------------- the log is what the environment answered

  // A stream that is over is that of a closed client, and `delivered` says whether anything was pulled from it.
  ghost predicate StreamsTold(s: Sys) {
    forall n :: 0 <= n < |s.log| && s.log[n].StreamOver? ==> StreamTold(s.clients, s.log[n])
  }

  predicate StreamTold(clients: seq<Client>, e: Entry)
    requires e.StreamOver?
  {
    e.client < |clients| && clients[e.client].closes == 1 && (e.delivered <==> clients[e.client].pulled != [])
  }

  // A closed client is history.
  ghost predicate ClosedStay(clients: seq<Client>, clients': seq<Client>) {
    |clients| <= |clients'| && forall c :: 0 <= c < |clients| && clients[c].closes == 1 ==> clients'[c] == clients[c]
  }

  // What a step adds to the log that says nothing of streams.
  ghost predicate NoStreamAdded(log: seq<Entry>, log': seq<Entry>) {
    log <= log' && forall n :: |log| <= n < |log'| ==> !log'[n].StreamOver?
  }

  lemma HeadAddsNoStream(cfg: Config, s: Sys, i: nat, t: Task, factory: Factory)
    requires i < |s.tasks|
    ensures var s' := LoopHead(cfg, s, i, t, factory); NoStreamAdded(s.log, s'.log) && ClosedStay(s.clients, s'.clients)
  {
  }

  ghost predicate NoStreamStep(s: Sys, s': Sys) {
    NoStreamAdded(s.log, s'.log) && ClosedStay(s.clients, s'.clients)
  }

  lemma LoopAddsNoStream(cfg: Config, s: Sys, a: Action)
    requires Busy(s) && (a.TaskStarts? || a.SleepOver? || a.CloseReturned?) && s.current == Some(a.i)
    ensures NoStreamStep(s, TaskStep(cfg, s, a))
  {
    hide LoopHead;
    var i, t := a.i, s.tasks[a.i];
    match a {
      case TaskStarts(_, factory) => HeadAddsNoStream(cfg, s, i, t, factory);
      case SleepOver(_, factory, jitter) =>
        HeadAddsNoStream(cfg, s.(log := s.log + [Polled]), i, t, factory);
        HeadAddsNoStream(cfg, s.(log := s.log + [Slept(t.backoff, t.backoff + jitter)]), i,
                         t.(backoff := Doubled(cfg, t.backoff)), factory);
      case CloseReturned(_, factory) =>
        HeadAddsNoStream(cfg, s, i, t, factory);
        HeadAddsNoStream(cfg, s, i, t.(backoff := cfg.backoffInitial), factory);
    }
  }

  // The client in use is not closed yet.
  lemma ClientAddsNoStream(cfg: Config, s: Sys, a: Action)
    requires ClientsOk(s) && Busy(s) && (a.ConnectReturned? || a.EventPulled? || a.Cancelled?) && s.current == Some(a.i)
    ensures NoStreamStep(s, TaskStep(cfg, s, a))
  {
    hide LoopHead, AfterDrain, Settled;
  }

  lemma TaskAddsNoStream(cfg: Config, s: Sys, a: Action)
    requires ClientsOk(s) && Busy(s) && !a.Start? && !a.Stop? && !a.StopperResumes? && s.current == Some(a.i)
    requires !a.StreamEnds?
    ensures NoStreamStep(s, TaskStep(cfg, s, a))
  {
    hide ClientsOk, LoopHead, AfterDrain;
    if a.TaskStarts? || a.SleepOver? || a.CloseReturned? {
      LoopAddsNoStream(cfg, s, a);
    } else if a.ConnectReturned? || a.EventPulled? || a.Cancelled? {
      ClientAddsNoStream(cfg, s, a);
    }
  }

  lemma StreamIsTold(cfg: Config, s: Sys, how: StreamEnd)
    requires ClientsOk(s) && Busy(s) && s.tasks[s.current.value].pc.Draining?
    ensures var s' := TaskStep(cfg, s, StreamEnds(s.current.value, how));
            && s'.log == s.log + [StreamOver(|s.clients| - 1, how, s.clients[|s.clients| - 1].pulled != [])]
            && StreamTold(s'.clients, s'.log[|s.log|]) && ClosedStay(s.clients, s'.clients)
  {
  }

  lemma StreamsStayTold(s: Sys, s': Sys)
    requires StreamsTold(s) && NoStreamAdded(s.log, s'.log) && ClosedStay(s.clients, s'.clients)
    ensures StreamsTold(s')
  {
    forall n | 0 <= n < |s'.log| && s'.log[n].StreamOver? ensures StreamTold(s'.clients, s'.log[n]) {
      assert n < |s.log| && s'.log[n] == s.log[n];
      assert StreamTold(s.clients, s.log[n]);
    }
  }

  lemma StepTells(cfg: Config, s: Sys, a: Action)
    requires Inv(s) && StreamsTold(s)
    ensures StreamsTold(Step(cfg, s, a))
  {
    var s' := Step(cfg, s, a);
    if !a.Start? && !a.Stop? && !a.StopperResumes? && Running(s, a.i) {
      hide Step;
      StepIsTaskStep(cfg, s, a);
      if a.StreamEnds? && s.tasks[a.i].pc.Draining? {
        StreamIsTold(cfg, s, a.how);
        var told := s.(clients := s'.clients);
        StreamsStayTold(s, told);
      } else if a.StreamEnds? {
        StreamsStayTold(s, s');
      } else {
        TaskAddsNoStream(cfg, s, a);
        StreamsStayTold(s, s');
      }
    } else {
      StreamsStayTold(s, s');
    }
  }

  lemma StepIsTaskStep(cfg: Config, s: Sys, a: Action)
    requires TasksOk(s) && !a.Start? && !a.Stop? && !a.StopperResumes? && Running(s, a.i)
    ensures Step(cfg, s, a) == TaskStep(cfg, s, a) && s.current == Some(a.i) && Busy(s)
  {
  }

  /** A stream counts as having delivered exactly if an event was pulled from its client. */
  lemma {:induction false} DeliveredMeansPulled(cfg: Config, actions: seq<Action>)
    ensures StreamsTold(Run(cfg, actions))
  {
    if actions != [] {
      var before := actions[..|actions| - 1];
      DeliveredMeansPulled(cfg, before);
      RunInv(cfg, before);
      StepTells(cfg, Run(cfg, before), actions[|actions| - 1]);
    }
  }
}
