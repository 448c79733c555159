/** What every schedule of start, stop, cancellation, client behaviour and timers keeps. */
module IngestorProofs {
  import opened Wrappers
  import opened Schemas
  import opened Ingestor

  // ---------------------------------------------------------------- the invariant

  predicate AtClient(pc: Pc) { pc.Dialing? || pc.Draining? || pc.Closing? }

  // The client a running task is dealing with.
  function Attached(s: Sys): Option<nat> {
    if Busy(s) && AtClient(s.tasks[s.current.value].pc) then Some(s.tasks[s.current.value].client) else None
  }

  // Finished with: closed once if its connect() returned, never otherwise; except that one whose events()
  // raised was left open.
  predicate Settled(c: Client) {
    && c.closes == (if c.connected && !c.eventsFailed then 1 else 0)
    && (!c.connected ==> c.pulled == [] && !c.eventsFailed)
  }

  predicate InUse(c: Client, pc: Pc) {
    match pc
    case Dialing => !c.connected && !c.eventsFailed && c.closes == 0 && c.pulled == []
    case Draining(received) => c.connected && !c.eventsFailed && c.closes == 0 && (received <==> c.pulled != [])
    case Closing(_, received, _) => c.connected && !c.eventsFailed && c.closes == 1 && (received <==> c.pulled != [])
    case _ => true
  }

  function AllPulled(clients: seq<Client>): seq<SocialEvent> {
    if clients == [] then [] else AllPulled(clients[..|clients| - 1]) + clients[|clients| - 1].pulled
  }

  ghost predicate TasksOk(s: Sys) {
    && (forall i :: 0 <= i < |s.tasks| && s.tasks[i].pc != Done ==> s.current == Some(i))
    && (s.current.Some? ==> s.current.value == |s.tasks| - 1 && s.tasks[s.current.value].generation == s.generation)
    && (s.lock != Free ==> s.stopRequested)
    && (s.current.Some? && s.lock == Free ==> !s.stopRequested)
  }

  ghost predicate ClientsOk(s: Sys) {
    && (Attached(s).Some? ==> Attached(s).value == |s.clients| - 1
                              && InUse(s.clients[Attached(s).value], s.tasks[s.current.value].pc))
    && (forall c :: 0 <= c < |s.clients| && Attached(s) != Some(c) ==> Settled(s.clients[c]))
  }

  ghost predicate Inv(s: Sys) {
    TasksOk(s) && ClientsOk(s) && s.queue == AllPulled(s.clients)
  }

  lemma PulledAppend(clients: seq<Client>, c: Client)
    ensures AllPulled(clients + [c]) == AllPulled(clients) + c.pulled
  {
    assert (clients + [c])[..|clients|] == clients;
  }

  // Changing the last client changes the concatenation at its end only.
  lemma PulledLast(clients: seq<Client>, c: Client)
    requires clients != []
    ensures var n := |clients| - 1;
            AllPulled(clients[n := c]) == AllPulled(clients[..n]) + c.pulled
            && AllPulled(clients) == AllPulled(clients[..n]) + clients[n].pulled
  {
    var n := |clients| - 1;
    assert clients[n := c][..n] == clients[..n];
  }

  // A client that is done with does not stand in the way of the loop going on.
  ghost predicate FreeToGo(s: Sys, t: Task) {
    && Inv(s) && Busy(s) && t.generation == s.generation
    && (Attached(s).Some? ==> Settled(s.clients[Attached(s).value]))
  }

  lemma DetachInv(s: Sys, t: Task)
    requires FreeToGo(s, t) && !AtClient(t.pc)
    ensures Inv(Put(s, s.current.value, t))
  {
  }

  lemma BuildInv(cfg: Config, s: Sys, t: Task)
    requires FreeToGo(s, t) && KeepsGoing(s, t)
    ensures Inv(LoopHead(cfg, s, s.current.value, t, Builds))
  {
    var i := s.current.value;
    var s' := LoopHead(cfg, s, i, t, Builds);
    PulledAppend(s.clients, Client(t.generation, false, false, 0, []));
    assert s'.tasks[i].pc == Dialing && Attached(s') == Some(|s.clients|);
    forall c | 0 <= c < |s.clients| ensures Settled(s'.clients[c]) {
      assert s'.clients[c] == s.clients[c];
    }
  }

  lemma LoopHeadInv(cfg: Config, s: Sys, t: Task, factory: Factory)
    requires FreeToGo(s, t)
    ensures Inv(LoopHead(cfg, s, s.current.value, t, factory))
  {
    if KeepsGoing(s, t) && factory == Builds {
      BuildInv(cfg, s, t);
    } else {
      var i := s.current.value;
      var pc := if !KeepsGoing(s, t) then Done else if factory == Fails then BackoffSleep else OfflineSleep;
      var s' := LoopHead(cfg, s, i, t, factory);
      DetachInv(s, t.(pc := pc));
      assert s' == Put(s, i, t.(pc := pc)).(state := s'.state, log := s'.log);
    }
  }

  lemma AfterDrainInv(cfg: Config, s: Sys, stale: bool, received: bool, factory: Factory)
    requires Busy(s) && FreeToGo(s, s.tasks[s.current.value])
    ensures Inv(AfterDrain(cfg, s, s.current.value, stale, received, factory))
  {
    var i := s.current.value;
    var t := if received then s.tasks[i].(backoff := cfg.backoffInitial) else s.tasks[i];
    assert FreeToGo(s, t);
    DetachInv(s, t.(pc := BackoffSleep));
    DetachInv(s, t.(pc := Done));
    LoopHeadInv(cfg, s, t, factory);
  }

  lemma ClosingInv(s: Sys, pc: Pc)
    requires Inv(s) && Busy(s) && s.tasks[s.current.value].pc.Draining?
    requires pc.Closing? && pc.received == s.tasks[s.current.value].pc.received
    ensures var t := s.tasks[s.current.value]; Inv(CloseClient(Put(s, s.current.value, t.(pc := pc)), t.client))
  {
    var c := |s.clients| - 1;
    PulledLast(s.clients, s.clients[c].(closes := s.clients[c].closes + 1));
  }

  // Replacing the client in use, and where its task is, keeps the rest.
  lemma ClientReplaced(s: Sys, s': Sys, client: Client, t: Task)
    requires TasksOk(s) && ClientsOk(s) && Busy(s) && AtClient(s.tasks[s.current.value].pc)
    requires t.client == s.tasks[s.current.value].client && t.generation == s.tasks[s.current.value].generation
    requires t.pc != Done && AtClient(t.pc) && InUse(client, t.pc)
    requires s'.tasks == s.tasks[s.current.value := t] && s'.clients == s.clients[|s.clients| - 1 := client]
    requires s'.current == s.current && s'.generation == s.generation
    requires s'.lock == s.lock && s'.stopRequested == s.stopRequested
    ensures TasksOk(s') && ClientsOk(s')
  {
    hide InUse, Settled;
    assert Attached(s') == Attached(s) == Some(|s.clients| - 1);
    forall d | 0 <= d < |s.clients| - 1 ensures Settled(s'.clients[d]) {
      assert s'.clients[d] == s.clients[d];
    }
  }

  lemma PulledInv(cfg: Config, s: Sys, e: SocialEvent)
    requires Inv(s) && Busy(s) && s.tasks[s.current.value].pc.Draining?
    ensures Inv(TaskStep(cfg, s, EventPulled(s.current.value, e)))
  {
    hide TasksOk, ClientsOk;
    assert s.clients != [] && s.tasks[s.current.value].client == |s.clients| - 1
           && InUse(s.clients[|s.clients| - 1], s.tasks[s.current.value].pc) by { DrainedClient(s); }
    var c := |s.clients| - 1;
    var client := s.clients[c].(pulled := s.clients[c].pulled + [e]);
    PulledLast(s.clients, client);
    ClientReplaced(s, TaskStep(cfg, s, EventPulled(s.current.value, e)), client,
                   s.tasks[s.current.value].(pc := Draining(true)));
  }

  lemma DrainedClient(s: Sys)
    requires ClientsOk(s) && Busy(s) && s.tasks[s.current.value].pc.Draining?
    ensures s.clients != [] && s.tasks[s.current.value].client == |s.clients| - 1
    ensures InUse(s.clients[|s.clients| - 1], s.tasks[s.current.value].pc)
  {
  }

  lemma ConnectedInv(cfg: Config, s: Sys, eventsOk: bool)
    requires Inv(s) && Busy(s) && s.tasks[s.current.value].pc.Dialing?
    ensures Inv(TaskStep(cfg, s, ConnectReturned(s.current.value, eventsOk)))
  {
    var c := |s.clients| - 1;
    PulledLast(s.clients, s.clients[c].(connected := true, eventsFailed := !eventsOk));
  }

  ghost predicate ResumesCurrent(s: Sys, a: Action) {
    !a.Start? && !a.Stop? && !a.StopperResumes? && Inv(s) && Busy(s) && s.current == Some(a.i)
  }

  lemma DialingStepInv(cfg: Config, s: Sys, a: Action)
    requires ResumesCurrent(s, a) && s.tasks[a.i].pc.Dialing?
    ensures Inv(TaskStep(cfg, s, a))
  {
    var t := s.tasks[a.i];
    assert Settled(s.clients[t.client]) && FreeToGo(s, t);
    match a {
      case ConnectReturned(_, eventsOk) => ConnectedInv(cfg, s, eventsOk);
      case ConnectOffline(_) => DetachInv(s, t.(pc := OfflineSleep));
      case ConnectFailed(_) => DetachInv(s, t.(pc := BackoffSleep));
      case Cancelled(_) => DetachInv(s, t.(pc := Done));
      case _ =>
    }
  }

  lemma DrainingStepInv(cfg: Config, s: Sys, a: Action)
    requires ResumesCurrent(s, a) && s.tasks[a.i].pc.Draining?
    ensures Inv(TaskStep(cfg, s, a))
  {
    var t := s.tasks[a.i];
    match a {
      case EventPulled(_, e) => PulledInv(cfg, s, e);
      case StreamEnds(_, how) => ClosingInv(s, Closing(how == Stale, t.pc.received, false));
      case Cancelled(_) => ClosingInv(s, Closing(false, t.pc.received, true));
      case _ =>
    }
  }

  lemma ClosingStepInv(cfg: Config, s: Sys, a: Action)
    requires ResumesCurrent(s, a) && s.tasks[a.i].pc.Closing?
    ensures Inv(TaskStep(cfg, s, a))
  {
    var t := s.tasks[a.i];
    assert Settled(s.clients[t.client]) && FreeToGo(s, t);
    match a {
      case CloseReturned(_, factory) =>
        DetachInv(s, t.(pc := Done));
        AfterDrainInv(cfg, s, t.pc.stale, t.pc.received, factory);
      case Cancelled(_) => DetachInv(s, t.(pc := Done));
      case _ =>
    }
  }

  // The steps between clients.
  lemma WokenInv(cfg: Config, s: Sys, slept: Entry, backoff: real, factory: Factory)
    requires Inv(s) && Busy(s) && !AtClient(s.tasks[s.current.value].pc)
    ensures var t := s.tasks[s.current.value].(backoff := backoff);
            Inv(LoopHead(cfg, s.(log := s.log + [slept]), s.current.value, t, factory))
  {
    var s' := s.(log := s.log + [slept]);
    assert FreeToGo(s', s.tasks[s.current.value].(backoff := backoff));
    LoopHeadInv(cfg, s', s.tasks[s.current.value].(backoff := backoff), factory);
  }

  lemma WaitingStepInv(cfg: Config, s: Sys, a: Action)
    requires ResumesCurrent(s, a) && !AtClient(s.tasks[a.i].pc)
    ensures Inv(TaskStep(cfg, s, a))
  {
    var i, t, s' := a.i, s.tasks[a.i], TaskStep(cfg, s, a);
    assert FreeToGo(s, t);
    if s' == s {
    } else if a.Cancelled? {
      assert s' == Put(s, i, t.(pc := Done));
      DetachInv(s, t.(pc := Done));
    } else if t.pc == BackoffSleep {
      assert s' == LoopHead(cfg, s.(log := s.log + [Slept(t.backoff, t.backoff + a.jitter)]), i,
                            t.(backoff := Doubled(cfg, t.backoff)), a.factory);
      WokenInv(cfg, s, Slept(t.backoff, t.backoff + a.jitter), Doubled(cfg, t.backoff), a.factory);
    } else {
      WokenInv(cfg, s, Polled, t.backoff, a.factory);
      LoopHeadInv(cfg, s, t, a.factory);
    }
  }

  lemma StepInv(cfg: Config, s: Sys, a: Action)
    requires Inv(s)
    ensures Inv(Step(cfg, s, a))
  {
    hide TaskStep;
    if !a.Start? && !a.Stop? && !a.StopperResumes? && Running(s, a.i) {
      assert s.current == Some(a.i);
      match s.tasks[a.i].pc {
        case Dialing => DialingStepInv(cfg, s, a);
        case Draining(_) => DrainingStepInv(cfg, s, a);
        case Closing(_, _, _) => ClosingStepInv(cfg, s, a);
        case _ => WaitingStepInv(cfg, s, a);
      }
    }
  }

  lemma {:induction false} RunInv(cfg: Config, actions: seq<Action>)
    ensures Inv(Run(cfg, actions))
  {
    if actions != [] {
      RunInv(cfg, actions[..|actions| - 1]);
      StepInv(cfg, Run(cfg, actions[..|actions| - 1]), actions[|actions| - 1]);
    }
  }

  lemma RunSnoc(cfg: Config, actions: seq<Action>, a: Action)
    ensures Run(cfg, actions + [a]) == Step(cfg, Run(cfg, actions), a)
  {
    assert (actions + [a])[..|actions|] == actions;
  }

  lemma RunAfter(cfg: Config, before: seq<Action>, after: seq<Action>)
    requires after != []
    ensures Run(cfg, before + after) == Step(cfg, Run(cfg, before + after[..|after| - 1]), after[|after| - 1])
  {
    assert before + after == before + after[..|after| - 1] + [after[|after| - 1]];
    RunSnoc(cfg, before + after[..|after| - 1], after[|after| - 1]);
  }

  // ---------------------------------------------------------------- connections

  /** At most one run task lives, it is the one on file, and its generation is current: so the generation
      test in its loop never ends it, only the stop flag does. */
  lemma OneRunTask(cfg: Config, actions: seq<Action>, i: nat)
    requires Running(Run(cfg, actions), i)
    ensures var s := Run(cfg, actions);
            && s.current == Some(i)
            && (KeepsGoing(s, s.tasks[i]) <==> !s.stopRequested) && (s.stopRequested <==> s.lock != Free)
  {
    RunInv(cfg, actions);
  }

  // Connected and not yet closed.
  predicate Open(c: Client) { c.connected && c.closes == 0 }

  /** Each client built earlier than the last was closed, exactly once, before the next was built, if its
      connect() returned. The only client ever left open is one whose events() call itself raised, outside the
      guarded drain. */
  lemma ClosedBeforeTheNext(cfg: Config, actions: seq<Action>, c: nat)
    requires c < |Run(cfg, actions).clients| - 1
    ensures Settled(Run(cfg, actions).clients[c])
  {
    RunInv(cfg, actions);
  }

  /** At most one client is connected and not yet closed, those aside whose events() raised. */
  lemma OneOpenClient(cfg: Config, actions: seq<Action>, c: nat, d: nat)
    requires var clients := Run(cfg, actions).clients;
             && c < |clients| && Open(clients[c]) && !clients[c].eventsFailed
             && d < |clients| && Open(clients[d]) && !clients[d].eventsFailed
    ensures c == d
  {
    RunInv(cfg, actions);
  }

  lemma NeverClosedTwice(cfg: Config, actions: seq<Action>, c: nat)
    requires c < |Run(cfg, actions).clients|
    ensures Run(cfg, actions).clients[c].closes <= (if Run(cfg, actions).clients[c].connected then 1 else 0)
  {
    RunInv(cfg, actions);
    var s := Run(cfg, actions);
    if Attached(s) != Some(c) {
      assert Settled(s.clients[c]);
    }
  }

  /** Once no task runs, whether stopped, cancelled anywhere or finished, every client is settled: closed
      exactly once if its connect() returned and its events() did not raise. */
  lemma AllClosedAtRest(cfg: Config, actions: seq<Action>, c: nat)
    requires !Busy(Run(cfg, actions)) && c < |Run(cfg, actions).clients|
    ensures var client := Run(cfg, actions).clients[c];
            client.closes == 1 <==> client.connected && !client.eventsFailed
    ensures Run(cfg, actions).clients[c].closes <= 1
  {
    RunInv(cfg, actions);
    assert Settled(Run(cfg, actions).clients[c]);
  }

  // No events() call raises, as with the adapter the application builds, where it is an async generator.
  ghost predicate EventsNeverRaise(actions: seq<Action>) {
    forall a :: a in actions && a.ConnectReturned? ==> a.eventsOk
  }

  ghost predicate NoneFailed(s: Sys) {
    forall c :: 0 <= c < |s.clients| ==> !s.clients[c].eventsFailed
  }

  lemma NoneFailedStep(cfg: Config, s: Sys, a: Action)
    requires NoneFailed(s) && (a.ConnectReturned? ==> a.eventsOk)
    ensures NoneFailed(Step(cfg, s, a))
  {
    if !a.Start? && !a.Stop? && !a.StopperResumes? && Running(s, a.i) {
      NoneFailedTask(cfg, s, a);
    }
  }

  lemma NoneFailedTask(cfg: Config, s: Sys, a: Action)
    requires NoneFailed(s) && (a.ConnectReturned? ==> a.eventsOk)
    requires !a.Start? && !a.Stop? && !a.StopperResumes? && Running(s, a.i)
    ensures NoneFailed(TaskStep(cfg, s, a))
  {
    var i, t := a.i, s.tasks[a.i];
    match a {
      case TaskStarts(_, factory) => NoneFailedHead(cfg, s, i, t, factory);
      case SleepOver(_, factory, jitter) =>
        NoneFailedHead(cfg, s.(log := s.log + [Polled]), i, t, factory);
        NoneFailedHead(cfg, s.(log := s.log + [Slept(t.backoff, t.backoff + jitter)]), i,
                       t.(backoff := Doubled(cfg, t.backoff)), factory);
      case CloseReturned(_, factory) =>
        NoneFailedHead(cfg, s, i, t, factory);
        NoneFailedHead(cfg, s, i, t.(backoff := cfg.backoffInitial), factory);
      case _ =>
    }
  }

  lemma NoneFailedHead(cfg: Config, s: Sys, i: nat, t: Task, factory: Factory)
    requires NoneFailed(s) && i < |s.tasks|
    ensures NoneFailed(LoopHead(cfg, s, i, t, factory))
  {
  }

  lemma {:induction false} NoneFails(cfg: Config, actions: seq<Action>)
    requires EventsNeverRaise(actions)
    ensures NoneFailed(Run(cfg, actions))
  {
    if actions != [] {
      var before, a := actions[..|actions| - 1], actions[|actions| - 1];
      assert a in actions;
      NoneFails(cfg, before);
      NoneFailedStep(cfg, Run(cfg, before), a);
    }
  }

  /** With clients whose events() does not raise nothing is ever left open: at most one client is connected and
      unclosed, and at rest each one whose connect() returned has been closed exactly once. */
  lemma NothingLeftOpen(cfg: Config, actions: seq<Action>)
    requires EventsNeverRaise(actions)
    ensures var s := Run(cfg, actions);
            && (forall c, d :: 0 <= c < d < |s.clients| ==> !(Open(s.clients[c]) && Open(s.clients[d])))
            && (!Busy(s) ==> forall c :: 0 <= c < |s.clients| ==>
                  s.clients[c].closes == if s.clients[c].connected then 1 else 0)
  {
    NoneFails(cfg, actions);
    RunInv(cfg, actions);
    var s := Run(cfg, actions);
    if !Busy(s) {
      forall c | 0 <= c < |s.clients| ensures s.clients[c].closes == if s.clients[c].connected then 1 else 0 {
        assert Settled(s.clients[c]);
      }
    }
  }

  // The state in which the first start() leaves the ingestor.
  function Launched(cfg: Config): Sys {
    Sys(CONNECTING, Some("x"), 1, false, Free, Some(0), [Task(1, cfg.backoffInitial, Created, 0)], [], [],
        [RunBegan("x")])
  }

  lemma LaunchedByStart(cfg: Config)
    ensures Run(cfg, [Start("x")]) == Launched(cfg)
  {
    assert [Start("x")][..0] == [];
    assert Run(cfg, []) == Begin();
    assert Step(cfg, Begin(), Start("x")) == Launched(cfg);
  }

  lemma LaunchedThenFails(cfg: Config)
    ensures var s := Step(cfg, Step(cfg, Launched(cfg), TaskStarts(0, Builds)), ConnectReturned(0, false));
            !Busy(s) && |s.clients| == 1 && Open(s.clients[0])
  {
  }

  /** Otherwise one can be: this client is connected, its task has died, and nothing has closed it. */
  lemma RaisingEventsLeavesOpen(cfg: Config) returns (actions: seq<Action>)
    ensures var s := Run(cfg, actions); !Busy(s) && |s.clients| == 1 && Open(s.clients[0])
  {
    hide Step;
    var built := [Start("x")] + [TaskStarts(0, Builds)];
    actions := built + [ConnectReturned(0, false)];
    LaunchedByStart(cfg);
    RunSnoc(cfg, [Start("x")], TaskStarts(0, Builds));
    RunSnoc(cfg, built, ConnectReturned(0, false));
    LaunchedThenFails(cfg);
  }

  // ---------------------------------------------------------------- the event queue

  ghost predicate InStartOrder(s: Sys) {
    && (forall c, d :: 0 <= c < d < |s.clients| ==> s.clients[c].generation <= s.clients[d].generation)
    && (forall c :: 0 <= c < |s.clients| ==> s.clients[c].generation <= s.generation)
  }

  function Generations(clients: seq<Client>): seq<int> {
    seq(|clients|, c requires 0 <= c < |clients| => clients[c].generation)
  }

  // A step leaves the built clients in place and builds at most one, for the current start().
  lemma StepBuilds(cfg: Config, s: Sys, a: Action)
    requires TasksOk(s)
    ensures var s' := Step(cfg, s, a);
            && s'.generation >= s.generation
            && (Generations(s'.clients) == Generations(s.clients)
                || (s'.generation == s.generation
                    && Generations(s'.clients) == Generations(s.clients) + [s.generation]))
  {
    if !a.Start? && !a.Stop? && !a.StopperResumes? && Running(s, a.i) {
      TaskBuilds(cfg, s, a);
    }
  }

  ghost predicate BuildsAtMostOne(s: Sys, s': Sys) {
    && s'.generation == s.generation
    && (Generations(s'.clients) == Generations(s.clients)
        || Generations(s'.clients) == Generations(s.clients) + [s.generation])
  }

  lemma LoopHeadBuilds(cfg: Config, s: Sys, i: nat, t: Task, factory: Factory)
    requires i < |s.tasks|
    ensures BuildsAtMostOne(s, LoopHead(cfg, s, i, t, factory))
  {
  }

  lemma TaskBuilds(cfg: Config, s: Sys, a: Action)
    requires !a.Start? && !a.Stop? && !a.StopperResumes? && Running(s, a.i)
    ensures BuildsAtMostOne(s, TaskStep(cfg, s, a))
  {
    var i, t := a.i, s.tasks[a.i];
    match a {
      case TaskStarts(_, factory) => LoopHeadBuilds(cfg, s, i, t, factory);
      case SleepOver(_, factory, jitter) =>
        LoopHeadBuilds(cfg, s.(log := s.log + [Polled]), i, t, factory);
        LoopHeadBuilds(cfg, s.(log := s.log + [Slept(t.backoff, t.backoff + jitter)]), i,
                       t.(backoff := Doubled(cfg, t.backoff)), factory);
      case CloseReturned(_, factory) =>
        LoopHeadBuilds(cfg, s, i, t, factory);
        LoopHeadBuilds(cfg, s, i, t.(backoff := cfg.backoffInitial), factory);
      case _ =>
    }
  }

  lemma {:induction false} ClientsInStartOrder(cfg: Config, actions: seq<Action>)
    ensures InStartOrder(Run(cfg, actions))
  {
    if actions != [] {
      var before, a := actions[..|actions| - 1], actions[|actions| - 1];
      var s, s' := Run(cfg, before), Run(cfg, actions);
      ClientsInStartOrder(cfg, before);
      RunInv(cfg, before);
      StepBuilds(cfg, s, a);
      var g, g' := Generations(s.clients), Generations(s'.clients);
      assert forall c :: 0 <= c < |s'.clients| ==> s'.clients[c].generation == g'[c];
      assert forall c :: 0 <= c < |s.clients| ==> s.clients[c].generation == g[c];
    }
  }

  /** The queue is the concatenation, client by client in building order, of what was pulled from each; and
      clients of an earlier start() come before those of a later one. */
  lemma QueueIsWhatWasPulled(cfg: Config, actions: seq<Action>)
    ensures var s := Run(cfg, actions);
            && s.queue == AllPulled(s.clients)
            && forall c, d :: 0 <= c < d < |s.clients| ==> s.clients[c].generation <= s.clients[d].generation
  {
    RunInv(cfg, actions);
    ClientsInStartOrder(cfg, actions);
  }

  /** Each stretch of a run only appends to what an earlier one queued, never reordering or removing. */
  lemma {:induction false} QueueOnlyGrows(cfg: Config, before: seq<Action>, after: seq<Action>)
    ensures Run(cfg, before).queue <= Run(cfg, before + after).queue
  {
    if after == [] {
      assert before + after == before;
    } else {
      var n := |after| - 1;
      RunAfter(cfg, before, after);
      QueueOnlyGrows(cfg, before, after[..n]);
      StepOnlyAppends(cfg, Run(cfg, before + after[..n]), after[n]);
    }
  }

  lemma StepOnlyAppends(cfg: Config, s: Sys, a: Action)
    ensures Step(cfg, s, a).queue == s.queue || (a.EventPulled? && Step(cfg, s, a).queue == s.queue + [a.event])
  {
  }

  /** stop() is final: from the moment it returns until the next start(), nothing is queued, no client is
      built, and no task runs, whatever is scheduled. */
  lemma {:induction false} NothingAfterStop(cfg: Config, before: seq<Action>, after: seq<Action>)
    requires Run(cfg, before).lock == Free && Run(cfg, before).current.None?
    requires forall a :: a in after ==> !a.Start?
    ensures var s, s' := Run(cfg, before), Run(cfg, before + after);
            s'.queue == s.queue && s'.clients == s.clients && s'.lock == Free && s'.current.None?
  {
    if after == [] {
      assert before + after == before;
    } else {
      var n := |after| - 1;
      RunAfter(cfg, before, after);
      assert after[n] in after;
      NothingAfterStop(cfg, before, after[..n]);
      RunInv(cfg, before + after[..n]);
      StillAtRest(cfg, Run(cfg, before + after[..n]), after[n]);
    }
  }

  lemma StillAtRest(cfg: Config, s: Sys, a: Action)
    requires TasksOk(s) && s.lock == Free && s.current.None? && !a.Start?
    ensures var s' := Step(cfg, s, a);
            s'.queue == s.queue && s'.clients == s.clients && s'.lock == Free && s'.current.None?
  {
  }

  /** stop() returns only when the run task is gone, and then leaves the ingestor idle with nothing on file. */
  lemma StopReturnsAtRest(cfg: Config, actions: seq<Action>, a: Action)
    requires var s, s' := Run(cfg, actions), Step(cfg, Run(cfg, actions), a);
             (a == Stop && s.lock == Free && s'.lock == Free) || (s.lock == Stopping && s'.lock == Free)
    ensures var s' := Step(cfg, Run(cfg, actions), a);
            s'.state == IDLE && s'.current.None? && forall i :: !Running(s', i)
  {
    RunInv(cfg, actions);
    ReturnsAtRest(cfg, Run(cfg, actions), a);
  }

  lemma ReturnsAtRest(cfg: Config, s: Sys, a: Action)
    requires TasksOk(s)
    requires var s' := Step(cfg, s, a);
             (a == Stop && s.lock == Free && s'.lock == Free) || (s.lock == Stopping && s'.lock == Free)
    ensures var s' := Step(cfg, s, a); s'.state == IDLE && s'.current.None? && forall i :: !Running(s', i)
  {
    if a.Stop? || a.StopperResumes? {
      hide TaskStep;
    } else if !a.Start? && Running(s, a.i) {
      TaskKeepsLock(cfg, s, a);
    }
  }

  lemma TaskKeepsLock(cfg: Config, s: Sys, a: Action)
    requires !a.Start? && !a.Stop? && !a.StopperResumes? && Running(s, a.i)
    ensures TaskStep(cfg, s, a).lock == s.lock
  {
  }

  // ---------------------------------------------------------------- the reported state

  // What the state should be while a run task is suspended where it is.
  predicate Reports(cfg: Config, t: Task, state: State) {
    match t.pc
    case Created => state == CONNECTING
    case Dialing => state == if t.backoff == cfg.backoffInitial then CONNECTING else RECONNECTING
    case OfflineSleep => state == OFFLINE_WAITING
    case BackoffSleep => state == ERROR || state == RECONNECTING
    case Draining(_) => state == LIVE
    case Closing(_, _, _) => state == LIVE
    case Done => state == LIVE
  }

  ghost predicate StatusOk(cfg: Config, s: Sys) {
    && (s.current.None? ==> s.state == IDLE)
    && (Busy(s) ==> Reports(cfg, s.tasks[s.current.value], s.state))
    && (Busy(s) && s.lock == Free ==> !RaisingClose(s.tasks[s.current.value].pc))
    && (s.current.Some? && s.lock == Free && !Busy(s) ==> s.state == LIVE && LastEventsFailed(s.clients))
  }

  predicate RaisingClose(pc: Pc) { pc.Closing? && pc.raising }

  predicate LastEventsFailed(clients: seq<Client>) { clients != [] && clients[|clients| - 1].eventsFailed }

  lemma LoopHeadStatus(cfg: Config, s: Sys, t: Task, factory: Factory)
    requires TasksOk(s) && Busy(s) && t.generation == s.generation
    ensures StatusOk(cfg, LoopHead(cfg, s, s.current.value, t, factory))
  {
  }

  lemma AfterDrainStatus(cfg: Config, s: Sys, stale: bool, received: bool, factory: Factory)
    requires TasksOk(s) && Busy(s)
    ensures StatusOk(cfg, AfterDrain(cfg, s, s.current.value, stale, received, factory))
  {
    var t := if received then s.tasks[s.current.value].(backoff := cfg.backoffInitial) else s.tasks[s.current.value];
    LoopHeadStatus(cfg, s, t, factory);
  }

  lemma SleepOverStatus(cfg: Config, s: Sys, factory: Factory, jitter: real)
    requires TasksOk(s) && Busy(s) && StatusOk(cfg, s)
    ensures StatusOk(cfg, TaskStep(cfg, s, SleepOver(s.current.value, factory, jitter)))
  {
    var t := s.tasks[s.current.value];
    LoopHeadStatus(cfg, s.(log := s.log + [Polled]), t, factory);
    LoopHeadStatus(cfg, s.(log := s.log + [Slept(t.backoff, t.backoff + jitter)]),
                   t.(backoff := Doubled(cfg, t.backoff)), factory);
  }

  lemma ConnectReturnedStatus(cfg: Config, s: Sys, eventsOk: bool)
    requires Inv(s) && Busy(s) && StatusOk(cfg, s)
    ensures StatusOk(cfg, TaskStep(cfg, s, ConnectReturned(s.current.value, eventsOk)))
  {
  }

  lemma CancelStatus(cfg: Config, s: Sys)
    requires Busy(s) && StatusOk(cfg, s) && s.lock != Free
    ensures StatusOk(cfg, Cancel(s, s.current.value))
  {
  }

  lemma StatusTaskStep(cfg: Config, s: Sys, a: Action)
    requires Inv(s) && StatusOk(cfg, s)
    requires !a.Start? && !a.Stop? && !a.StopperResumes? && Busy(s) && s.current == Some(a.i)
    ensures StatusOk(cfg, TaskStep(cfg, s, a))
  {
    var t := s.tasks[a.i];
    match a {
      case TaskStarts(_, factory) => LoopHeadStatus(cfg, s, t, factory);
      case ConnectReturned(_, eventsOk) => ConnectReturnedStatus(cfg, s, eventsOk);
      case SleepOver(_, factory, jitter) => SleepOverStatus(cfg, s, factory, jitter);
      case CloseReturned(_, factory) =>
        if t.pc.Closing? && !t.pc.raising { AfterDrainStatus(cfg, s, t.pc.stale, t.pc.received, factory); }
      case Cancelled(_) => if s.lock != Free { CancelStatus(cfg, s); }
      case _ =>
    }
  }

  /** The reported state is truthful: IDLE when nothing is on file, and otherwise the stage of the
      running task. The one lie: a task that died because events() raised leaves LIVE behind. */
  lemma {:induction false} StatusIsTruthful(cfg: Config, actions: seq<Action>)
    ensures StatusOk(cfg, Run(cfg, actions))
  {
    if actions != [] {
      var s, a := Run(cfg, actions[..|actions| - 1]), actions[|actions| - 1];
      StatusIsTruthful(cfg, actions[..|actions| - 1]);
      RunInv(cfg, actions[..|actions| - 1]);
      if !a.Start? && !a.Stop? && !a.StopperResumes? && Running(s, a.i) {
        assert s.current == Some(a.i);
        StatusTaskStep(cfg, s, a);
      }
    }
  }
}
