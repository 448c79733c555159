/** Nothing the environment says to the ingestor is lost or made up: every event pulled is queued, every start()
    begins its run, every answer of a factory, a dial or a stream is acted on as that answer, and a cancellation
    ends the task. */
module IngestorInputs {
  import opened Wrappers
  import opened Schemas
  import opened Ingestor
  import opened IngestorProofs

  // ---------------------------------------------------------------- events

  // The events the environment yields to a task that is draining.
  function Pulls(cfg: Config, actions: seq<Action>): seq<SocialEvent> {
    if actions == [] then [] else
    var s, a := Run(cfg, actions[..|actions| - 1]), actions[|actions| - 1];
    Pulls(cfg, actions[..|actions| - 1])
    + if a.EventPulled? && a.i < |s.tasks| && s.tasks[a.i].pc.Draining? then [a.event] else []
  }

  lemma PullIsQueued(cfg: Config, s: Sys, a: Action)
    requires Inv(s) && a.EventPulled? && a.i < |s.tasks| && s.tasks[a.i].pc.Draining?
    ensures Step(cfg, s, a).queue == s.queue + [a.event]
  {
    assert Running(s, a.i);
  }

  lemma OnlyPullsAreQueued(cfg: Config, s: Sys, a: Action)
    requires !(a.EventPulled? && a.i < |s.tasks| && s.tasks[a.i].pc.Draining?)
    ensures Step(cfg, s, a).queue == s.queue
  {
    StepOnlyAppends(cfg, s, a);
  }

  /** The queue is exactly what the connections yielded, in the order they yielded it. */
  lemma {:induction false} QueueIsEveryPull(cfg: Config, actions: seq<Action>)
    ensures Run(cfg, actions).queue == Pulls(cfg, actions)
  {
    if actions != [] {
      var before, a := actions[..|actions| - 1], actions[|actions| - 1];
      var s := Run(cfg, before);
      hide Step;
      QueueIsEveryPull(cfg, before);
      RunInv(cfg, before);
      if a.EventPulled? && a.i < |s.tasks| && s.tasks[a.i].pc.Draining? {
        PullIsQueued(cfg, s, a);
      } else {
        OnlyPullsAreQueued(cfg, s, a);
      }
    }
  }

  // ---------------------------------------------------------------- starts

  // The ids of the start() calls that got the lock.
  function Starts(cfg: Config, actions: seq<Action>): seq<string> {
    if actions == [] then [] else
    var s, a := Run(cfg, actions[..|actions| - 1]), actions[|actions| - 1];
    Starts(cfg, actions[..|actions| - 1]) + if a.Start? && s.lock == Free then [a.uniqueId] else []
  }

  function Begun(log: seq<Entry>): seq<string> {
    if log == [] then [] else
    Begun(log[..|log| - 1]) + if log[|log| - 1].RunBegan? then [log[|log| - 1].uniqueId] else []
  }

  // Runs begun, and the one the lock holder is about to begin.
  function BegunOrDue(s: Sys): seq<string> {
    Begun(s.log) + if s.lock.Starting? then [s.lock.uniqueId] else []
  }

  ghost predicate IdOk(s: Sys) {
    && s.uniqueId == (if Begun(s.log) == [] then None else Some(Begun(s.log)[|Begun(s.log)| - 1]))
    && s.generation == |Begun(s.log)|
  }

  lemma BegunSnoc(log: seq<Entry>, e: Entry)
    ensures Begun(log + [e]) == Begun(log) + if e.RunBegan? then [e.uniqueId] else []
  {
    assert (log + [e])[..|log|] == log;
  }

  lemma {:induction false} BegunUnmoved(log: seq<Entry>, log': seq<Entry>)
    requires log <= log' && forall n :: |log| <= n < |log'| ==> !log'[n].RunBegan?
    ensures Begun(log') == Begun(log)
  {
    if log' == log {
    } else {
      BegunUnmoved(log, log'[..|log'| - 1]);
    }
  }

  // A step of the run task leaves the lock, the streamer and the generation alone, and begins no run.
  ghost predicate BeginsNothing(s: Sys, s': Sys) {
    && s'.lock == s.lock && s'.uniqueId == s.uniqueId && s'.generation == s.generation && s.log <= s'.log
    && forall n :: |s.log| <= n < |s'.log| ==> !s'.log[n].RunBegan?
  }

  lemma HeadBeginsNothing(cfg: Config, s: Sys, i: nat, t: Task, factory: Factory)
    requires i < |s.tasks|
    ensures BeginsNothing(s, LoopHead(cfg, s, i, t, factory))
  {
  }

  lemma TaskBeginsNothing(cfg: Config, s: Sys, a: Action)
    requires !a.Start? && !a.Stop? && !a.StopperResumes? && Running(s, a.i)
    ensures BeginsNothing(s, TaskStep(cfg, s, a))
  {
    hide LoopHead;
    var i, t := a.i, s.tasks[a.i];
    match a {
      case TaskStarts(_, factory) => HeadBeginsNothing(cfg, s, i, t, factory);
      case SleepOver(_, factory, jitter) =>
        HeadBeginsNothing(cfg, s.(log := s.log + [Polled]), i, t, factory);
        HeadBeginsNothing(cfg, s.(log := s.log + [Slept(t.backoff, t.backoff + jitter)]), i,
                          t.(backoff := Doubled(cfg, t.backoff)), factory);
      case CloseReturned(_, factory) =>
        HeadBeginsNothing(cfg, s, i, t, factory);
        HeadBeginsNothing(cfg, s, i, t.(backoff := cfg.backoffInitial), factory);
      case _ =>
    }
  }

  lemma FinishBegins(cfg: Config, s: Sys)
    requires IdOk(s)
    ensures var s' := FinishStop(cfg, s); BegunOrDue(s') == BegunOrDue(s) && IdOk(s')
  {
    if s.lock.Starting? {
      BegunSnoc(s.log, RunBegan(s.lock.uniqueId));
    }
  }

  lemma StartAccepted(cfg: Config, s: Sys, holder: Lock)
    requires IdOk(s) && s.lock == Free && holder != Free
    ensures var s' := BeginStop(cfg, s, holder);
            BegunOrDue(s') == BegunOrDue(s) + (if holder.Starting? then [holder.uniqueId] else []) && IdOk(s')
  {
    hide FinishStop, Begun;
    var asked := s.(stopRequested := true, lock := holder);
    FinishBegins(cfg, asked);
  }

  lemma StepBegins(cfg: Config, s: Sys, a: Action)
    requires IdOk(s)
    ensures var s' := Step(cfg, s, a);
            && IdOk(s')
            && BegunOrDue(s') == BegunOrDue(s) + if a.Start? && s.lock == Free then [a.uniqueId] else []
  {
    hide TaskStep, FinishStop, BeginStop, Begun;
    match a {
      case Start(id) => if s.lock == Free { StartAccepted(cfg, s, Starting(id)); }
      case Stop => if s.lock == Free { StartAccepted(cfg, s, Stopping); }
      case StopperResumes => FinishBegins(cfg, s);
      case _ =>
        if Running(s, a.i) {
          TaskBeginsNothing(cfg, s, a);
          BegunUnmoved(s.log, TaskStep(cfg, s, a).log);
        }
    }
  }

  /** Every start() that gets the lock begins one run, in order; the ingestor follows the streamer of the latest run
      begun, and its generation is the number of runs. */
  lemma {:induction false} EveryStartBegins(cfg: Config, actions: seq<Action>)
    ensures BegunOrDue(Run(cfg, actions)) == Starts(cfg, actions) && IdOk(Run(cfg, actions))
  {
    if actions != [] {
      var before, a := actions[..|actions| - 1], actions[|actions| - 1];
      hide Step, IdOk, BegunOrDue;
      EveryStartBegins(cfg, before);
      StepBegins(cfg, Run(cfg, before), a);
    } else {
      NothingBegun();
    }
  }

  lemma NothingBegun()
    ensures BegunOrDue(Begin()) == [] && IdOk(Begin())
  {
  }

  // ---------------------------------------------------------------- answers

  function FactoryEntry(factory: Factory): Entry {
    match factory
    case Builds => Built
    case Fails => FactoryRaised
    case SaysOffline => SaidOffline
  }

  /** A dial's answer is taken for what it is. */
  lemma DialAnswered(cfg: Config, s: Sys, i: nat)
    requires Inv(s) && i < |s.tasks| && s.tasks[i].pc == Dialing
    ensures var s' := Step(cfg, s, ConnectOffline(i));
            s'.log == s.log + [SaidOffline] && s'.state == OFFLINE_WAITING && s'.tasks[i].pc == OfflineSleep
    ensures var s' := Step(cfg, s, ConnectFailed(i));
            s'.log == s.log + [DialRaised] && s'.state == ERROR && s'.tasks[i].pc == BackoffSleep
    ensures var s' := Step(cfg, s, ConnectReturned(i, true));
            s'.log == s.log && s'.state == LIVE && s'.tasks[i].pc == Draining(false)
  {
    assert Running(s, i);
  }

  /** So is a factory's, at every coming round of the loop that no stop ends. */
  lemma FactoryAnswered(cfg: Config, s: Sys, i: nat, factory: Factory, jitter: real)
    requires Inv(s) && s.lock == Free && i < |s.tasks|
    requires s.tasks[i].pc == BackoffSleep ==> 0.0 <= jitter <= s.tasks[i].backoff * 0.25
    ensures s.tasks[i].pc == Created ==> Step(cfg, s, TaskStarts(i, factory)).log == s.log + [FactoryEntry(factory)]
    ensures s.tasks[i].pc == OfflineSleep ==>
              Step(cfg, s, SleepOver(i, factory, jitter)).log == s.log + [Polled] + [FactoryEntry(factory)]
    ensures s.tasks[i].pc == BackoffSleep ==>
              Step(cfg, s, SleepOver(i, factory, jitter)).log
              == s.log + [Slept(s.tasks[i].backoff, s.tasks[i].backoff + jitter)] + [FactoryEntry(factory)]
  {
    if s.tasks[i].pc != Done {
      assert Running(s, i) && s.current == Some(i);
    }
  }

  /** A stream that ends while no stop is asked for: a stale one is redialled in the very step that sees its client
      closed, any other sends the task to sleep, and in either case as what it was. */
  lemma StreamAnswered(cfg: Config, s: Sys, i: nat, how: StreamEnd, factory: Factory)
    requires Inv(s) && s.lock == Free && i < |s.tasks| && s.tasks[i].pc.Draining?
    ensures var closing := Step(cfg, s, StreamEnds(i, how)); var s' := Step(cfg, closing, CloseReturned(i, factory));
            && closing.log == s.log + [StreamOver(|s.clients| - 1, how, s.clients[|s.clients| - 1].pulled != [])]
            && (how == Stale ==> s'.log == closing.log + [FactoryEntry(factory)])
            && (how != Stale ==> s'.log == closing.log && s'.tasks[i].pc == BackoffSleep && s'.state == RECONNECTING)
  {
    assert Running(s, i) && s.current == Some(i);
    StreamIsClosing(cfg, s, i, how);
    ClosedGoesOn(cfg, Step(cfg, s, StreamEnds(i, how)), i, how == Stale, factory);
  }

  lemma StreamIsClosing(cfg: Config, s: Sys, i: nat, how: StreamEnd)
    requires Inv(s) && s.current == Some(i) && i < |s.tasks| && s.tasks[i].pc.Draining?
    ensures var s' := Step(cfg, s, StreamEnds(i, how));
            && s'.log == s.log + [StreamOver(|s.clients| - 1, how, s.clients[|s.clients| - 1].pulled != [])]
            && i < |s'.tasks| && s'.tasks[i].pc == Closing(how == Stale, s.tasks[i].pc.received, false)
            && s'.tasks[i].generation == s.tasks[i].generation == s'.generation
            && s'.stopRequested == s.stopRequested
  {
  }

  lemma ClosedGoesOn(cfg: Config, s: Sys, i: nat, stale: bool, factory: Factory)
    requires i < |s.tasks| && s.tasks[i].generation == s.generation && !s.stopRequested
    requires s.tasks[i].pc.Closing? && s.tasks[i].pc.stale == stale && !s.tasks[i].pc.raising
    ensures var s' := Step(cfg, s, CloseReturned(i, factory));
            && (stale ==> s'.log == s.log + [FactoryEntry(factory)])
            && (!stale ==> s'.log == s.log && s'.tasks[i].pc == BackoffSleep && s'.state == RECONNECTING)
  {
  }

  // ---------------------------------------------------------------- stopping

  /** While a start or stop waits for it, a task that was not cancelled ends where it next comes to its loop, or back
      from its drain, and builds no other client. */
  lemma StopEndsTheLoop(cfg: Config, s: Sys, a: Action)
    requires TasksOk(s) && s.lock != Free && Busy(s)
    requires (a.TaskStarts? || a.SleepOver? || a.CloseReturned?) && s.current == Some(a.i)
    requires a.TaskStarts? ==> s.tasks[a.i].pc == Created
    requires a.SleepOver? ==> || s.tasks[a.i].pc == OfflineSleep
                              || (s.tasks[a.i].pc == BackoffSleep && 0.0 <= a.jitter <= s.tasks[a.i].backoff * 0.25)
    requires a.CloseReturned? ==> s.tasks[a.i].pc.Closing?
    ensures var s' := Step(cfg, s, a); !Running(s', a.i) && s'.clients == s.clients
  {
  }

  /** A cancellation that is not swallowed ends the task where it is suspended, after at most the close() of the
      client it is draining. */
  lemma CancellationEndsTheTask(cfg: Config, s: Sys, i: nat, factory: Factory)
    requires s.lock != Free && s.current == Some(i) && Running(s, i)
    ensures var s' := Step(cfg, s, Cancelled(i));
            if s.tasks[i].pc.Draining? then !Running(Step(cfg, s', CloseReturned(i, factory)), i) else !Running(s', i)
  {
  }
}
