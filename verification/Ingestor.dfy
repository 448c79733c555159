/** The TikTok connection life cycle (ingest/tiktok.py): start and stop under a lock, the run task they create
    and cancel, and the clients that task builds. A step is one await-free stretch; the clients, the timers and
    cancellation are the environment. */
module Ingestor {
  import opened Wrappers
  import opened Schemas

  datatype State = IDLE | CONNECTING | LIVE | RECONNECTING | OFFLINE_WAITING | ERROR

  datatype Config = Config(backoffInitial: real, backoffMax: real)

  // Where a run task is suspended.
  datatype Pc =
    | Created
    | Dialing
    | OfflineSleep
    | BackoffSleep
    | Draining(received: bool)
    | Closing(stale: bool, received: bool, raising: bool)
    | Done

  // `client` is the client this task built last.
  datatype Task = Task(generation: int, backoff: real, pc: Pc, client: nat)

  datatype Client = Client(generation: int, connected: bool, eventsFailed: bool, closes: nat, pulled: seq<SocialEvent>)

  // The call that holds the lock while it awaits the cancelled task.
  datatype Lock = Free | Starting(uniqueId: string) | Stopping

  // What happened to the run tasks, in order.
  datatype Entry =
    | RunBegan(uniqueId: string)
    | Built                               // a client was built, and connect() is awaited
    | FactoryRaised
    | DialRaised
    | SaidOffline                         // the factory or connect() did
    | StreamOver(client: nat, how: StreamEnd, delivered: bool)
    | Slept(backoff: real, seconds: real) // a backoff sleep is over
    | Polled                              // an offline sleep is over

  datatype Sys = Sys(
    state: State,
    uniqueId: Option<string>,
    generation: int,
    stopRequested: bool,
    lock: Lock,
    current: Option<nat>,                 // _task, an index into tasks
    tasks: seq<Task>,                     // every run task ever created
    clients: seq<Client>,                 // every client ever built
    queue: seq<SocialEvent>,
    log: seq<Entry>)

  datatype Factory = Builds | Fails | SaysOffline

  datatype StreamEnd = Stale | Ended | Errored

  datatype Action =
    | Start(uniqueId: string)
    | Stop
    | StopperResumes
    // run task i
    | TaskStarts(i: nat, factory: Factory)
    | ConnectReturned(i: nat, eventsOk: bool)
    | ConnectOffline(i: nat)
    | ConnectFailed(i: nat)
    | SleepOver(i: nat, factory: Factory, jitter: real)
    | EventPulled(i: nat, event: SocialEvent)
    | StreamEnds(i: nat, how: StreamEnd)
    | CloseReturned(i: nat, factory: Factory)
    | Cancelled(i: nat)

  function Begin(): Sys {
    Sys(IDLE, None, 0, false, Free, None, [], [], [], [])
  }

  predicate Running(s: Sys, i: nat) { i < |s.tasks| && s.tasks[i].pc != Done }

  predicate Busy(s: Sys) { s.current.Some? && Running(s, s.current.value) }

  function MinReal(a: real, b: real): real { if a <= b then a else b }

  function Doubled(cfg: Config, backoff: real): real { MinReal(backoff * 2.0, cfg.backoffMax) }

  // ---------------------------------------------------------------- start and stop

  // _stop_locked up to its await; without a running task it never suspends.
  function BeginStop(cfg: Config, s: Sys, lock: Lock): Sys {
    var asked := s.(stopRequested := true, lock := lock);
    if Busy(s) then asked else FinishStop(cfg, asked)
  }

  // _stop_locked after its await, and the rest of the call that holds the lock.
  function FinishStop(cfg: Config, s: Sys): Sys {
    var stopped := s.(state := IDLE, current := None, lock := Free);
    if s.lock.Starting? then
      stopped.(uniqueId := Some(s.lock.uniqueId), stopRequested := false, generation := s.generation + 1,
      state := CONNECTING,
      current := Some(|s.tasks|), tasks := s.tasks + [Task(s.generation + 1, cfg.backoffInitial, Created, 0)],
      log := s.log + [RunBegan(s.lock.uniqueId)])
    else stopped
  }

  // ---------------------------------------------------------------- the run task

  predicate KeepsGoing(s: Sys, t: Task) { !s.stopRequested && t.generation == s.generation }

  function Put(s: Sys, i: nat, t: Task): Sys
    requires i < |s.tasks|
  {
    s.(tasks := s.tasks[i := t])
  }

  // From the head of the loop to the await of connect() or of a sleep.
  function LoopHead(cfg: Config, s: Sys, i: nat, t: Task, factory: Factory): Sys
    requires i < |s.tasks|
  {
    if !KeepsGoing(s, t) then Put(s, i, t.(pc := Done)) else
    match factory
    case Builds =>
      Put(s, i, t.(pc := Dialing, client := |s.clients|))
      .(state := if t.backoff == cfg.backoffInitial then CONNECTING else RECONNECTING,
        clients := s.clients + [Client(t.generation, false, false, 0, [])], log := s.log + [Built])
    case Fails => Put(s, i, t.(pc := BackoffSleep)).(state := ERROR, log := s.log + [FactoryRaised])
    case SaysOffline => Put(s, i, t.(pc := OfflineSleep)).(state := OFFLINE_WAITING, log := s.log + [SaidOffline])
  }

  function CloseClient(s: Sys, c: nat): Sys {
    if c < |s.clients| then s.(clients := s.clients[c := s.clients[c].(closes := s.clients[c].closes + 1)]) else s
  }

  // _run after _drain returned.
  function AfterDrain(cfg: Config, s: Sys, i: nat, stale: bool, received: bool, factory: Factory): Sys
    requires i < |s.tasks|
  {
    var t := if received then s.tasks[i].(backoff := cfg.backoffInitial) else s.tasks[i];
    if !KeepsGoing(s, t) then Put(s, i, t.(pc := Done))
    else if stale then LoopHead(cfg, s, i, t, factory)
    else Put(s, i, t.(pc := BackoffSleep)).(state := RECONNECTING)
  }

  // A CancelledError raised at the await where the run task is suspended.
  function Cancel(s: Sys, i: nat): Sys
    requires i < |s.tasks|
  {
    var t := s.tasks[i];
    if t.pc.Draining? then CloseClient(Put(s, i, t.(pc := Closing(false, t.pc.received, true))), t.client)
    else Put(s, i, t.(pc := Done))
  }

  // Steps that are not enabled change nothing. A cancellation may be raised only while a start or stop
  // awaits the run task; that it may also be swallowed by whatever is awaited is the other steps staying enabled.
  function Step(cfg: Config, s: Sys, a: Action): Sys {
    match a
    case Start(uniqueId) => if s.lock == Free then BeginStop(cfg, s, Starting(uniqueId)) else s
    case Stop => if s.lock == Free then BeginStop(cfg, s, Stopping) else s
    case StopperResumes => if s.lock != Free && !Busy(s) then FinishStop(cfg, s) else s
    case _ => if Running(s, a.i) then TaskStep(cfg, s, a) else s
  }

  function TaskStep(cfg: Config, s: Sys, a: Action): Sys
    requires !a.Start? && !a.Stop? && !a.StopperResumes? && Running(s, a.i)
  {
    var i := a.i;
    var t := s.tasks[i];
    match a
    case TaskStarts(_, factory) => if t.pc == Created then LoopHead(cfg, s, i, t, factory) else s
    case ConnectReturned(_, eventsOk) =>
      if t.pc != Dialing || t.client >= |s.clients| then s else
      Put(s, i, t.(pc := if eventsOk then Draining(false) else Done))
      .(state := LIVE,
        clients := s.clients[t.client := s.clients[t.client].(connected := true, eventsFailed := !eventsOk)])
    case ConnectOffline(_) =>
      if t.pc == Dialing then
        Put(s, i, t.(pc := OfflineSleep)).(state := OFFLINE_WAITING, log := s.log + [SaidOffline])
      else s
    case ConnectFailed(_) =>
      if t.pc == Dialing then Put(s, i, t.(pc := BackoffSleep)).(state := ERROR, log := s.log + [DialRaised]) else s
    case SleepOver(_, factory, jitter) =>
      if t.pc == OfflineSleep then LoopHead(cfg, s.(log := s.log + [Polled]), i, t, factory)
      else if t.pc == BackoffSleep && 0.0 <= jitter <= t.backoff * 0.25 then
        LoopHead(cfg, s.(log := s.log + [Slept(t.backoff, t.backoff + jitter)]), i,
                 t.(backoff := Doubled(cfg, t.backoff)), factory)
      else s
    case EventPulled(_, e) =>
      if !t.pc.Draining? || t.client >= |s.clients| then s else
      Put(s, i, t.(pc := Draining(true)))
      .(queue := s.queue + [e],
        clients := s.clients[t.client := s.clients[t.client].(pulled := s.clients[t.client].pulled + [e])])
    case StreamEnds(_, how) =>
      if t.pc.Draining? then
        CloseClient(Put(s, i, t.(pc := Closing(how == Stale, t.pc.received, false))), t.client)
        .(log := s.log + [StreamOver(t.client, how, t.pc.received)])
      else s
    case CloseReturned(_, factory) =>
      if !t.pc.Closing? then s
      else if t.pc.raising then Put(s, i, t.(pc := Done))
      else AfterDrain(cfg, s, i, t.pc.stale, t.pc.received, factory)
    case Cancelled(_) => if s.lock != Free && s.current == Some(i) then Cancel(s, i) else s
  }

  function Run(cfg: Config, actions: seq<Action>): Sys {
    if actions == [] then Begin() else Step(cfg, Run(cfg, actions[..|actions| - 1]), actions[|actions| - 1])
  }

  /** The object. Each method is one stretch of a coroutine; Perform lets the event loop pick the next one. */
  class TikTokLiveIngestor {
    const cfg: Config
    var state: State
    var uniqueId: Option<string>
    var generation: int
    var stopRequested: bool
    var lock: Lock
    var current: Option<nat>
    var tasks: seq<Task>
    var queue: seq<SocialEvent>
    var clients: seq<Client>
    ghost var log: seq<Entry>

    ghost function View(): Sys
      reads this
    {
      Sys(state, uniqueId, generation, stopRequested, lock, current, tasks, clients, queue, log)
    }

    constructor (cfg: Config)
      ensures this.cfg == cfg && View() == Begin()
    {
      this.cfg := cfg;
      state, uniqueId, generation, stopRequested := IDLE, None, 0, false;
      lock, current, tasks, queue := Free, None, [], [];
      clients, log := [], [];
    }

    // start() and stop(), up to the await of the cancelled task.
    method StopLocked(holder: Lock)
      requires lock == Free && holder != Free
      modifies this
      ensures View() == BeginStop(cfg, old(View()), holder)
    {
      lock := holder;
      stopRequested := true;
      if current != None && current.value < |tasks| && tasks[current.value].pc != Done {
        return;
      }
      StopLockedResumed();
    }

    method StopLockedResumed()
      requires lock != Free
      modifies this
      ensures View() == FinishStop(cfg, old(View()))
    {
      state := IDLE;
      current := None;
      if lock.Starting? {
        Launch(lock.uniqueId);
      }
      lock := Free;
    }

    method Launch(id: string)
      modifies this
      ensures View() == old(View()).(uniqueId := Some(id), stopRequested := false, generation := old(generation) + 1,
                        state := CONNECTING, current := Some(|old(tasks)|),
                        tasks := old(tasks) + [Task(old(generation) + 1, cfg.backoffInitial, Created, 0)],
                        log := old(log) + [RunBegan(id)])
    {
      uniqueId := Some(id);
      stopRequested := false;
      generation := generation + 1;
      state := CONNECTING;
      current := Some(|tasks|);
      tasks := tasks + [Task(generation, cfg.backoffInitial, Created, 0)];
      log := log + [RunBegan(id)];
    }

    method RunLoopHead(i: nat, backoff: real, factory: Factory)
      requires i < |tasks|
      modifies this
      ensures View() == LoopHead(cfg, old(View()), i, old(tasks[i]).(backoff := backoff), factory)
    {
      var t := tasks[i].(backoff := backoff);
      if stopRequested || t.generation != generation {
        tasks := tasks[i := t.(pc := Done)];
        return;
      }
      state := if backoff == cfg.backoffInitial then CONNECTING else RECONNECTING;
      match factory {
        case Builds =>
          tasks := tasks[i := t.(pc := Dialing, client := |clients|)];
          clients := clients + [Client(t.generation, false, false, 0, [])];
          log := log + [Built];
        case Fails =>
          state := ERROR;
          tasks := tasks[i := t.(pc := BackoffSleep)];
          log := log + [FactoryRaised];
        case SaysOffline =>
          state := OFFLINE_WAITING;
          tasks := tasks[i := t.(pc := OfflineSleep)];
          log := log + [SaidOffline];
      }
    }

    method CloseClientOf(c: nat)
      modifies this
      ensures View() == CloseClient(old(View()), c)
    {
      if c < |clients| {
        clients := clients[c := clients[c].(closes := clients[c].closes + 1)];
      }
    }

    method RunAfterDrain(i: nat, stale: bool, received: bool, factory: Factory)
      requires i < |tasks|
      modifies this
      ensures View() == AfterDrain(cfg, old(View()), i, stale, received, factory)
    {
      var backoff := tasks[i].backoff;
      if received {
        backoff := cfg.backoffInitial;
      }
      var t := tasks[i].(backoff := backoff);
      if stopRequested || t.generation != generation {
        tasks := tasks[i := t.(pc := Done)];
      } else if stale {
        RunLoopHead(i, backoff, factory);
      } else {
        state := RECONNECTING;
        tasks := tasks[i := t.(pc := BackoffSleep)];
      }
    }

    method Perform(a: Action)
      modifies this
      ensures View() == Step(cfg, old(View()), a)
    {
      match a {
        case Start(id) => if lock == Free { StopLocked(Starting(id)); }
        case Stop => if lock == Free { StopLocked(Stopping); }
        case StopperResumes =>
          if lock != Free && !(current != None && current.value < |tasks| && tasks[current.value].pc != Done) {
            StopLockedResumed();
          }
        case _ =>
          if a.i < |tasks| && tasks[a.i].pc != Done {
            ResumeTask(a);
          }
      }
    }

    method ResumeTask(a: Action)
      requires !a.Start? && !a.Stop? && !a.StopperResumes? && Running(View(), a.i)
      modifies this
      ensures View() == TaskStep(cfg, old(View()), a)
    {
      var t := tasks[a.i];
      match a {
        case TaskStarts(i, factory) => if t.pc == Created { RunLoopHead(i, t.backoff, factory); }
        case ConnectReturned(_, _) => Dialed(a);
        case ConnectOffline(_) => Dialed(a);
        case ConnectFailed(_) => Dialed(a);
        case SleepOver(i, factory, jitter) => Woken(i, factory, jitter);
        case EventPulled(i, e) => Pulled(i, e);
        case StreamEnds(i, how) =>
          if t.pc.Draining? {
            tasks := tasks[i := t.(pc := Closing(how == Stale, t.pc.received, false))];
            CloseClientOf(t.client);
            log := log + [StreamOver(t.client, how, t.pc.received)];
          }
        case CloseReturned(i, factory) => Closed(i, factory);
        case Cancelled(i) => if lock != Free && current == Some(i) { Interrupted(i); }
      }
    }

    // client.connect() is over.
    method Dialed(a: Action)
      requires (a.ConnectReturned? || a.ConnectOffline? || a.ConnectFailed?) && Running(View(), a.i)
      modifies this
      ensures View() == TaskStep(cfg, old(View()), a)
    {
      var i, t := a.i, tasks[a.i];
      if t.pc != Dialing || (a.ConnectReturned? && t.client >= |clients|) {
        return;
      }
      match a {
        case ConnectReturned(_, eventsOk) =>
          state := LIVE;
          clients := clients[t.client := clients[t.client].(connected := true, eventsFailed := !eventsOk)];
          tasks := tasks[i := t.(pc := if eventsOk then Draining(false) else Done)];
        case ConnectOffline(_) =>
          state := OFFLINE_WAITING;
          tasks := tasks[i := t.(pc := OfflineSleep)];
          log := log + [SaidOffline];
        case ConnectFailed(_) =>
          state := ERROR;
          tasks := tasks[i := t.(pc := BackoffSleep)];
          log := log + [DialRaised];
      }
    }

    method Woken(i: nat, factory: Factory, jitter: real)
      requires Running(View(), i)
      modifies this
      ensures View() == TaskStep(cfg, old(View()), SleepOver(i, factory, jitter))
    {
      var t := tasks[i];
      if t.pc == OfflineSleep {
        log := log + [Polled];
        RunLoopHead(i, t.backoff, factory);
      } else if t.pc == BackoffSleep && 0.0 <= jitter <= t.backoff * 0.25 {
        log := log + [Slept(t.backoff, t.backoff + jitter)];
        RunLoopHead(i, Doubled(cfg, t.backoff), factory);
      }
    }

    method Pulled(i: nat, e: SocialEvent)
      requires Running(View(), i)
      modifies this
      ensures View() == TaskStep(cfg, old(View()), EventPulled(i, e))
    {
      var t := tasks[i];
      if t.pc.Draining? && t.client < |clients| {
        queue := queue + [e];
        clients := clients[t.client := clients[t.client].(pulled := clients[t.client].pulled + [e])];
        tasks := tasks[i := t.(pc := Draining(true))];
      }
    }

    // client.close() is over.
    method Closed(i: nat, factory: Factory)
      requires Running(View(), i)
      modifies this
      ensures View() == TaskStep(cfg, old(View()), CloseReturned(i, factory))
    {
      var t := tasks[i];
      if t.pc.Closing? {
        if t.pc.raising {
          tasks := tasks[i := t.(pc := Done)];
        } else {
          RunAfterDrain(i, t.pc.stale, t.pc.received, factory);
        }
      }
    }

    // A CancelledError at the task's await; the drain's `finally` still closes the client.
    method Interrupted(i: nat)
      requires i < |tasks|
      modifies this
      ensures View() == Cancel(old(View()), i)
    {
      var t := tasks[i];
      tasks := tasks[i := t.(pc := if t.pc.Draining? then Closing(false, t.pc.received, true) else Done)];
      if t.pc.Draining? {
        CloseClientOf(t.client);
      }
    }
  }
}
