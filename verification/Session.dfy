/** One browser session of api/ws.py as an interleaving of its tasks: the down pump with its redialling, the
    social drain, the social poller and the idle poller. A step is one await-free stretch of one task, or an
    environment event that resumes a task; any order of steps is a schedule of the event loop. */
module Session {
  import opened Wrappers
  import opened Schemas
  import opened Scheduler
  import opened Arbitration

  datatype Settings = Settings(
    scheduler: Config,
    batchMinEvents: int,
    batchWait: real,
    idleSeconds: int,
    skipLikeShare: bool,
    maxAttempts: int)

  // Where the down task is suspended (or Stopped).
  datatype Down = Dialing | Pumping | Aborting | Forwarding | BackingOff | Stopped

  datatype Poller = Asleep | SendingText | Dead

  datatype TurnKind = Social | Idle

  // What happened, in order.
  datatype Entry =
    | Received(message: Message, at: real)
    | AbortSent
    | AbortReturned
    | Reset
    | Accepted(at: real)
    | Fired(kind: TurnKind, at: real)

  datatype Sys = Sys(
    flags: Flags,
    queue: seq<Scored>,
    down: Down,
    attempt: nat,
    social: Poller,
    idle: Poller,
    cancelled: bool,
    now: real,
    log: seq<Entry>)

  datatype Action =
    | Wait(seconds: real)
    // the down task
    | Connected                 // the attempt's connect() returned
    | ConnectFailed             // ConnectionError or OSError from connect()
    | BackoffOver
    | Deliver(message: Message) // upstream.events() yields
    | AbortDone
    | Forwarded                 // send_json or send_bytes returned
    | Dropped                   // ConnectionError or OSError at any of its awaits
    | Ended                     // the stream ended, or any other exception left it
    // the other tasks
    | Arrive(event: SocialEvent)
    | PollSocial
    | PollIdle
    | SocialSent
    | IdleSent
    | SocialSendFailed
    | IdleSendFailed
    // the browser went away
    | Cancel

  // The down task is created first and finds the socket connected, so it has made the reset of the first
  // attempt and waits for messages before any other task runs.
  function Begin(cfg: Settings, start: real): Sys {
    var up := cfg.maxAttempts >= 1;
    Sys(Flags(false, false, start, None), [], if up then Pumping else Stopped, 1,
        Asleep, if cfg.idleSeconds > 0 then Asleep else Dead, false, start, if up then [Reset] else [])
  }

  predicate Skipped(cfg: Settings, e: SocialEvent) {
    cfg.skipLikeShare && (e.kind == Like || e.kind == Share)
  }

  // Steps that are not enabled change nothing.
  function Step(cfg: Settings, s: Sys, a: Action): Sys {
    match a
    case Wait(seconds) => if seconds >= 0.0 then s.(now := s.now + seconds) else s
    case _ => if s.cancelled then s else TaskStep(cfg, s, a)
  }

  function TaskStep(cfg: Settings, s: Sys, a: Action): Sys {
    match a
    case Wait(_) => s
    case Connected | ConnectFailed | BackoffOver | Deliver(_) | AbortDone | Forwarded | Dropped | Ended =>
      DownStep(cfg, s, a)
    case Arrive(e) =>
      if Skipped(cfg, e) then s else
      s.(queue := Enqueued(cfg.scheduler, s.queue, e), flags := AfterArrival(s.flags, s.now),
      log := s.log + [Accepted(s.now)])
    case PollSocial =>
      if s.social == Asleep && SocialReady(s.flags, |s.queue|, cfg.batchMinEvents, cfg.batchWait, s.now) then
        s.(queue := SplitTurn(cfg.scheduler, s.queue).rest, flags := AfterSocial(s.flags, s.now),
        social := SendingText, log := s.log + [Fired(Social, s.now)])
      else s
    case PollIdle =>
      if s.idle == Asleep && IdleReady(s.flags, cfg.idleSeconds as real, s.now) then
        s.(flags := AfterIdle(s.flags, s.now), idle := SendingText, log := s.log + [Fired(Idle, s.now)])
      else s
    case SocialSent => if s.social == SendingText then s.(social := Asleep) else s
    case IdleSent => if s.idle == SendingText then s.(idle := Asleep) else s
    case SocialSendFailed => if s.social == SendingText then s.(social := Dead) else s
    case IdleSendFailed => if s.idle == SendingText then s.(idle := Dead) else s
    case Cancel => s.(cancelled := true, down := Stopped, social := Dead, idle := Dead)
  }

  function DownStep(cfg: Settings, s: Sys, a: Action): Sys {
    match (a, s.down)
    case (Connected, Dialing) => s.(down := Pumping, flags := AfterReset(s.flags), log := s.log + [Reset])
    case (ConnectFailed, Dialing) => s.(down := BackingOff)
    case (BackoffOver, BackingOff) =>
      if s.attempt < cfg.maxAttempts then s.(down := Dialing, attempt := s.attempt + 1) else s.(down := Stopped)
    case (Deliver(m), Pumping) =>
      var heard := s.(flags := AfterMessage(s.flags, m, s.now), log := s.log + [Received(m, s.now)]);
      if BargesIn(s.flags, m) then heard.(down := Aborting, log := heard.log + [AbortSent])
      else heard.(down := Forwarding)
    case (AbortDone, Aborting) =>
      s.(flags := AfterAbort(s.flags), down := Forwarding, log := s.log + [AbortReturned])
    case (Forwarded, Forwarding) => s.(down := Pumping)
    case (Dropped, _) => if Connection(s.down) then s.(down := BackingOff) else s
    case (Ended, _) => if Connection(s.down) || s.down == Dialing then s.(down := Stopped) else s
    case (_, _) => s
  }

  predicate Connection(d: Down) { d == Pumping || d == Aborting || d == Forwarding }

  function Run(cfg: Settings, start: real, actions: seq<Action>): Sys {
    if actions == [] then Begin(cfg, start)
    else Step(cfg, Run(cfg, start, actions[..|actions| - 1]), actions[|actions| - 1])
  }

  /** The session's objects, driven by the event loop. Perform refines the step function. */
  class LivehostStream {
    const cfg: Settings
    const relay: Relay
    var down: Down
    var attempt: nat
    var social: Poller
    var idle: Poller
    var cancelled: bool
    var now: real
    ghost var log: seq<Entry>

    ghost predicate Valid() {
      relay.Valid() && relay.scheduler.cfg == cfg.scheduler
    }

    ghost function View(): Sys
      reads this, relay, relay.scheduler
    {
      Sys(relay.View(), relay.scheduler.queue, down, attempt, social, idle, cancelled, now, log)
    }

    constructor (cfg: Settings, start: real)
      ensures Valid() && this.cfg == cfg && fresh(relay) && fresh(relay.scheduler)
      ensures View() == Begin(cfg, start)
    {
      this.cfg := cfg;
      var scheduler := new EventScheduler(cfg.scheduler);
      relay := new Relay(scheduler, start);
      down := if cfg.maxAttempts >= 1 then Pumping else Stopped;
      attempt := 1;
      social := Asleep;
      idle := if cfg.idleSeconds > 0 then Asleep else Dead;
      cancelled := false;
      now := start;
      log := if cfg.maxAttempts >= 1 then [Reset] else [];
      new;
      if cfg.maxAttempts >= 1 {
        relay.Reset();
      }
    }

    method Perform(a: Action)
      requires Valid()
      modifies this, relay, relay.scheduler
      ensures View() == Step(cfg, old(View()), a)
    {
      if a.Wait? {
        now := if a.seconds >= 0.0 then now + a.seconds else now;
      } else if !cancelled {
        Resume(a);
      }
    }

    method Resume(a: Action)
      requires Valid() && !cancelled && !a.Wait?
      modifies this, relay, relay.scheduler
      ensures View() == TaskStep(cfg, old(View()), a)
    {
      match a {
        case Wait(_) =>
        case Arrive(e) => DrainSocial(e);
        case PollSocial => TickSocial();
        case PollIdle => TickIdle();
        case SocialSent | IdleSent | SocialSendFailed | IdleSendFailed => SendOver(a);
        case Cancel => cancelled, down, social, idle := true, Stopped, Dead, Dead;
        case _ => ResumeDown(a);
      }
    }

    method TickSocial()
      requires Valid() && !cancelled
      modifies this, relay, relay.scheduler
      ensures View() == TaskStep(cfg, old(View()), PollSocial)
    {
      if social == Asleep {
        var turn := relay.PollSocial(cfg.batchMinEvents, cfg.batchWait, now);
        if turn.Some? {
          social := SendingText;
          log := log + [Fired(Social, now)];
        }
      }
    }

    method TickIdle()
      requires Valid() && !cancelled
      modifies this, relay
      ensures View() == TaskStep(cfg, old(View()), PollIdle)
    {
      if idle == Asleep {
        var fire := relay.PollIdle(cfg.idleSeconds as real, now);
        if fire {
          idle := SendingText;
          log := log + [Fired(Idle, now)];
        }
      }
    }

    // A poller resumed by its await of send_text.
    method SendOver(a: Action)
      requires a.SocialSent? || a.IdleSent? || a.SocialSendFailed? || a.IdleSendFailed?
      modifies this
      ensures View() == TaskStep(cfg, old(View()), a)
    {
      if (a.SocialSent? || a.SocialSendFailed?) && social == SendingText {
        social := if a.SocialSent? then Asleep else Dead;
      }
      if (a.IdleSent? || a.IdleSendFailed?) && idle == SendingText {
        idle := if a.IdleSent? then Asleep else Dead;
      }
    }

    method DrainSocial(e: SocialEvent)
      requires Valid() && !cancelled
      modifies this, relay, relay.scheduler
      ensures View() == TaskStep(cfg, old(View()), Arrive(e))
    {
      if cfg.skipLikeShare && (e.kind == Like || e.kind == Share) {
        return;
      }
      relay.scheduler.Enqueue(e);
      relay.NoteActivity(now);
      relay.NotePending(now);
      log := log + [Accepted(now)];
    }

    method ResumeDown(a: Action)
      requires Valid() && !cancelled
      modifies this, relay
      ensures View() == DownStep(cfg, old(View()), a)
    {
      match a {
        case Connected =>
          if down == Dialing {
            relay.Reset();
            down := Pumping;
            log := log + [Reset];
          }
        case ConnectFailed => down := if down == Dialing then BackingOff else down;
        case BackoffOver => Redial();
        case Deliver(m) => Hear(m);
        case AbortDone =>
          if down == Aborting {
            relay.AbortReturned();
            down := Forwarding;
            log := log + [AbortReturned];
          }
        case Forwarded => down := if down == Forwarding then Pumping else down;
        case Dropped => down := if Connection(down) then BackingOff else down;
        case Ended => down := if Connection(down) || down == Dialing then Stopped else down;
        case _ =>
      }
    }

    method Redial()
      modifies this
      ensures View() == DownStep(cfg, old(View()), BackoffOver)
    {
      if down == BackingOff {
        if attempt < cfg.maxAttempts {
          down, attempt := Dialing, attempt + 1;
        } else {
          down := Stopped;
        }
      }
    }

    method Hear(m: Message)
      modifies this, relay
      ensures View() == DownStep(cfg, old(View()), Deliver(m))
    {
      if down == Pumping {
        var abort := relay.Receive(m, now);
        log := log + [Received(m, now)];
        if abort {
          down := Aborting;
          log := log + [AbortSent];
        } else {
          down := Forwarding;
        }
      }
    }
  }
}
