/** The arbiter between the streamer's voice and the co-host's own turns (relay.py). Every method here is one
    await-free stretch of the source: it runs from where its task was resumed up to that task's next await. */
module Arbitration {
  import opened Wrappers
  import opened Schemas
  import opened Scheduler

  datatype Message = Bytes | SpeechStart | TurnDone | Aborted | OtherEvent

  datatype Flags = Flags(voiceActive: bool, inFlight: bool, lastActivity: real, pendingSince: Option<real>)

  // ---------------------------------------------------------------- what each stretch does to the flags

  predicate EndsTurn(m: Message) { m.TurnDone? || m.Aborted? }

  function AfterMessage(f: Flags, m: Message, now: real): Flags {
    if m.SpeechStart? then f.(voiceActive := true, lastActivity := now)
    else if EndsTurn(m) then f.(voiceActive := false, inFlight := false, lastActivity := now)
    else f
  }

  predicate BargesIn(f: Flags, m: Message) { m.SpeechStart? && f.inFlight }

  function AfterAbort(f: Flags): Flags { f.(inFlight := false) }

  function AfterReset(f: Flags): Flags { f.(voiceActive := false, inFlight := false) }

  function AfterArrival(f: Flags, now: real): Flags {
    f.(lastActivity := now, pendingSince := if f.pendingSince.None? then Some(now) else f.pendingSince)
  }

  predicate SocialReady(f: Flags, pending: nat, minEvents: int, wait: real, now: real) {
    && !f.inFlight && pending > 0 && !f.voiceActive
    && (pending >= minEvents
        || (wait > 0.0 && (f.pendingSince.None? || now - f.pendingSince.value >= wait)))
  }

  function AfterSocial(f: Flags, now: real): Flags {
    f.(inFlight := true, pendingSince := None, lastActivity := now)
  }

  predicate IdleReady(f: Flags, idle: real, now: real) {
    !f.voiceActive && !f.inFlight && now - f.lastActivity >= idle
  }

  function AfterIdle(f: Flags, now: real): Flags {
    f.(inFlight := true, lastActivity := now)
  }

  // ---------------------------------------------------------------- the object

  class Relay {
    const scheduler: EventScheduler
    const orchestrator: LiveHostOrchestrator
    var voiceActive: bool
    var socialTurnInFlight: bool
    var lastActivity: real
    var pendingSince: Option<real>

    ghost predicate Valid() { orchestrator.scheduler == scheduler }

    function View(): Flags
      reads this
    {
      Flags(voiceActive, socialTurnInFlight, lastActivity, pendingSince)
    }

    constructor (scheduler: EventScheduler, now: real)
      ensures Valid() && this.scheduler == scheduler
      ensures View() == Flags(false, false, now, None)
    {
      this.scheduler := scheduler;
      orchestrator := new LiveHostOrchestrator(scheduler);
      voiceActive := false;
      socialTurnInFlight := false;
      lastActivity := now;
      pendingSince := None;
    }

    method NotePending(now: real)
      modifies this
      ensures View() == old(View()).(pendingSince := if old(pendingSince).None? then Some(now) else old(pendingSince))
    {
      if pendingSince == None {
        pendingSince := Some(now);
      }
    }

    method NoteActivity(now: real)
      modifies this
      ensures View() == old(View()).(lastActivity := now)
    {
      lastActivity := now;
    }

    // One message of pump_down's loop, up to its first await; `abort` says that the await is upstream.abort().
    method Receive(m: Message, now: real) returns (abort: bool)
      modifies this
      ensures View() == AfterMessage(old(View()), m, now)
      ensures abort <==> BargesIn(old(View()), m)
    {
      abort := false;
      if m == SpeechStart {
        voiceActive := true;
        NoteActivity(now);
        abort := socialTurnInFlight;
      } else if m == TurnDone || m == Aborted {
        voiceActive := false;
        socialTurnInFlight := false;
        NoteActivity(now);
      }
    }

    // pump_down resumed by the return of upstream.abort().
    method AbortReturned()
      modifies this
      ensures View() == AfterAbort(old(View()))
    {
      socialTurnInFlight := false;
    }

    // The start of every connection attempt's run_once.
    method Reset()
      modifies this
      ensures View() == AfterReset(old(View()))
    {
      voiceActive := false;
      socialTurnInFlight := false;
    }

    // `turn` is what upstream.send_text is then awaited with.
    method PollSocial(minEvents: int, wait: real, now: real) returns (turn: Option<SocialTurn>)
      requires Valid()
      modifies this, scheduler
      ensures turn.Some? <==> SocialReady(old(View()), |old(scheduler.queue)|, minEvents, wait, now)
      ensures turn.None? ==> View() == old(View()) && scheduler.queue == old(scheduler.queue)
      ensures turn.Some? ==>
                && View() == AfterSocial(old(View()), now)
                && turn == Some(TurnOf(SplitTurn(scheduler.cfg, old(scheduler.queue))))
                && scheduler.queue == SplitTurn(scheduler.cfg, old(scheduler.queue)).rest
    {
      turn := None;
      if socialTurnInFlight {
        return;
      }
      if !scheduler.HasPending() {
        return;
      }
      if voiceActive {
        return;
      }
      var enoughEvents := scheduler.PendingCount() >= minEvents;
      var waitedEnough := wait > 0.0 && (pendingSince == None || now - pendingSince.value >= wait);
      if !(enoughEvents || waitedEnough) {
        return;
      }
      turn := orchestrator.PollSocialTurn(voiceActive);
      if turn == None {
        return;
      }
      socialTurnInFlight := true;
      pendingSince := None;
      NoteActivity(now);
    }

    method PollIdle(idle: real, now: real) returns (fire: bool)
      modifies this
      ensures fire <==> IdleReady(old(View()), idle, now)
      ensures View() == if fire then AfterIdle(old(View()), now) else old(View())
    {
      fire := false;
      if voiceActive || socialTurnInFlight {
        return;
      }
      if now - lastActivity < idle {
        return;
      }
      socialTurnInFlight := true;
      NoteActivity(now);
      fire := true;
    }
  }
}
