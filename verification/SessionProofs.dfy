/** What every schedule of a session keeps. The flags are tied to the log of what happened (Consistent), the
    log is shown to obey the rules of arbitration (Lawful), and the claims about whole runs are read off it. */
module SessionProofs {
  import opened Wrappers
  import opened Schemas
  import opened Scheduler
  import opened Arbitration
  import opened Session
  import P = SchedulerProofs
  import R = Redial

  // ---------------------------------------------------------------- readings of the log

  predicate Clears(e: Entry) {
    (e.Received? && EndsTurn(e.message)) || e.AbortReturned? || e.Reset?
  }

  // Position of the co-host turn nothing has cleared yet.
  function Outstanding(log: seq<Entry>): (r: Option<nat>)
    ensures r.Some? ==> r.value < |log| && log[r.value].Fired?
  {
    if log == [] then None else
    var e := log[|log| - 1];
    if e.Fired? then Some(|log| - 1)
    else if Clears(e) then None
    else Outstanding(log[..|log| - 1])
  }

  predicate MovesVoice(e: Entry) {
    (e.Received? && (e.message.SpeechStart? || EndsTurn(e.message))) || e.Reset?
  }

  function Talking(log: seq<Entry>): bool {
    if log == [] then false else
    var e := log[|log| - 1];
    if MovesVoice(e) then e.Received? && e.message.SpeechStart? else Talking(log[..|log| - 1])
  }

  // An abort was sent on the current connection and has not returned.
  function AbortPending(log: seq<Entry>): bool {
    if log == [] then false else
    var e := log[|log| - 1];
    if e.AbortSent? then true
    else if e.AbortReturned? || e.Reset? then false
    else AbortPending(log[..|log| - 1])
  }

  predicate SocialFire(e: Entry) { e.Fired? && e.kind == Social }

  // Arrival time of the first event accepted since the last social turn.
  function WaitingSince(log: seq<Entry>): Option<real> {
    if log == [] then None else
    var e, before := log[|log| - 1], WaitingSince(log[..|log| - 1]);
    if SocialFire(e) then None
    else if e.Accepted? && before.None? then Some(e.at)
    else before
  }

  predicate Activity(e: Entry) {
    (e.Received? && (e.message.SpeechStart? || EndsTurn(e.message))) || e.Accepted? || e.Fired?
  }

  function LastActivity(log: seq<Entry>, start: real): real {
    if log == [] then start else
    var e := log[|log| - 1];
    if Activity(e) then e.at else LastActivity(log[..|log| - 1], start)
  }

  predicate Timed(e: Entry) { e.Received? || e.Accepted? || e.Fired? }

  // ---------------------------------------------------------------- the rules of arbitration

  ghost predicate Allowed(log: seq<Entry>, e: Entry, start: real, idle: real) {
    && (e.Fired? ==> Outstanding(log).None? && !Talking(log))
    && (e.Fired? && e.kind == Idle ==> e.at - LastActivity(log, start) >= idle)
    && (e.Received? ==> !AbortPending(log))
    && (e.AbortSent? ==> Outstanding(log).Some? && Talking(log) && !AbortPending(log)
                         && log[|log| - 1].Received? && log[|log| - 1].message.SpeechStart?)
    && (e.AbortReturned? ==> AbortPending(log))
    && (Timed(e) ==> e.at >= LastActivity(log, start)
                     && forall k :: 0 <= k < |log| && Timed(log[k]) ==> log[k].at <= e.at)
  }

  ghost predicate Lawful(log: seq<Entry>, start: real, idle: real) {
    log == [] || (Lawful(log[..|log| - 1], start, idle) && Allowed(log[..|log| - 1], log[|log| - 1], start, idle))
  }

  ghost predicate Consistent(cfg: Settings, start: real, s: Sys) {
    && s.flags.inFlight == Outstanding(s.log).Some?
    && s.flags.voiceActive == Talking(s.log)
    && s.flags.pendingSince == WaitingSince(s.log)
    && s.flags.lastActivity == LastActivity(s.log, start) <= s.now
    && (forall k :: 0 <= k < |s.log| && Timed(s.log[k]) ==> s.log[k].at <= s.now)
    && (AbortPending(s.log) ==> s.down != Pumping && s.down != Forwarding && Outstanding(s.log).Some? && Talking(s.log))
    && (s.down == Aborting ==> AbortPending(s.log))
    && (s.cancelled ==> s.down == Stopped)
    && 1 <= s.attempt <= Max(1, cfg.maxAttempts)
    && Resets(s.log) <= s.attempt
    && (s.down == Dialing ==> Resets(s.log) < s.attempt)
    && (s.down != Stopped ==> Resets(s.log) >= 1)
    && Lawful(s.log, start, cfg.idleSeconds as real)
  }

  function Resets(log: seq<Entry>): nat {
    if log == [] then 0 else Resets(log[..|log| - 1]) + if log[|log| - 1].Reset? then 1 else 0
  }

  // Everything the readings say about a log with one more entry.
  lemma Snoc(log: seq<Entry>, e: Entry, start: real, idle: real)
    ensures var l := log + [e];
            && Outstanding(l) == (if e.Fired? then Some(|log|) else if Clears(e) then None else Outstanding(log))
            && Talking(l) == (if MovesVoice(e) then e.Received? && e.message.SpeechStart? else Talking(log))
            && AbortPending(l) == (e.AbortSent? || (!e.AbortReturned? && !e.Reset? && AbortPending(log)))
            && LastActivity(l, start) == (if Activity(e) then e.at else LastActivity(log, start))
            && Resets(l) == Resets(log) + (if e.Reset? then 1 else 0)
            && (Lawful(l, start, idle) <==> Lawful(log, start, idle) && Allowed(log, e, start, idle))
            && WaitingSince(l) == (if SocialFire(e) then None
                                   else if e.Accepted? && WaitingSince(log).None? then Some(e.at)
                                   else WaitingSince(log))
  {
    assert (log + [e])[..|log|] == log;
  }

  lemma HeardConsistent(cfg: Settings, start: real, s: Sys, m: Message)
    requires Consistent(cfg, start, s) && !s.cancelled && s.down == Pumping
    ensures Consistent(cfg, start, Heard(s, m))
  {
    Snoc(s.log, Received(m, s.now), start, cfg.idleSeconds as real);
  }

  function Heard(s: Sys, m: Message): Sys {
    s.(flags := AfterMessage(s.flags, m, s.now), log := s.log + [Received(m, s.now)], down := Forwarding)
  }

  lemma BargeInConsistent(cfg: Settings, start: real, s: Sys)
    requires Consistent(cfg, start, s) && !s.cancelled && s.down == Forwarding
    requires s.flags.inFlight && s.flags.voiceActive
    requires s.log != [] && s.log[|s.log| - 1].Received? && s.log[|s.log| - 1].message.SpeechStart?
    ensures Consistent(cfg, start, s.(down := Aborting, log := s.log + [AbortSent]))
  {
    Snoc(s.log, AbortSent, start, cfg.idleSeconds as real);
  }

  lemma MessageConsistent(cfg: Settings, start: real, s: Sys, m: Message)
    requires Consistent(cfg, start, s) && !s.cancelled && s.down == Pumping
    ensures Consistent(cfg, start, DownStep(cfg, s, Deliver(m)))
  {
    HeardConsistent(cfg, start, s, m);
    if BargesIn(s.flags, m) {
      BargeInConsistent(cfg, start, Heard(s, m));
    }
  }

  lemma ResetConsistent(cfg: Settings, start: real, s: Sys)
    requires Consistent(cfg, start, s) && !s.cancelled && s.down == Dialing
    ensures Consistent(cfg, start, DownStep(cfg, s, Connected))
  {
    Snoc(s.log, Reset, start, cfg.idleSeconds as real);
  }

  lemma AbortReturnConsistent(cfg: Settings, start: real, s: Sys)
    requires Consistent(cfg, start, s) && !s.cancelled && s.down == Aborting
    ensures Consistent(cfg, start, DownStep(cfg, s, AbortDone))
  {
    Snoc(s.log, AbortReturned, start, cfg.idleSeconds as real);
  }

  lemma DownStepConsistent(cfg: Settings, start: real, s: Sys, a: Action)
    requires Consistent(cfg, start, s) && !s.cancelled
    ensures Consistent(cfg, start, DownStep(cfg, s, a))
  {
    if a.Deliver? && s.down == Pumping {
      MessageConsistent(cfg, start, s, a.message);
    } else if a.Connected? && s.down == Dialing {
      ResetConsistent(cfg, start, s);
    } else if a.AbortDone? && s.down == Aborting {
      AbortReturnConsistent(cfg, start, s);
    } else {
      var s' := DownStep(cfg, s, a);
      assert s' == s.(down := s'.down, attempt := s'.attempt);
    }
  }

  lemma AcceptedConsistent(cfg: Settings, start: real, s: Sys, q: seq<Scored>)
    requires Consistent(cfg, start, s) && !s.cancelled
    ensures Consistent(cfg, start, s.(queue := q, flags := AfterArrival(s.flags, s.now),
                                      log := s.log + [Accepted(s.now)]))
  {
    Snoc(s.log, Accepted(s.now), start, cfg.idleSeconds as real);
  }

  lemma ArrivalConsistent(cfg: Settings, start: real, s: Sys, e: SocialEvent)
    requires Consistent(cfg, start, s) && !s.cancelled
    ensures Consistent(cfg, start, TaskStep(cfg, s, Arrive(e)))
  {
    if !Skipped(cfg, e) {
      AcceptedConsistent(cfg, start, s, Enqueued(cfg.scheduler, s.queue, e));
    }
  }

  lemma FiredConsistent(cfg: Settings, start: real, s: Sys, q: seq<Scored>)
    requires Consistent(cfg, start, s) && !s.cancelled && !s.flags.inFlight && !s.flags.voiceActive
    ensures Consistent(cfg, start, s.(queue := q, flags := AfterSocial(s.flags, s.now), social := SendingText,
                                      log := s.log + [Fired(Social, s.now)]))
  {
    Snoc(s.log, Fired(Social, s.now), start, cfg.idleSeconds as real);
  }

  lemma SocialConsistent(cfg: Settings, start: real, s: Sys)
    requires Consistent(cfg, start, s) && !s.cancelled
    ensures Consistent(cfg, start, TaskStep(cfg, s, PollSocial))
  {
    if TaskStep(cfg, s, PollSocial) != s {
      FiredConsistent(cfg, start, s, SplitTurn(cfg.scheduler, s.queue).rest);
    }
  }

  lemma FiredIdleConsistent(cfg: Settings, start: real, s: Sys)
    requires Consistent(cfg, start, s) && !s.cancelled && IdleReady(s.flags, cfg.idleSeconds as real, s.now)
    ensures Consistent(cfg, start, s.(flags := AfterIdle(s.flags, s.now), idle := SendingText,
                                      log := s.log + [Fired(Idle, s.now)]))
  {
    Snoc(s.log, Fired(Idle, s.now), start, cfg.idleSeconds as real);
  }

  lemma IdleConsistent(cfg: Settings, start: real, s: Sys)
    requires Consistent(cfg, start, s) && !s.cancelled
    ensures Consistent(cfg, start, TaskStep(cfg, s, PollIdle))
  {
    hide Consistent;
    if TaskStep(cfg, s, PollIdle) != s {
      FiredIdleConsistent(cfg, start, s);
    }
  }

  lemma SendOverConsistent(cfg: Settings, start: real, s: Sys, a: Action)
    requires Consistent(cfg, start, s) && !s.cancelled
    requires a.SocialSent? || a.IdleSent? || a.SocialSendFailed? || a.IdleSendFailed?
    ensures Consistent(cfg, start, TaskStep(cfg, s, a))
  {
    var s' := TaskStep(cfg, s, a);
    assert s' == s.(social := s'.social, idle := s'.idle);
  }

  lemma CancelConsistent(cfg: Settings, start: real, s: Sys)
    requires Consistent(cfg, start, s)
    ensures Consistent(cfg, start, TaskStep(cfg, s, Cancel))
  {
  }

  lemma TaskStepConsistent(cfg: Settings, start: real, s: Sys, a: Action)
    requires Consistent(cfg, start, s) && !s.cancelled
    ensures Consistent(cfg, start, TaskStep(cfg, s, a))
  {
    match a {
      case Wait(_) =>
      case Arrive(e) => ArrivalConsistent(cfg, start, s, e);
      case PollSocial => SocialConsistent(cfg, start, s);
      case PollIdle => IdleConsistent(cfg, start, s);
      case SocialSent | IdleSent | SocialSendFailed | IdleSendFailed => SendOverConsistent(cfg, start, s, a);
      case Cancel => CancelConsistent(cfg, start, s);
      case _ => DownStepConsistent(cfg, start, s, a);
    }
  }

  lemma StepConsistent(cfg: Settings, start: real, s: Sys, a: Action)
    requires Consistent(cfg, start, s)
    ensures Consistent(cfg, start, Step(cfg, s, a))
  {
    if !a.Wait? && !s.cancelled {
      TaskStepConsistent(cfg, start, s, a);
    }
  }

  lemma {:induction false} RunConsistent(cfg: Settings, start: real, actions: seq<Action>)
    ensures Consistent(cfg, start, Run(cfg, start, actions))
  {
    if actions != [] {
      RunConsistent(cfg, start, actions[..|actions| - 1]);
      StepConsistent(cfg, start, Run(cfg, start, actions[..|actions| - 1]), actions[|actions| - 1]);
    } else {
      Snoc([], Reset, start, cfg.idleSeconds as real);
      assert [] + [Reset] == [Reset];
    }
  }

  lemma RunSnoc(cfg: Settings, start: real, actions: seq<Action>, a: Action)
    ensures Run(cfg, start, actions + [a]) == Step(cfg, Run(cfg, start, actions), a)
  {
    assert (actions + [a])[..|actions|] == actions;
  }

  // ---------------------------------------------------------------- reading the rules off a whole log

  lemma {:induction false} LawfulAt(log: seq<Entry>, i: nat, start: real, idle: real)
    requires Lawful(log, start, idle) && i < |log|
    ensures Allowed(log[..i], log[i], start, idle)
  {
    if i < |log| - 1 {
      LawfulAt(log[..|log| - 1], i, start, idle);
      assert log[..|log| - 1][..i] == log[..i];
    }
  }

  // A turn that nothing clears and nothing follows is the outstanding one.
  lemma {:induction false} OutstandingIs(log: seq<Entry>, f: nat)
    requires f < |log| && log[f].Fired?
    requires forall k :: f < k < |log| ==> !Clears(log[k]) && !log[k].Fired?
    ensures Outstanding(log) == Some(f)
  {
    if f < |log| - 1 {
      OutstandingIs(log[..|log| - 1], f);
    }
  }

  lemma {:induction false} OutstandingMeans(log: seq<Entry>)
    requires Outstanding(log).Some?
    ensures forall k :: Outstanding(log).value < k < |log| ==> !Clears(log[k]) && !log[k].Fired?
  {
    var e := log[|log| - 1];
    if !e.Fired? {
      OutstandingMeans(log[..|log| - 1]);
      forall k | Outstanding(log).value < k < |log| ensures !Clears(log[k]) && !log[k].Fired? {
        assert k < |log| - 1 ==> log[k] == log[..|log| - 1][k];
      }
    }
  }

  lemma {:induction false} UnclearedTurnIsOutstanding(log: seq<Entry>, f: nat)
    requires f < |log| && log[f].Fired?
    requires forall k :: f < k < |log| ==> !Clears(log[k])
    ensures Outstanding(log).Some?
  {
    if f < |log| - 1 && !log[|log| - 1].Fired? {
      UnclearedTurnIsOutstanding(log[..|log| - 1], f);
    }
  }

  /** Turns are separated: in every schedule, between any two fired turns, social or idle, lies a turn_done or
      aborted message, a barge-in abort that returned, or the reset of a new connection. Whether that clearing
      was the gateway's answer to the earlier turn is another matter: see FlagIsTruthfulExactly. */
  lemma TurnsAreSeparated(cfg: Settings, start: real, actions: seq<Action>, i: nat, j: nat)
    requires var log := Run(cfg, start, actions).log; i < j < |log| && log[i].Fired? && log[j].Fired?
    ensures var log := Run(cfg, start, actions).log; exists k :: i < k < j && Clears(log[k])
  {
    RunConsistent(cfg, start, actions);
    var log := Run(cfg, start, actions).log;
    LawfulAt(log, j, start, cfg.idleSeconds as real);
    if forall k :: i < k < j ==> !Clears(log[k]) {
      UnclearedTurnIsOutstanding(log[..j], i);
    }
  }

  lemma {:induction false} PendingAbortLasts(log: seq<Entry>, a: nat, start: real, idle: real)
    requires Lawful(log, start, idle) && a < |log| && log[a].AbortSent?
    requires forall k :: a < k < |log| ==> !log[k].AbortReturned? && !log[k].Reset?
    ensures AbortPending(log)
    ensures Outstanding(log).Some? && Outstanding(log) == Outstanding(log[..a])
    ensures Talking(log)
    ensures forall k :: a < k < |log| ==> log[k].Accepted?
  {
    LawfulAt(log, |log| - 1, start, idle);
    if a < |log| - 1 {
      var before := log[..|log| - 1];
      PendingAbortLasts(before, a, start, idle);
      assert before[..a] == log[..a];
    }
  }

  /** Barge-in, first part: each abort cuts off a turn that was outstanding when it was sent. */
  lemma AbortCutsATurn(cfg: Settings, start: real, actions: seq<Action>, a: nat)
    requires a < |Run(cfg, start, actions).log| && Run(cfg, start, actions).log[a].AbortSent?
    ensures var log := Run(cfg, start, actions).log; var f := Outstanding(log[..a]);
            f.Some? && f.value < a && log[f.value].Fired? && forall k :: f.value < k < a ==> !Clears(log[k])
  {
    RunConsistent(cfg, start, actions);
    var log := Run(cfg, start, actions).log;
    LawfulAt(log, a, start, cfg.idleSeconds as real);
    OutstandingMeans(log[..a]);
    forall k | Outstanding(log[..a]).value < k < a ensures !Clears(log[k]) {
      assert log[..a][k] == log[k];
    }
  }

  /** Barge-in, second part: no two aborts cut off the same turn. */
  lemma AbortsCutDistinctTurns(cfg: Settings, start: real, actions: seq<Action>, a: nat, b: nat)
    requires var log := Run(cfg, start, actions).log; a < b < |log| && log[a].AbortSent? && log[b].AbortSent?
    ensures var log := Run(cfg, start, actions).log; Outstanding(log[..a]) != Outstanding(log[..b])
  {
    RunConsistent(cfg, start, actions);
    AbortCutsATurn(cfg, start, actions, a);
    AbortCutsATurn(cfg, start, actions, b);
    var log, idle := Run(cfg, start, actions).log, cfg.idleSeconds as real;
    if forall k :: a < k < b ==> !log[k].AbortReturned? && !log[k].Reset? {
      LawfulAt(log, b, start, idle);
      LawfulPrefix(log, b, start, idle);
      PendingAbortLasts(log[..b], a, start, idle);
    } else {
      var k :| a < k < b && (log[k].AbortReturned? || log[k].Reset?);
      assert Clears(log[k]);
    }
  }

  // The message at i is a speech_start over an outstanding turn.
  predicate SpeaksOver(log: seq<Entry>, i: nat)
    requires i < |log|
  {
    log[i].Received? && log[i].message.SpeechStart? && Outstanding(log[..i]).Some?
  }

  predicate AbortFollows(log: seq<Entry>, i: nat) { i + 1 < |log| && log[i + 1].AbortSent? }

  ghost predicate BargesInExactly(log: seq<Entry>) {
    && (forall i: nat :: i < |log| ==> (SpeaksOver(log, i) <==> AbortFollows(log, i)))
    && (log != [] ==> !log[0].AbortSent?)
  }

  lemma QuietEntryKeepsExact(log: seq<Entry>, e: Entry)
    requires BargesInExactly(log) && !e.AbortSent?
    requires e.Received? && e.message.SpeechStart? ==> Outstanding(log).None?
    ensures BargesInExactly(log + [e])
  {
    var l := log + [e];
    assert l[..|log|] == log;
    forall i: nat | i < |l| ensures SpeaksOver(l, i) <==> AbortFollows(l, i) {
      if i < |log| {
        assert l[..i] == log[..i] && (SpeaksOver(log, i) <==> AbortFollows(log, i));
      }
    }
  }

  lemma BargeInKeepsExact(log: seq<Entry>, e: Entry)
    requires BargesInExactly(log) && e.Received? && e.message.SpeechStart? && Outstanding(log).Some?
    ensures BargesInExactly(log + [e] + [AbortSent])
  {
    var l := log + [e] + [AbortSent];
    assert l[..|log|] == log && l[|log|] == e && l[|log| + 1] == AbortSent;
    forall i: nat | i < |l| ensures SpeaksOver(l, i) <==> AbortFollows(l, i) {
      if i < |log| {
        assert l[..i] == log[..i] && (SpeaksOver(log, i) <==> AbortFollows(log, i));
      }
    }
  }

  lemma DeliveryKeepsExact(cfg: Settings, start: real, s: Sys, m: Message)
    requires Consistent(cfg, start, s) && BargesInExactly(s.log) && s.down == Pumping
    ensures BargesInExactly(DownStep(cfg, s, Deliver(m)).log)
  {
    if BargesIn(s.flags, m) {
      BargeInKeepsExact(s.log, Received(m, s.now));
    } else {
      QuietEntryKeepsExact(s.log, Received(m, s.now));
    }
  }

  // Apart from a delivery a step logs at most one entry, and neither a message nor an abort.
  lemma LogsOneQuietEntry(cfg: Settings, s: Sys, a: Action)
    requires !(a.Deliver? && s.down == Pumping)
    ensures var log := Step(cfg, s, a).log;
            log == s.log || (|log| == |s.log| + 1 && log == s.log + [log[|s.log|]]
                             && !log[|s.log|].AbortSent? && !log[|s.log|].Received?)
  {
  }

  /** Barge-in, third part: in every schedule an abort is sent, and is what is logged next, exactly after a
      speech_start received while a turn was outstanding. */
  lemma {:induction false} BargeInIsExact(cfg: Settings, start: real, actions: seq<Action>)
    ensures BargesInExactly(Run(cfg, start, actions).log)
  {
    if actions != [] {
      var before, a := actions[..|actions| - 1], actions[|actions| - 1];
      var s := Run(cfg, start, before);
      BargeInIsExact(cfg, start, before);
      if a.Deliver? && s.down == Pumping && !s.cancelled {
        RunConsistent(cfg, start, before);
        DeliveryKeepsExact(cfg, start, s, a.message);
      } else if Step(cfg, s, a).log != s.log {
        LogsOneQuietEntry(cfg, s, a);
        QuietEntryKeepsExact(s.log, Step(cfg, s, a).log[|s.log|]);
      }
    }
  }

  lemma {:induction false} LawfulPrefix(log: seq<Entry>, n: nat, start: real, idle: real)
    requires Lawful(log, start, idle) && n <= |log|
    ensures Lawful(log[..n], start, idle)
  {
    if n < |log| {
      LawfulPrefix(log[..|log| - 1], n, start, idle);
      assert log[..|log| - 1][..n] == log[..n];
    } else {
      assert log[..n] == log;
    }
  }

  // The abort whose return is logged at r.
  lemma {:induction false} LatestAbort(log: seq<Entry>) returns (a: nat)
    requires AbortPending(log)
    ensures a < |log| && log[a].AbortSent?
    ensures forall k :: a < k < |log| ==> !log[k].AbortReturned? && !log[k].Reset?
  {
    a := |log| - 1;
    if !log[a].AbortSent? {
      a := LatestAbort(log[..|log| - 1]);
    }
  }

  /** Barge-in, last part: when an abort returns, the turn whose flag it erases is the very turn that was
      outstanding when it was sent; no turn fired, and nothing but arrivals happened, while it was awaited. */
  lemma AbortErasesItsOwnTurn(cfg: Settings, start: real, actions: seq<Action>, r: nat) returns (a: nat)
    requires var log := Run(cfg, start, actions).log; r < |log| && log[r].AbortReturned?
    ensures var log := Run(cfg, start, actions).log;
            && a < r && log[a].AbortSent?
            && Outstanding(log[..r]).Some? && Outstanding(log[..r]) == Outstanding(log[..a])
            && forall k :: a < k < r ==> log[k].Accepted?
  {
    RunConsistent(cfg, start, actions);
    var log, idle := Run(cfg, start, actions).log, cfg.idleSeconds as real;
    LawfulAt(log, r, start, idle);
    LawfulPrefix(log, r, start, idle);
    a := LatestAbort(log[..r]);
    PendingAbortLasts(log[..r], a, start, idle);
    assert log[..r][..a] == log[..a];
    forall k | a < k < r ensures log[k].Accepted? {
      assert log[..r][k] == log[k];
    }
  }

  // ---------------------------------------------------------------- voice wins

  // The latest entry that moves the voice flag is a speech_start.
  ghost predicate SpeechIsLatest(log: seq<Entry>) {
    exists i :: && 0 <= i < |log| && log[i].Received? && log[i].message == SpeechStart
                && forall k :: i < k < |log| ==> !MovesVoice(log[k])
  }

  lemma {:induction false} TalkingMeans(log: seq<Entry>)
    ensures Talking(log) <==> SpeechIsLatest(log)
  {
    if log != [] {
      var p := log[..|log| - 1];
      TalkingMeans(p);
      if MovesVoice(log[|log| - 1]) {
      } else {
        if SpeechIsLatest(p) {
          var i :| 0 <= i < |p| && p[i].Received? && p[i].message == SpeechStart
                   && forall k :: i < k < |p| ==> !MovesVoice(p[k]);
          assert log[i] == p[i];
          assert forall k :: i < k < |log| - 1 ==> log[k] == p[k];
        }
        if SpeechIsLatest(log) {
          var i :| 0 <= i < |log| && log[i].Received? && log[i].message == SpeechStart
                   && forall k :: i < k < |log| ==> !MovesVoice(log[k]);
          assert i < |p| && p[i] == log[i];
          assert forall k :: i < k < |p| ==> log[k] == p[k];
        }
      }
    }
  }

  /** voice_active says exactly that the latest of speech_start, turn_done, aborted and connection reset was
      a speech_start, in every state of every schedule. */
  lemma VoiceFollowsTheMessages(cfg: Settings, start: real, actions: seq<Action>)
    ensures var s := Run(cfg, start, actions); s.flags.voiceActive <==> SpeechIsLatest(s.log)
  {
    RunConsistent(cfg, start, actions);
    TalkingMeans(Run(cfg, start, actions).log);
  }

  /** No turn fires while the streamer talks. */
  lemma VoiceWins(cfg: Settings, start: real, actions: seq<Action>, i: nat)
    requires i < |Run(cfg, start, actions).log| && Run(cfg, start, actions).log[i].Fired?
    ensures !SpeechIsLatest(Run(cfg, start, actions).log[..i])
  {
    RunConsistent(cfg, start, actions);
    LawfulAt(Run(cfg, start, actions).log, i, start, cfg.idleSeconds as real);
    TalkingMeans(Run(cfg, start, actions).log[..i]);
  }

  predicate Unpumped(d: Down) { d == BackingOff || d == Dialing || d == Stopped }

  function Continue(cfg: Settings, s: Sys, actions: seq<Action>): Sys {
    if actions == [] then s else Step(cfg, Continue(cfg, s, actions[..|actions| - 1]), actions[|actions| - 1])
  }

  lemma StepWhileUnpumped(cfg: Settings, s: Sys, a: Action)
    requires Unpumped(s.down) && a != Connected
    ensures var s' := Step(cfg, s, a);
            && Unpumped(s'.down) && s'.flags.voiceActive == s.flags.voiceActive
            && (s'.log == s.log || exists e :: s'.log == s.log + [e] && (s.flags.voiceActive ==> e.Accepted?))
  {
    var s' := Step(cfg, s, a);
    if s'.log != s.log {
      assert s'.log == s.log + [s'.log[|s.log|]];
    }
  }

  /** From a drop until the next attempt's reset voice_active is frozen, whatever else happens meanwhile; and
      if it was set, no turn of either kind can fire. Only the reset lifts it. */
  lemma {:induction false} VoiceFrozenWhileOffline(cfg: Settings, s: Sys, actions: seq<Action>)
    requires Unpumped(s.down) && Connected !in actions
    ensures var s' := Continue(cfg, s, actions);
            && Unpumped(s'.down) && s'.flags.voiceActive == s.flags.voiceActive
            && s.log <= s'.log
            && (s.flags.voiceActive ==> forall k :: |s.log| <= k < |s'.log| ==> s'.log[k].Accepted?)
  {
    if actions != [] {
      assert actions[|actions| - 1] in actions;
      VoiceFrozenWhileOffline(cfg, s, actions[..|actions| - 1]);
      StepWhileUnpumped(cfg, Continue(cfg, s, actions[..|actions| - 1]), actions[|actions| - 1]);
    }
  }

  // ---------------------------------------------------------------- the batch window

  predicate FirstOfBatch(log: seq<Entry>, i: int) {
    && 0 <= i < |log| && log[i].Accepted?
    && (forall k :: i < k < |log| ==> !SocialFire(log[k]))
    && (forall k :: 0 <= k < i && log[k].Accepted? ==> exists j :: k < j < i && SocialFire(log[j]))
  }

  lemma {:induction false} WaitingSinceMeans(log: seq<Entry>)
    ensures WaitingSince(log).None? <==>
            forall k :: 0 <= k < |log| && log[k].Accepted? ==> exists j :: k < j < |log| && SocialFire(log[j])
    ensures WaitingSince(log).Some? ==> exists i :: FirstOfBatch(log, i) && log[i].at == WaitingSince(log).value
  {
    if log != [] {
      var p, e, n := log[..|log| - 1], log[|log| - 1], |log| - 1;
      WaitingSinceMeans(p);
      if SocialFire(e) {
        assert forall k :: 0 <= k < |log| && log[k].Accepted? ==> k < n < |log| && SocialFire(log[n]);
      } else {
        assert forall j :: 0 <= j < |log| && SocialFire(log[j]) ==> j < |p| && SocialFire(p[j]);
        if WaitingSince(p).None? {
          forall k | 0 <= k < |p| && p[k].Accepted? ensures exists j :: k < j < |p| && SocialFire(log[j]) {
            var j :| k < j < |p| && SocialFire(p[j]);
            assert SocialFire(log[j]);
          }
          if e.Accepted? {
            assert FirstOfBatch(log, n);
          }
        } else {
          var i :| FirstOfBatch(p, i) && p[i].at == WaitingSince(p).value;
          BatchPrefix(log, i);
          assert FirstOfBatch(log, i);
        }
      }
    }
  }

  lemma BatchPrefix(log: seq<Entry>, i: int)
    requires log != [] && FirstOfBatch(log[..|log| - 1], i) && !SocialFire(log[|log| - 1])
    ensures FirstOfBatch(log, i)
  {
    var p := log[..|log| - 1];
    forall k | i < k < |log| ensures !SocialFire(log[k]) {
      assert k < |p| ==> log[k] == p[k];
    }
    forall k | 0 <= k < i && log[k].Accepted? ensures exists j :: k < j < i && SocialFire(log[j]) {
      assert p[k].Accepted?;
      var j :| k < j < i && SocialFire(p[j]);
      assert SocialFire(log[j]);
    }
  }

  /** The batch clock: pending_since is unset exactly when no event was accepted since the last social turn,
      and otherwise is the arrival time of the first such event, which later arrivals never move. */
  lemma BatchClock(cfg: Settings, start: real, actions: seq<Action>)
    ensures var s := Run(cfg, start, actions);
            && (s.flags.pendingSince.None? <==>
                forall k :: 0 <= k < |s.log| && s.log[k].Accepted? ==>
                  exists j :: k < j < |s.log| && SocialFire(s.log[j]))
            && (s.flags.pendingSince.Some? ==>
                  exists i :: FirstOfBatch(s.log, i) && s.log[i].at == s.flags.pendingSince.value)
  {
    RunConsistent(cfg, start, actions);
    WaitingSinceMeans(Run(cfg, start, actions).log);
  }

  // No event was accepted since the last social turn, or the first one has waited `wait` seconds.
  ghost predicate WindowOpen(log: seq<Entry>, now: real, wait: real) {
    forall i :: FirstOfBatch(log, i) ==> now - log[i].at >= wait
  }

  lemma WindowOpenMeans(log: seq<Entry>, now: real, wait: real)
    ensures WindowOpen(log, now, wait) <==> WaitingSince(log).None? || now - WaitingSince(log).value >= wait
  {
    WaitingSinceMeans(log);
    if WaitingSince(log).Some? {
      var w :| FirstOfBatch(log, w) && log[w].at == WaitingSince(log).value;
      forall i | FirstOfBatch(log, i) ensures i == w {
        assert log[i].Accepted? && log[w].Accepted?;
      }
    } else {
      forall i ensures !FirstOfBatch(log, i) {
        if 0 <= i < |log| && log[i].Accepted? {
          var j :| i < j < |log| && SocialFire(log[j]);
        }
      }
    }
  }

  // Events wait, and there are enough of them or a configured wait is over.
  ghost predicate Due(cfg: Settings, s: Sys) {
    s.queue != []
    && (|s.queue| >= cfg.batchMinEvents || (cfg.batchWait > 0.0 && WindowOpen(s.log, s.now, cfg.batchWait)))
  }

  ghost predicate FiresSocial(cfg: Settings, s: Sys) {
    Step(cfg, s, PollSocial).log == s.log + [Fired(Social, s.now)]
  }

  /** When a poll fires, read off the log alone: no turn is outstanding, the streamer is not talking, and a
      batch is due. */
  lemma SocialFiresExactly(cfg: Settings, start: real, actions: seq<Action>)
    requires var s := Run(cfg, start, actions); !s.cancelled && s.social == Asleep
    ensures var s := Run(cfg, start, actions);
            FiresSocial(cfg, s) <==> Outstanding(s.log).None? && !SpeechIsLatest(s.log) && Due(cfg, s)
  {
    RunConsistent(cfg, start, actions);
    var s := Run(cfg, start, actions);
    TalkingMeans(s.log);
    WindowOpenMeans(s.log, s.now, cfg.batchWait);
  }

  // ---------------------------------------------------------------- the batch clock and the queue

  ghost predicate ClockMeansBacklog(cfg: Settings, start: real, actions: seq<Action>) {
    var s := Run(cfg, start, actions);
    s.flags.pendingSince.Some? ==> s.queue != []
  }

  lemma EnqueueLeavesSomething(cfg: Config, q: seq<Scored>, e: SocialEvent)
    requires cfg.maxQueueSize >= 1
    ensures Enqueued(cfg, q, e) != []
  {
    assert |SortDesc(q + [Arrived(cfg, e)])| == |q| + 1;
  }

  lemma {:induction false} ClockMeansBacklogAlways(cfg: Settings, start: real, actions: seq<Action>)
    requires cfg.scheduler.maxQueueSize >= 1
    ensures ClockMeansBacklog(cfg, start, actions)
  {
    if actions != [] {
      ClockMeansBacklogAlways(cfg, start, actions[..|actions| - 1]);
      BacklogStep(cfg, Run(cfg, start, actions[..|actions| - 1]), actions[|actions| - 1]);
    }
  }

  lemma BacklogStep(cfg: Settings, s: Sys, a: Action)
    requires cfg.scheduler.maxQueueSize >= 1 && (s.flags.pendingSince.Some? ==> s.queue != [])
    ensures var s' := Step(cfg, s, a); s'.flags.pendingSince.Some? ==> s'.queue != []
  {
    hide Enqueued, SplitTurn;
    if a.Arrive? {
      EnqueueLeavesSomething(cfg.scheduler, s.queue, a.event);
    }
  }

  const FOLLOW := SocialEvent("e1", Follow, "u1", "ann", None, None)

  lemma FollowIsEvicted(cfg: Config)
    requires cfg.maxQueueSize < 1
    ensures Enqueued(cfg, [], FOLLOW) == []
  {
    var x := Arrived(cfg, FOLLOW);
    assert [] + [x] == [x] && [x][..0] == [];
    assert SortDesc([x]) == [x];
    assert !Protected(x);
  }

  lemma ClockWithoutBacklog(cfg: Settings, start: real) returns (actions: seq<Action>)
    requires cfg.scheduler.maxQueueSize < 1
    ensures !ClockMeansBacklog(cfg, start, actions)
  {
    hide Enqueued;
    FollowIsEvicted(cfg.scheduler);
    actions := [] + [Arrive(FOLLOW)];
    RunSnoc(cfg, start, [], Arrive(FOLLOW));
    assert Run(cfg, start, []) == Begin(cfg, start);
  }

  /** A running batch clock promises a non-empty queue in every run exactly if the queue may hold an event;
      with a cap of 0 the first plain follow is evicted at once but still starts the clock. */
  lemma ClockMeansBacklogExactly(cfg: Settings, start: real)
    ensures (forall actions :: ClockMeansBacklog(cfg, start, actions)) <==> cfg.scheduler.maxQueueSize >= 1
  {
    if cfg.scheduler.maxQueueSize >= 1 {
      forall actions ensures ClockMeansBacklog(cfg, start, actions) {
        ClockMeansBacklogAlways(cfg, start, actions);
      }
    } else {
      var actions := ClockWithoutBacklog(cfg, start);
    }
  }

  // ---------------------------------------------------------------- the idle clock

  lemma {:induction false} LastActivityIsLast(log: seq<Entry>, k: nat, start: real, idle: real)
    requires Lawful(log, start, idle) && k < |log| && Activity(log[k])
    ensures log[k].at <= LastActivity(log, start)
  {
    var p := log[..|log| - 1];
    LawfulAt(log, |log| - 1, start, idle);
    if k < |log| - 1 {
      LastActivityIsLast(p, k, start, idle);
    }
  }

  /** Dead air: an idle turn fires only if for idle_seconds before it no event was accepted, no speech or
      turn boundary was received, and no turn of either kind was fired. */
  lemma IdleOnlyAfterSilence(cfg: Settings, start: real, actions: seq<Action>, i: nat, k: nat)
    requires var log := Run(cfg, start, actions).log;
             k < i < |log| && log[i].Fired? && log[i].kind == Idle && Activity(log[k])
    ensures var log := Run(cfg, start, actions).log; log[i].at - log[k].at >= cfg.idleSeconds as real
  {
    RunConsistent(cfg, start, actions);
    var log, idle := Run(cfg, start, actions).log, cfg.idleSeconds as real;
    LawfulAt(log, i, start, idle);
    LawfulPrefix(log, i, start, idle);
    LastActivityIsLast(log[..i], k, start, idle);
  }

  lemma {:induction false} LastActivityIs(log: seq<Entry>, start: real, idle: real)
    requires Lawful(log, start, idle)
    ensures LastActivity(log, start) >= start
    ensures LastActivity(log, start) == start
            || exists k :: 0 <= k < |log| && Activity(log[k]) && log[k].at == LastActivity(log, start)
  {
    if log != [] {
      var p := log[..|log| - 1];
      LawfulAt(log, |log| - 1, start, idle);
      LastActivityIs(p, start, idle);
      if !Activity(log[|log| - 1]) && LastActivity(log, start) != start {
        var k :| 0 <= k < |p| && Activity(p[k]) && p[k].at == LastActivity(p, start);
        assert Activity(log[k]);
      }
    }
  }

  /** When an idle poll fires, read off the log alone: no turn is outstanding, the streamer is not talking,
      and neither the session's start nor any activity lies less than idle_seconds back. */
  lemma IdleFiresExactly(cfg: Settings, start: real, actions: seq<Action>)
    requires var s := Run(cfg, start, actions); !s.cancelled && s.idle == Asleep
    ensures var s := Run(cfg, start, actions);
            Step(cfg, s, PollIdle).log == s.log + [Fired(Idle, s.now)]
            <==>
            && Outstanding(s.log).None? && !SpeechIsLatest(s.log) && s.now - start >= cfg.idleSeconds as real
            && forall k :: 0 <= k < |s.log| && Activity(s.log[k]) ==> s.now - s.log[k].at >= cfg.idleSeconds as real
  {
    RunConsistent(cfg, start, actions);
    var s, idle := Run(cfg, start, actions), cfg.idleSeconds as real;
    TalkingMeans(s.log);
    LastActivityIs(s.log, start, idle);
    forall k | 0 <= k < |s.log| && Activity(s.log[k]) ensures s.log[k].at <= LastActivity(s.log, start) {
      LastActivityIsLast(s.log, k, start, idle);
    }
  }

  predicate IdleIn(e: Entry, from: real, to: real) {
    e.Fired? && e.kind == Idle && from <= e.at <= to
  }

  function IdleTurns(log: seq<Entry>, from: real, to: real): nat {
    if log == [] then 0 else IdleTurns(log[..|log| - 1], from, to) + if IdleIn(log[|log| - 1], from, to) then 1 else 0
  }

  lemma OneMore(n: nat, idle: real, from: real, a: real, b: real)
    requires (n - 1) as real * idle <= a - from && b - a >= idle
    ensures n as real * idle <= b - from
  {
    assert n as real == (n - 1) as real + 1.0;
  }

  lemma CancelFactor(x: real, y: real, idle: real)
    requires idle > 0.0 && x * idle <= y * idle
    ensures x <= y
  {
    assert (x - y) * idle <= 0.0;
  }

  lemma CountFits(n: nat, length: real, idle: real)
    requires idle > 0.0 && length >= 0.0 && (n > 0 ==> (n - 1) as real * idle <= length)
    ensures n <= (length / idle).Floor + 1
  {
    var q := length / idle;
    assert q * idle == length;
    if n > 0 {
      CancelFactor((n - 1) as real, q, idle);
    }
  }

  lemma IdleTurnsApart(log: seq<Entry>, i: nat, start: real, idle: real)
    requires Lawful(log, start, idle) && i < |log| - 1 && log[i].Fired?
    requires log[|log| - 1].Fired? && log[|log| - 1].kind == Idle
    ensures log[|log| - 1].at - log[i].at >= idle
  {
    LawfulAt(log, |log| - 1, start, idle);
    LastActivityIsLast(log[..|log| - 1], i, start, idle);
  }

  // n idle turns ending at `end` were each `idle` after the one before.
  ghost predicate Spread(n: nat, idle: real, from: real, end: real) {
    n > 0 ==> (n - 1) as real * idle <= end - from
  }

  lemma SpreadOne(idle: real, from: real, end: real)
    requires end >= from
    ensures Spread(1, idle, from, end)
  {
  }

  lemma SpreadOneMore(n: nat, idle: real, from: real, a: real, b: real)
    requires n > 0 && Spread(n, idle, from, a) && b - a >= idle
    ensures Spread(n + 1, idle, from, b)
  {
    OneMore(n, idle, from, a, b);
  }

  lemma {:induction false} IdleTurnsSpread(log: seq<Entry>, from: real, to: real, start: real, idle: real)
    returns (last: nat)
    requires Lawful(log, start, idle) && IdleTurns(log, from, to) > 0
    ensures last < |log| && IdleIn(log[last], from, to)
    ensures Spread(IdleTurns(log, from, to), idle, from, log[last].at)
  {
    var p, e := log[..|log| - 1], log[|log| - 1];
    var n := IdleTurns(p, from, to);
    if !IdleIn(e, from, to) {
      last := IdleTurnsSpread(p, from, to, start, idle);
    } else {
      last := |log| - 1;
      if n > 0 {
        var before := IdleTurnsSpread(p, from, to, start, idle);
        IdleTurnsApart(log, before, start, idle);
        SpreadOneMore(n, idle, from, p[before].at, e.at);
      } else {
        SpreadOne(idle, from, e.at);
      }
    }
  }

  lemma IdleTurnsFit(log: seq<Entry>, start: real, idle: real, from: real, length: real)
    requires Lawful(log, start, idle) && idle > 0.0 && length >= 0.0
    ensures IdleTurns(log, from, from + length) <= (length / idle).Floor + 1
  {
    var n := IdleTurns(log, from, from + length);
    if n > 0 {
      hide Lawful, IdleTurns;
      var last := IdleTurnsSpread(log, from, from + length, start, idle);
    }
    CountFits(n, length, idle);
  }

  /** Rate bound: any stretch of length T holds at most floor(T / idle_seconds) + 1 idle turns. */
  lemma IdleRateBound(cfg: Settings, start: real, actions: seq<Action>, from: real, length: real)
    requires cfg.idleSeconds > 0 && length >= 0.0
    ensures IdleTurns(Run(cfg, start, actions).log, from, from + length) <= (length / cfg.idleSeconds as real).Floor + 1
  {
    RunConsistent(cfg, start, actions);
    IdleTurnsFit(Run(cfg, start, actions).log, start, cfg.idleSeconds as real, from, length);
  }

  /** The redial budget: no session starts more connection attempts than it is allowed. */
  lemma AttemptsAreBounded(cfg: Settings, start: real, actions: seq<Action>)
    ensures Resets(Run(cfg, start, actions).log) <= Max(0, cfg.maxAttempts)
  {
    RunConsistent(cfg, start, actions);
    if cfg.maxAttempts < 1 {
      NeverConnects(cfg, start, actions);
    }
  }

  lemma {:induction false} NeverConnects(cfg: Settings, start: real, actions: seq<Action>)
    requires cfg.maxAttempts < 1
    ensures Run(cfg, start, actions).down == Stopped && Resets(Run(cfg, start, actions).log) == 0
  {
    if actions != [] {
      NeverConnects(cfg, start, actions[..|actions| - 1]);
      StoppedStays(cfg, start, Run(cfg, start, actions[..|actions| - 1]), actions[|actions| - 1]);
    }
  }

  lemma StoppedStays(cfg: Settings, start: real, s: Sys, a: Action)
    requires s.down == Stopped
    ensures Step(cfg, s, a).down == Stopped && Resets(Step(cfg, s, a).log) == Resets(s.log)
  {
    hide Enqueued, SplitTurn, Resets;
    match a {
      case Arrive(_) => Snoc(s.log, Accepted(s.now), start, 0.0);
      case PollSocial => Snoc(s.log, Fired(Social, s.now), start, 0.0);
      case PollIdle => Snoc(s.log, Fired(Idle, s.now), start, 0.0);
      case _ =>
    }
  }

  // ---------------------------------------------------------------- the reconnect loop inside the session

  // How a step ends the attempt under way, if it does.
  function OutcomeOf(s: Sys, a: Action): seq<R.Outcome> {
    if s.cancelled then []
    else if (a.Dropped? && Connection(s.down)) || (a.ConnectFailed? && s.down == Dialing) then [R.Dropped]
    else if a.Ended? && (Connection(s.down) || s.down == Dialing) then [R.Returned]
    else []
  }

  function Outcomes(cfg: Settings, start: real, actions: seq<Action>): seq<R.Outcome> {
    if actions == [] then [] else
    var before := actions[..|actions| - 1];
    Outcomes(cfg, start, before) + OutcomeOf(Run(cfg, start, before), actions[|actions| - 1])
  }

  ghost predicate Redials(cfg: Settings, s: Sys, outcomes: seq<R.Outcome>) {
    if s.cancelled then true
    else if s.down == Stopped then R.Concluded(outcomes, cfg.maxAttempts)
    else (forall n :: 0 <= n < |outcomes| ==> outcomes[n] == R.Dropped)
         && s.attempt == |outcomes| + (if s.down == BackingOff then 0 else 1) && s.attempt <= cfg.maxAttempts
  }

  lemma StepRedials(cfg: Settings, s: Sys, a: Action, outcomes: seq<R.Outcome>)
    requires Redials(cfg, s, outcomes)
    ensures Redials(cfg, Step(cfg, s, a), outcomes + OutcomeOf(s, a))
  {
    hide Enqueued, SplitTurn;
    if OutcomeOf(s, a) == [] {
      assert outcomes + [] == outcomes;
    }
  }

  /** The session's down task is that loop: while it runs, every attempt before the current one dropped; and
      when it is over the outcomes it met are those of a concluded Redial, whose number of attempts they
      determine (ConcludedOneWay). */
  lemma {:induction false} SessionRedials(cfg: Settings, start: real, actions: seq<Action>)
    ensures Redials(cfg, Run(cfg, start, actions), Outcomes(cfg, start, actions))
  {
    if actions != [] {
      var before, a := actions[..|actions| - 1], actions[|actions| - 1];
      SessionRedials(cfg, start, before);
      StepRedials(cfg, Run(cfg, start, before), a, Outcomes(cfg, start, before));
    }
  }

  // ---------------------------------------------------------------- the scheduler inside the session

  // What a step asks of the scheduler, if anything.
  function OpsOf(cfg: Settings, s: Sys, a: Action): seq<P.Op> {
    if a.Arrive? && !s.cancelled && !Skipped(cfg, a.event) then [P.Arrive(a.event)]
    else if a.PollSocial? && Step(cfg, s, a) != s then [P.Turn]
    else []
  }

  // The arrivals and turns a schedule puts its scheduler through.
  function Ops(cfg: Settings, start: real, actions: seq<Action>): seq<P.Op> {
    if actions == [] then [] else
    var before := actions[..|actions| - 1];
    Ops(cfg, start, before) + OpsOf(cfg, Run(cfg, start, before), actions[|actions| - 1])
  }

  lemma OpsSnoc(cfg: Settings, start: real, actions: seq<Action>, a: Action)
    ensures Ops(cfg, start, actions + [a]) == Ops(cfg, start, actions) + OpsOf(cfg, Run(cfg, start, actions), a)
  {
    assert (actions + [a])[..|actions|] == actions;
  }

  function SocialTurns(log: seq<Entry>): nat {
    if log == [] then 0 else SocialTurns(log[..|log| - 1]) + if SocialFire(log[|log| - 1]) then 1 else 0
  }

  lemma SocialTurnsSnoc(log: seq<Entry>, e: Entry)
    ensures SocialTurns(log + [e]) == SocialTurns(log) + if SocialFire(e) then 1 else 0
  {
    assert (log + [e])[..|log|] == log;
  }

  lemma DeliveryFiresNothing(cfg: Settings, s: Sys, m: Message)
    requires s.down == Pumping
    ensures DownStep(cfg, s, Deliver(m)).queue == s.queue
    ensures SocialTurns(DownStep(cfg, s, Deliver(m)).log) == SocialTurns(s.log)
  {
    SocialTurnsSnoc(s.log, Received(m, s.now));
    SocialTurnsSnoc(s.log + [Received(m, s.now)], AbortSent);
  }

  lemma DownStepFiresNothing(cfg: Settings, s: Sys, a: Action)
    ensures DownStep(cfg, s, a).queue == s.queue && SocialTurns(DownStep(cfg, s, a).log) == SocialTurns(s.log)
  {
    if a.Deliver? && s.down == Pumping {
      DeliveryFiresNothing(cfg, s, a.message);
    } else {
      SocialTurnsSnoc(s.log, Reset);
      SocialTurnsSnoc(s.log, AbortReturned);
    }
  }

  // The scheduler's part of one step of the session.
  ghost predicate InStep(s: Sys, l: P.Ledger) {
    s.queue == l.queue && SocialTurns(s.log) == |l.turns|
  }

  lemma ArrivalIsOp(cfg: Settings, s: Sys, e: SocialEvent, l: P.Ledger)
    requires InStep(s, l) && !s.cancelled && !Skipped(cfg, e)
    ensures InStep(Step(cfg, s, Arrive(e)), P.Record(cfg.scheduler, l, P.Arrive(e)))
  {
    hide Enqueued, SocialTurns;
    SocialTurnsSnoc(s.log, Accepted(s.now));
  }

  lemma SocialIsOp(cfg: Settings, s: Sys, l: P.Ledger)
    requires InStep(s, l) && Step(cfg, s, PollSocial) != s
    ensures InStep(Step(cfg, s, PollSocial), P.Record(cfg.scheduler, l, P.Turn))
  {
    hide SplitTurn, SocialTurns;
    SocialTurnsSnoc(s.log, Fired(Social, s.now));
  }

  lemma OtherIsNoOp(cfg: Settings, s: Sys, a: Action, l: P.Ledger)
    requires InStep(s, l) && OpsOf(cfg, s, a) == []
    ensures InStep(Step(cfg, s, a), l)
  {
    hide Enqueued, SplitTurn, SocialTurns;
    match a {
      case Arrive(_) =>
      case PollSocial =>
      case PollIdle => SocialTurnsSnoc(s.log, Fired(Idle, s.now));
      case _ => DownStepFiresNothing(cfg, s, a);
    }
  }

  lemma StepIsOp(cfg: Settings, s: Sys, a: Action, l: P.Ledger)
    requires InStep(s, l)
    ensures var ops := OpsOf(cfg, s, a);
            InStep(Step(cfg, s, a), if ops == [] then l else P.Record(cfg.scheduler, l, ops[0]))
  {
    hide Step, InStep;
    if OpsOf(cfg, s, a) == [] {
      OtherIsNoOp(cfg, s, a, l);
    } else if a.Arrive? {
      ArrivalIsOp(cfg, s, a.event, l);
    } else {
      SocialIsOp(cfg, s, l);
    }
  }

  lemma PlaySnoc(cfg: Config, ops: seq<P.Op>, op: P.Op)
    ensures P.Play(cfg, ops + [op]) == P.Record(cfg, P.Play(cfg, ops), op)
  {
    assert (ops + [op])[..|ops|] == ops;
  }

  /** A session's queue is its scheduler's, so every scheduler theorem holds along every schedule; and each
      social turn fired is one turn taken from it. */
  lemma {:induction false} SessionRunsTheScheduler(cfg: Settings, start: real, actions: seq<Action>)
    ensures var s, l := Run(cfg, start, actions), P.Play(cfg.scheduler, Ops(cfg, start, actions));
            s.queue == l.queue && SocialTurns(s.log) == |l.turns|
  {
    if actions != [] {
      var before, a := actions[..|actions| - 1], actions[|actions| - 1];
      var s, ops := Run(cfg, start, before), Ops(cfg, start, before);
      SessionRunsTheScheduler(cfg, start, before);
      StepIsOp(cfg, s, a, P.Play(cfg.scheduler, ops));
      if OpsOf(cfg, s, a) == [] {
        assert Ops(cfg, start, actions) == ops;
      } else {
        PlaySnoc(cfg.scheduler, ops, OpsOf(cfg, s, a)[0]);
        assert Ops(cfg, start, actions) == ops + [OpsOf(cfg, s, a)[0]];
      }
    }
  }
}
