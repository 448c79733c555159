/** What the reset before each connection attempt repairs, and what it does not: exactly when it spares the
    turns fired since the drop, and exactly when the session speaks again after it. */
module ResetProofs {
  import opened Wrappers
  import opened Schemas
  import opened Scheduler
  import opened Arbitration
  import opened Session
  import opened SessionProofs
  import P = SchedulerProofs

  // ---------------------------------------------------------------- what silences a poller

  function PollerOf(s: Sys, kind: TurnKind): Poller { if kind == Social then s.social else s.idle }

  function SendFailure(kind: TurnKind): Action { if kind == Social then SocialSendFailed else IdleSendFailed }

  // The n-th step is a send_text of this poller raising.
  predicate RaisesAt(cfg: Settings, start: real, actions: seq<Action>, kind: TurnKind, n: nat)
    requires n < |actions|
  {
    actions[n] == SendFailure(kind) && PollerOf(Run(cfg, start, actions[..n]), kind) == SendingText
  }

  ghost predicate SendRaised(cfg: Settings, start: real, actions: seq<Action>, kind: TurnKind) {
    exists n: nat :: n < |actions| && RaisesAt(cfg, start, actions, kind, n)
  }

  lemma SendRaisedSnoc(cfg: Settings, start: real, before: seq<Action>, a: Action, kind: TurnKind)
    ensures SendRaised(cfg, start, before + [a], kind) <==>
            || SendRaised(cfg, start, before, kind)
            || (a == SendFailure(kind) && PollerOf(Run(cfg, start, before), kind) == SendingText)
  {
    var actions := before + [a];
    assert actions[..|before|] == before;
    forall n: nat | n < |before|
      ensures RaisesAt(cfg, start, actions, kind, n) <==> RaisesAt(cfg, start, before, kind, n)
    {
      assert actions[..n] == before[..n];
    }
    if a == SendFailure(kind) && PollerOf(Run(cfg, start, before), kind) == SendingText {
      assert RaisesAt(cfg, start, actions, kind, |before|);
    }
  }

  lemma DeadAfterStep(cfg: Settings, s: Sys, a: Action, kind: TurnKind)
    requires s.cancelled ==> PollerOf(s, kind) == Dead
    ensures var s' := Step(cfg, s, a);
            PollerOf(s', kind) == Dead <==>
            PollerOf(s, kind) == Dead || s'.cancelled || (a == SendFailure(kind) && PollerOf(s, kind) == SendingText)
  {
  }

  lemma CancelledAfterStep(cfg: Settings, s: Sys, a: Action)
    ensures Step(cfg, s, a).cancelled <==> s.cancelled || a.Cancel?
  {
  }

  /** A poller is gone exactly if the session was cancelled, one of its own sends raised, or it was never
      started. Nothing brings it back. */
  lemma {:induction false} DeadExactly(cfg: Settings, start: real, actions: seq<Action>, kind: TurnKind)
    ensures var s := Run(cfg, start, actions);
            PollerOf(s, kind) == Dead <==>
            s.cancelled || SendRaised(cfg, start, actions, kind) || (kind == Idle && cfg.idleSeconds <= 0)
  {
    if actions != [] {
      var before, a := actions[..|actions| - 1], actions[|actions| - 1];
      DeadExactly(cfg, start, before, kind);
      DeadAfterStep(cfg, Run(cfg, start, before), a, kind);
      CancelledAfterStep(cfg, Run(cfg, start, before), a);
      SendRaisedSnoc(cfg, start, before, a, kind);
      assert before + [a] == actions;
    }
  }

  /** What a reset repairs, exactly: once the social poller's pending send, if any, is back, a due batch is
      fired by its next poll unless one of its sends has ever raised. The lost connection left no flag behind,
      but a turn sent into it may have ended the poller. */
  lemma ResetUnsticksExactly(cfg: Settings, start: real, actions: seq<Action>)
    requires var s := Run(cfg, start, actions); s.down == Dialing && !s.cancelled
    ensures var s := Step(cfg, Step(cfg, Run(cfg, start, actions), Connected), SocialSent);
            Due(cfg, s) ==> (FiresSocial(cfg, s) <==> !SendRaised(cfg, start, actions, Social))
  {
    var s := Run(cfg, start, actions);
    var reset := actions + [Connected];
    var back := reset + [SocialSent];
    var t := Run(cfg, start, back);
    assert t == Step(cfg, Step(cfg, s, Connected), SocialSent) by {
      RunSnoc(cfg, start, actions, Connected);
      RunSnoc(cfg, start, reset, SocialSent);
    }
    DeadExactly(cfg, start, actions, Social);
    if s.social != Dead {
      NothingOutstanding(cfg, start, back);
      SocialFiresExactly(cfg, start, back);
    }
  }

  lemma NothingOutstanding(cfg: Settings, start: real, actions: seq<Action>)
    requires var f := Run(cfg, start, actions).flags; !f.inFlight && !f.voiceActive
    ensures var log := Run(cfg, start, actions).log; Outstanding(log).None? && !SpeechIsLatest(log)
  {
    RunConsistent(cfg, start, actions);
    TalkingMeans(Run(cfg, start, actions).log);
  }

  // ---------------------------------------------------------------- the limits of the reset

  // d is a state of the current outage, and the turn logged at f was fired after it.
  predicate OfflineBefore(d: Sys, log: seq<Entry>, f: nat) {
    d.down == BackingOff && Resets(d.log) == Resets(log) && |d.log| <= f
  }

  // connect() is awaited while a turn fired since the drop is unanswered: the reset to come erases its flag.
  ghost predicate ErasesFresh(cfg: Settings, start: real, actions: seq<Action>) {
    var s := Run(cfg, start, actions);
    && s.down == Dialing && !s.cancelled && Outstanding(s.log).Some?
    && exists n :: 0 <= n <= |actions| && OfflineBefore(Run(cfg, start, actions[..n]), s.log, Outstanding(s.log).value)
  }

  const GIFT := SocialEvent("g", Gift, "u", "ann", None, None)

  // n gifts wait, offline, for a social poller that is free to take them.
  ghost predicate Piled(s: Sys, n: nat) {
    && s.down == BackingOff && s.attempt == 1 && !s.cancelled && s.social == Asleep
    && !s.flags.inFlight && !s.flags.voiceActive
    && |s.queue| == n && (forall i :: 0 <= i < n ==> s.queue[i].event == GIFT)
    && s.log != [] && Resets(s.log) == 1
  }

  lemma GiftIsKept(cfg: Config, q: seq<Scored>)
    requires forall i :: 0 <= i < |q| ==> q[i].event == GIFT
    ensures |Enqueued(cfg, q, GIFT)| == |q| + 1
    ensures forall i :: 0 <= i <= |q| ==> Enqueued(cfg, q, GIFT)[i].event == GIFT
  {
    var later := q + [Arrived(cfg, GIFT)];
    var ranked := SortDesc(later);
    P.SortDescPermutes(later);
    forall i | 0 <= i < |ranked| ensures ranked[i].event == GIFT {
      assert ranked[i] in multiset(ranked);
      assert ranked[i] in later;
    }
  }

  lemma GiftPiles(cfg: Settings, start: real, s: Sys, n: nat)
    requires Piled(s, n)
    ensures Piled(Step(cfg, s, Arrive(GIFT)), n + 1)
  {
    GiftIsKept(cfg.scheduler, s.queue);
    Snoc(s.log, Accepted(s.now), start, cfg.idleSeconds as real);
  }

  lemma AfterTheDrop(cfg: Settings, start: real)
    requires cfg.maxAttempts >= 1
    ensures Run(cfg, start, [Dropped]) == Begin(cfg, start).(down := BackingOff)
    ensures Piled(Run(cfg, start, [Dropped]), 0) && Resets([Reset]) == 1
  {
    assert [] + [Dropped] == [Dropped] && [] + [Reset] == [Reset];
    RunSnoc(cfg, start, [], Dropped);
    Snoc([], Reset, start, cfg.idleSeconds as real);
  }

  lemma {:induction false} PileUp(cfg: Settings, start: real, n: nat) returns (actions: seq<Action>)
    requires cfg.maxAttempts >= 1
    ensures |actions| >= 1 && actions[0] == Dropped && Piled(Run(cfg, start, actions), n)
  {
    if n == 0 {
      AfterTheDrop(cfg, start);
      actions := [Dropped];
    } else {
      var fewer := PileUp(cfg, start, n - 1);
      actions := fewer + [Arrive(GIFT)];
      RunSnoc(cfg, start, fewer, Arrive(GIFT));
      GiftPiles(cfg, start, Run(cfg, start, fewer), n - 1);
    }
  }

  // s was offline and fired a turn that nothing has answered.
  ghost predicate FiredOffline(s: Sys) {
    && s.down == BackingOff && s.attempt == 1 && !s.cancelled && s.social == SendingText
    && |s.log| >= 2 && Outstanding(s.log) == Some(|s.log| - 1) && Resets(s.log) == 1
  }

  // Under any settings: enough gifts, none of which is ever skipped or evicted, make a batch due.
  lemma FireOffline(cfg: Settings, start: real) returns (actions: seq<Action>)
    requires cfg.maxAttempts >= 1
    ensures |actions| >= 1 && actions[0] == Dropped && FiredOffline(Run(cfg, start, actions))
  {
    var piled := PileUp(cfg, start, Max(1, cfg.batchMinEvents));
    var s := Run(cfg, start, piled);
    actions := piled + [PollSocial];
    RunSnoc(cfg, start, piled, PollSocial);
    Snoc(s.log, Fired(Social, s.now), start, cfg.idleSeconds as real);
  }

  /** Unlike an abort, a reset can erase the flag of a turn nothing has answered, and which left the plugin:
      the pollers keep firing between a drop and the next connection. */
  lemma ResetCanEraseAFreshTurn(cfg: Settings, start: real) returns (actions: seq<Action>)
    requires cfg.maxAttempts >= 2
    ensures ErasesFresh(cfg, start, actions)
    ensures var s := Run(cfg, start, actions);
            s.social == Asleep && s.flags.inFlight && !Step(cfg, s, Connected).flags.inFlight
  {
    var fired := FireOffline(cfg, start);
    var sent := fired + [SocialSent];
    actions := sent + [BackoffOver];
    RunSnoc(cfg, start, fired, SocialSent);
    RunSnoc(cfg, start, sent, BackoffOver);
    AfterTheDrop(cfg, start);
    assert actions[..1] == [Dropped];
    RunConsistent(cfg, start, actions);
    var log := Run(cfg, start, actions).log;
    assert OfflineBefore(Run(cfg, start, actions[..1]), log, |log| - 1);
  }

  lemma NeverDialsAgain(cfg: Settings, start: real, actions: seq<Action>)
    requires cfg.maxAttempts <= 1
    ensures Run(cfg, start, actions).down != Dialing
  {
    RunConsistent(cfg, start, actions);
  }

  /** When the comment on the reset is true: it spares every turn fired since the drop, in every schedule,
      exactly if the session never redials. */
  lemma ResetSparesFreshTurnsExactly(cfg: Settings, start: real)
    ensures (forall actions :: !ErasesFresh(cfg, start, actions)) <==> cfg.maxAttempts <= 1
  {
    if cfg.maxAttempts <= 1 {
      forall actions ensures !ErasesFresh(cfg, start, actions) {
        NeverDialsAgain(cfg, start, actions);
      }
    } else {
      var actions := ResetCanEraseAFreshTurn(cfg, start);
    }
  }

  lemma {:induction false} DeadStaysSilent(cfg: Settings, s: Sys, more: seq<Action>)
    requires s.social == Dead
    ensures var t := Continue(cfg, s, more); t.social == Dead && SocialTurns(t.log) == SocialTurns(s.log)
  {
    if more != [] {
      var t, a := Continue(cfg, s, more[..|more| - 1]), more[|more| - 1];
      DeadStaysSilent(cfg, s, more[..|more| - 1]);
      DeadStepIsSilent(cfg, t, a);
    }
  }

  lemma DeadStepIsSilent(cfg: Settings, s: Sys, a: Action)
    requires s.social == Dead
    ensures Step(cfg, s, a).social == Dead && SocialTurns(Step(cfg, s, a).log) == SocialTurns(s.log)
  {
    hide Enqueued, SplitTurn;
    if a.Arrive? {
      SocialTurnsSnoc(s.log, Accepted(s.now));
    } else if a.PollIdle? {
      SocialTurnsSnoc(s.log, Fired(Idle, s.now));
    } else {
      DownStepFiresNothing(cfg, s, a);
    }
  }

  /** And a reset can come too late: a session that may redial can end up connected, quiet and with nothing in
      flight, and yet never answer a social event again, because the turn it sent into the dropped connection
      raised. */
  lemma ResetCanComeTooLate(cfg: Settings, start: real) returns (actions: seq<Action>)
    requires cfg.maxAttempts >= 2
    ensures var s := Run(cfg, start, actions);
            && s.down == Pumping && !s.cancelled && !s.flags.inFlight && !s.flags.voiceActive
            && forall more :: SocialTurns(Continue(cfg, s, more).log) == SocialTurns(s.log)
  {
    var fired := FireOffline(cfg, start);
    var raised := fired + [SocialSendFailed];
    var dialing := raised + [BackoffOver];
    actions := dialing + [Connected];
    RunSnoc(cfg, start, fired, SocialSendFailed);
    RunSnoc(cfg, start, raised, BackoffOver);
    RunSnoc(cfg, start, dialing, Connected);
    var s := Run(cfg, start, actions);
    forall more ensures SocialTurns(Continue(cfg, s, more).log) == SocialTurns(s.log) {
      DeadStaysSilent(cfg, s, more);
    }
  }
}
