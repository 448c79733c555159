/** What each of the gateway's messages does, told by their names: the flags of a session in terms of speech_start,
    turn_done and aborted, and what a reply sets free. */
module MessageProofs {
  import opened Wrappers
  import opened Schemas
  import opened Scheduler
  import opened Arbitration
  import opened Session
  import opened SessionProofs

  predicate Says(e: Entry, m: Message) { e.Received? && e.message == m }

  predicate TurnOver(e: Entry) { Says(e, TurnDone) || Says(e, Message.Aborted) }

  // A speech_start was received, and since then neither a turn_done nor an aborted, nor was there a new connection.
  ghost predicate Speaking(log: seq<Entry>) {
    exists i :: 0 <= i < |log| && SpeakingSince(log, i)
  }

  ghost predicate SpeakingSince(log: seq<Entry>, i: nat)
    requires i < |log|
  {
    Says(log[i], SpeechStart) && forall k :: i < k < |log| ==> !TurnOver(log[k]) && !log[k].Reset?
  }

  // The turn fired at f has seen neither, nor the return of an abort, nor a new connection.
  ghost predicate Unanswered(log: seq<Entry>, f: nat)
    requires f < |log|
  {
    log[f].Fired? && forall k :: f < k < |log| ==> !TurnOver(log[k]) && !log[k].AbortReturned? && !log[k].Reset?
  }

  // Signs of life: an accepted event, a fired turn, or one of the three messages.
  predicate Lively(e: Entry) { e.Accepted? || e.Fired? || Says(e, SpeechStart) || TurnOver(e) }

  ghost predicate LivelyLast(log: seq<Entry>, i: nat)
    requires i < |log|
  {
    Lively(log[i]) && forall k :: i < k < |log| ==> !Lively(log[k])
  }

  lemma {:induction false} TalkingIsSpeaking(log: seq<Entry>)
    ensures Talking(log) <==> Speaking(log)
  {
    if log != [] {
      var p, e := log[..|log| - 1], log[|log| - 1];
      TalkingIsSpeaking(p);
      if Says(e, SpeechStart) {
        assert SpeakingSince(log, |log| - 1);
      } else if !TurnOver(e) && !e.Reset? {
        forall i | 0 <= i < |p| ensures SpeakingSince(p, i) <==> SpeakingSince(log, i) {
          assert p[i] == log[i];
        }
      }
    }
  }

  lemma OutstandingIsUnanswered(log: seq<Entry>)
    ensures Outstanding(log).Some? <==> exists f :: 0 <= f < |log| && Unanswered(log, f)
  {
    if Outstanding(log).Some? {
      OutstandingMeans(log);
      assert Unanswered(log, Outstanding(log).value);
    }
    if f :| 0 <= f < |log| && Unanswered(log, f) {
      UnclearedTurnIsOutstanding(log, f);
    }
  }

  lemma {:induction false} LastActivityIsLively(log: seq<Entry>, start: real)
    ensures (forall i :: 0 <= i < |log| ==> !Lively(log[i])) ==> LastActivity(log, start) == start
    ensures forall i :: 0 <= i < |log| && LivelyLast(log, i) ==> LastActivity(log, start) == EntryTime(log[i])
  {
    if log != [] {
      var p := log[..|log| - 1];
      LastActivityIsLively(p, start);
      forall i | 0 <= i < |log| && LivelyLast(log, i) ensures LastActivity(log, start) == EntryTime(log[i]) {
        if i < |p| {
          assert p[i] == log[i] && LivelyLast(p, i);
        }
      }
    }
  }

  function EntryTime(e: Entry): real {
    if e.Received? || e.Accepted? || e.Fired? then e.at else 0.0
  }

  /** The relay's flags, by name, in every state of every schedule: voice_active is up exactly while the streamer
      is speaking, social_turn_in_flight exactly while a fired turn is unanswered, and last_activity is the time of
      the latest sign of life, or of the session's start if there was none. */
  lemma FlagsByName(cfg: Settings, start: real, actions: seq<Action>)
    ensures var s := Run(cfg, start, actions);
            && (s.flags.voiceActive <==> Speaking(s.log))
            && (s.flags.inFlight <==> exists f :: 0 <= f < |s.log| && Unanswered(s.log, f))
            && ((forall i :: 0 <= i < |s.log| ==> !Lively(s.log[i])) ==> s.flags.lastActivity == start)
            && (forall i :: 0 <= i < |s.log| && LivelyLast(s.log, i) ==> s.flags.lastActivity == EntryTime(s.log[i]))
  {
    var s := Run(cfg, start, actions);
    RunConsistent(cfg, start, actions);
    TalkingIsSpeaking(s.log);
    OutstandingIsUnanswered(s.log);
    LastActivityIsLively(s.log, start);
  }

  /** Every message that is received counts, and each for what it is. */
  lemma EachMessageCounts(cfg: Settings, s: Sys, m: Message)
    requires s.down == Pumping && !s.cancelled
    ensures var s' := Step(cfg, s, Deliver(m)); var f := s.flags;
            if m == SpeechStart then
              && s'.flags == Flags(true, f.inFlight, s.now, f.pendingSince)
              && s'.log == s.log + [Received(m, s.now)] + (if f.inFlight then [AbortSent] else [])
              && s'.down == if f.inFlight then Aborting else Forwarding
            else
              && s'.flags == (if m == TurnDone || m == Message.Aborted
                              then Flags(false, false, s.now, f.pendingSince) else f)
              && s'.log == s.log + [Received(m, s.now)] && s'.down == Forwarding
  {
  }

  /** And every other thing that may happen to the down task happens to it. */
  lemma DownEventsCount(cfg: Settings, s: Sys)
    requires !s.cancelled
    ensures s.down == Aborting ==> var s' := Step(cfg, s, AbortDone);
                                   s'.log == s.log + [AbortReturned] && !s'.flags.inFlight && s'.down == Forwarding
    ensures s.down == Forwarding ==> Step(cfg, s, Forwarded) == s.(down := Pumping)
    ensures s.down == Dialing ==> var s' := Step(cfg, s, Connected);
                                  s'.log == s.log + [Reset] && s'.down == Pumping
                                  && !s'.flags.inFlight && !s'.flags.voiceActive
    ensures s.down == Dialing ==> Step(cfg, s, ConnectFailed) == s.(down := BackingOff)
    ensures s.down == BackingOff ==>
              Step(cfg, s, BackoffOver)
              == if s.attempt < cfg.maxAttempts then s.(down := Dialing, attempt := s.attempt + 1)
                 else s.(down := Stopped)
  {
  }

  lemma EndsCount(cfg: Settings, s: Sys)
    requires !s.cancelled && (s.down == Pumping || s.down == Aborting || s.down == Forwarding)
    ensures Step(cfg, s, Dropped) == s.(down := BackingOff) && Step(cfg, s, Ended) == s.(down := Stopped)
  {
  }

  lemma SendsCount(cfg: Settings, s: Sys)
    requires !s.cancelled
    ensures s.social == SendingText ==> Step(cfg, s, SocialSent) == s.(social := Asleep)
                                        && Step(cfg, s, SocialSendFailed) == s.(social := Dead)
    ensures s.idle == SendingText ==> Step(cfg, s, IdleSent) == s.(idle := Asleep)
                                      && Step(cfg, s, IdleSendFailed) == s.(idle := Dead)
  {
  }

  /** Every arriving comment, gift and follow counts, and likes and shares unless they are skipped. */
  lemma EachArrivalCounts(cfg: Settings, s: Sys, e: SocialEvent)
    requires !s.cancelled
    ensures e.kind == Comment || e.kind == Gift || e.kind == Follow || !cfg.skipLikeShare ==>
              var s' := Step(cfg, s, Arrive(e));
              && s'.log == s.log + [Accepted(s.now)] && s'.queue == Enqueued(cfg.scheduler, s.queue, e)
              && s'.flags.lastActivity == s.now && s'.flags.pendingSince.Some?
    ensures (e.kind == Like || e.kind == Share) && cfg.skipLikeShare ==> Step(cfg, s, Arrive(e)) == s
  {
    hide Enqueued, SplitTurn;
  }

  /** What a reply sets free: after a received turn_done or aborted, whatever came before it, a due batch is fired by
      the next social poll, and an idle turn by the idle poll that finds idle_seconds gone by. */
  lemma ReplyFreesThePollers(cfg: Settings, start: real, actions: seq<Action>, m: Message, wait: real)
    requires var s := Run(cfg, start, actions); s.down == Pumping && !s.cancelled
    requires (m == TurnDone || m == Message.Aborted) && wait >= 0.0
    ensures var s := Step(cfg, Run(cfg, start, actions), Deliver(m)); var later := Step(cfg, s, Wait(wait));
            && (s.social == Asleep && Due(cfg, s) ==> FiresSocial(cfg, s))
            && (s.idle == Asleep ==>
                  (Step(cfg, later, PollIdle).log == later.log + [Fired(Idle, later.now)]
                   <==> wait >= cfg.idleSeconds as real))
  {
    hide Enqueued, SplitTurn, WindowOpen;
    var s := Run(cfg, start, actions);
    var replied := actions + [Deliver(m)];
    EachMessageCounts(cfg, s, m);
    RunSnoc(cfg, start, actions, Deliver(m));
    var t := Run(cfg, start, replied);
    RunConsistent(cfg, start, replied);
    TalkingMeans(t.log);
    if t.social == Asleep {
      SocialFiresExactly(cfg, start, replied);
    }
  }
}
