/** The session and its TikTok connection joined by the raw event queue (api/ws.py): what the ingestor puts in at
    one end the session's drain takes out at the other, notes in the viewer memory, and hands to the scheduler. */
module Pipeline {
  import opened Wrappers
  import opened Schemas
  import Scheduler
  import S = Session
  import I = Ingestor
  import M = Memory
  import P = SchedulerProofs
  import SP = SessionProofs
  import IP = IngestorProofs

  datatype Config = Config(session: S.Settings, ingestor: I.Config, owner: string, memoryId: string, limit: int)

  // A drained event with the note it was given.
  datatype Noted = Noted(event: SocialEvent, at: real, fault: M.Fault, note: Option<seq<M.NotePart>>)

  // `drained` events of the ingestor's queue have been taken out; `book` is the log of the viewer memory, which
  // all sessions share.
  datatype Sys = Sys(session: S.Sys, ingestor: I.Sys, drained: nat, book: seq<M.Entry>, notes: seq<Noted>)

  // Drain is one turn of the drain's loop, at a wall-clock time and with the memory failing or not; the session's
  // arrivals come from nowhere else. Elsewhere is what other sessions and clean-ups do to the memory.
  datatype Action =
    | OfSession(s: S.Action)
    | OfIngestor(i: I.Action)
    | Drain(at: real, fault: M.Fault)
    | Elsewhere(entry: M.Entry)

  function Begin(cfg: Config, start: real): Sys {
    Sys(S.Begin(cfg.session, start), I.Begin(), 0, [], [])
  }

  function KeyFor(cfg: Config, viewer: string): M.Key { M.KeyOf(cfg.owner, cfg.memoryId, viewer) }

  function Remember(cfg: Config, s: Sys, e: SocialEvent, at: real, fault: M.Fault): Sys {
    var key := KeyFor(cfg, e.userId);
    s.(book := s.book + M.Records(key, e, at, fault),
    notes := s.notes + [Noted(e, at, fault, M.NoteFor(cfg.limit, s.book, key, fault))])
  }

  function Step(cfg: Config, s: Sys, a: Action): Sys {
    match a
    case OfSession(sa) => if sa.Arrive? then s else s.(session := S.Step(cfg.session, s.session, sa))
    case OfIngestor(ia) => s.(ingestor := I.Step(cfg.ingestor, s.ingestor, ia))
    case Drain(at, fault) =>
      if !CanDrain(s) then s else
      var e := s.ingestor.queue[s.drained];
      Remember(cfg, s, e, at, fault)
      .(session := S.Step(cfg.session, s.session, S.Arrive(e)), drained := s.drained + 1)
    case Elsewhere(entry) => s.(book := s.book + [entry])
  }

  predicate CanDrain(s: Sys) { !s.session.cancelled && s.drained < |s.ingestor.queue| }

  function Run(cfg: Config, start: real, actions: seq<Action>): Sys {
    if actions == [] then Begin(cfg, start)
    else Step(cfg, Run(cfg, start, actions[..|actions| - 1]), actions[|actions| - 1])
  }

  // ---------------------------------------------------------------- the two halves

  function SessionStep(s: Sys, a: Action): seq<S.Action> {
    match a
    case OfSession(sa) => if sa.Arrive? then [] else [sa]
    case OfIngestor(_) | Elsewhere(_) => []
    case Drain(_, _) => if CanDrain(s) then [S.Arrive(s.ingestor.queue[s.drained])] else []
  }

  function SessionPart(cfg: Config, start: real, actions: seq<Action>): seq<S.Action> {
    if actions == [] then [] else
    var before := actions[..|actions| - 1];
    SessionPart(cfg, start, before) + SessionStep(Run(cfg, start, before), actions[|actions| - 1])
  }

  function IngestorPart(actions: seq<Action>): seq<I.Action> {
    if actions == [] then [] else
    var a := actions[|actions| - 1];
    IngestorPart(actions[..|actions| - 1]) + if a.OfIngestor? then [a.i] else []
  }

  lemma RunSnoc(cfg: Config, start: real, before: seq<Action>, a: Action)
    ensures Run(cfg, start, before + [a]) == Step(cfg, Run(cfg, start, before), a)
    ensures SessionPart(cfg, start, before + [a])
            == SessionPart(cfg, start, before) + SessionStep(Run(cfg, start, before), a)
    ensures IngestorPart(before + [a]) == IngestorPart(before) + if a.OfIngestor? then [a.i] else []
  {
    assert (before + [a])[..|before|] == before;
  }

  lemma SessionAdvances(cfg: Config, start: real, s: Sys, part: seq<S.Action>, a: Action)
    requires s.session == S.Run(cfg.session, start, part)
    ensures Step(cfg, s, a).session == S.Run(cfg.session, start, part + SessionStep(s, a))
  {
    hide S.Step;
    if SessionStep(s, a) == [] {
      assert part + SessionStep(s, a) == part;
    } else {
      SP.RunSnoc(cfg.session, start, part, SessionStep(s, a)[0]);
    }
  }

  lemma IngestorAdvances(cfg: Config, s: Sys, part: seq<I.Action>, a: Action)
    requires s.ingestor == I.Run(cfg.ingestor, part)
    ensures Step(cfg, s, a).ingestor == I.Run(cfg.ingestor, part + if a.OfIngestor? then [a.i] else [])
  {
    if a.OfIngestor? {
      IP.RunSnoc(cfg.ingestor, part, a.i);
    } else {
      assert part + [] == part;
    }
  }

  /** Joined or not, each half runs as if alone: so every theorem about sessions and every theorem about
      ingestors holds of it. */
  lemma {:induction false} HalvesRunAlone(cfg: Config, start: real, actions: seq<Action>)
    ensures var s := Run(cfg, start, actions);
            && s.session == S.Run(cfg.session, start, SessionPart(cfg, start, actions))
            && s.ingestor == I.Run(cfg.ingestor, IngestorPart(actions))
  {
    if actions != [] {
      var before, a := actions[..|actions| - 1], actions[|actions| - 1];
      HalvesRunAlone(cfg, start, before);
      SessionAdvances(cfg, start, Run(cfg, start, before), SessionPart(cfg, start, before), a);
      IngestorAdvances(cfg, Run(cfg, start, before), IngestorPart(before), a);
    }
  }

  // ---------------------------------------------------------------- order

  // Likes and shares a session is configured to skip never reach its scheduler.
  function Kept(cfg: S.Settings, es: seq<SocialEvent>): seq<SocialEvent> {
    if es == [] then []
    else Kept(cfg, es[..|es| - 1]) + if S.Skipped(cfg, es[|es| - 1]) then [] else [es[|es| - 1]]
  }

  // What the session's scheduler has been through.
  function Ledger(cfg: Config, start: real, actions: seq<Action>): P.Ledger {
    P.Play(cfg.session.scheduler, SP.Ops(cfg.session, start, SessionPart(cfg, start, actions)))
  }

  // The arrivals a session step brings.
  function Brought(cfg: S.Settings, s: S.Sys, a: S.Action): seq<SocialEvent> {
    if a.Arrive? && !s.cancelled && !S.Skipped(cfg, a.event) then [a.event] else []
  }

  lemma PlayedArrivals(cfg: S.Settings, ops: seq<P.Op>, s: S.Sys, a: S.Action)
    ensures P.Play(cfg.scheduler, ops + SP.OpsOf(cfg, s, a)).arrived
            == P.Play(cfg.scheduler, ops).arrived + P.AllArrived(cfg.scheduler, Brought(cfg, s, a))
  {
    hide Scheduler.Enqueued, Scheduler.Victims, S.Step;
    var more := SP.OpsOf(cfg, s, a);
    if more == [] {
      assert ops + more == ops;
    } else {
      SP.PlaySnoc(cfg.scheduler, ops, more[0]);
    }
  }

  lemma LedgerSnoc(cfg: S.Settings, start: real, acts: seq<S.Action>, a: S.Action)
    ensures P.Play(cfg.scheduler, SP.Ops(cfg, start, acts + [a])).arrived
            == P.Play(cfg.scheduler, SP.Ops(cfg, start, acts)).arrived
               + P.AllArrived(cfg.scheduler, Brought(cfg, S.Run(cfg, start, acts), a))
  {
    SP.OpsSnoc(cfg, start, acts, a);
    PlayedArrivals(cfg, SP.Ops(cfg, start, acts), S.Run(cfg, start, acts), a);
  }

  ghost predicate InOrder(cfg: Config, s: Sys, arrived: seq<Scheduler.Scored>) {
    && s.drained <= |s.ingestor.queue|
    && arrived == P.AllArrived(cfg.session.scheduler, Kept(cfg.session, s.ingestor.queue[..s.drained]))
  }

  // What a step adds to the scheduler's arrivals.
  function StepBrings(cfg: Config, s: Sys, a: Action): seq<Scheduler.Scored> {
    if a.Drain? && CanDrain(s) && !S.Skipped(cfg.session, s.ingestor.queue[s.drained]) then
      [Scheduler.Arrived(cfg.session.scheduler, s.ingestor.queue[s.drained])]
    else []
  }

  lemma StepKeepsOrder(cfg: Config, s: Sys, arrived: seq<Scheduler.Scored>, a: Action)
    requires InOrder(cfg, s, arrived)
    ensures InOrder(cfg, Step(cfg, s, a), arrived + StepBrings(cfg, s, a))
  {
    match a {
      case OfSession(_) =>
      case OfIngestor(ia) =>
        IP.StepOnlyAppends(cfg.ingestor, s.ingestor, ia);
        assert I.Step(cfg.ingestor, s.ingestor, ia).queue[..s.drained] == s.ingestor.queue[..s.drained];
      case Drain(_, _) =>
        if CanDrain(s) {
          KeptSnoc(cfg, s.ingestor.queue, s.drained);
        }
      case Elsewhere(_) =>
    }
  }

  lemma KeptSnoc(cfg: Config, queue: seq<SocialEvent>, n: nat)
    requires n < |queue|
    ensures var sched := cfg.session.scheduler;
            P.AllArrived(sched, Kept(cfg.session, queue[..n + 1]))
            == P.AllArrived(sched, Kept(cfg.session, queue[..n]))
               + if S.Skipped(cfg.session, queue[n]) then [] else [Scheduler.Arrived(sched, queue[n])]
  {
    assert queue[..n + 1][..n] == queue[..n];
  }

  lemma BroughtIsBrings(cfg: Config, s: Sys, a: Action)
    ensures SessionStep(s, a) == [] ==> StepBrings(cfg, s, a) == []
    ensures SessionStep(s, a) != [] ==>
              P.AllArrived(cfg.session.scheduler, Brought(cfg.session, s.session, SessionStep(s, a)[0]))
              == StepBrings(cfg, s, a)
  {
  }

  lemma LedgerAdvances(cfg: Config, start: real, before: seq<Action>, a: Action)
    ensures Ledger(cfg, start, before + [a]).arrived
            == Ledger(cfg, start, before).arrived + StepBrings(cfg, Run(cfg, start, before), a)
  {
    var s := Run(cfg, start, before);
    var part, part' := SessionPart(cfg, start, before), SessionPart(cfg, start, before + [a]);
    var step := SessionStep(s, a);
    assert part' == part + step by { RunSnoc(cfg, start, before, a); }
    assert s.session == S.Run(cfg.session, start, part) by { HalvesRunAlone(cfg, start, before); }
    BroughtIsBrings(cfg, s, a);
    if step == [] {
      assert part' == part;
    } else {
      assert part' == part + [step[0]];
      LedgerSnoc(cfg.session, start, part, step[0]);
    }
  }

  lemma QueueIsPulled(cfg: Config, start: real, actions: seq<Action>)
    ensures var s := Run(cfg, start, actions); s.ingestor.queue == IP.AllPulled(s.ingestor.clients)
  {
    HalvesRunAlone(cfg, start, actions);
    IP.RunInv(cfg.ingestor, IngestorPart(actions));
  }

  lemma NothingDrainedYet(cfg: Config, start: real)
    ensures InOrder(cfg, Run(cfg, start, []), Ledger(cfg, start, []).arrived)
  {
  }

  /** First in, first out, end to end: across any starts, stops, drops and cancellations, the scheduler has
      received exactly the events its TikTok clients delivered, in the order they delivered them, up to the
      point the drain has reached, without the skipped likes and shares. */
  lemma {:induction false} DrainedInOrder(cfg: Config, start: real, actions: seq<Action>)
    ensures InOrder(cfg, Run(cfg, start, actions), Ledger(cfg, start, actions).arrived)
    ensures var s := Run(cfg, start, actions); s.ingestor.queue == IP.AllPulled(s.ingestor.clients)
  {
    hide Step, InOrder, Ledger;
    QueueIsPulled(cfg, start, actions);
    if actions != [] {
      var before, a := actions[..|actions| - 1], actions[|actions| - 1];
      DrainedInOrder(cfg, start, before);
      assert actions == before + [a];
      LedgerAdvances(cfg, start, before, a);
      StepKeepsOrder(cfg, Run(cfg, start, before), Ledger(cfg, start, before).arrived, a);
    } else {
      NothingDrainedYet(cfg, start);
    }
  }

  /** Nothing goes missing, end to end: every event the clients delivered is still to be drained, or is a like
      or share skipped by configuration, or was spoken, counted as overflow, evicted, or waits in the
      scheduler, once each; and what was evicted is neither a gift nor a mention. */
  lemma EverythingIsAccountedFor(cfg: Config, start: real, actions: seq<Action>)
    ensures var s, l := Run(cfg, start, actions), Ledger(cfg, start, actions);
            && s.drained <= |s.ingestor.queue| && s.ingestor.queue == IP.AllPulled(s.ingestor.clients)
            && multiset(P.AllArrived(cfg.session.scheduler, Kept(cfg.session, s.ingestor.queue[..s.drained])))
               == multiset(l.spoken) + multiset(l.omitted) + multiset(l.evicted) + multiset(s.session.queue)
            && P.SpokenEvents(l.turns) == Scheduler.Events(l.spoken) && SP.SocialTurns(s.session.log) == |l.turns|
            && forall e :: e in l.evicted ==>
                 e.event.kind != Gift && !Scheduler.Mentions(cfg.session.scheduler, e.event)
  {
    var part := SessionPart(cfg, start, actions);
    var ops := SP.Ops(cfg.session, start, part);
    DrainedInOrder(cfg, start, actions);
    HalvesRunAlone(cfg, start, actions);
    SP.SessionRunsTheScheduler(cfg.session, start, part);
    P.Conservation(cfg.session.scheduler, ops);
    P.GiftsAndMentionsAreNeverEvicted(cfg.session.scheduler, ops);
  }

  // ---------------------------------------------------------------- which events get through

  // Comments, gifts and follows always; likes and shares unless they are to be skipped.
  predicate GetsThrough(e: SocialEvent, skipLikeShare: bool) {
    e.kind == Comment || e.kind == Gift || e.kind == Follow || !skipLikeShare
  }

  function Through(es: seq<SocialEvent>, skipLikeShare: bool): seq<SocialEvent> {
    if es == [] then []
    else (if GetsThrough(es[0], skipLikeShare) then [es[0]] else []) + Through(es[1..], skipLikeShare)
  }

  lemma {:induction false} ThroughSnoc(es: seq<SocialEvent>, e: SocialEvent, skip: bool)
    ensures Through(es + [e], skip) == Through(es, skip) + if GetsThrough(e, skip) then [e] else []
  {
    if es == [] {
      assert es + [e] == [e] && [e][1..] == [];
    } else {
      ThroughSnoc(es[1..], e, skip);
      assert (es + [e])[1..] == es[1..] + [e];
    }
  }

  lemma {:induction false} KeptIsThrough(cfg: S.Settings, es: seq<SocialEvent>)
    ensures Kept(cfg, es) == Through(es, cfg.skipLikeShare)
  {
    if es != [] {
      KeptIsThrough(cfg, es[..|es| - 1]);
      ThroughSnoc(es[..|es| - 1], es[|es| - 1], cfg.skipLikeShare);
      assert es == es[..|es| - 1] + [es[|es| - 1]];
    }
  }

  /** By kind: in every joint schedule the scheduler has received exactly the comments, gifts and follows drained so
      far, and the likes and shares exactly if they are not to be skipped, in drain order. */
  lemma ArrivalsByKind(cfg: Config, start: real, actions: seq<Action>)
    ensures var s := Run(cfg, start, actions);
            && s.drained <= |s.ingestor.queue|
            && Ledger(cfg, start, actions).arrived
               == P.AllArrived(cfg.session.scheduler, Through(s.ingestor.queue[..s.drained], cfg.session.skipLikeShare))
  {
    hide Run, Ledger, Kept, Through;
    DrainedInOrder(cfg, start, actions);
    KeptIsThrough(cfg.session, Run(cfg, start, actions).ingestor.queue[..Run(cfg, start, actions).drained]);
  }

  /** One turn of the drain takes the next event, if there is one: an event that gets through is enqueued and counts as
      activity; a skipped like or share leaves the queue, the clocks and the flags as they were. */
  lemma DrainTakesTheNext(cfg: Config, s: Sys, at: real, fault: M.Fault)
    requires !s.session.cancelled && s.drained < |s.ingestor.queue|
    ensures var e, s' := s.ingestor.queue[s.drained], Step(cfg, s, Drain(at, fault));
            && s'.drained == s.drained + 1 && |s'.notes| == |s.notes| + 1 && s'.notes[|s.notes|].event == e
            && (GetsThrough(e, cfg.session.skipLikeShare) ==>
                  && s'.session.queue == Scheduler.Enqueued(cfg.session.scheduler, s.session.queue, e)
                  && s'.session.flags.lastActivity == s.session.now && s'.session.flags.pendingSince.Some?)
            && (!GetsThrough(e, cfg.session.skipLikeShare) ==> s'.session == s.session)
  {
    hide Scheduler.Enqueued, Scheduler.SplitTurn;
  }

  // ---------------------------------------------------------------- the viewer memory

  predicate WasRecorded(n: Noted) { n.fault != M.LookupFails && n.fault != M.WriteFails }

  // What this session has seen of a viewer, in the order of the drain.
  function SeenOf(notes: seq<Noted>, viewer: string): seq<M.Sighting> {
    if notes == [] then [] else
    var n := notes[|notes| - 1];
    SeenOf(notes[..|notes| - 1], viewer)
    + if n.event.userId == viewer && WasRecorded(n) then [M.Sighting(n.event, n.at)] else []
  }

  // The note that a history calls for.
  function NoteFrom(limit: int, h: seq<M.Sighting>): Option<seq<M.NotePart>> {
    if h == [] then None else M.NoteOf(Some(M.Summary(limit, h)))
  }

  // Nobody else writes to this session's memory bucket, and nothing is cleaned up while it runs.
  ghost predicate Undisturbed(cfg: Config, actions: seq<Action>) {
    forall a :: a in actions && a.Elsewhere? ==>
      && a.entry.Recorded?
      && (a.entry.key.owner != cfg.owner || a.entry.key.memoryId != KeyFor(cfg, "").memoryId)
  }

  ghost predicate BookIsTheStream(cfg: Config, s: Sys) {
    forall viewer: string :: M.History(s.book, KeyFor(cfg, viewer)) == SeenOf(s.notes, viewer)
  }

  ghost predicate NotesAreTheStream(cfg: Config, s: Sys) {
    && |s.notes| == s.drained <= |s.ingestor.queue|
    && forall i :: 0 <= i < s.drained ==>
         && s.notes[i].event == s.ingestor.queue[i]
         && s.notes[i].note == if s.notes[i].fault == M.NoFault
                               then NoteFrom(cfg.limit, SeenOf(s.notes[..i], s.notes[i].event.userId)) else None
  }

  lemma SeenSnoc(notes: seq<Noted>, n: Noted, viewer: string)
    ensures SeenOf(notes + [n], viewer)
            == SeenOf(notes, viewer)
               + if n.event.userId == viewer && WasRecorded(n) then [M.Sighting(n.event, n.at)] else []
  {
    assert (notes + [n])[..|notes|] == notes;
  }

  lemma ElsewhereKeepsBook(cfg: Config, s: Sys, entry: M.Entry)
    requires BookIsTheStream(cfg, s) && entry.Recorded?
    requires entry.key.owner != cfg.owner || entry.key.memoryId != KeyFor(cfg, "").memoryId
    ensures BookIsTheStream(cfg, s.(book := s.book + [entry]))
  {
    forall viewer: string ensures M.History(s.book + [entry], KeyFor(cfg, viewer)) == SeenOf(s.notes, viewer) {
      M.HistorySnoc(s.book, entry, KeyFor(cfg, viewer));
    }
  }

  lemma RememberKeepsBook(cfg: Config, s: Sys, e: SocialEvent, at: real, fault: M.Fault)
    requires BookIsTheStream(cfg, s)
    ensures BookIsTheStream(cfg, Remember(cfg, s, e, at, fault))
  {
    var s' := Remember(cfg, s, e, at, fault);
    forall viewer: string ensures M.History(s'.book, KeyFor(cfg, viewer)) == SeenOf(s'.notes, viewer) {
      SeenSnoc(s.notes, s'.notes[|s.notes|], viewer);
      if M.Records(KeyFor(cfg, e.userId), e, at, fault) == [] {
        assert s'.book == s.book;
      } else {
        M.HistorySnoc(s.book, M.Recorded(KeyFor(cfg, e.userId), e, at), KeyFor(cfg, viewer));
      }
    }
  }

  lemma NotesGrow(cfg: Config, s: Sys, s': Sys, n: Noted)
    requires NotesAreTheStream(cfg, s) && s.drained < |s.ingestor.queue|
    requires s'.ingestor.queue == s.ingestor.queue && s'.drained == s.drained + 1 && s'.notes == s.notes + [n]
    requires n.event == s.ingestor.queue[s.drained]
    requires n.note == if n.fault == M.NoFault then NoteFrom(cfg.limit, SeenOf(s.notes, n.event.userId)) else None
    ensures NotesAreTheStream(cfg, s')
  {
    assert s'.notes[..s.drained] == s.notes;
    forall i | 0 <= i < s.drained ensures s'.notes[..i] == s.notes[..i] {
    }
  }

  lemma StepRemembers(cfg: Config, s: Sys, a: Action)
    requires BookIsTheStream(cfg, s) && NotesAreTheStream(cfg, s) && Undisturbed(cfg, [a])
    ensures BookIsTheStream(cfg, Step(cfg, s, a)) && NotesAreTheStream(cfg, Step(cfg, s, a))
  {
    assert a in [a];
    match a {
      case OfSession(_) =>
      case OfIngestor(ia) => IP.StepOnlyAppends(cfg.ingestor, s.ingestor, ia);
      case Drain(at, fault) =>
        if CanDrain(s) {
          var e := s.ingestor.queue[s.drained];
          RememberKeepsBook(cfg, s, e, at, fault);
          NotesGrow(cfg, s, Step(cfg, s, a), Remember(cfg, s, e, at, fault).notes[|s.notes|]);
        }
      case Elsewhere(entry) => ElsewhereKeepsBook(cfg, s, entry);
    }
  }

  /** The memory along the stream: every drained event, also one that is then skipped, is remembered in drain order,
      and its note is the one that the same viewer's earlier drained events call for, those apart whose record
      the database failed to take. */
  lemma {:induction false} NotesFollowTheStream(cfg: Config, start: real, actions: seq<Action>)
    requires Undisturbed(cfg, actions)
    ensures BookIsTheStream(cfg, Run(cfg, start, actions)) && NotesAreTheStream(cfg, Run(cfg, start, actions))
  {
    if actions != [] {
      var before, a := actions[..|actions| - 1], actions[|actions| - 1];
      assert a in actions;
      NotesFollowTheStream(cfg, start, before);
      StepRemembers(cfg, Run(cfg, start, before), a);
    }
  }
}
