/** The registry of live sessions (registry.py) and the life of a connection around it (api/ws.py). */
module Registry {
  import opened Wrappers

  /** Compared by identity only. Its scheduler and ingestor play no part in ownership. */
  class LivehostSession {
    const userId: Option<string>

    constructor (userId: Option<string>)
      ensures this.userId == userId
    {
      this.userId := userId;
    }
  }

  type Table = map<string, LivehostSession>

  predicate MayClaim(t: Table, id: string, session: LivehostSession) {
    id in t ==> t[id].userId == session.userId
  }

  function Claimed(t: Table, id: string, session: LivehostSession): Table {
    if MayClaim(t, id, session) then t[id := session] else t
  }

  predicate Holds(t: Table, id: string, session: LivehostSession) {
    id in t && t[id] == session
  }

  function Released(t: Table, id: string, session: LivehostSession): Table {
    if Holds(t, id, session) then t - {id} else t
  }

  class LivehostSessionRegistry {
    var sessions: Table

    constructor ()
      ensures sessions == map[]
    {
      sessions := map[];
    }

    method Claim(id: string, session: LivehostSession) returns (ok: bool)
      modifies this
      ensures ok <==> MayClaim(old(sessions), id, session)
      ensures sessions == Claimed(old(sessions), id, session)
    {
      var existing := Get(id);
      if existing != None && existing.value.userId != session.userId {
        return false;
      }
      sessions := sessions[id := session];
      ok := true;
    }

    function Get(id: string): (r: Option<LivehostSession>)
      reads this
      ensures r.Some? <==> id in sessions
      ensures r.Some? ==> r.value == sessions[id]
    {
      if id in sessions then Some(sessions[id]) else None
    }

    method Release(id: string, session: LivehostSession) returns (removed: bool)
      modifies this
      ensures removed <==> Holds(old(sessions), id, session)
      ensures sessions == Released(old(sessions), id, session)
    {
      var existing := Get(id);
      if existing == Some(session) {
        sessions := sessions - {id};
        return true;
      }
      removed := false;
    }
  }
}

/** Any number of connections sharing one registry. Each runs the handler of api/ws.py; a step is the stretch
    between two of its awaits, and the steps of different connections interleave in any order. */
module Connections {
  import opened Wrappers
  import opened Registry

  datatype Connection = Connection(id: string, session: LivehostSession)

  // Where a connection's handler is suspended.
  datatype Phase = NotYet | Connecting | Serving | AwaitingTasks | StoppingIngestor | ClosingUpstream | Gone

  datatype Entry =
    | Won(c: nat)
    | Refused(c: nat)
    | LetGo(c: nat)
    | SetupRaised(c: nat)
    | CancelledAt(c: nat, phase: Phase)

  datatype Sys = Sys(table: Table, phases: seq<Phase>, log: seq<Entry>)

  datatype Action =
    | Arrive(c: nat)            // claim, set up, then await upstream.connect()
    | SetupFails(c: nat)        // the same stretch, but something between claim and connect raises
    | UpstreamUp(c: nat)
    | UpstreamFailed(c: nat)    // an Exception from connect(): release and leave
    | BrowserGone(c: nat)       // any way out of the receive loop
    | TasksAwaited(c: nat)
    | IngestorStopped(c: nat)   // ingestor.stop() returned or raised an Exception
    | UpstreamClosed(c: nat)    // upstream.close() returned or raised an Exception: release and leave
    | Cancelled(c: nat)         // a CancelledError comes out of the await the handler is suspended at; a call
                                // that swallows it, as ingestor.stop() may, is its ordinary step instead

  ghost predicate Distinct(conns: seq<Connection>) {
    forall c, d :: 0 <= c < d < |conns| ==> conns[c].session != conns[d].session
  }

  function Begin(conns: seq<Connection>): Sys {
    Sys(map[], seq(|conns|, _ => NotYet), [])
  }

  function MoveTo(s: Sys, c: nat, phase: Phase): (s': Sys)
    requires c < |s.phases|
    ensures |s'.phases| == |s.phases|
  {
    s.(phases := s.phases[c := phase])
  }

  // The claim, after which the handler is at `phase`.
  function Claim(conns: seq<Connection>, s: Sys, c: nat, phase: Phase): (s': Sys)
    requires c < |conns| == |s.phases|
    ensures |s'.phases| == |s.phases|
  {
    var id, session := conns[c].id, conns[c].session;
    if MayClaim(s.table, id, session) then
      MoveTo(s, c, phase).(table := Claimed(s.table, id, session), log := s.log + [Won(c)])
    else MoveTo(s, c, Gone).(log := s.log + [Refused(c)])
  }

  function Leave(conns: seq<Connection>, s: Sys, c: nat): (s': Sys)
    requires c < |conns| == |s.phases|
    ensures |s'.phases| == |s.phases|
  {
    MoveTo(s, c, Gone).(table := Released(s.table, conns[c].id, conns[c].session), log := s.log + [LetGo(c)])
  }

  // What a CancelledError does to the handler: the receive loop is inside the `try` whose `finally` tears down,
  // the wait for the tasks catches it and goes on, and the other awaits are guarded against Exception only.
  function Unwound(p: Phase): Phase {
    match p
    case NotYet => NotYet
    case Serving | AwaitingTasks => AwaitingTasks
    case Connecting | StoppingIngestor | ClosingUpstream | Gone => Gone
  }

  function Step(conns: seq<Connection>, s: Sys, a: Action): (s': Sys)
    requires |conns| == |s.phases|
    ensures |s'.phases| == |s.phases|
  {
    if a.c >= |conns| then s else
    match (a, s.phases[a.c])
    case (Arrive(c), NotYet) => Claim(conns, s, c, Connecting)
    case (SetupFails(c), NotYet) =>
      var claimed := Claim(conns, s, c, Gone);
      if MayClaim(s.table, conns[c].id, conns[c].session) then claimed.(log := claimed.log + [SetupRaised(c)])
      else claimed
    case (UpstreamUp(c), Connecting) => MoveTo(s, c, Serving)
    case (UpstreamFailed(c), Connecting) => Leave(conns, s, c)
    case (BrowserGone(c), Serving) => MoveTo(s, c, AwaitingTasks)
    case (TasksAwaited(c), AwaitingTasks) => MoveTo(s, c, StoppingIngestor)
    case (IngestorStopped(c), StoppingIngestor) => MoveTo(s, c, ClosingUpstream)
    case (UpstreamClosed(c), ClosingUpstream) => Leave(conns, s, c)
    case (Cancelled(c), p) =>
      if Suspended(p) then MoveTo(s, c, Unwound(p)).(log := s.log + [CancelledAt(c, p)]) else s
    case (_, _) => s
  }

  predicate Suspended(p: Phase) { p != NotYet && p != Gone }

  function Run(conns: seq<Connection>, actions: seq<Action>): (s: Sys)
    ensures |s.phases| == |conns|
  {
    if actions == [] then Begin(conns) else Step(conns, Run(conns, actions[..|actions| - 1]), actions[|actions| - 1])
  }

  // ---------------------------------------------------------------- who should be on file

  function LatestClaim(conns: seq<Connection>, log: seq<Entry>, id: string): (r: Option<nat>)
    ensures r.Some? ==> r.value < |conns| && conns[r.value].id == id && Won(r.value) in log
  {
    if log == [] then None else
    var e := log[|log| - 1];
    if e.Won? && e.c < |conns| && conns[e.c].id == id then Some(e.c)
    else LatestClaim(conns, log[..|log| - 1], id)
  }

  ghost predicate OnFile(conns: seq<Connection>, s: Sys, id: string) {
    var holder := LatestClaim(conns, s.log, id);
    && (id in s.table <==> holder.Some? && LetGo(holder.value) !in s.log)
    && (id in s.table ==> s.table[id] == conns[holder.value].session)
  }

  // Raised in its set-up, or cancelled while it awaited connect(), ingestor.stop() or upstream.close().
  predicate CutOff(log: seq<Entry>, c: nat) {
    || SetupRaised(c) in log || CancelledAt(c, Connecting) in log
    || CancelledAt(c, StoppingIngestor) in log || CancelledAt(c, ClosingUpstream) in log
  }

  ghost predicate Tracked(s: Sys, c: nat)
    requires c < |s.phases|
  {
    && (s.phases[c] == NotYet ==> Won(c) !in s.log)
    && (Suspended(s.phases[c]) ==> Won(c) in s.log)
    && (s.phases[c] != Gone ==> LetGo(c) !in s.log && !CutOff(s.log, c))
    && (s.phases[c] == Gone && Won(c) in s.log ==> (LetGo(c) in s.log <==> !CutOff(s.log, c)))
  }

  ghost predicate Inv(conns: seq<Connection>, s: Sys) {
    && |s.phases| == |conns|
    && (forall id :: OnFile(conns, s, id))
    && (forall c :: 0 <= c < |conns| ==> Tracked(s, c))
  }

  lemma LatestClaimSnoc(conns: seq<Connection>, log: seq<Entry>, e: Entry, id: string)
    ensures LatestClaim(conns, log + [e], id) ==
            if e.Won? && e.c < |conns| && conns[e.c].id == id then Some(e.c) else LatestClaim(conns, log, id)
  {
    assert (log + [e])[..|log|] == log;
  }

  // ---------------------------------------------------------------- each handler's own entries

  // What one handler writes about itself.
  function About(log: seq<Entry>, c: nat): set<Entry> {
    set e | e in log && e.c == c
  }

  lemma AboutSnoc(log: seq<Entry>, e: Entry, c: nat)
    ensures About(log + [e], c) == About(log, c) + if e.c == c then {e} else {}
  {
  }

  lemma TrackedByAbout(s: Sys, s': Sys, c: nat)
    requires c < |s.phases| == |s'.phases| && s'.phases[c] == s.phases[c] && About(s'.log, c) == About(s.log, c)
    requires Tracked(s, c)
    ensures Tracked(s', c)
  {
    forall e: Entry | e.c == c ensures e in s'.log <==> e in s.log {
      assert e in s'.log <==> e in About(s'.log, c);
      assert e in s.log <==> e in About(s.log, c);
    }
  }

  lemma OthersUntouched(conns: seq<Connection>, s: Sys, a: Action, c: nat)
    requires |conns| == |s.phases| && c < |conns| && a.c != c
    ensures var s' := Step(conns, s, a); s'.phases[c] == s.phases[c] && About(s'.log, c) == About(s.log, c)
  {
    var s' := Step(conns, s, a);
    if s'.log != s.log {
      AboutSnoc(s.log, s'.log[|s.log|], c);
      if a.SetupFails? {
        AboutSnoc(s.log + [Won(a.c)], SetupRaised(a.c), c);
      }
    }
  }

  lemma OwnStepTracked(conns: seq<Connection>, s: Sys, a: Action)
    requires |conns| == |s.phases| && a.c < |conns| && Tracked(s, a.c)
    ensures Tracked(Step(conns, s, a), a.c)
  {
  }

  lemma TrackedStep(conns: seq<Connection>, s: Sys, a: Action)
    requires Inv(conns, s)
    ensures forall c :: 0 <= c < |conns| ==> Tracked(Step(conns, s, a), c)
  {
    forall c | 0 <= c < |conns| ensures Tracked(Step(conns, s, a), c) {
      if a.c == c {
        OwnStepTracked(conns, s, a);
      } else {
        OthersUntouched(conns, s, a, c);
        TrackedByAbout(s, Step(conns, s, a), c);
      }
    }
  }

  // ---------------------------------------------------------------- the table

  lemma NeutralOnFile(conns: seq<Connection>, s: Sys, phases: seq<Phase>, e: Entry, id: string)
    requires OnFile(conns, s, id) && !e.Won? && !e.LetGo?
    ensures OnFile(conns, s.(phases := phases, log := s.log + [e]), id)
  {
    LatestClaimSnoc(conns, s.log, e, id);
  }

  lemma ClaimOnFile(conns: seq<Connection>, s: Sys, c: nat, phase: Phase, id: string)
    requires |conns| == |s.phases| && c < |conns| && LetGo(c) !in s.log && OnFile(conns, s, id)
    ensures OnFile(conns, Claim(conns, s, c, phase), id)
  {
    if MayClaim(s.table, conns[c].id, conns[c].session) {
      LatestClaimSnoc(conns, s.log, Won(c), id);
    } else {
      NeutralOnFile(conns, s, s.phases[c := Gone], Refused(c), id);
    }
  }

  lemma LeaveOnFile(conns: seq<Connection>, s: Sys, c: nat, id: string)
    requires |conns| == |s.phases| && c < |conns| && Distinct(conns) && OnFile(conns, s, id)
    ensures OnFile(conns, Leave(conns, s, c), id)
  {
    LatestClaimSnoc(conns, s.log, LetGo(c), id);
  }

  lemma OnFileStep(conns: seq<Connection>, s: Sys, a: Action, id: string)
    requires Distinct(conns) && Inv(conns, s)
    ensures OnFile(conns, Step(conns, s, a), id)
  {
    assert OnFile(conns, s, id);
    if a.c < |conns| {
      assert Tracked(s, a.c);
      match (a, s.phases[a.c]) {
        case (Arrive(c), NotYet) => ClaimOnFile(conns, s, c, Connecting, id);
        case (SetupFails(c), NotYet) =>
          var claimed := Claim(conns, s, c, Gone);
          ClaimOnFile(conns, s, c, Gone, id);
          NeutralOnFile(conns, claimed, claimed.phases, SetupRaised(c), id);
        case (UpstreamFailed(c), Connecting) => LeaveOnFile(conns, s, c, id);
        case (UpstreamClosed(c), ClosingUpstream) => LeaveOnFile(conns, s, c, id);
        case (Cancelled(c), p) => NeutralOnFile(conns, s, s.phases[c := Unwound(p)], CancelledAt(c, p), id);
        case (_, _) =>
      }
    }
  }

  /** Main theorem: in every interleaving of any number of connections, what is on file under an id is exactly
      the session of the latest connection that claimed it, while that one has not released, else nothing. */
  lemma {:induction false} RegistryFollowsTheClaims(conns: seq<Connection>, actions: seq<Action>)
    requires Distinct(conns)
    ensures Inv(conns, Run(conns, actions))
  {
    if actions != [] {
      var before, a := actions[..|actions| - 1], actions[|actions| - 1];
      RegistryFollowsTheClaims(conns, before);
      TrackedStep(conns, Run(conns, before), a);
      forall id ensures OnFile(conns, Run(conns, actions), id) {
        OnFileStep(conns, Run(conns, before), a, id);
      }
    }
  }

  /** No ABA: the teardown of a superseded connection, on whichever path, leaves the table untouched. */
  lemma SupersededTeardownRemovesNothing(conns: seq<Connection>, actions: seq<Action>, a: Action)
    requires Distinct(conns) && a.c < |conns| && !a.Arrive? && !a.SetupFails?
    requires LatestClaim(conns, Run(conns, actions).log, conns[a.c].id) != Some(a.c)
    ensures Step(conns, Run(conns, actions), a).table == Run(conns, actions).table
  {
    RegistryFollowsTheClaims(conns, actions);
    SupersededIsNotOnFile(conns, Run(conns, actions), a.c);
  }

  lemma SupersededIsNotOnFile(conns: seq<Connection>, s: Sys, c: nat)
    requires Distinct(conns) && Inv(conns, s) && c < |conns| && LatestClaim(conns, s.log, conns[c].id) != Some(c)
    ensures !Holds(s.table, conns[c].id, conns[c].session)
  {
    assert OnFile(conns, s, conns[c].id);
  }

  /** No hijack: as long as an id stays on file its owner never changes; only a free id changes hands. */
  lemma {:induction false} OwnerChangesOnlyThroughAbsence(conns: seq<Connection>, s: Sys, actions: seq<Action>,
                                                          id: string)
    requires |s.phases| == |conns| && id in s.table
    requires forall n :: 0 <= n <= |actions| ==> id in Continue(conns, s, actions[..n]).table
    ensures id in Continue(conns, s, actions).table
    ensures Continue(conns, s, actions).table[id].userId == s.table[id].userId
  {
    assert actions[..|actions|] == actions;
    if actions != [] {
      var before := actions[..|actions| - 1];
      forall n | 0 <= n <= |before| ensures id in Continue(conns, s, before[..n]).table {
        assert before[..n] == actions[..n];
      }
      OwnerChangesOnlyThroughAbsence(conns, s, before, id);
    }
  }

  function Continue(conns: seq<Connection>, s: Sys, actions: seq<Action>): (s': Sys)
    requires |s.phases| == |conns|
    ensures |s'.phases| == |conns|
  {
    if actions == [] then s else Step(conns, Continue(conns, s, actions[..|actions| - 1]), actions[|actions| - 1])
  }

  // ---------------------------------------------------------------- who is let in

  // The id is held, by the log, under an owner other than this connection's.
  ghost predicate HeldByAnother(conns: seq<Connection>, log: seq<Entry>, c: nat)
    requires c < |conns|
  {
    var holder := LatestClaim(conns, log, conns[c].id);
    holder.Some? && LetGo(holder.value) !in log && conns[holder.value].session.userId != conns[c].session.userId
  }

  // Every claim of the log was judged by the owners alone.
  ghost predicate FairlyJudged(conns: seq<Connection>, log: seq<Entry>) {
    forall n :: 0 <= n < |log| ==>
      && (log[n].Refused? ==> log[n].c < |conns| && HeldByAnother(conns, log[..n], log[n].c))
      && (log[n].Won? ==> log[n].c < |conns| && !HeldByAnother(conns, log[..n], log[n].c))
  }

  /** An arrival is refused exactly if its id is on file under another owner, and then changes nothing on file;
      otherwise, be the id free or held by the same owner, its own session is on file. */
  lemma ArrivalIsJudgedByOwner(conns: seq<Connection>, s: Sys, c: nat)
    requires |conns| == |s.phases| && c < |conns| && s.phases[c] == NotYet
    ensures var id, session, s' := conns[c].id, conns[c].session, Step(conns, s, Arrive(c));
            if id in s.table && s.table[id].userId != session.userId
            then s'.log == s.log + [Refused(c)] && s'.table == s.table && s'.phases[c] == Gone
            else s'.log == s.log + [Won(c)] && s'.table == s.table[id := session] && s'.phases[c] == Connecting
    ensures var id, session, s' := conns[c].id, conns[c].session, Step(conns, s, SetupFails(c));
            if id in s.table && s.table[id].userId != session.userId
            then s'.log == s.log + [Refused(c)] && s'.table == s.table
            else s'.log == s.log + [Won(c)] + [SetupRaised(c)] && s'.table == s.table[id := session]
  {
  }

  lemma FairSnoc(conns: seq<Connection>, log: seq<Entry>, e: Entry)
    requires FairlyJudged(conns, log)
    requires e.Refused? ==> e.c < |conns| && HeldByAnother(conns, log, e.c)
    requires e.Won? ==> e.c < |conns| && !HeldByAnother(conns, log, e.c)
    ensures FairlyJudged(conns, log + [e])
  {
    hide HeldByAnother;
    var l := log + [e];
    forall n | 0 <= n < |l|
      ensures l[n].Refused? ==> l[n].c < |conns| && HeldByAnother(conns, l[..n], l[n].c)
      ensures l[n].Won? ==> l[n].c < |conns| && !HeldByAnother(conns, l[..n], l[n].c)
    {
      assert l[..n] == log[..n];
      assert log[..|log|] == log;
    }
  }

  // What the table shows of an id is what the log says of it.
  lemma HeldIsOnFile(conns: seq<Connection>, s: Sys, c: nat)
    requires Inv(conns, s) && c < |conns|
    ensures HeldByAnother(conns, s.log, c)
            <==> conns[c].id in s.table && s.table[conns[c].id].userId != conns[c].session.userId
  {
    assert OnFile(conns, s, conns[c].id);
  }

  lemma StepIsFair(conns: seq<Connection>, s: Sys, a: Action)
    requires Inv(conns, s) && FairlyJudged(conns, s.log)
    ensures FairlyJudged(conns, Step(conns, s, a).log)
  {
    hide FairlyJudged, HeldByAnother;
    var s' := Step(conns, s, a);
    if s'.log != s.log {
      var c := a.c;
      var e := s'.log[|s.log|];
      if s.phases[c] == NotYet {
        HeldIsOnFile(conns, s, c);
        ArrivalIsJudgedByOwner(conns, s, c);
      }
      assert e.c == c;
      FairSnoc(conns, s.log, e);
      if e.Won? && a.SetupFails? {
        FairSnoc(conns, s.log + [e], SetupRaised(c));
      }
    }
  }

  /** In every interleaving, whoever was refused was refused because the id's latest, unreleased claimant had
      another owner, and whoever was let in was let in because there was none. */
  lemma {:induction false} ClaimsAreFairlyJudged(conns: seq<Connection>, actions: seq<Action>)
    requires Distinct(conns)
    ensures FairlyJudged(conns, Run(conns, actions).log)
  {
    if actions != [] {
      var before := actions[..|actions| - 1];
      ClaimsAreFairlyJudged(conns, before);
      RegistryFollowsTheClaims(conns, before);
      StepIsFair(conns, Run(conns, before), actions[|actions| - 1]);
    }
  }

  // c has claimed its id, and may still be anywhere on its way out.
  lemma OnFileHasArrived(conns: seq<Connection>, s: Sys, c: nat)
    requires Inv(conns, s) && Distinct(conns) && c < |conns| && Holds(s.table, conns[c].id, conns[c].session)
    ensures s.phases[c] != NotYet
  {
    assert OnFile(conns, s, conns[c].id);
    assert Tracked(s, c);
  }

  lemma StepOfTheOlder(conns: seq<Connection>, s: Sys, act: Action, a: nat, newer: LivehostSession)
    requires |conns| == |s.phases| && a < |conns| && act.c == a && s.phases[a] != NotYet
    requires Holds(s.table, conns[a].id, newer) && newer != conns[a].session
    ensures var s' := Step(conns, s, act); s'.phases[a] != NotYet && Holds(s'.table, conns[a].id, newer)
  {
  }

  lemma {:induction false} OlderWindsDown(conns: seq<Connection>, s: Sys, more: seq<Action>, a: nat,
                                          newer: LivehostSession)
    requires |conns| == |s.phases| && a < |conns| && s.phases[a] != NotYet
    requires Holds(s.table, conns[a].id, newer) && newer != conns[a].session
    requires forall act :: act in more ==> act.c == a
    ensures var s' := Continue(conns, s, more); s'.phases[a] != NotYet && Holds(s'.table, conns[a].id, newer)
  {
    if more != [] {
      assert more[|more| - 1] in more;
      OlderWindsDown(conns, s, more[..|more| - 1], a, newer);
      StepOfTheOlder(conns, Continue(conns, s, more[..|more| - 1]), more[|more| - 1], a, newer);
    }
  }

  /** A reconnect supersedes: whatever phase the same owner's earlier connection a has reached, even one in which it
      was cut off, b arriving under its id gets in and stays on file through all of the earlier one's teardown. */
  lemma ReconnectSupersedes(conns: seq<Connection>, actions: seq<Action>, a: nat, b: nat, more: seq<Action>)
    requires Distinct(conns) && a < |conns| && b < |conns| && a != b && Run(conns, actions).phases[b] == NotYet
    requires conns[a].id == conns[b].id && conns[a].session.userId == conns[b].session.userId
    requires Holds(Run(conns, actions).table, conns[a].id, conns[a].session)
    requires forall act :: act in more ==> act.c == a
    ensures var s' := Step(conns, Run(conns, actions), Arrive(b));
            && s'.log == Run(conns, actions).log + [Won(b)]
            && Holds(Continue(conns, s', more).table, conns[b].id, conns[b].session)
  {
    var s := Run(conns, actions);
    RegistryFollowsTheClaims(conns, actions);
    OnFileHasArrived(conns, s, a);
    ArrivalIsJudgedByOwner(conns, s, b);
    assert conns[a].session != conns[b].session;
    OlderWindsDown(conns, Step(conns, s, Arrive(b)), more, a, conns[b].session);
  }

  /** Both ways out of the handler that release do release: an owner that is still on file is taken off. */
  lemma LeavingReleases(conns: seq<Connection>, s: Sys, c: nat)
    requires |conns| == |s.phases| && c < |conns| && Holds(s.table, conns[c].id, conns[c].session)
    ensures s.phases[c] == Connecting ==> Step(conns, s, UpstreamFailed(c)).table == s.table - {conns[c].id}
    ensures s.phases[c] == ClosingUpstream ==> Step(conns, s, UpstreamClosed(c)).table == s.table - {conns[c].id}
  {
  }

  // ---------------------------------------------------------------- leaks

  /** No leak while running: whatever is on file belongs to a connection still between claim and release, or
      to one that was cut off there. */
  lemma StoredSessionsAreHeld(conns: seq<Connection>, actions: seq<Action>, id: string)
    requires Distinct(conns) && id in Run(conns, actions).table
    ensures var s := Run(conns, actions);
            exists c :: && 0 <= c < |conns| && conns[c] == Connection(id, s.table[id])
                        && (Suspended(s.phases[c]) || CutOff(s.log, c))
  {
    RegistryFollowsTheClaims(conns, actions);
    var s := Run(conns, actions);
    assert OnFile(conns, s, id);
    var c := LatestClaim(conns, s.log, id).value;
    assert Tracked(s, c);
    assert conns[c] == Connection(id, s.table[id]);
  }

  /** No leak at the end: once every connection is over, an id is still on file exactly if the latest
      connection to claim it raised in its set-up or was cancelled while it awaited connect(), ingestor.stop()
      or upstream.close(). Every other way out, cancellation elsewhere included, released it. */
  lemma LeakExactlyByCutOff(conns: seq<Connection>, actions: seq<Action>, id: string)
    requires Distinct(conns)
    requires forall p :: p in Run(conns, actions).phases ==> !Suspended(p)
    ensures var s := Run(conns, actions); var last := LatestClaim(conns, s.log, id);
            id in s.table <==> last.Some? && CutOff(s.log, last.value)
  {
    RegistryFollowsTheClaims(conns, actions);
    var s := Run(conns, actions);
    assert OnFile(conns, s, id);
    var last := LatestClaim(conns, s.log, id);
    if last.Some? {
      assert Tracked(s, last.value);
      assert s.phases[last.value] in s.phases;
    }
  }

  lemma EmptyAtTheEnd(conns: seq<Connection>, actions: seq<Action>)
    requires Distinct(conns)
    requires forall p :: p in Run(conns, actions).phases ==> !Suspended(p)
    requires forall c :: 0 <= c < |conns| ==> !CutOff(Run(conns, actions).log, c)
    ensures Run(conns, actions).table == map[]
  {
    forall id ensures id !in Run(conns, actions).table {
      LeakExactlyByCutOff(conns, actions, id);
    }
  }

  lemma RunSnoc(conns: seq<Connection>, actions: seq<Action>, a: Action)
    ensures Run(conns, actions + [a]) == Step(conns, Run(conns, actions), a)
  {
    assert (actions + [a])[..|actions|] == actions;
  }

  // Connection 0, alone, on its way to a phase.
  function Alone(conns: seq<Connection>, p: Phase, log: seq<Entry>): Sys
    requires conns != []
  {
    MoveTo(Begin(conns), 0, p).(table := map[conns[0].id := conns[0].session], log := log)
  }

  function StepsTo(p: Phase): nat {
    match p
    case Serving => 1
    case AwaitingTasks => 2
    case StoppingIngestor => 3
    case ClosingUpstream => 4
    case _ => 0
  }

  // The phase before, and the step from there.
  function Before(p: Phase): (Phase, Action) {
    match p
    case AwaitingTasks => (Serving, BrowserGone(0))
    case StoppingIngestor => (AwaitingTasks, TasksAwaited(0))
    case ClosingUpstream => (StoppingIngestor, IngestorStopped(0))
    case _ => (Connecting, UpstreamUp(0))
  }

  lemma {:induction false} PathTo(conns: seq<Connection>, p: Phase) returns (actions: seq<Action>)
    requires conns != [] && Suspended(p)
    ensures Run(conns, actions) == Alone(conns, p, [Won(0)])
    decreases StepsTo(p)
  {
    hide Step;
    if p == Connecting {
      RunSnoc(conns, [], Arrive(0));
      ArrivesAlone(conns);
      actions := [] + [Arrive(0)];
    } else {
      var path := PathTo(conns, Before(p).0);
      actions := path + [Before(p).1];
      RunSnoc(conns, path, Before(p).1);
      StepInto(conns, p);
    }
  }

  lemma StepInto(conns: seq<Connection>, p: Phase)
    requires conns != [] && Suspended(p) && p != Connecting
    ensures Step(conns, Alone(conns, Before(p).0, [Won(0)]), Before(p).1) == Alone(conns, p, [Won(0)])
  {
    assert Begin(conns).phases[0 := Before(p).0][0 := p] == Begin(conns).phases[0 := p];
  }

  lemma ArrivesAlone(conns: seq<Connection>)
    requires conns != []
    ensures Step(conns, Begin(conns), Arrive(0)) == Alone(conns, Connecting, [Won(0)])
  {
  }

  ghost predicate Leaked(conns: seq<Connection>, s: Sys)
    requires conns != []
  {
    (forall p :: p in s.phases ==> !Suspended(p)) && s.table == map[conns[0].id := conns[0].session]
  }

  lemma AloneIsOver(conns: seq<Connection>, log: seq<Entry>)
    requires conns != []
    ensures Leaked(conns, Alone(conns, Gone, log))
  {
    var phases := Alone(conns, Gone, log).phases;
    forall p | p in phases ensures !Suspended(p) {
      var c :| 0 <= c < |phases| && phases[c] == p;
      assert c != 0 ==> p == Begin(conns).phases[c];
    }
  }

  lemma CancelledAlone(conns: seq<Connection>, p: Phase)
    requires conns != [] && (p == Connecting || p == StoppingIngestor || p == ClosingUpstream)
    ensures Step(conns, Alone(conns, p, [Won(0)]), Cancelled(0)) == Alone(conns, Gone, [Won(0), CancelledAt(0, p)])
  {
    assert Begin(conns).phases[0 := p][0 := Gone] == Begin(conns).phases[0 := Gone];
  }

  lemma SetupRaisedAlone(conns: seq<Connection>)
    requires conns != []
    ensures Step(conns, Begin(conns), SetupFails(0)) == Alone(conns, Gone, [Won(0), SetupRaised(0)])
  {
  }

  /** The leaks are real: with any connections at all, one cancelled in any of those three phases leaves its
      session on file with every handler gone; so does one whose set-up raises. */
  lemma CancellationLeaks(conns: seq<Connection>, p: Phase) returns (actions: seq<Action>)
    requires conns != [] && (p == Connecting || p == StoppingIngestor || p == ClosingUpstream)
    ensures Leaked(conns, Run(conns, actions)) && CancelledAt(0, p) in Run(conns, actions).log
  {
    var path := PathTo(conns, p);
    actions := path + [Cancelled(0)];
    RunSnoc(conns, path, Cancelled(0));
    CancelledAlone(conns, p);
    AloneIsOver(conns, [Won(0), CancelledAt(0, p)]);
  }

  lemma SetupLeaks(conns: seq<Connection>) returns (actions: seq<Action>)
    requires conns != []
    ensures Leaked(conns, Run(conns, actions)) && SetupRaised(0) in Run(conns, actions).log
  {
    actions := [] + [SetupFails(0)];
    RunSnoc(conns, [], SetupFails(0));
    SetupRaisedAlone(conns);
    AloneIsOver(conns, [Won(0), SetupRaised(0)]);
  }
}
