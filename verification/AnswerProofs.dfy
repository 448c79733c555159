/** When "no turn in flight" means that the gateway has answered every turn. Its messages do not say which turn
    they answer; here each may be given the turn it answers, if it answers one at all, and the flag is compared
    with that. */
module AnswerProofs {
  import opened Wrappers
  import opened Arbitration
  import opened Session
  import opened SessionProofs

  // The entry at k is the gateway's answer to the turn fired at f.
  predicate Answers(log: seq<Entry>, answers: nat -> Option<nat>, k: nat, f: nat)
    requires k < |log|
  {
    log[k].Received? && EndsTurn(log[k].message) && answers(k) == Some(f)
  }

  ghost predicate Answered(log: seq<Entry>, answers: nat -> Option<nat>, f: nat) {
    exists k: nat :: f < k < |log| && Answers(log, answers, k, f)
  }

  ghost predicate AllAnswered(log: seq<Entry>, answers: nat -> Option<nat>) {
    forall f: nat :: f < |log| && log[f].Fired? ==> Answered(log, answers, f)
  }

  // Whatever clears an outstanding turn is the gateway's answer to it.
  ghost predicate ClearedByAnswers(log: seq<Entry>, answers: nat -> Option<nat>) {
    forall k: nat :: k < |log| && Clears(log[k]) && Outstanding(log[..k]).Some? ==>
      Answers(log, answers, k, Outstanding(log[..k]).value)
  }

  // At every moment of the log the flag is down exactly if each turn fired so far has been answered.
  ghost predicate Truthful(log: seq<Entry>, answers: nat -> Option<nat>) {
    forall n: nat :: n <= |log| ==> (Outstanding(log[..n]).None? <==> AllAnswered(log[..n], answers))
  }

  lemma {:induction false} FirstClear(log: seq<Entry>, f: nat) returns (k: nat)
    requires exists c :: f < c < |log| && Clears(log[c])
    ensures f < k < |log| && Clears(log[k]) && forall c :: f < c < k ==> !Clears(log[c])
  {
    k := f + 1;
    while !Clears(log[k])
      invariant f < k < |log| && forall c :: f < c < k ==> !Clears(log[c])
      decreases |log| - k
    {
      k := k + 1;
    }
  }

  // The first thing to clear after a turn finds that turn outstanding.
  lemma FirstClearCutsIt(log: seq<Entry>, f: nat, k: nat, start: real, idle: real)
    requires Lawful(log, start, idle) && f < k < |log| && log[f].Fired?
    requires forall c :: f < c < k ==> !Clears(log[c])
    ensures Outstanding(log[..k]) == Some(f)
  {
    forall g | f < g < k ensures !log[g].Fired? {
      if log[g].Fired? {
        LawfulAt(log, g, start, idle);
        UnclearedTurnIsOutstanding(log[..g], f);
      }
    }
    OutstandingIs(log[..k], f);
  }

  lemma OutstandingIsUnanswered(log: seq<Entry>, answers: nat -> Option<nat>)
    requires Outstanding(log).Some?
    ensures !Answered(log, answers, Outstanding(log).value)
  {
    OutstandingMeans(log);
  }

  lemma ClearedIsAnswered(log: seq<Entry>, answers: nat -> Option<nat>, start: real, idle: real)
    requires Lawful(log, start, idle) && ClearedByAnswers(log, answers) && Outstanding(log).None?
    ensures AllAnswered(log, answers)
  {
    forall f: nat | f < |log| && log[f].Fired? ensures Answered(log, answers, f) {
      if forall c :: f < c < |log| ==> !Clears(log[c]) {
        UnclearedTurnIsOutstanding(log, f);
      } else {
        var k := FirstClear(log, f);
        FirstClearCutsIt(log, f, k, start, idle);
        assert Answers(log, answers, k, f);
      }
    }
  }

  lemma ClearedPrefix(log: seq<Entry>, answers: nat -> Option<nat>, n: nat)
    requires ClearedByAnswers(log, answers) && n <= |log|
    ensures ClearedByAnswers(log[..n], answers)
  {
    var p := log[..n];
    forall k: nat | k < n && Clears(p[k]) && Outstanding(p[..k]).Some?
      ensures Answers(p, answers, k, Outstanding(p[..k]).value)
    {
      assert p[..k] == log[..k];
      assert Answers(log, answers, k, Outstanding(log[..k]).value);
    }
  }

  lemma TruthfulAt(log: seq<Entry>, answers: nat -> Option<nat>, k: nat)
    requires Truthful(log, answers) && k < |log| && Clears(log[k]) && Outstanding(log[..k]).Some?
    ensures Answers(log, answers, k, Outstanding(log[..k]).value)
  {
    var f, p := Outstanding(log[..k]).value, log[..k + 1];
    assert p[..k] == log[..k] && Outstanding(p).None?;
    OutstandingMeans(log[..k]);
    forall c | f < c < k ensures !Clears(p[c]) {
      assert p[c] == log[..k][c];
    }
    assert Answered(p, answers, f);
    var a: nat :| f < a < |p| && Answers(p, answers, a, f);
    assert Clears(p[a]);
  }

  /** The flag tells the truth at every moment of a run exactly if nothing clears an outstanding turn but the
      gateway's own answer to that turn. */
  lemma FlagIsTruthfulExactly(cfg: Settings, start: real, actions: seq<Action>, answers: nat -> Option<nat>)
    ensures var log := Run(cfg, start, actions).log; Truthful(log, answers) <==> ClearedByAnswers(log, answers)
  {
    var log, idle := Run(cfg, start, actions).log, cfg.idleSeconds as real;
    RunConsistent(cfg, start, actions);
    if ClearedByAnswers(log, answers) {
      forall n: nat | n <= |log| ensures Outstanding(log[..n]).None? <==> AllAnswered(log[..n], answers) {
        if Outstanding(log[..n]).None? {
          LawfulPrefix(log, n, start, idle);
          ClearedPrefix(log, answers, n);
          ClearedIsAnswered(log[..n], answers, start, idle);
        }
        if Outstanding(log[..n]).Some? {
          OutstandingIsUnanswered(log[..n], answers);
        }
      }
    }
    if Truthful(log, answers) {
      forall k: nat | k < |log| && Clears(log[k]) && Outstanding(log[..k]).Some?
        ensures Answers(log, answers, k, Outstanding(log[..k]).value)
      {
        TruthfulAt(log, answers, k);
      }
    }
  }

  /** Then turns never overlap: each is fired only after every earlier one has been answered. */
  lemma TurnsNeverOverlap(cfg: Settings, start: real, actions: seq<Action>, answers: nat -> Option<nat>, j: nat)
    requires var log := Run(cfg, start, actions).log; j < |log| && log[j].Fired? && ClearedByAnswers(log, answers)
    ensures AllAnswered(Run(cfg, start, actions).log[..j], answers)
  {
    var log := Run(cfg, start, actions).log;
    RunConsistent(cfg, start, actions);
    LawfulAt(log, j, start, cfg.idleSeconds as real);
    FlagIsTruthfulExactly(cfg, start, actions, answers);
  }

  /** But a barge-in always lowers the flag before the gateway can have answered, whichever messages answer
      what; the model's other early lowering is a reset (ResetSparesFreshTurnsExactly). */
  lemma BargeInIsEarly(cfg: Settings, start: real, actions: seq<Action>, answers: nat -> Option<nat>, r: nat)
    requires r < |Run(cfg, start, actions).log| && Run(cfg, start, actions).log[r].AbortReturned?
    ensures !Truthful(Run(cfg, start, actions).log, answers)
  {
    var a := AbortErasesItsOwnTurn(cfg, start, actions, r);
    FlagIsTruthfulExactly(cfg, start, actions, answers);
  }
}
