/** The one reconnect loop for the upstream socket (api/ws.py, _redial). The environment decides how every
    connect() and every run_once() ends; the loop is shown to behave for all of them. */
module Redial {
  import opened Wrappers

  datatype Outcome = Returned | Dropped | Raised

  datatype Ending = Finished | GaveUp | Escaped

  // How attempt n ends; Dropped is ConnectionError or OSError, Raised any other exception.
  function Attempt(connect: int -> Outcome, runOnce: int -> Outcome, alreadyConnected: bool, n: int): Outcome {
    if (alreadyConnected && n == 1) || connect(n) == Returned then runOnce(n) else connect(n)
  }

  // The attempt needs a connect() of its own.
  predicate Dials(alreadyConnected: bool, n: int) { n != 1 || !alreadyConnected }

  /** An attempt drops or raises exactly if its connect() does, where it needs one, or else its run_once does; and it
      returns exactly if nothing did. */
  lemma AttemptTells(connect: int -> Outcome, runOnce: int -> Outcome, alreadyConnected: bool, n: int, o: Outcome)
    ensures Attempt(connect, runOnce, alreadyConnected, n) == o <==>
              || (Dials(alreadyConnected, n) && connect(n) == o && o != Returned)
              || ((Dials(alreadyConnected, n) ==> connect(n) == Returned) && runOnce(n) == o)
  {
  }

  // How the attempts of a loop that is over ended: all but the last dropped, and if that dropped too, or there
  // was none, no attempt was left.
  predicate Concluded(outcomes: seq<Outcome>, maxAttempts: int) {
    && |outcomes| <= Max(0, maxAttempts)
    && (forall n :: 0 <= n < |outcomes| - 1 ==> outcomes[n] == Dropped)
    && (|outcomes| < Max(0, maxAttempts) ==> outcomes != [] && outcomes[|outcomes| - 1] != Dropped)
  }

  // Loops that meet the same outcomes make the same number of attempts.
  lemma ConcludedOneWay(o: seq<Outcome>, p: seq<Outcome>, maxAttempts: int)
    requires Concluded(o, maxAttempts) && Concluded(p, maxAttempts)
    requires forall n :: 0 <= n < |o| && n < |p| ==> o[n] == p[n]
    ensures o == p
  {
    var shorter := Min(|o|, |p|);
    if shorter > 0 {
      assert o[shorter - 1] == p[shorter - 1];
    }
  }

  // Seconds slept after the first n failures, in closed form.
  function TotalBackoff(n: nat): int {
    if n <= 4 then Pow2(n) - 1 else 10 * n - 25
  }

  lemma {:induction false} Pow2Grows(n: nat)
    requires n >= 4
    ensures Pow2(n) >= 16
  {
    if n > 4 {
      Pow2Grows(n - 1);
    } else {
      assert Pow2(3) == 8;
    }
  }

  /** The closed form is the sum of the sleeps: min(2^n, 10) seconds after the n-th failure, counting from 0. */
  lemma BackoffStep(n: nat)
    ensures TotalBackoff(0) == 0 && TotalBackoff(n + 1) == TotalBackoff(n) + Min(Pow2(n), 10)
  {
    assert Pow2(0) == 1 && Pow2(1) == 2 && Pow2(2) == 4 && Pow2(3) == 8 && Pow2(4) == 16;
    if n >= 4 {
      Pow2Grows(n);
    }
  }

  /** Terminates for every environment. It stops at the first attempt that does not drop, gives up only when
      every allowed attempt dropped, dials once per attempt except an attempt that found a live socket, and
      sleeps the closed-form total for the failures seen. */
  method Redial(connect: int -> Outcome, runOnce: int -> Outcome, maxAttempts: int, alreadyConnected: bool)
    returns (ending: Ending, attempts: nat, connects: nat, slept: int)
    ensures attempts <= Max(0, maxAttempts)
    ensures forall n :: 1 <= n < attempts ==> Attempt(connect, runOnce, alreadyConnected, n) == Dropped
    ensures Concluded(seq(attempts, n requires 0 <= n => Attempt(connect, runOnce, alreadyConnected, n + 1)),
                      maxAttempts)
    ensures ending == Finished ==> attempts >= 1 && Attempt(connect, runOnce, alreadyConnected, attempts) == Returned
    ensures ending == Escaped ==> attempts >= 1 && Attempt(connect, runOnce, alreadyConnected, attempts) == Raised
    ensures ending == GaveUp <==>
            forall n :: 1 <= n <= Max(0, maxAttempts) ==> Attempt(connect, runOnce, alreadyConnected, n) == Dropped
    ensures ending == GaveUp ==> attempts == Max(0, maxAttempts)
    ensures connects == attempts - (if alreadyConnected && attempts >= 1 then 1 else 0)
    ensures slept == TotalBackoff(if ending == GaveUp then attempts else attempts - 1)
  {
    attempts, connects, slept := 0, 0, 0;
    while attempts < maxAttempts
      invariant 0 <= attempts <= Max(0, maxAttempts)
      invariant forall n :: 1 <= n <= attempts ==> Attempt(connect, runOnce, alreadyConnected, n) == Dropped
      invariant connects == attempts - (if alreadyConnected && attempts >= 1 then 1 else 0)
      invariant slept == TotalBackoff(attempts)
    {
      attempts := attempts + 1;
      var outcome := Returned;
      if !(alreadyConnected && attempts == 1) {
        connects := connects + 1;
        outcome := connect(attempts);
      }
      if outcome == Returned {
        outcome := runOnce(attempts);
      }
      assert outcome == Attempt(connect, runOnce, alreadyConnected, attempts);
      if outcome == Returned {
        return Finished, attempts, connects, slept;
      } else if outcome == Raised {
        return Escaped, attempts, connects, slept;
      }
      BackoffStep(attempts - 1);
      slept := slept + Min(Pow2(attempts - 1), 10);
    }
    ending := GaveUp;
  }
}
