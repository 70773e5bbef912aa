/** Failures and lockouts, read off the calls and what they answered. */
module PairingCounts {
  import opened Wrappers
  import opened PairingSpec
  import opened PairingProofs
  import opened PairingTheorems

  // How many PINs were refused since the last success, revocation or lockout; and when the last refusal came
  // that made one lockout's worth of them, unless a success or a revocation has come since.
  datatype Tally = Tally(failures: nat, lockedAt: Option<real>)

  function Count(c: Settings, es: seq<Event>): Tally
  {
    if es == [] then Tally(0, None)
    else
      var init, e := es[..|es| - 1], es[|es| - 1];
      var before, v := Count(c, init), VerdictOf(FRESH, c, init, e);
      if e.RevokeAll? || v.Paired? then Tally(0, None)
      else if v == Refused && e.Pair? then
        if before.failures + 1 >= (if c.maxFailedAttempts < 1 then 1 else c.maxFailedAttempts) then Tally(0, Some(e.later))
        else Tally(before.failures + 1, before.lockedAt)
      else before
  }

  // When the lockout of a tally ends.
  function Until(c: Settings, k: Tally): real
  {
    match k.lockedAt
    case None => 0.0
    case Some(t) => t + (if c.lockoutSec < 1 then 1 else c.lockoutSec) as real
  }

  // The manager's fields say the same; it may have forgotten a lockout that is over.
  predicate Tallied(s: State, c: Settings, k: Tally, clock: real)
  {
    && s.failed == k.failures
    && (s.lockoutUntil == Until(c, k) || (s.lockoutUntil == 0.0 && Until(c, k) <= clock))
    && (s.lockoutUntil > 0.0 ==> k.failures == 0)
    && Until(c, k) >= 0.0
  }

  function NextTally(c: Settings, k: Tally, e: Event, v: Verdict): Tally
  {
    if e.RevokeAll? || v.Paired? then Tally(0, None)
    else if v == Refused && e.Pair? then
      if k.failures + 1 >= (if c.maxFailedAttempts < 1 then 1 else c.maxFailedAttempts) then Tally(0, Some(e.later))
      else Tally(k.failures + 1, k.lockedAt)
    else k
  }

  lemma PairTallies(s: State, c: Settings, k: Tally, clock: real, e: Event)
    requires Tallied(s, c, k, clock) && 0.0 <= clock <= e.now <= EndOf(e) && e.Pair?
    ensures var (t, v) := Step(s, c, e); Tallied(t, c, NextTally(c, k, e, v), EndOf(e))
  {
  }

  lemma StepTallies(s: State, c: Settings, k: Tally, clock: real, e: Event)
    requires Tallied(s, c, k, clock) && 0.0 <= clock <= e.now <= EndOf(e)
    ensures var (t, v) := Step(s, c, e); Tallied(t, c, NextTally(c, k, e, v), EndOf(e))
  {
    if e.Pair? {
      PairTallies(s, c, k, clock, e);
    }
  }

  lemma {:induction false} RunTallies(c: Settings, t0: real, es: seq<Event>)
    requires t0 >= 0.0 && Timed(t0, es)
    ensures Clock(t0, es) >= t0 && Tallied(Run(FRESH, c, es), c, Count(c, es), Clock(t0, es))
  {
    if es != [] {
      var init, e := es[..|es| - 1], es[|es| - 1];
      RunTallies(c, t0, init);
      StepTallies(Run(FRESH, c, init), c, Count(c, init), Clock(t0, init), e);
      assert Count(c, es) == NextTally(c, Count(c, init), e, VerdictOf(FRESH, c, init, e));
    }
  }

  /** Over every run: the failures on record are the refusals since the last success, revocation or lockout. */
  lemma FailuresAreCounted(c: Settings, t0: real, es: seq<Event>)
    requires t0 >= 0.0 && Timed(t0, es)
    ensures Run(FRESH, c, es).failed == Count(c, es).failures
  {
    RunTallies(c, t0, es);
  }

  /** And `pair` is locked out exactly if the last stretch of refusals came to the maximum, and its lockout has
      not run out. */
  lemma LockedOutIff(c: Settings, t0: real, es: seq<Event>, pin: string, token: string, now: real, later: real)
    requires t0 >= 0.0 && Timed(t0, es) && now >= Clock(t0, es)
    ensures VerdictOf(FRESH, c, es, Pair(pin, token, now, later)) == LockedOut <==>
              Count(c, es).lockedAt.Some? && now < Until(c, Count(c, es))
  {
    RunTallies(c, t0, es);
  }

  /** The whole answer of `pair`, by the calls before it: locked out, or the token exactly for the PIN on offer
      in time, or a refusal. */
  lemma PairAnswers(c: Settings, t0: real, es: seq<Event>, pin: string, token: string, now: real, later: real)
    requires t0 >= 0.0 && Timed(t0, es) && now >= Clock(t0, es)
    ensures var offer := Offer(c, es);
            VerdictOf(FRESH, c, es, Pair(pin, token, now, later)) ==
            if Count(c, es).lockedAt.Some? && now < Until(c, Count(c, es)) then LockedOut
            else if offer.Some? && offer.value.0 == pin && now < offer.value.1 then Paired(token)
            else Refused
  {
    RunTallies(c, t0, es);
    PinIsOffer(c, es);
  }

  // ---------- an example ----------

  const FIVE := Settings(600, 86400, 5, 60)

  function Guesses(n: nat): seq<Event>
  {
    if n == 0 then [IssuePin("1234", 0.0)] else Guesses(n - 1) + [Pair("0000", "t", 1.0, 1.0)]
  }

  lemma {:induction false} GuessesCount(n: nat)
    requires n <= 4
    ensures Timed(0.0, Guesses(n)) && Clock(0.0, Guesses(n)) <= 1.0
    ensures Run(FRESH, FIVE, Guesses(n)) == State(Some("1234"), 600.0, map[], n, 0.0)
  {
    if n == 0 {
      assert Guesses(0)[..0] == [];
    } else {
      GuessesCount(n - 1);
      assert Guesses(n)[..|Guesses(n)| - 1] == Guesses(n - 1);
    }
  }

  /** A success clears the count: four wrong PINs, the right one, and one more wrong PIN leave four to go. */
  lemma SuccessClears()
    ensures var s := Run(FRESH, FIVE, Guesses(4));
            var t := Step(s, FIVE, Pair("1234", "t", 2.0, 2.0)).0;
            var u := Step(t, FIVE, IssuePin("5678", 3.0)).0;
            var w := Step(u, FIVE, Pair("0000", "t", 4.0, 4.0)).0;
            w.failed == 1 && Step(w, FIVE, Pair("5678", "u", 5.0, 5.0)).1 == Paired("u")
  {
    GuessesCount(4);
  }
}
