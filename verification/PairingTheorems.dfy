/** Tokens, PINs, and a siege that shows the guessing bound is reached. */
module PairingTheorems {
  import opened Wrappers
  import opened PairingSpec
  import opened PairingProofs

  // ---------- tokens ----------

  // When a token runs out: set by the last pairing that gave it out, unless all were revoked since.
  function Grant(c: Settings, es: seq<Event>, token: string): Option<real>
  {
    if es == [] then None
    else
      var init, e := es[..|es| - 1], es[|es| - 1];
      if e.RevokeAll? then None
      else if VerdictOf(FRESH, c, init, e) == Paired(token) then Some(e.now + c.tokenTtlSec as real)
      else Grant(c, init, token)
  }

  predicate GrantInv(s: State, grant: Option<real>, token: string, clock: real)
  {
    && (token in s.tokens ==> grant == Some(s.tokens[token]))
    && (grant.Some? && token !in s.tokens ==> clock >= grant.value)
  }

  lemma StepGrants(s: State, c: Settings, e: Event, token: string, grant: Option<real>, clock: real)
    requires GrantInv(s, grant, token, clock) && clock <= e.now <= EndOf(e)
    ensures var (t, v) := Step(s, c, e);
            var next := if e.RevokeAll? then None
                        else if v == Paired(token) then Some(e.now + c.tokenTtlSec as real) else grant;
            GrantInv(t, next, token, EndOf(e))
  {
  }

  lemma {:induction false} TokensAreGrants(c: Settings, t0: real, es: seq<Event>, token: string)
    requires Timed(t0, es)
    ensures GrantInv(Run(FRESH, c, es), Grant(c, es, token), token, Clock(t0, es))
  {
    if es != [] {
      var init, e := es[..|es| - 1], es[|es| - 1];
      TokensAreGrants(c, t0, init, token);
      StepGrants(Run(FRESH, c, init), c, e, token, Grant(c, init, token), Clock(t0, init));
    }
  }

  /** Over every run: a token is good exactly while the last pairing that gave it out has not run out and
      nothing was revoked since; looking it up, and dropping it when late, makes no difference. */
  lemma TokenIsGoodIffGranted(c: Settings, t0: real, es: seq<Event>, token: string, now: real)
    requires Timed(t0, es) && now >= Clock(t0, es)
    ensures Step(Run(FRESH, c, es), c, VerifyToken(token, now)).1 == Done(true) <==>
            token != "" && Grant(c, es, token).Some? && now < Grant(c, es, token).value
  {
    TokensAreGrants(c, t0, es, token);
  }

  // ---------- PINs ----------

  // The PIN on offer: the last one issued, unless it was used or revoked since.
  function Offer(c: Settings, es: seq<Event>): Option<(string, real)>
  {
    if es == [] then None
    else
      var init, e := es[..|es| - 1], es[|es| - 1];
      if e.IssuePin? then Some((e.pin, e.now + c.pinTtlSec as real))
      else if e.RevokeAll? || VerdictOf(FRESH, c, init, e).Paired? then None
      else Offer(c, init)
  }

  lemma {:induction false} PinIsOffer(c: Settings, es: seq<Event>)
    ensures var s := Run(FRESH, c, es);
            match Offer(c, es)
            case None => s.pin == None
            case Some(o) => s.pin == Some(o.0) && s.pinExpiresAt == o.1
  {
    if es != [] {
      PinIsOffer(c, es[..|es| - 1]);
    }
  }

  /** Pairing succeeds exactly with the PIN on offer, in time and not locked out. */
  lemma PairedIffOffered(c: Settings, es: seq<Event>, pin: string, token: string, now: real, later: real)
    ensures VerdictOf(FRESH, c, es, Pair(pin, token, now, later)) == Paired(token) <==>
            && now >= Run(FRESH, c, es).lockoutUntil
            && Offer(c, es).Some? && Offer(c, es).value.0 == pin && now < Offer(c, es).value.1
  {
    PinIsOffer(c, es);
  }

  function Issues(es: seq<Event>): nat
  {
    if es == [] then 0 else Issues(es[..|es| - 1]) + if es[|es| - 1].IssuePin? then 1 else 0
  }

  /** Every PIN pairs at most once: there are never more successes than PINs issued. */
  lemma {:induction false} PinsPairOnce(c: Settings, es: seq<Event>)
    ensures Successes(FRESH, c, es) + (if Run(FRESH, c, es).pin.Some? then 1 else 0) <= Issues(es)
  {
    if es != [] {
      PinsPairOnce(c, es[..|es| - 1]);
    }
  }

  // ---------- the bound is reached ----------

  function Burst(t: real, k: nat): seq<Event>
  {
    if k == 0 then [] else Burst(t, k - 1) + [Pair("guess", "token", t, t)]
  }

  lemma Snoc(s: State, c: Settings, t0: real, es: seq<Event>, e: Event)
    ensures Run(s, c, es + [e]) == Step(Run(s, c, es), c, e).0
    ensures Refusals(s, c, es + [e]) == Refusals(s, c, es) + if VerdictOf(s, c, es, e) == Refused then 1 else 0
    ensures NoReset(s, c, es + [e]) <==>
              NoReset(s, c, es) && !e.RevokeAll? && !VerdictOf(s, c, es, e).Paired?
    ensures Timed(t0, es + [e]) <==> Timed(t0, es) && Clock(t0, es) <= e.now <= EndOf(e)
    ensures Clock(t0, es + [e]) == EndOf(e)
  {
    assert (es + [e])[..|es|] == es;
  }

  predicate Quiet(u: State, c: Settings, t: real)
  {
    u.pin == Some("right") && u.pinExpiresAt == t + c.pinTtlSec as real && u.failed == 0 && 0.0 <= u.lockoutUntil <= t
  }

  // The state after `k` guesses at a moment when no lockout is running.
  function AfterGuesses(u: State, c: Settings, t: real, k: nat): State
  {
    if k == 0 then u
    else if k < MaxFailed(c) then u.(failed := k, lockoutUntil := 0.0)
    else u.(failed := 0, lockoutUntil := t + Lockout(c))
  }

  lemma OneMoreGuess(u: State, c: Settings, t: real, k: nat)
    requires Quiet(u, c, t) && k < MaxFailed(c)
    ensures Step(AfterGuesses(u, c, t, k), c, Pair("guess", "token", t, t)) == (AfterGuesses(u, c, t, k + 1), Refused)
  {
  }

  // Every guess is made at another PIN that is on offer and has not run out.
  predicate AtOffers(s: State, c: Settings, es: seq<Event>)
  {
    es == []
    || (&& AtOffers(s, c, es[..|es| - 1])
        && (es[|es| - 1].Pair? ==>
              var u, e := Run(s, c, es[..|es| - 1]), es[|es| - 1];
              u.pin.Some? && u.pin.value != e.pin && e.now < u.pinExpiresAt))
  }

  // A run in time, with so many refusals and nothing that resets the counter.
  predicate Besieged(s: State, c: Settings, t0: real, es: seq<Event>, refusals: int)
  {
    Timed(t0, es) && NoReset(s, c, es) && Refusals(s, c, es) == refusals && (c.pinTtlSec > 0 ==> AtOffers(s, c, es))
  }

  lemma GuessAdds(s: State, c: Settings, t0: real, fs: seq<Event>, n: int, t: real, u: State, k: nat)
    requires Besieged(s, c, t0, fs, n) && Clock(t0, fs) <= t
    requires Quiet(u, c, t) && k < MaxFailed(c) && Run(s, c, fs) == AfterGuesses(u, c, t, k)
    ensures var es := fs + [Pair("guess", "token", t, t)];
            Besieged(s, c, t0, es, n + 1) && Clock(t0, es) <= t && Run(s, c, es) == AfterGuesses(u, c, t, k + 1)
  {
    Snoc(s, c, t0, fs, Pair("guess", "token", t, t));
    OneMoreGuess(u, c, t, k);
  }

  lemma {:induction false} BurstAdds(s: State, c: Settings, t0: real, es: seq<Event>, n: int, t: real, k: nat)
    requires Besieged(s, c, t0, es, n) && Clock(t0, es) <= t && Quiet(Run(s, c, es), c, t) && k <= MaxFailed(c)
    ensures Besieged(s, c, t0, es + Burst(t, k), n + k) && Clock(t0, es + Burst(t, k)) <= t
    ensures Run(s, c, es + Burst(t, k)) == AfterGuesses(Run(s, c, es), c, t, k)
  {
    if k == 0 {
      assert es + Burst(t, k) == es;
    } else {
      var fs := es + Burst(t, k - 1);
      assert es + Burst(t, k) == fs + [Pair("guess", "token", t, t)];
      BurstAdds(s, c, t0, es, n, t, k - 1);
      GuessAdds(s, c, t0, fs, n + k - 1, t, Run(s, c, es), k - 1);
    }
  }

  // A PIN is issued whenever a lockout ends, and then guessed at as often as is let.
  function Siege(c: Settings, n: nat): seq<Event>
  {
    if n == 0 then []
    else
      var t := After(n - 1, Lockout(c));
      (Siege(c, n - 1) + [IssuePin("right", t)]) + Burst(t, MaxFailed(c))
  }

  lemma IssueAdds(s: State, c: Settings, t0: real, es: seq<Event>, n: int, t: real)
    requires Besieged(s, c, t0, es, n) && Clock(t0, es) <= t
    requires Run(s, c, es).failed == 0 && 0.0 <= Run(s, c, es).lockoutUntil <= t
    ensures var fs := es + [IssuePin("right", t)];
            Besieged(s, c, t0, fs, n) && Clock(t0, fs) <= t && Quiet(Run(s, c, fs), c, t)
  {
    Snoc(s, c, t0, es, IssuePin("right", t));
  }

  lemma {:induction false} SiegeHolds(c: Settings, n: nat)
    ensures Besieged(FRESH, c, 0.0, Siege(c, n), Budget(n, MaxFailed(c)))
    ensures Clock(0.0, Siege(c, n)) <= (if n == 0 then 0.0 else After(n - 1, Lockout(c)))
    ensures var u := Run(FRESH, c, Siege(c, n)); u.failed == 0 && u.lockoutUntil == After(n, Lockout(c))
  {
    if n > 0 {
      var t := After(n - 1, Lockout(c));
      SiegeHolds(c, n - 1);
      MoreIsMore(0, n - 1, Lockout(c), 0);
      if n > 1 {
        MoreIsMore(n - 2, n - 1, Lockout(c), 0);
      }
      IssueAdds(FRESH, c, 0.0, Siege(c, n - 1), Budget(n - 1, MaxFailed(c)), t);
      BurstAdds(FRESH, c, 0.0, Siege(c, n - 1) + [IssuePin("right", t)], Budget(n - 1, MaxFailed(c)), t, MaxFailed(c));
    }
  }

  /** The bound cannot be improved: guessing in bursts at a PIN that is on offer, one burst as soon as each
      lockout ends, gets `n + 1` times the maximum of refusals in `n` lockout times. */
  lemma BoundIsReached(c: Settings, n: nat)
    ensures Besieged(FRESH, c, 0.0, Siege(c, n + 1), (n + 1) * MaxFailed(c))
    ensures Clock(0.0, Siege(c, n + 1)) <= n as real * Lockout(c)
  {
    BudgetIsProduct(n + 1, MaxFailed(c));
    AfterIsProduct(n, Lockout(c));
    SiegeHolds(c, n + 1);
  }
}
