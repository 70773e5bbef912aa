/** How often PINs can be guessed, and which tokens are good. */
module PairingProofs {
  import opened PairingSpec

  predicate Inv(s: State, c: Settings)
  {
    && 0 <= s.failed < MaxFailed(c)
    && (s.lockoutUntil > 0.0 ==> s.failed == 0)
    && s.lockoutUntil >= 0.0
  }

  lemma StepKeeps(s: State, c: Settings, e: Event)
    requires Inv(s, c) && 0.0 <= e.now <= EndOf(e)
    ensures Inv(Step(s, c, e).0, c)
  {
  }

  lemma {:induction false} RunKeeps(s: State, c: Settings, t0: real, es: seq<Event>)
    requires Inv(s, c) && t0 >= 0.0 && Timed(t0, es)
    ensures Inv(Run(s, c, es), c) && Clock(t0, es) >= t0
  {
    if es != [] {
      RunKeeps(s, c, t0, es[..|es| - 1]);
      StepKeeps(Run(s, c, es[..|es| - 1]), c, es[|es| - 1]);
    }
  }

  /** While locked out nothing is evaluated and nothing changes, and `is_locked_out` says so exactly then. */
  lemma LockoutIsObserved(s: State, c: Settings, pin: string, token: string, now: real, later: real)
    ensures Step(s, c, IsLockedOut(now)).1 == Done(true) <==> Step(s, c, Pair(pin, token, now, later)).1 == LockedOut
    ensures Step(s, c, Pair(pin, token, now, later)).1 == LockedOut ==> Step(s, c, Pair(pin, token, now, later)).0 == s
    ensures Step(s, c, Pair(pin, token, now, later)).1 != LockedOut ==>
              Step(s, c, Pair(pin, token, now, later)) == Step(Step(s, c, IsLockedOut(now)).0, c, Pair(pin, token, now, later))
  {
  }

  // ---------- the guessing bound ----------

  // How many lockouts a run has begun.
  function Lockouts(s: State, c: Settings, es: seq<Event>): nat
  {
    if es == [] then 0
    else Lockouts(s, c, es[..|es| - 1]) + if Locks(Run(s, c, es[..|es| - 1]), c, es[|es| - 1]) then 1 else 0
  }

  predicate Locks(s: State, c: Settings, e: Event)
  {
    e.Pair? && Step(s, c, e).1 == Refused && Thawed(s, e.now).failed + 1 >= MaxFailed(c)
  }

  // `n` times a lockout, and `n` times the maximum, added up one by one.
  function After(n: nat, l: real): real { if n == 0 then 0.0 else After(n - 1, l) + l }
  function Budget(n: nat, m: int): int { if n == 0 then 0 else Budget(n - 1, m) + m }

  lemma {:induction false} AfterIsProduct(n: nat, l: real)
    ensures After(n, l) == n as real * l
  {
    if n > 0 {
      AfterIsProduct(n - 1, l);
      assert n as real * l == (n - 1) as real * l + l;
    }
  }

  lemma {:induction false} BudgetIsProduct(n: nat, m: int)
    ensures Budget(n, m) == n * m
  {
    if n > 0 {
      BudgetIsProduct(n - 1, m);
      assert n * m == (n - 1) * m + m;
    }
  }

  lemma {:induction false} MoreIsMore(k: nat, n: nat, l: real, m: int)
    requires k <= n && l >= 0.0 && m >= 0
    ensures After(k, l) <= After(n, l) && Budget(k, m) <= Budget(n, m)
  {
    if k < n {
      MoreIsMore(k, n - 1, l, m);
    }
  }

  // What `n` lockouts since `t0` have cost: refusals are paid for by lockouts, and lockouts by time.
  predicate Paid(s: State, c: Settings, refusals: int, n: nat, t0: real, clock: real, failed0: int)
  {
    && refusals + failed0 == Budget(n, MaxFailed(c)) + s.failed
    && clock >= t0
    && (s.lockoutUntil > 0.0 && n >= 1 ==>
          s.lockoutUntil >= t0 + After(n, Lockout(c)) && clock >= t0 + After(n - 1, Lockout(c)))
    && (s.lockoutUntil == 0.0 ==> clock >= t0 + After(n, Lockout(c)))
  }

  lemma StepPays(s: State, c: Settings, e: Event, refusals: int, n: nat, t0: real, clock: real, failed0: int)
    requires Inv(s, c) && 0.0 <= t0 && Paid(s, c, refusals, n, t0, clock, failed0)
    requires clock <= e.now <= EndOf(e)
    requires !e.RevokeAll? && !Step(s, c, e).1.Paired?
    ensures var (u, v) := Step(s, c, e);
            Paid(u, c, refusals + if v == Refused then 1 else 0, n + if Locks(s, c, e) then 1 else 0, t0, EndOf(e), failed0)
  {
  }

  lemma {:induction false} RunPays(s: State, c: Settings, t0: real, es: seq<Event>)
    requires Inv(s, c) && t0 >= 0.0 && Timed(t0, es) && NoReset(s, c, es)
    ensures Paid(Run(s, c, es), c, Refusals(s, c, es), Lockouts(s, c, es), t0, Clock(t0, es), s.failed)
  {
    if es != [] {
      var init, e := es[..|es| - 1], es[|es| - 1];
      RunPays(s, c, t0, init);
      RunKeeps(s, c, t0, init);
      StepPays(Run(s, c, init), c, e, Refusals(s, c, init), Lockouts(s, c, init), t0, Clock(t0, init), s.failed);
    }
  }

  lemma PaidBounds(t: State, c: Settings, refusals: int, k: nat, t0: real, clock: real, failed0: nat, n: nat)
    requires Inv(t, c) && Paid(t, c, refusals, k, t0, clock, failed0)
    requires clock - t0 < After(n, Lockout(c))
    ensures refusals <= Budget(n, MaxFailed(c))
  {
    var l, m := Lockout(c), MaxFailed(c);
    if k > n {
      MoreIsMore(n, k - 1, l, m);
    } else if k < n {
      MoreIsMore(k + 1, n, l, m);
    }
  }

  lemma GuessesByBudget(s: State, c: Settings, t0: real, es: seq<Event>, n: nat)
    requires Inv(s, c) && t0 >= 0.0 && Timed(t0, es) && NoReset(s, c, es)
    requires Clock(t0, es) - t0 < After(n, Lockout(c))
    ensures Refusals(s, c, es) <= Budget(n, MaxFailed(c))
  {
    RunPays(s, c, t0, es);
    RunKeeps(s, c, t0, es);
    PaidBounds(Run(s, c, es), c, Refusals(s, c, es), Lockouts(s, c, es), t0, Clock(t0, es), s.failed, n);
  }

  /** The guessing bound.  In a run without a success or a revocation that takes less than `n` lockout
      times, from whatever state it starts, at most `n` times the maximum of PINs are tried and refused. */
  lemma GuessesAreBounded(s: State, c: Settings, t0: real, es: seq<Event>, n: nat)
    requires Inv(s, c) && t0 >= 0.0 && Timed(t0, es) && NoReset(s, c, es)
    requires Clock(t0, es) - t0 < n as real * Lockout(c)
    ensures Refusals(s, c, es) <= n * MaxFailed(c)
  {
    AfterIsProduct(n, Lockout(c));
    BudgetIsProduct(n, MaxFailed(c));
    GuessesByBudget(s, c, t0, es, n);
  }

  /** The same in closed form, for a run that takes `span` seconds. */
  lemma {:induction false} GuessesInTime(s: State, c: Settings, t0: real, es: seq<Event>)
    requires Inv(s, c) && t0 >= 0.0 && Timed(t0, es) && NoReset(s, c, es)
    ensures var span := Clock(t0, es) - t0;
            Refusals(s, c, es) <= MaxFailed(c) * ((span / Lockout(c)).Floor + 1)
  {
    RunKeeps(s, c, t0, es);
    var span, l := Clock(t0, es) - t0, Lockout(c);
    var n := (span / l).Floor + 1;
    FloorIsEnough(span, l);
    GuessesAreBounded(s, c, t0, es, n);
    assert n * MaxFailed(c) == MaxFailed(c) * n;
  }

  lemma FloorIsEnough(span: real, l: real)
    requires span >= 0.0 && l >= 1.0
    ensures (span / l).Floor >= 0 && span < ((span / l).Floor + 1) as real * l
  {
    var q := span / l;
    assert q >= 0.0;
    assert q < (q.Floor + 1) as real;
    assert q * l == span;
    Scaled(q, (q.Floor + 1) as real, l);
  }

  lemma Scaled(a: real, b: real, l: real)
    requires a < b && l >= 1.0
    ensures a * l < b * l
  {
  }
}
