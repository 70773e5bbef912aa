/** PIN pairing as steps on a timed state.  Random values and clock readings are inputs; `pair` reads the
    clock twice, once at its start and once when it locks. */
module PairingSpec {
  import opened Wrappers

  datatype Settings = Settings(pinTtlSec: int, tokenTtlSec: int, maxFailedAttempts: int, lockoutSec: int)

  function Max1(x: int): (r: int) ensures r >= 1 && r >= x { if x < 1 then 1 else x }

  function MaxFailed(c: Settings): int { Max1(c.maxFailedAttempts) }
  function Lockout(c: Settings): (r: real) ensures r >= 1.0 { Max1(c.lockoutSec) as real }

  datatype State = State(
    pin: Option<string>,
    pinExpiresAt: real,
    tokens: map<string, real>,
    failed: int,
    lockoutUntil: real)

  const FRESH := State(None, 0.0, map[], 0, 0.0)

  // A caller is told the token or nothing; nothing means locked out or refused.
  datatype Verdict = LockedOut | Refused | Paired(token: string) | Done(answer: bool)

  datatype Event =
    | Pair(pin: string, token: string, now: real, later: real)
    | IssuePin(pin: string, now: real)
    | IsLockedOut(now: real)
    | VerifyToken(token: string, now: real)
    | RevokeAll(now: real)

  // A lockout whose time is up is forgotten.
  function Thawed(s: State, now: real): State
  {
    if s.lockoutUntil > 0.0 && now >= s.lockoutUntil then s.(failed := 0, lockoutUntil := 0.0) else s
  }

  function Failed(s: State, c: Settings, later: real): State
  {
    if s.failed + 1 >= MaxFailed(c) then s.(failed := 0, lockoutUntil := later + Lockout(c))
    else s.(failed := s.failed + 1)
  }

  function PairStep(s: State, c: Settings, pin: string, token: string, now: real, later: real): (State, Verdict)
  {
    if now < s.lockoutUntil then (s, LockedOut)
    else
      var t := Thawed(s, now);
      if t.pin != Some(pin) || now >= t.pinExpiresAt then (Failed(t, c, later), Refused)
      else (State(None, 0.0, t.tokens[token := now + c.tokenTtlSec as real], 0, 0.0), Paired(token))
  }

  function VerifyStep(s: State, token: string, now: real): (State, bool)
  {
    if token == "" || token !in s.tokens then (s, false)
    else if now >= s.tokens[token] then (s.(tokens := s.tokens - {token}), false)
    else (s, true)
  }

  function Step(s: State, c: Settings, e: Event): (State, Verdict)
  {
    match e
    case Pair(pin, token, now, later) => PairStep(s, c, pin, token, now, later)
    case IssuePin(pin, now) => (s.(pin := Some(pin), pinExpiresAt := now + c.pinTtlSec as real), Done(true))
    case IsLockedOut(now) => if now < s.lockoutUntil then (s, Done(true)) else (Thawed(s, now), Done(false))
    case VerifyToken(token, now) => var (t, ok) := VerifyStep(s, token, now); (t, Done(ok))
    case RevokeAll(_) => (FRESH, Done(true))
  }

  function Run(s: State, c: Settings, es: seq<Event>): State
  {
    if es == [] then s else Step(Run(s, c, es[..|es| - 1]), c, es[|es| - 1]).0
  }

  function VerdictOf(s: State, c: Settings, es: seq<Event>, e: Event): Verdict { Step(Run(s, c, es), c, e).1 }

  // ---------- a clock that does not go back ----------

  function EndOf(e: Event): real { if e.Pair? then e.later else e.now }

  function Clock(t0: real, es: seq<Event>): real { if es == [] then t0 else EndOf(es[|es| - 1]) }

  predicate Timed(t0: real, es: seq<Event>)
  {
    es == []
    || (&& Timed(t0, es[..|es| - 1])
        && Clock(t0, es[..|es| - 1]) <= es[|es| - 1].now <= EndOf(es[|es| - 1]))
  }

  // ---------- counting ----------

  function Refusals(s: State, c: Settings, es: seq<Event>): nat
  {
    if es == [] then 0
    else Refusals(s, c, es[..|es| - 1]) + if VerdictOf(s, c, es[..|es| - 1], es[|es| - 1]) == Refused then 1 else 0
  }

  function Successes(s: State, c: Settings, es: seq<Event>): nat
  {
    if es == [] then 0
    else Successes(s, c, es[..|es| - 1]) + if VerdictOf(s, c, es[..|es| - 1], es[|es| - 1]).Paired? then 1 else 0
  }

  // Neither a pairing that succeeds nor a revocation, both of which reset the counter.
  predicate NoReset(s: State, c: Settings, es: seq<Event>)
  {
    es == []
    || (&& NoReset(s, c, es[..|es| - 1])
        && !es[|es| - 1].RevokeAll?
        && !VerdictOf(s, c, es[..|es| - 1], es[|es| - 1]).Paired?)
  }
}
