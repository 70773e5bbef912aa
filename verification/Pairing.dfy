/** `PairingManager`: its methods change its fields as the steps of `PairingSpec` say. */
module Pairing {
  import opened Wrappers
  import opened PairingSpec
  import PairingProofs

  class PairingManager {
    const settings: Settings
    const maxFailedAttempts: int
    const lockoutSec: int
    var pin: Option<string>
    var pinExpiresAt: real
    var tokens: map<string, real>
    var failedAttempts: int
    var lockoutUntil: real

    function View(): State
      reads this
    {
      State(pin, pinExpiresAt, tokens, failedAttempts, lockoutUntil)
    }

    predicate Valid()
      reads this
    {
      && maxFailedAttempts == MaxFailed(settings) && lockoutSec as real == Lockout(settings)
      && PairingProofs.Inv(View(), settings)
    }

    constructor (settings: Settings)
      ensures this.settings == settings && Valid() && View() == FRESH
    {
      this.settings := settings;
      maxFailedAttempts, lockoutSec := Max1(settings.maxFailedAttempts), Max1(settings.lockoutSec);
      pin, pinExpiresAt, tokens, failedAttempts, lockoutUntil := None, 0.0, map[], 0, 0.0;
    }

    method IsLockedOut(now: real) returns (locked: bool)
      requires Valid()
      modifies this`failedAttempts, this`lockoutUntil
      ensures Valid() && (View(), Done(locked)) == Step(old(View()), settings, PairingSpec.IsLockedOut(now))
    {
      if now < lockoutUntil {
        return true;
      }
      if lockoutUntil > 0.0 && now >= lockoutUntil {
        failedAttempts := 0;
        lockoutUntil := 0.0;
      }
      return false;
    }

    method IssuePin(random: string, now: real) returns (issued: string)
      requires Valid()
      modifies this`pin, this`pinExpiresAt
      ensures issued == random
      ensures Valid() && View() == Step(old(View()), settings, PairingSpec.IssuePin(random, now)).0
    {
      pin := Some(random);
      pinExpiresAt := now + settings.pinTtlSec as real;
      return random;
    }

    method RegisterFailedAttempt(later: real)
      requires Valid() && later >= 0.0
      modifies this`failedAttempts, this`lockoutUntil
      requires lockoutUntil == 0.0
      ensures Valid() && View() == Failed(old(View()), settings, later)
    {
      failedAttempts := failedAttempts + 1;
      if failedAttempts >= maxFailedAttempts {
        lockoutUntil := later + lockoutSec as real;
        failedAttempts := 0;
      }
    }

    /** `pair`, given the trimmed PIN: the token, or nothing when locked out or refused. */
    method Pair(candidate: string, random: string, now: real, later: real) returns (token: Option<string>)
      requires Valid() && 0.0 <= now <= later
      modifies this
      ensures Valid()
      ensures var (s, v) := PairStep(old(View()), settings, candidate, random, now, later);
              View() == s && token == (if v.Paired? then Some(v.token) else None)
    {
      if now < lockoutUntil {
        return None;
      }
      if lockoutUntil > 0.0 && now >= lockoutUntil {
        failedAttempts := 0;
        lockoutUntil := 0.0;
      }
      if pin.None? || now >= pinExpiresAt {
        RegisterFailedAttempt(later);
        return None;
      }
      if candidate != pin.value {
        RegisterFailedAttempt(later);
        return None;
      }
      tokens := tokens[random := now + settings.tokenTtlSec as real];
      pin := None;
      pinExpiresAt := 0.0;
      failedAttempts := 0;
      lockoutUntil := 0.0;
      return Some(random);
    }

    method VerifyToken(token: string, now: real) returns (ok: bool)
      requires Valid()
      modifies this`tokens
      ensures Valid() && (View(), ok) == VerifyStep(old(View()), token, now)
    {
      if token == "" {
        return false;
      }
      if token !in tokens {
        return false;
      }
      if now >= tokens[token] {
        tokens := tokens - {token};
        return false;
      }
      return true;
    }

    method RevokeAll()
      requires Valid()
      modifies this
      ensures Valid() && View() == FRESH
    {
      pin := None;
      pinExpiresAt := 0.0;
      tokens := map[];
      failedAttempts := 0;
      lockoutUntil := 0.0;
    }
  }
}
