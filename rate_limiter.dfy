/**
 The rate-limiter collaborator of the login guard: per-key failure counters and,
 per key, the number of seconds until another attempt is allowed.

 The passage of time is not part of this model: a key's timer is the number of
 seconds its window had left when it was stored, and it never runs down here.
 */
module RateLimiting {

  /** Length of the window a first failure opens, in seconds (the limiter's default decay). */
  const DecaySeconds: nat := 60

  /** The limiter's whole store, as a value. */
  datatype Store = Store(attempts: map<string, nat>, timers: map<string, nat>) {

    /** Failures recorded for `key`; a key never hit has none. */
    function Attempts(key: string): nat {
      if key in attempts then attempts[key] else 0
    }

    /** Seconds until `key` may be tried again; a key without a timer reports 0. */
    function AvailableIn(key: string): nat {
      if key in timers then timers[key] else 0
    }

    /** Whether `key` has used up its `maxAttempts`. */
    predicate TooManyAttempts(key: string, maxAttempts: nat) {
      Attempts(key) >= maxAttempts
    }

    /** Every key with failures on record has a running window. */
    predicate Valid() {
      forall k :: k in attempts ==> k in timers && timers[k] > 0
    }

    /** Record one more failure for `key`, opening a window if none is running, and nothing else. */
    function Hit(key: string): (s: Store)
      ensures s.Attempts(key) == Attempts(key) + 1
      ensures s.AvailableIn(key) == if AvailableIn(key) > 0 then AvailableIn(key) else DecaySeconds
      ensures forall k :: k != key ==> s.Attempts(k) == Attempts(k) && s.AvailableIn(k) == AvailableIn(k)
      ensures Valid() ==> s.Valid()
    {
      Store(attempts[key := Attempts(key) + 1], if AvailableIn(key) > 0 then timers else timers[key := DecaySeconds])
    }

    /** Forget everything recorded for `key`, and nothing else. */
    function Clear(key: string): (s: Store)
      ensures s.Attempts(key) == 0 && s.AvailableIn(key) == 0
      ensures !s.TooManyAttempts(key, 1)
      ensures forall k :: k != key ==> s.Attempts(k) == Attempts(k) && s.AvailableIn(k) == AvailableIn(k)
      ensures Valid() ==> s.Valid()
    {
      Store(attempts - {key}, timers - {key})
    }
  }

  /** A limiter on which nothing has been recorded. */
  const Empty := Store(map[], map[])

  /** Clearing a key after a hit leaves what clearing alone leaves: the key is new again. */
  lemma ClearForgetsHit(s: Store, key: string)
    ensures s.Hit(key).Clear(key) == s.Clear(key)
    ensures s.Hit(key).Clear(key).Attempts(key) == Empty.Attempts(key)
    ensures s.Hit(key).Clear(key).AvailableIn(key) == Empty.AvailableIn(key)
  {
  }

  /** Once a key has a failure on record, its wait is positive. */
  lemma WaitPositiveOnceHit(s: Store, key: string)
    requires s.Valid() && s.Attempts(key) > 0
    ensures s.AvailableIn(key) > 0
  {
  }

  /** The limiter store as a mutable shared service. */
  class RateLimiter {
    var store: Store

    constructor ()
      ensures store == Empty && store.Valid()
    {
      store := Empty;
    }

    method TooManyAttempts(key: string, maxAttempts: nat) returns (tooMany: bool)
      ensures tooMany <==> store.Attempts(key) >= maxAttempts
    {
      tooMany := store.TooManyAttempts(key, maxAttempts);
    }

    method AvailableIn(key: string) returns (seconds: nat)
      ensures seconds == store.AvailableIn(key)
    {
      seconds := store.AvailableIn(key);
    }

    method Hit(key: string)
      modifies this
      ensures store == old(store).Hit(key)
    {
      store := store.Hit(key);
    }

    method Clear(key: string)
      modifies this
      ensures store == old(store).Clear(key)
    {
      store := store.Clear(key);
    }
  }
}
