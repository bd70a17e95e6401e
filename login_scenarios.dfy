/**
 Sequences of login attempts against one limiter: how failures accumulate to a
 lockout, and how a success resets the count. The pure part runs attempts with
 `Auth.Attempt`; the methods at the end drive the guard's own methods on fresh
 collaborators.
 */
module AuthScenarios {
  import opened Wrappers
  import opened RateLimiting
  import opened Events
  import opened Credentials
  import opened Auth

  /** The outcomes of a sequence of attempts, and the limiter store they leave. */
  datatype Trace = Trace(outcomes: seq<Outcome<User>>, store: Store)

  /** Run the attempts `logins`, in order, from `ip` against `p`, starting from `store`. */
  function Run(store: Store, logins: seq<LoginData>, ip: string, p: Provider): (t: Trace)
    ensures |t.outcomes| == |logins|
    ensures store.Valid() ==> t.store.Valid()
    decreases |logins|
  {
    if logins == [] then Trace([], store)
    else
      var step := Attempt(store, logins[0], ip, p);
      AttemptPreservesValid(store, logins[0], ip, p);
      var rest := Run(step.store, logins[1..], ip, p);
      Trace([step.outcome] + rest.outcomes, rest.store)
  }

  /** An outcome that is the throttle error. */
  predicate IsThrottled(o: Outcome<User>) {
    o.Invalid? && o.error.field == "email" && o.error.message.Throttle?
  }

  /** Every login of `logins` has throttle key `key` from `ip`. */
  predicate SameKey(logins: seq<LoginData>, ip: string, key: string) {
    forall i :: 0 <= i < |logins| ==> logins[i].ThrottleKey(ip) == key
  }

  /** The store turns every login of `logins` away. */
  predicate AllRejected(logins: seq<LoginData>, p: Provider) {
    forall i :: 0 <= i < |logins| ==> Rejects(p, logins[i].email, logins[i].password)
  }

  function Min(a: nat, b: nat): nat {
    if a <= b then a else b
  }

  /** Running two sequences one after the other is running their concatenation. */
  lemma {:induction false} RunAppend(store: Store, first: seq<LoginData>, second: seq<LoginData>, ip: string, p: Provider)
    ensures var a := Run(store, first, ip, p);
            var b := Run(a.store, second, ip, p);
            Run(store, first + second, ip, p) == Trace(a.outcomes + b.outcomes, b.store)
    decreases |first|
  {
    if first == [] {
      assert first + second == second;
    } else {
      var step := Attempt(store, first[0], ip, p);
      assert (first + second)[0] == first[0];
      assert (first + second)[1..] == first[1..] + second;
      RunAppend(step.store, first[1..], second, ip, p);
      var r1 := Run(step.store, first[1..], ip, p);
      var b := Run(r1.store, second, ip, p);
      assert [step.outcome] + (r1.outcomes + b.outcomes) == ([step.outcome] + r1.outcomes) + b.outcomes;
    }
  }

  /**
   Rejected attempts on one key: the i-th fails with the generic error while the key had
   fewer than MaxAttempts failures before it, and is throttled from then on; the count
   stops growing at MaxAttempts.
   */
  lemma {:induction false} RepeatedFailures(store: Store, logins: seq<LoginData>, ip: string, p: Provider, key: string)
    requires SameKey(logins, ip, key) && AllRejected(logins, p)
    ensures var t := Run(store, logins, ip, p);
            forall i :: 0 <= i < |logins| ==>
              if store.Attempts(key) + i < MaxAttempts then t.outcomes[i] == Invalid(FailedError) else IsThrottled(t.outcomes[i])
    ensures Run(store, logins, ip, p).store.Attempts(key) ==
              if store.Attempts(key) >= MaxAttempts then store.Attempts(key) else Min(store.Attempts(key) + |logins|, MaxAttempts)
    decreases |logins|
  {
    if logins != [] {
      var step := Attempt(store, logins[0], ip, p);
      var rest := logins[1..];
      assert SameKey(rest, ip, key) && AllRejected(rest, p) by {
        forall i | 0 <= i < |rest| ensures rest[i] == logins[i + 1] { }
      }
      if store.Attempts(key) >= MaxAttempts {
        LockedOutAttempt(store, logins[0], ip, p);
      } else {
        assert Rejects(p, logins[0].email, logins[0].password);
        RejectedAttempt(store, logins[0], ip, p);
      }
      RepeatedFailures(step.store, rest, ip, p, key);
    }
  }

  /** From a key with no failures, five rejected attempts fail with the generic error and the sixth is throttled. */
  lemma FiveFailuresThenLockout(store: Store, logins: seq<LoginData>, ip: string, p: Provider, key: string)
    requires |logins| == 6 && SameKey(logins, ip, key) && AllRejected(logins, p)
    requires store.Attempts(key) == 0
    ensures var t := Run(store, logins, ip, p);
            && (forall i :: 0 <= i < 5 ==> t.outcomes[i] == Invalid(FailedError))
            && IsThrottled(t.outcomes[5])
            && t.store.Attempts(key) == MaxAttempts
  {
    RepeatedFailures(store, logins, ip, p, key);
  }

  /**
   A success below the threshold returns the user and resets the key, so the failures
   after it are counted from zero again.
   */
  lemma SuccessResetsCounter(store: Store, failures: seq<LoginData>, good: LoginData, later: seq<LoginData>,
                             ip: string, p: Provider, key: string)
    requires SameKey(failures, ip, key) && AllRejected(failures, p)
    requires good.ThrottleKey(ip) == key && !Rejects(p, good.email, good.password)
    requires SameKey(later, ip, key) && AllRejected(later, p)
    requires store.Attempts(key) + |failures| < MaxAttempts
    ensures var t := Run(store, failures + [good] + later, ip, p);
            && (forall i :: 0 <= i < |failures| ==> t.outcomes[i] == Invalid(FailedError))
            && t.outcomes[|failures|] == Ok(p.retrieveByEmail(good.email).value)
            && (forall j :: |failures| < j < |t.outcomes| ==>
                  if j - |failures| - 1 < MaxAttempts then t.outcomes[j] == Invalid(FailedError)
                  else IsThrottled(t.outcomes[j]))
            && t.store.Attempts(key) == Min(|later|, MaxAttempts)
  {
    var a := Run(store, failures, ip, p);
    RepeatedFailures(store, failures, ip, p, key);
    var mid := Run(a.store, [good], ip, p);
    AcceptedAttempt(a.store, good, ip, p);
    assert Run(Attempt(a.store, good, ip, p).store, [], ip, p) == Trace([], Attempt(a.store, good, ip, p).store);
    var b := Run(mid.store, later, ip, p);
    RepeatedFailures(mid.store, later, ip, p, key);
    RunAppend(store, failures, [good], ip, p);
    RunAppend(store, failures + [good], later, ip, p);
  }

  /** Three wrong passwords, then the right one, then a wrong one: the count ends at one, far from a lockout. */
  lemma ThreeFailuresSuccessFailure(store: Store, wrong: LoginData, right: LoginData, ip: string, p: Provider)
    requires wrong.ThrottleKey(ip) == right.ThrottleKey(ip) && store.Attempts(wrong.ThrottleKey(ip)) == 0
    requires Rejects(p, wrong.email, wrong.password) && !Rejects(p, right.email, right.password)
    ensures var t := Run(store, [wrong, wrong, wrong, right, wrong], ip, p);
            && t.outcomes == [Invalid(FailedError), Invalid(FailedError), Invalid(FailedError),
                              Ok(p.retrieveByEmail(right.email).value), Invalid(FailedError)]
            && t.store.Attempts(wrong.ThrottleKey(ip)) == 1
  {
    var key := wrong.ThrottleKey(ip);
    assert [wrong, wrong, wrong, right, wrong] == [wrong, wrong, wrong] + [right] + [wrong];
    SuccessResetsCounter(store, [wrong, wrong, wrong], right, [wrong], ip, p, key);
    var t := Run(store, [wrong, wrong, wrong, right, wrong], ip, p);
    assert t.outcomes[4] == Invalid(FailedError);
  }

  /// The same scenarios, driven through the guard's methods on fresh collaborators

  /** Six wrong attempts on a fresh limiter: five generic failures, then a throttle error after one lockout event. */
  method FiveWrongAttemptsThenLockout(login: LoginData, ip: string, p: Provider)
    returns (outcomes: seq<Outcome<User>>, lockouts: seq<Lockout>)
    requires Rejects(p, login.email, login.password)
    ensures |outcomes| == 6
    ensures forall i :: 0 <= i < 5 ==> outcomes[i] == Invalid(FailedError)
    ensures outcomes[5] == Invalid(ThrottleError(DecaySeconds))
    ensures lockouts == [Lockout(login.email, ip)]
  {
    var limiter := new RateLimiter();
    var events := new Dispatcher();
    var users := new UserProvider(p);
    var o1 := login.ValidateCredentials(ip, limiter, events, users);
    var o2 := login.ValidateCredentials(ip, limiter, events, users);
    var o3 := login.ValidateCredentials(ip, limiter, events, users);
    var o4 := login.ValidateCredentials(ip, limiter, events, users);
    var o5 := login.ValidateCredentials(ip, limiter, events, users);
    var o6 := login.ValidateCredentials(ip, limiter, events, users);
    outcomes := [o1, o2, o3, o4, o5, o6];
    lockouts := events.fired;
  }

  /** Three wrong passwords, the right one, then a wrong one, on a fresh limiter: the key ends with one failure. */
  method FailuresThenSuccessThenFailure(wrong: LoginData, right: LoginData, ip: string, p: Provider)
    returns (outcomes: seq<Outcome<User>>, failures: nat)
    requires wrong.email == right.email
    requires Rejects(p, wrong.email, wrong.password) && !Rejects(p, right.email, right.password)
    ensures outcomes == [Invalid(FailedError), Invalid(FailedError), Invalid(FailedError),
                         Ok(p.retrieveByEmail(right.email).value), Invalid(FailedError)]
    ensures failures == 1
  {
    var limiter := new RateLimiter();
    var events := new Dispatcher();
    var users := new UserProvider(p);
    var o1 := wrong.ValidateCredentials(ip, limiter, events, users);
    var o2 := wrong.ValidateCredentials(ip, limiter, events, users);
    var o3 := wrong.ValidateCredentials(ip, limiter, events, users);
    var o4 := right.ValidateCredentials(ip, limiter, events, users);
    var o5 := wrong.ValidateCredentials(ip, limiter, events, users);
    outcomes := [o1, o2, o3, o4, o5];
    failures := limiter.store.Attempts(wrong.ThrottleKey(ip));
  }
}
