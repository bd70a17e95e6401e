/**
 The login attempt guard: the throttle key of a login, the lockout gate and the
 credential check, over the rate limiter, event bus and credential store of the
 surrounding application (modules RateLimiting, Events and Credentials).

 Both failure kinds are returned as an `Invalid` outcome carrying the validation
 error the application raises; the request's IP address is a parameter.
 */
module Auth {
  import opened Wrappers
  import opened RateLimiting
  import opened Events
  import opened Credentials

  /** Failures after which a throttle key is locked out. */
  const MaxAttempts: nat := 5

  /** ASCII lower-casing of one character. */
  function LowerChar(c: char): char {
    if 'A' <= c <= 'Z' then (c as int - 'A' as int + 'a' as int) as char else c
  }

  /** Lower-casing of a string, character by character. */
  function Lowercase(s: string): (r: string)
    ensures |r| == |s|
    ensures forall i :: 0 <= i < |s| ==> r[i] == LowerChar(s[i])
  {
    if s == [] then [] else [LowerChar(s[0])] + Lowercase(s[1..])
  }

  /** Two ASCII characters that differ at most in case: equal, or an upper-case letter and its lower-case form. */
  predicate SameLetterIgnoringCase(c: char, d: char) {
    || c == d
    || ('A' <= c <= 'Z' && d as int == c as int + 32)
    || ('A' <= d <= 'Z' && c as int == d as int + 32)
  }

  /** Two strings that are equal once ASCII case is ignored. */
  predicate EqualIgnoringCase(a: string, b: string) {
    |a| == |b| && forall i :: 0 <= i < |a| ==> SameLetterIgnoringCase(a[i], b[i])
  }

  /** Lower-casing changes nothing the second time. */
  lemma LowercaseIdempotent(s: string)
    ensures Lowercase(Lowercase(s)) == Lowercase(s)
  {
  }

  /** The message of a validation error. */
  datatype Message =
    | Failed                                 // the generic "these credentials do not match"
    | Throttle(seconds: nat, minutes: nat)   // "too many attempts, retry in ..."

  /** A validation error on one input field. */
  datatype ValidationError = ValidationError(field: string, message: Message)

  /** What a guarded operation ends with: a value, or the validation error it raises. */
  datatype Outcome<+T> = Ok(value: T) | Invalid(error: ValidationError)

  /** Seconds to wait, rounded up to whole minutes. */
  function Minutes(seconds: nat): (m: nat)
    ensures m * 60 >= seconds
    ensures m == 0 || (m - 1) * 60 < seconds
    ensures seconds == 0 ==> m == 0
  {
    (seconds + 59) / 60
  }

  /** The error raised for any credential failure. */
  const FailedError := ValidationError("email", Failed)

  /** The error raised when the key is locked out for `seconds` more seconds. */
  function ThrottleError(seconds: nat): (e: ValidationError)
    ensures e.field == "email" && e.message.Throttle?
    ensures e.message.seconds == seconds && e.message.minutes == Minutes(seconds)
    ensures e != FailedError
  {
    ValidationError("email", Throttle(seconds, Minutes(seconds)))
  }

  /** The effect of one full login attempt, as a value. */
  datatype Step = Step(outcome: Outcome<User>, store: Store, lockouts: seq<Lockout>, calls: seq<Call>)

  /** The lockout gate on a limiter store: open below the threshold, otherwise the throttle error. */
  function Gate(store: Store, key: string): (r: Outcome<()>)
    ensures r.Ok? <==> store.Attempts(key) < MaxAttempts
    ensures r.Invalid? ==> r.error == ThrottleError(store.AvailableIn(key))
  {
    if store.TooManyAttempts(key, MaxAttempts) then Invalid(ThrottleError(store.AvailableIn(key))) else Ok(())
  }

  /** The submitted login form. */
  datatype LoginData = LoginData(email: string, password: string) {

    /** The rate-limiting key of this login from `ip`. */
    function ThrottleKey(ip: string): (k: string)
      ensures |k| == |email| + 1 + |ip|
      ensures k[..|email|] == Lowercase(email) && k[|email|] == '|' && k[|email| + 1..] == ip
    {
      Lowercase(email) + "|" + ip
    }

    /** Refuse the attempt, after announcing a lockout, when its key has too many failures. */
    method EnsureIsNotRateLimited(ip: string, limiter: RateLimiter, events: Dispatcher) returns (r: Outcome<()>)
      modifies events
      ensures r == Gate(limiter.store, ThrottleKey(ip))
      ensures events.fired == old(events.fired) + (if r.Ok? then [] else [Lockout(email, ip)])
    {
      var tooMany := limiter.TooManyAttempts(ThrottleKey(ip), MaxAttempts);
      if !tooMany {
        return Ok(());
      }
      events.Dispatch(Lockout(email, ip));
      var seconds := limiter.AvailableIn(ThrottleKey(ip));
      return Invalid(ThrottleError(seconds));
    }

    /** Check the credentials, recording the failure or clearing the key, and return the user. */
    method ValidateCredentials(ip: string, limiter: RateLimiter, events: Dispatcher, users: UserProvider)
      returns (r: Outcome<User>)
      modifies limiter, events, users
      ensures var step := Attempt(old(limiter.store), this, ip, users.provider);
              && r == step.outcome
              && limiter.store == step.store
              && events.fired == old(events.fired) + step.lockouts
              && users.calls == old(users.calls) + step.calls
    {
      var gate := EnsureIsNotRateLimited(ip, limiter, events);
      if gate.Invalid? {
        return Invalid(gate.error);
      }
      var user := users.RetrieveByCredentials(email, password);
      var valid := false;
      if user.Some? {
        valid := users.ValidateCredentials(user.value, password);
      }
      if !valid {
        limiter.Hit(ThrottleKey(ip));
        return Invalid(FailedError);
      }
      limiter.Clear(ThrottleKey(ip));
      return Ok(user.value);
    }
  }

  /** The questions an open gate puts to the credential store: the lookup, then a password check only for a found user. */
  function CallsWhenOpen(login: LoginData, p: Provider): seq<Call> {
    match p.retrieveByEmail(login.email)
    case None => [Retrieve(login.email, login.password)]
    case Some(u) => [Retrieve(login.email, login.password), Validate(u, login.password)]
  }

  /** One call of `ValidateCredentials` on a limiter store, as a value. */
  function Attempt(store: Store, login: LoginData, ip: string, p: Provider): (s: Step)
    ensures var key := login.ThrottleKey(ip);
            var locked := store.Attempts(key) >= MaxAttempts;
            && s.lockouts == (if locked then [Lockout(login.email, ip)] else [])
            && (locked ==> s.outcome == Invalid(ThrottleError(store.AvailableIn(key))) && s.store == store && s.calls == [])
            && (!locked ==> s.calls == CallsWhenOpen(login, p))
            && (!locked ==> (s.outcome.Ok? <==> !Rejects(p, login.email, login.password)))
            && (s.outcome.Ok? ==> s.outcome.value == p.retrieveByEmail(login.email).value && s.store == store.Clear(key))
            && (!locked && !s.outcome.Ok? ==> s.outcome == Invalid(FailedError) && s.store == store.Hit(key))
  {
    var key := login.ThrottleKey(ip);
    match Gate(store, key)
    case Invalid(e) => Step(Invalid(e), store, [Lockout(login.email, ip)], [])
    case Ok(_) =>
      var user := p.retrieveByEmail(login.email);
      var lookup := [Retrieve(login.email, login.password)];
      if user.None? then
        Step(Invalid(FailedError), store.Hit(key), [], lookup)
      else
        var checks := lookup + [Validate(user.value, login.password)];
        if p.check(user.value, login.password) then
          Step(Ok(user.value), store.Clear(key), [], checks)
        else
          Step(Invalid(FailedError), store.Hit(key), [], checks)
  }

  /// Properties of the throttle key

  /** E-mails that differ only in case share a throttle key. */
  lemma ThrottleKeyIgnoresCase(a: LoginData, b: LoginData, ip: string)
    requires EqualIgnoringCase(a.email, b.email)
    ensures a.ThrottleKey(ip) == b.ThrottleKey(ip)
  {
  }

  /** For one e-mail, different addresses never share a throttle key. */
  lemma ThrottleKeySeparatesIps(login: LoginData, ip1: string, ip2: string)
    requires ip1 != ip2
    ensures login.ThrottleKey(ip1) != login.ThrottleKey(ip2)
  {
    var prefix := Lowercase(login.email) + "|";
    assert login.ThrottleKey(ip1)[|prefix|..] == ip1;
    assert login.ThrottleKey(ip2)[|prefix|..] == ip2;
  }

  /** With an address free of '|', the key's last '|' is the one right after the lowered e-mail. */
  lemma LastBarFollowsEmail(login: LoginData, ip: string)
    requires '|' !in ip
    ensures var k := login.ThrottleKey(ip);
            k[|login.email|] == '|' && forall i :: |login.email| < i < |k| ==> k[i] != '|'
  {
    var k := login.ThrottleKey(ip);
    forall i | |login.email| < i < |k|
      ensures k[i] != '|'
    {
      assert k[i] == k[|login.email| + 1..][i - |login.email| - 1];
    }
  }

  /** For addresses without a '|', such as IPv4 and IPv6 ones, the key determines the lowered e-mail and the address. */
  lemma ThrottleKeyInjective(a: LoginData, b: LoginData, ip1: string, ip2: string)
    requires '|' !in ip1 && '|' !in ip2
    ensures a.ThrottleKey(ip1) == b.ThrottleKey(ip2) <==> Lowercase(a.email) == Lowercase(b.email) && ip1 == ip2
  {
    if a.ThrottleKey(ip1) == b.ThrottleKey(ip2) {
      LastBarFollowsEmail(a, ip1);
      LastBarFollowsEmail(b, ip2);
      assert |a.email| == |b.email|;
    }
  }

  /** A '|' inside an e-mail does not make two logins from one address collide. */
  lemma BarInEmailKeepsKeysApart(password: string)
    ensures LoginData("a|b@x.org", password).ThrottleKey("10.0.0.1") != LoginData("a@x.org", password).ThrottleKey("10.0.0.1")
  {
    var ip := "10.0.0.1";
    assert '|' !in ip;
    ThrottleKeyInjective(LoginData("a|b@x.org", password), LoginData("a@x.org", password), ip, ip);
  }

  /// Properties of the lockout gate

  /** The gate is open exactly below the threshold; when closed it reports the stored wait, in seconds and in minutes. */
  lemma GateThreshold(store: Store, key: string)
    ensures Gate(store, key).Ok? <==> store.Attempts(key) < MaxAttempts
    ensures Gate(store, key).Invalid? ==>
              Gate(store, key).error == ValidationError("email", Throttle(store.AvailableIn(key), (store.AvailableIn(key) + 59) / 60))
  {
  }

  /// Properties of one login attempt

  /** A locked-out attempt is refused with the throttle error, fires one lockout, and neither touches the limiter nor asks the store. */
  lemma LockedOutAttempt(store: Store, login: LoginData, ip: string, p: Provider)
    requires store.Attempts(login.ThrottleKey(ip)) >= MaxAttempts
    ensures var step := Attempt(store, login, ip, p);
            && step.outcome == Invalid(ThrottleError(store.AvailableIn(login.ThrottleKey(ip))))
            && step.store == store
            && step.lockouts == [Lockout(login.email, ip)]
            && step.calls == []
  {
  }

  /** An attempt ends with the throttle error exactly when its key has reached the threshold. */
  lemma ThrottledIffLockedOut(store: Store, login: LoginData, ip: string, p: Provider)
    ensures var o := Attempt(store, login, ip, p).outcome;
            (o.Invalid? && o.error.message.Throttle?) <==> store.Attempts(login.ThrottleKey(ip)) >= MaxAttempts
  {
  }

  /** Below the threshold, a missing user or a wrong password adds exactly one failure and raises the generic error. */
  lemma RejectedAttempt(store: Store, login: LoginData, ip: string, p: Provider)
    requires store.Attempts(login.ThrottleKey(ip)) < MaxAttempts
    requires Rejects(p, login.email, login.password)
    ensures var step := Attempt(store, login, ip, p);
            && step.outcome == Invalid(FailedError)
            && step.store == store.Hit(login.ThrottleKey(ip))
            && step.store.Attempts(login.ThrottleKey(ip)) == store.Attempts(login.ThrottleKey(ip)) + 1
            && step.lockouts == []
            && step.calls == (if p.retrieveByEmail(login.email).None?
                              then [Retrieve(login.email, login.password)]
                              else [Retrieve(login.email, login.password),
                                    Validate(p.retrieveByEmail(login.email).value, login.password)])
  {
  }

  /** An unknown e-mail and a wrong password for a known one look the same to the caller and to the limiter. */
  lemma FailureCausesIndistinguishable(store: Store, login: LoginData, ip: string, unknown: Provider, known: Provider)
    requires unknown.retrieveByEmail(login.email) == None
    requires known.retrieveByEmail(login.email).Some?
    requires !known.check(known.retrieveByEmail(login.email).value, login.password)
    ensures Attempt(store, login, ip, unknown).outcome == Attempt(store, login, ip, known).outcome
    ensures Attempt(store, login, ip, unknown).store == Attempt(store, login, ip, known).store
    ensures Attempt(store, login, ip, unknown).lockouts == Attempt(store, login, ip, known).lockouts
  {
  }

  /** Below the threshold, correct credentials return the stored user and reset the key's counter. */
  lemma AcceptedAttempt(store: Store, login: LoginData, ip: string, p: Provider)
    requires store.Attempts(login.ThrottleKey(ip)) < MaxAttempts
    requires !Rejects(p, login.email, login.password)
    ensures var step := Attempt(store, login, ip, p);
            && step.outcome == Ok(p.retrieveByEmail(login.email).value)
            && step.store == store.Clear(login.ThrottleKey(ip))
            && step.store.Attempts(login.ThrottleKey(ip)) == 0
            && step.lockouts == []
            && step.calls == [Retrieve(login.email, login.password),
                              Validate(p.retrieveByEmail(login.email).value, login.password)]
  {
  }

  /** An attempt changes the failures and timers of its own key only. */
  lemma AttemptTouchesOnlyItsKey(store: Store, login: LoginData, ip: string, p: Provider, other: string)
    requires other != login.ThrottleKey(ip)
    ensures Attempt(store, login, ip, p).store.Attempts(other) == store.Attempts(other)
    ensures Attempt(store, login, ip, p).store.AvailableIn(other) == store.AvailableIn(other)
  {
  }

  /** Attempts keep every recorded key's window running. */
  lemma AttemptPreservesValid(store: Store, login: LoginData, ip: string, p: Provider)
    ensures store.Valid() ==> Attempt(store, login, ip, p).store.Valid()
  {
  }

  /** On a limiter whose failures all have windows, a lockout always asks for a positive wait. */
  lemma LockoutWaitPositive(store: Store, login: LoginData, ip: string, p: Provider)
    requires store.Valid()
    requires store.Attempts(login.ThrottleKey(ip)) >= MaxAttempts
    ensures var o := Attempt(store, login, ip, p).outcome;
            o.Invalid? && o.error.message.Throttle? && o.error.message.seconds > 0 && o.error.message.minutes > 0
  {
  }
}
