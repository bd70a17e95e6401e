# Login attempt guard and user DTO mapping, modelled in Dafny

This project models the two pieces of decision logic in a small Laravel application.

**Login attempt guard** (`app/Data/Auth/LoginData.php`). A login form carries an e-mail and a password.
The throttle key of an attempt is the lower-cased e-mail, a `|`, and the client's IP address.

`ensureIsNotRateLimited` locks a key out once 5 or more failures are recorded for it. A locked-out call
fires a `Lockout` event. It then raises a validation error on `email` that gives the wait in seconds and
in minutes rounded up.

`validateCredentials` runs that gate first. It then looks the user up and checks the password. Either
kind of failure records one hit on the key and raises the same `auth.failed` error. A success clears the
key and returns the user.

The rate limiter, the event bus and the credential store are the application's collaborators. Each one
is a class here:
- `RateLimiting.RateLimiter` keeps a `Store`: failure counts per key, and per key the seconds until the
  key may be tried again.
- `Events.Dispatcher` keeps the list of events fired.
- `Credentials.UserProvider` answers from a lookup function and a password predicate, and logs every
  question asked of it.

`ValidateCredentials` is proved equal to `Attempt` on the old store, and `EnsureIsNotRateLimited` to
`Gate`. The properties of the guard are lemmas about `Gate`, `Attempt` and `AuthScenarios.Run`, which
runs a sequence of attempts.

**User DTO** (`app/Data/User/UserData.php`). This part is pure:
- the constructor's defaults;
- `fromModel`, which reads a model record, coercing non-scalar required attributes to `''` and defaulting
  `is_active` to true;
- `toModelArray`, which writes the DTO back as 15 named attributes.

A required model attribute is a `PhpValues.Value`: a string, an integer, a boolean, a date, null, or some other
composite value. PHP's `is_scalar` and `(string)` are modelled on it. The integer case renders decimal
digits, and a lemma reads them back.

`validateCredentials` calls `ensureIsNotRateLimited` itself, before any lookup (`LoginData.php:31`);
`Auth.LoginData.ValidateCredentials` does the same.

Files: `wrappers.dfy` (Option), `rate_limiter.dfy`, `events.dfy`, `credentials.dfy`, `login_data.dfy`
(module `Auth`), `login_scenarios.dfy` (module `AuthScenarios`), `php_values.dfy`, `user_data.dfy`
(module `UserDto`).

## Model

| member | source | states |
|---|---|---|
| RateLimiting.Store.Hit | app/Data/Auth/LoginData.php:40 | a hit adds exactly one failure to its key and opens a 60-second window if none is running; every other key's count and wait are unchanged; validity is kept |
| RateLimiting.Store.Clear | app/Data/Auth/LoginData.php:47 | clearing leaves the key with no failures and no wait, so it is no longer over any threshold; every other key is unchanged |
| RateLimiting.ClearForgetsHit | app/Data/Auth/LoginData.php:40-47 | clearing after a hit gives the same store as clearing alone; the key looks new |
| RateLimiting.WaitPositiveOnceHit | app/Data/Auth/LoginData.php:66 | on a valid store, a key with failures on record has a positive wait |
| RateLimiting.RateLimiter.constructor | app/Data/Auth/LoginData.php:59 | a fresh limiter records nothing and is valid |
| RateLimiting.RateLimiter.TooManyAttempts | app/Data/Auth/LoginData.php:59 | true exactly when the key's recorded failures reach the given maximum |
| RateLimiting.RateLimiter.AvailableIn | app/Data/Auth/LoginData.php:66 | returns the key's stored wait |
| RateLimiting.RateLimiter.Hit | app/Data/Auth/LoginData.php:40 | the new store is the old store hit on the key |
| RateLimiting.RateLimiter.Clear | app/Data/Auth/LoginData.php:47 | the new store is the old store cleared on the key |
| Events.Dispatcher.constructor | app/Data/Auth/LoginData.php:64 | a fresh bus has fired nothing |
| Events.Dispatcher.Dispatch | app/Data/Auth/LoginData.php:64 | the one event is appended to the fired list |
| Credentials.UserProvider.constructor | app/Data/Auth/LoginData.php:34 | the store answers from the given provider and has been asked nothing |
| Credentials.UserProvider.RetrieveByCredentials | app/Data/Auth/LoginData.php:34-37 | returns the provider's user for the e-mail and logs one lookup with the e-mail and password passed |
| Credentials.UserProvider.ValidateCredentials | app/Data/Auth/LoginData.php:39 | returns the provider's verdict on the password for that user and logs one check |
| Auth.Lowercase | app/Data/Auth/LoginData.php:81 | the result has the input's length and holds the lowered character at every position |
| Auth.LowercaseIdempotent | app/Data/Auth/LoginData.php:81 | lowering an already lowered string changes nothing |
| Auth.Minutes | app/Data/Auth/LoginData.php:71 | the result is the ceiling of seconds/60: m*60 >= seconds and (m-1)*60 < seconds unless m is 0 |
| Auth.ThrottleError | app/Data/Auth/LoginData.php:68-73 | a throttle message on `email` carrying the seconds and their minutes, never equal to the generic failure |
| Auth.LoginData.ThrottleKey | app/Data/Auth/LoginData.php:79-82 | the key is the lowered e-mail, then one bar character, then the address, and nothing more |
| Auth.Gate | app/Data/Auth/LoginData.php:59-73 | open exactly when fewer than 5 failures are recorded for the key; otherwise the throttle error with the key's stored wait |
| Auth.LoginData.EnsureIsNotRateLimited | app/Data/Auth/LoginData.php:57-74 | returns the gate's verdict on the key and fires one Lockout, for this e-mail and IP, exactly when it refuses; the limiter is not changed |
| Auth.LoginData.ValidateCredentials | app/Data/Auth/LoginData.php:29-50 | outcome, new limiter store, events fired and store questions asked are exactly those of the pure attempt `Attempt` on the old store |
| Auth.Attempt | app/Data/Auth/LoginData.php:29-50 | a locked-out attempt fires one Lockout, returns the throttle error, leaves the store and asks nothing; otherwise the store is asked for the lookup and then, only when a user was found, for exactly one password check of that user (the short-circuit `||`), the outcome is the user exactly when the store accepts the credentials, a success clears the key and any other outcome is the generic error with one hit on the key |
| Auth.ThrottleKeyIgnoresCase | app/Data/Auth/LoginData.php:81 | e-mails that agree at each position, or differ there only by an A–Z letter against that letter plus 32, give the same throttle key for the same IP |
| Auth.ThrottleKeySeparatesIps | app/Data/Auth/LoginData.php:81 | for one e-mail, different IPs give different keys |
| Auth.LastBarFollowsEmail | app/Data/Auth/LoginData.php:81 | for an address without a bar character, the key's bar at the e-mail's length is its last one |
| Auth.ThrottleKeyInjective | app/Data/Auth/LoginData.php:81 | for addresses without a bar character (every IPv4 and IPv6 address), two keys are equal if and only if the lowered e-mails and the addresses are equal, whatever the e-mails contain |
| Auth.BarInEmailKeepsKeysApart | app/Data/Auth/LoginData.php:81 | the e-mails a-bar-b@x.org (with a bar character) and a@x.org get different keys from 10.0.0.1 |
| Auth.GateThreshold | app/Data/Auth/LoginData.php:59-73 | the gate is open if and only if fewer than 5 failures are recorded; when closed, the error on `email` carries availableIn seconds and (seconds+59) div 60 minutes |
| Auth.LockedOutAttempt | app/Data/Auth/LoginData.php:31 | a locked-out attempt returns the throttle error, leaves the store unchanged (no hit, no clear), fires one Lockout and asks the credential store nothing |
| Auth.ThrottledIffLockedOut | app/Data/Auth/LoginData.php:59 | an attempt ends with the throttle error if and only if its key had at least 5 failures |
| Auth.RejectedAttempt | app/Data/Auth/LoginData.php:39-44 | below the threshold, a missing user or wrong password gives the generic `auth.failed` error on `email`, exactly one more failure on the key, no event, and as questions to the store one lookup for an unknown e-mail, or the lookup followed by one check of the found user (the short-circuit `||`) |
| Auth.FailureCausesIndistinguishable | app/Data/Auth/LoginData.php:39-44 | an unknown e-mail and a wrong password give the same outcome, the same new store and the same events |
| Auth.AcceptedAttempt | app/Data/Auth/LoginData.php:47-49 | below the threshold, correct credentials return the retrieved user, clear the key to zero failures, fire nothing, after one lookup and one check |
| Auth.AttemptTouchesOnlyItsKey | app/Data/Auth/LoginData.php:40-47 | every other key's failures and wait are unchanged by an attempt |
| Auth.AttemptPreservesValid | app/Data/Auth/LoginData.php:39-47 | attempts keep every key with failures on record inside a running window |
| Auth.LockoutWaitPositive | app/Data/Auth/LoginData.php:66-71 | on a valid store a lockout reports a positive number of seconds and of minutes |
| AuthScenarios.Run | app/Data/Auth/LoginData.php:29-50 | one outcome per attempt; running from a valid store leaves a valid store |
| AuthScenarios.RunAppend | app/Data/Auth/LoginData.php:29-50 | running two sequences in turn equals running their concatenation |
| AuthScenarios.RepeatedFailures | app/Data/Auth/LoginData.php:39-59 | for rejected attempts on one key, the i-th fails with `auth.failed` while failures before it are under 5 and is throttled after; the count stops at 5 |
| AuthScenarios.FiveFailuresThenLockout | app/Data/Auth/LoginData.php:39-59 | from a key with no failures, 5 rejected attempts fail with `auth.failed`, the 6th is throttled, and the count is 5 |
| AuthScenarios.SuccessResetsCounter | app/Data/Auth/LoginData.php:39-49 | failures below the threshold, then a success that returns the user, then more failures: these are counted from zero, so the first 5 of them fail with `auth.failed` and the count ends at min(number of later failures, 5) |
| AuthScenarios.ThreeFailuresSuccessFailure | app/Data/Auth/LoginData.php:39-49 | three wrong, one right, one wrong: outcomes failed, failed, failed, the user, failed; the count ends at 1 |
| AuthScenarios.FiveWrongAttemptsThenLockout | app/Data/Auth/LoginData.php:29-74 | through the guard's methods on fresh collaborators: five `auth.failed`, then the throttle error with the 60-second wait, and exactly one Lockout event |
| AuthScenarios.FailuresThenSuccessThenFailure | app/Data/Auth/LoginData.php:29-50 | through the guard's methods on fresh collaborators: failed three times, then the user, then failed; the limiter holds 1 failure for the key |
| PhpValues.IsScalar | app/Data/User/UserData.php:74 | dates, null and composite values are exactly the non-scalar ones |
| PhpValues.NatToDecimal | app/Data/User/UserData.php:94-97 | a non-empty string of decimal digits without a leading zero |
| PhpValues.ParseNatToDecimal | app/Data/User/UserData.php:94-97 | reading back the digits of n gives n |
| PhpValues.IntToDecimal | app/Data/User/UserData.php:94-97 | a leading '-' exactly for negative numbers, digits after it |
| PhpValues.IntToDecimalRoundTrip | app/Data/User/UserData.php:94-97 | reading back an integer's rendering gives the integer, so distinct integers cast to distinct strings |
| PhpValues.ToPhpString | app/Data/User/UserData.php:94-97 | a string casts to itself, an integer to its decimal rendering, true to "1" and false to "" |
| UserDto.New | app/Data/User/UserData.php:16-66 | the constructor keeps the four required arguments, makes `is_active` true and every nullable field null |
| UserDto.RequiredString | app/Data/User/UserData.php:73-97 | dates, null and composites become ""; a string is kept; an integer becomes its decimal rendering; true becomes "1" and false "" |
| UserDto.FromModel | app/Data/User/UserData.php:71-110 | non-scalar required attributes become ""; scalar ones become their string cast, strings unchanged; `is_active` is false only when the model says false; the timestamp and the nine nullable strings are copied |
| UserDto.ToModelArray | app/Data/User/UserData.php:117-136 | the keys are exactly the fifteen attribute names |
| UserDto.ModelArraySize | app/Data/User/UserData.php:119-135 | the array has exactly 15 entries |
| UserDto.ModelArrayEntries | app/Data/User/UserData.php:119-135 | helper for ToModelArrayInjective: looks up each of the fifteen keys, which holds the same-named DTO field |
| UserDto.ToModelArrayInjective | app/Data/User/UserData.php:117-136 | different DTOs write different arrays |
| UserDto.ModelRoundTrip | app/Data/User/UserData.php:71-136 | for a record whose required attributes are strings and whose `is_active` is set, `toModelArray(fromModel(u))` equals u's fifteen attributes |
| UserDto.DtoRoundTrip | app/Data/User/UserData.php:71-136 | every DTO is read back unchanged from the record holding its fields, and that record's attributes are the DTO's array |

## Left out

- Time: the limiter's window never runs down here. A stored wait stays as it was stored. The limiter's
  reset of a key whose window has expired is not modelled, and neither is a wait that shrinks as time
  passes.
- RateLimiting.Store.Hit: the 60-second window a first failure opens is the limiter's default decay. It
  belongs to the framework, not to the repository's code.
- Request and global state: the client IP, which the code reads from the current request, is a
  parameter. The `Lockout` event records the e-mail and IP instead of the request object.
- Events: the event bus is a list of fired events. Listeners are not modelled.
- Localisation: the translated messages `auth.failed` and `auth.throttle` are the tags `Failed` and
  `Throttle(seconds, minutes)`.
- Exceptions: a thrown `ValidationException` is an `Invalid` outcome naming the field `email`.
- Minutes: PHP's `ceil` returns a float. The model uses the equal natural number.
- Password comparison: hashing and checking belong to the credential store. They are the arbitrary
  predicate `Provider.check`.
- User lookup: `retrieveByCredentials` receives the e-mail and password, but the lookup is modelled by
  e-mail only. The database's own collation is not modelled.
- Lowercase: ASCII A–Z lower-casing stands in for `mb_strtolower`. Unicode case mapping is not modelled.
- Limiter key normalisation: the limiter is keyed by the exact throttle-key string. Any cleaning of keys the
  framework's limiter may apply before it reaches the cache belongs to the framework and is not modelled, so
  `Auth.AttemptTouchesOnlyItsKey` speaks of the modelled map of keys.
- Concurrency: the atomicity of the limiter under simultaneous requests is not modelled.
- Validation attributes: the framework's declarative validation on the DTO constructors is not modelled
  (`Required`, `Email`, `StringType`, `Nullable`, `BooleanType`).
- Floats: a float in a required user attribute is scalar in PHP. Its string cast is not modelled, so
  `Value` has no float case.
- Model attribute types: the optional attributes are typed nullable strings, nullable bool and nullable
  instant. A model holding another type there would make the strict-typed constructor throw; that path is
  not modelled. `CarbonImmutable::instance` is the identity on `Instant`.
- `resources/js/layouts/app-layout.tsx`: a presentational view component, not part of this model.
