/**
 The credential store the login guard consults: a lookup of a user by e-mail and
 a check of a presented password against that user. How passwords are hashed and
 compared is the store's own business; here it is an arbitrary predicate.
 */
module Credentials {
  import opened Wrappers

  /** A stored account; `passwordHash` is never inspected by the guard. */
  datatype User = User(id: nat, email: string, passwordHash: string)

  /** The two questions the store can answer. */
  datatype Provider = Provider(retrieveByEmail: string -> Option<User>, check: (User, string) -> bool)

  /** One question put to the store, as the store sees it. */
  datatype Call =
    | Retrieve(email: string, password: string)
    | Validate(user: User, password: string)

  /** True when the store would turn `password` away for `email`, for either reason. */
  predicate Rejects(p: Provider, email: string, password: string) {
    match p.retrieveByEmail(email)
    case None => true
    case Some(u) => !p.check(u, password)
  }

  /** The store as a service that answers from `provider` and keeps a log of the questions asked. */
  class UserProvider {
    const provider: Provider
    var calls: seq<Call>

    constructor (provider: Provider)
      ensures this.provider == provider && calls == []
    {
      this.provider := provider;
      calls := [];
    }

    /** Look a user up by the credentials' e-mail; the password is passed along but not used for the lookup. */
    method RetrieveByCredentials(email: string, password: string) returns (user: Option<User>)
      modifies this
      ensures user == provider.retrieveByEmail(email)
      ensures calls == old(calls) + [Retrieve(email, password)]
    {
      user := provider.retrieveByEmail(email);
      calls := calls + [Retrieve(email, password)];
    }

    method ValidateCredentials(user: User, password: string) returns (valid: bool)
      modifies this
      ensures valid == provider.check(user, password)
      ensures calls == old(calls) + [Validate(user, password)]
    {
      valid := provider.check(user, password);
      calls := calls + [Validate(user, password)];
    }
  }
}
