/** The event bus the login guard reports lockouts to, kept as a log. */
module Events {

  /** A lockout was observed for the request carrying this e-mail from this address. */
  datatype Lockout = Lockout(email: string, ip: string)

  class Dispatcher {
    /** Every event dispatched so far, oldest first. */
    var fired: seq<Lockout>

    constructor ()
      ensures fired == []
    {
      fired := [];
    }

    method Dispatch(event: Lockout)
      modifies this
      ensures fired == old(fired) + [event]
    {
      fired := fired + [event];
    }
  }
}
