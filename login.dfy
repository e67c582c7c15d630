/**
 * The login form (src/pages/Login.tsx): both fields must be non-empty; any such pair is
 * accepted (no credential lookup) and turns the application's logged-in flag on.
 */
module Login {

  datatype LoginOutcome = Accepted | Rejected(message: string)

  const FillMessage := "Please fill in all fields"

  /** The emptiness check of `handleSubmit`. */
  function CheckFields(email: string, password: string): (r: LoginOutcome)
    ensures r == Accepted <==> email != "" && password != ""
    ensures r != Accepted ==> r == Rejected(FillMessage)
  {
    if email == "" || password == "" then Rejected(FillMessage) else Accepted
  }

  /**
   * The logged-in flag that the page's declared `setIsLoggedIn` prop writes; the model
   * assumes a parent that passes that prop.
   */
  class Session {
    var isLoggedIn: bool

    constructor (isLoggedIn: bool)
      ensures this.isLoggedIn == isLoggedIn
    {
      this.isLoggedIn := isLoggedIn;
    }
  }

  /**
   * `handleSubmit`: a rejected submission leaves the flag alone, an accepted one sets it;
   * the flag is never set to false.
   */
  method HandleSubmit(email: string, password: string, session: Session) returns (r: LoginOutcome)
    modifies session
    ensures r == CheckFields(email, password)
    ensures r == Accepted ==> session.isLoggedIn
    ensures r != Accepted ==> session.isLoggedIn == old(session.isLoggedIn)
    ensures old(session.isLoggedIn) ==> session.isLoggedIn
  {
    r := CheckFields(email, password);
    if r.Rejected? {
      return;
    }
    session.isLoggedIn := true;
  }
}
