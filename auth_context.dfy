/** The authentication flag that gates fetching the user's data. */
module AuthContext {
  import opened Wrappers

  /** The provider's state: a single flag. `login` takes no argument, so it records no identity. */
  class AuthProvider {
    var isLoggedIn: bool

    /** `useState(false)`: a session starts logged out. */
    constructor()
      ensures !isLoggedIn
    {
      isLoggedIn := false;
    }

    method Login()
      modifies this
      ensures isLoggedIn
    {
      isLoggedIn := true;
    }

    method Logout()
      modifies this
      ensures !isLoggedIn
    {
      isLoggedIn := false;
    }
  }

  const UseAuthMessage := "useAuth must be used within an AuthProvider"

  /** `useAuth()`: the provider's value, or the error thrown outside an `AuthProvider`. */
  function UseAuth<T>(context: Option<T>): (r: Result<T>)
    ensures r.Ok? <==> context.Some?
    ensures r.Ok? ==> r.value == context.value
    ensures r.Err? ==> r.message == UseAuthMessage
  {
    match context
    case None => Err(UseAuthMessage)
    case Some(c) => Ok(c)
  }
}
