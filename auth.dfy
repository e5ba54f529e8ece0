/** The session token shared by the pages through the authentication context.
    The context's own implementation (storage, persistence) is not part of this
    model: the token is abstract state that `login` sets and `logout` clears. */
module Auth {
  import opened Options

  /** A token as the pages see it; `None` stands for null or undefined. */
  type Token = Option<string>

  /** JavaScript truthiness of a token: null, undefined and "" are all falsy,
      every other string is truthy. */
  predicate IsPresent(token: Token)
    ensures IsPresent(token) <==> token !in {None, Some("")}
  {
    token.Some? && token.value != ""
  }

  /** The session store behind `useAuth()`. */
  class AuthSession {
    var token: Token

    constructor ()
      ensures token == None
    {
      token := None;
    }

    /** `login(token)`: stores whatever value it is given, without validation. */
    method Login(t: Token)
      modifies this
      ensures token == t
    {
      token := t;
    }

    /** `logout()`: forgets the token. */
    method Logout()
      modifies this
      ensures token == None && !IsPresent(token)
    {
      token := None;
    }
  }
}
