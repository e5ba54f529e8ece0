/** How the pages and the route guard fit together: the login page writes the
    token and navigates, and the route table decides what that navigation shows. */
module Flows {
  import opened Options
  import opened Auth
  import opened Routing
  import Login
  import UsersList

  /** A successful login navigates to `/users`, which shows the user list
      exactly when the returned token is truthy and sends the visitor back to
      the login path otherwise. */
  lemma LoginSuccessLeadsToUsersList(s: Login.LoginState, token: Token)
    ensures var t := Login.Submitted(s, Login.LoginOk(token));
            && t.navigation == Some(USERS_PATH)
            && (IsPresent(token) ==> AppView(t.navigation.value, t.token) == Page(UsersListScreen))
            && (!IsPresent(token) ==> AppView(t.navigation.value, t.token) == Redirect(LOGIN_PATH))
  {
    AppViewCases(USERS_PATH, token);
  }

  /** A failed login keeps the visitor on the login page with the banner
      shown, and what `/users` shows is exactly what it showed before. */
  lemma LoginFailureStaysOnLogin(s: Login.LoginState)
    ensures var t := Login.Submitted(s, Login.LoginError);
            && Login.ShowsError(t)
            && AppView(LOGIN_PATH, t.token) == Page(LoginScreen)
            && AppView(USERS_PATH, t.token) == AppView(USERS_PATH, s.token)
  {
    AppViewCases(LOGIN_PATH, s.token);
  }

  /** Once the token is cleared, both the route guard and the list page's own
      effect send the visitor to the login path, and the list is not refetched. */
  lemma LogoutLeadsToLogin(s: UsersList.ListState, result: UsersList.FetchResult)
    ensures AppView(USERS_PATH, None) == Redirect(LOGIN_PATH)
    ensures UsersList.RequestedPage(s, None) == None
    ensures UsersList.EffectRan(s, None, result).navigation == Some(LOGIN_PATH)
    ensures UsersList.EffectRan(s, None, result).users == s.users
  {
    AppViewCases(USERS_PATH, None);
  }
}
