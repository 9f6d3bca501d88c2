/** `LoginView` (Views/LoginView.swift): the agent's sign-in form. */
module LoginView {
  import opened Common
  import opened Flow
  import opened Api
  import opened VisitorInfoView

  /** The screen shown while `route == .login`. */
  class LoginScreen {
    const state: AppState
    const api: UsersApi
    var username: string
    var password: string
    var error: Option<string>
    var isLoading: bool

    constructor Appear(state: AppState, api: UsersApi)
      ensures this.state == state && this.api == api
      ensures username == "" && password == "" && error.None? && !isLoading
    {
      this.state := state;
      this.api := api;
      username := "";
      password := "";
      error := None;
      isLoading := false;
    }

    /** Sign In is enabled only when no attempt is running and both fields are filled in. */
    predicate SignInEnabled()
      reads this
    {
      !isLoading && username != "" && password != ""
    }

    /** The two text fields. */
    method EditCredentials(username: string, password: string)
      modifies this`username, this`password
      ensures this.username == username && this.password == password
    {
      this.username := username;
      this.password := password;
    }

    /**
     * `signIn`: clear the error, mark loading, log in through `UsersAPI`. Success signs the agent
     * in under the typed username and opens the disclosure; failure signs out and shows the
     * error's description, or "Login failed" when it has none (`describe` stands for
     * `(error as? LocalizedError)?.errorDescription`). Loading ends on every path.
     */
    method SignIn(first: Exchange, retry: Exchange, decodeLogin: Bytes -> Option<LoginResponse>,
                  utf8Text: Bytes -> Option<string>, describe: NSError -> Option<string>)
      returns (result: Result<LoginResponse, NSError>)
      requires state.route == Login && SignInEnabled()
      modifies this`error, this`isLoading, state`isAuthenticated, state`authUsername, state`route, api`authToken
      ensures !isLoading
      ensures result == if first.Failed? && IsTransportGlitch(first.error)
                        then LoginAttempt(retry, decodeLogin, utf8Text)
                        else LoginAttempt(first, decodeLogin, utf8Text)
      ensures result.Success? ==>
        state.isAuthenticated && state.authUsername == username && state.route == Disclosure
        && error.None? && api.authToken == Some(result.value.access_token)
      ensures result.Failure? ==>
        !state.isAuthenticated && error == Some(describe(result.error).GetOr("Login failed"))
        && state.authUsername == old(state.authUsername) && state.route == old(state.route)
        && api.authToken == old(api.authToken)
      ensures SignInInvariant(state)
    {
      error := None;
      isLoading := true;
      var sent;
      sent, result := api.Login(username, password, first, retry, decodeLogin, utf8Text);
      if result.Success? {
        state.isAuthenticated := true;
        state.authUsername := username;
        state.route := Disclosure;
      } else {
        state.isAuthenticated := false;
        error := Some(describe(result.error).GetOr("Login failed"));
      }
      isLoading := false;
    }
  }
}
