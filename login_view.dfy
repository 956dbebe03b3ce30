/** The login form: both fields required, a loading flag around the call to
    the context's login, and one outcome per result of that call. */
module LoginView {
  import opened Common
  import Auth

  /** How the awaited login call ended. */
  datatype LoginCall = Returned(success: bool) | Threw

  /** The toast shown. */
  datatype LoginMessage =
    | FillAllFields     // "Veuillez remplir tous les champs"
    | Welcome           // "Connexion réussie !"
    | WrongCredentials  // "Nom d'utilisateur ou mot de passe incorrect"
    | ConnectionError   // "Erreur de connexion"

  function MessageFor(result: LoginCall): (m: LoginMessage)
    ensures m == Welcome <==> result == Returned(true)
    ensures m == WrongCredentials <==> result == Returned(false)
    ensures m == ConnectionError <==> result.Threw?
  {
    match result
    case Returned(success) => if success then Welcome else WrongCredentials
    case Threw => ConnectionError
  }

  class LoginForm {
    var username: string
    var password: string
    var loading: bool

    constructor ()
      ensures username == "" && password == "" && !loading
    {
      username, password, loading := "", "", false;
    }

    /** handleLogin. An empty field stops it before the call, with loading
        untouched. Otherwise login is called once with the fields as typed,
        loading is true while it runs and false after every outcome, and
        onLoginSuccess is called exactly when the call answered true.
        `loadingAtCall` is the flag's value when login is invoked. */
    method HandleLogin(result: LoginCall)
      returns (called: Option<Auth.Credentials>, loadingAtCall: Option<bool>, message: LoginMessage, successCalls: nat)
      modifies this`loading
      ensures username == "" || password == "" ==>
                called == None && loadingAtCall == None && message == FillAllFields
                && successCalls == 0 && loading == old(loading)
      ensures username != "" && password != "" ==>
                called == Some(Auth.Credentials(username, password)) && loadingAtCall == Some(true)
                && !loading && message == MessageFor(result)
      ensures successCalls == (if called.Some? && result == Returned(true) then 1 else 0)
    {
      if username == "" || password == "" {
        return None, None, FillAllFields, 0;
      }
      loading := true;
      called, loadingAtCall := Some(Auth.Credentials(username, password)), Some(loading);
      successCalls := 0;
      match result {
        case Returned(success) =>
          if success {
            message := Welcome;
            successCalls := successCalls + 1;
          } else {
            message := WrongCredentials;
          }
        case Threw =>
          message := ConnectionError;
      }
      loading := false;
    }
  }
}
