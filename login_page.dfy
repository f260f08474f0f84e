/** The login screen (src/components/LoginPage.tsx): the empty-field check, the
    call to `loginUser`, the `isLoggedIn` flag and the error messages. */
module LoginPage {
  import opened Wrappers
  import Api
  import Storage

  const MissingCredentials := "Wpisz login i hasło."
  const InvalidCredentials := "Niepoprawny login lub hasło."
  const ServerProblem := "Wystąpił problem z serwerem. Spróbuj później."
  const HomePath := "/"

  /** The two inputs, told apart by their `name` attribute. */
  datatype LoginField = LoginInput | PasswordInput

  datatype Credentials = Credentials(login: string, password: string)

  /** `{ ...formData, [e.target.name]: e.target.value }`. */
  function WithInput(c: Credentials, f: LoginField, v: string): (r: Credentials)
    ensures f == LoginInput ==> r.login == v && r.password == c.password
    ensures f == PasswordInput ==> r.password == v && r.login == c.login
  {
    match f
    case LoginInput => c.(login := v)
    case PasswordInput => c.(password := v)
  }

  /** The message a rejected `loginUser` call shows: a 401 or 403 answer means
      wrong credentials, anything else (another status, no answer) a server
      problem. */
  function LoginErrorMessage(e: CallError): (m: string)
    ensures m == InvalidCredentials <==>
              e.response.Some? && (e.response.value.status == 401 || e.response.value.status == 403)
    ensures m == InvalidCredentials || m == ServerProblem
  {
    if e.response.Some? && (e.response.value.status == 401 || e.response.value.status == 403) then
      InvalidCredentials
    else
      ServerProblem
  }

  /** How an attempt that reached the server ends: the error it shows, or none
      when the user is let in. */
  function AttemptError(result: Outcome<bool>): (m: Option<string>)
    ensures m.None? <==> result == Resolved(true)
    ensures result == Resolved(false) ==> m == Some(InvalidCredentials)
    ensures result.Rejected? ==> m == Some(LoginErrorMessage(result.error))
  {
    match result
    case Resolved(isSuccess) => if isSuccess then None else Some(InvalidCredentials)
    case Rejected(e) => Some(LoginErrorMessage(e))
  }

  /** What the user sees for each answer of /login: only a 200 lets them in;
      another 2xx status, a 401 and a 403 all read as wrong credentials; any
      other status, and no answer at all, as a server problem. */
  lemma LoginAttemptByStatus(status: Option<int>, serverMessage: string, message: string)
    ensures var m := AttemptError(Api.LoginCall(status, serverMessage, message));
            (m.None? <==> status == Some(200))
            && (m == Some(InvalidCredentials) <==>
                  status.Some? && (200 < status.value < 300 || status.value == 401 || status.value == 403))
            && (m == Some(ServerProblem) <==>
                  status.None? || !(200 <= status.value < 300 || status.value == 401 || status.value == 403))
  {
  }

  /** A 2xx answer other than 200 and a 401 or 403 rejection look the same to
      the user, though the first never reaches the `catch`. */
  lemma RefusalsLookAlike(answered: int, status: int, serverMessage: string, message: string)
    requires 200 < answered < 300
    requires status == 401 || status == 403
    ensures Api.LoginCall(Some(answered), serverMessage, message).Resolved?
    ensures Api.LoginCall(Some(status), serverMessage, message).Rejected?
    ensures AttemptError(Api.LoginCall(Some(answered), serverMessage, message)) ==
            AttemptError(Api.LoginCall(Some(status), serverMessage, message))
  {
  }

  class LoginPageModel {
    var formData: Credentials
    var isLoading: bool
    var error: Option<string>
    var successMsg: Option<string>
    /** The credentials passed to `loginUser`, oldest first. */
    var loginCalls: seq<Credentials>
    /** The paths navigated to. */
    var navigations: seq<string>
    const storage: Storage.LocalStorage

    /** Only credentials with both parts filled in are ever sent, and the
        user is only sent home when the flag is set. */
    predicate Valid()
      reads this, storage
    {
      (forall c <- loginCalls :: c.login != "" && c.password != "")
      && (isLoading ==> loginCalls != [] && error == None)
      && (navigations != [] ==> storage.LoggedIn())
    }

    /** The first render; the register page's message, if it sent one, is
        shown above the form. */
    constructor(storage: Storage.LocalStorage, stateMessage: Option<string>)
      ensures Valid()
      ensures this.storage == storage
      ensures formData == Credentials("", "") && !isLoading && error == None
      ensures successMsg == (if stateMessage.Some? && stateMessage.value != "" then stateMessage else None)
      ensures loginCalls == [] && navigations == []
    {
      this.storage := storage;
      formData := Credentials("", "");
      isLoading := false;
      error := None;
      successMsg := if stateMessage.Some? && stateMessage.value != "" then stateMessage else None;
      loginCalls := [];
      navigations := [];
    }

    /** `handleChange`: typing updates the input and clears any error. */
    method HandleChange(f: LoginField, value: string)
      requires Valid()
      modifies this
      ensures Valid()
      ensures formData == WithInput(old(formData), f, value) && error == None
      ensures isLoading == old(isLoading) && loginCalls == old(loginCalls)
      ensures navigations == old(navigations) && successMsg == old(successMsg)
    {
      formData := WithInput(formData, f, value);
      if error.Some? {
        error := None;
      }
    }

    /** `handleSubmit` up to its `await`: an empty login or password only
        shows the fixed message; otherwise the call starts. */
    method HandleSubmit()
      requires Valid() && !isLoading
      modifies this
      ensures Valid()
      ensures formData.login == "" || formData.password == "" ==>
                error == Some(MissingCredentials) && !isLoading && loginCalls == old(loginCalls)
      ensures formData.login != "" && formData.password != "" ==>
                error == None && isLoading && loginCalls == old(loginCalls) + [formData]
      ensures formData == old(formData) && navigations == old(navigations) && successMsg == old(successMsg)
    {
      if formData.login == "" || formData.password == "" {
        error := Some(MissingCredentials);
        return;
      }
      isLoading := true;
      error := None;
      loginCalls := loginCalls + [formData];
    }

    /** `handleSubmit` after `loginUser` settled: on true the flag is stored
        and the user goes home; otherwise the mapped message is shown and the
        flag is left as it was. Loading ends either way. */
    method ReceiveLogin(result: Outcome<bool>)
      requires Valid() && isLoading
      modifies this, storage
      ensures Valid()
      ensures !isLoading && error == AttemptError(result)
      ensures result == Resolved(true) ==>
                storage.flags == old(storage.flags)[Storage.IsLoggedInKey := "true"]
                && navigations == old(navigations) + [HomePath]
      ensures result != Resolved(true) ==>
                storage.flags == old(storage.flags) && navigations == old(navigations)
      ensures storage.savedCart == old(storage.savedCart) && storage.user == old(storage.user)
      ensures storage.mockOrders == old(storage.mockOrders)
      ensures formData == old(formData) && loginCalls == old(loginCalls) && successMsg == old(successMsg)
    {
      isLoading := false;
      match result
      case Resolved(isSuccess) =>
        if isSuccess {
          storage.flags := storage.flags[Storage.IsLoggedInKey := "true"];
          navigations := navigations + [HomePath];
        } else {
          error := Some(InvalidCredentials);
        }
      case Rejected(e) =>
        error := Some(LoginErrorMessage(e));
    }
  }
}
