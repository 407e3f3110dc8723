/**
 The login screen: the input check run before submitting, and the submit
 handler that calls `login`, stores the user on success and clears the form.
 */
module LoginPage {
  import opened Wrappers
  import opened Text
  import opened AuthScreen
  import Api

  const LoginSuccess: string := "login success"

  /** The two text fields of the screen. */
  datatype Form = Form(username: string, password: string)

  const EmptyForm: Form := Form("", "")

  /** `checkInput`: the warning of the first failing check, or None when both pass. */
  function CheckInput(f: Form): (r: Option<string>)
    ensures r.None? <==> !IsBlank(f.username) && !IsBlank(f.password)
    ensures r == Some(UsernameIsNull) <==> IsBlank(f.username)
    ensures r == Some(PasswordIsNull) <==> !IsBlank(f.username) && IsBlank(f.password)
  {
    if IsBlank(f.username) then Some(UsernameIsNull)
    else if IsBlank(f.password) then Some(PasswordIsNull)
    else None
  }

  /** The submit handler; `send` stands for the server behind `login`, and
      `dbWorks` for whether the SQLite calls of `addUser` succeed. */
  function LoginHandler(f: Form, send: (string, Api.LoginData) -> Api.Outcome<Api.User>, dbWorks: bool)
    : (e: Effects<Api.LoginData, Form>)
    ensures e.request.Some? <==> CheckInput(f).None?
    ensures e.request.Some? ==> e.request.value == Api.LoginData(f.username, f.password)
    ensures CheckInput(f).Some? ==> e.alerts == [Alert(WarningTitle, CheckInput(f).value)]
    ensures CheckInput(f).None? ==> e.alerts == [Alert(MessageTitle, Api.Login(e.request.value, send).message)]
    ensures e.store.AddUser? <==> e.request.Some? && Api.Login(e.request.value, send).message == LoginSuccess
    ensures e.store.AddUser? ==> e.store.user == Api.Login(e.request.value, send).data
    ensures e.navigateMain <==> e.store.AddUser? && e.store.user.Some? && dbWorks
    ensures e.stored <==> e.navigateMain
    ensures e.store.AddUser? && !e.stored ==> e.form == f
    ensures !(e.store.AddUser? && !e.stored) ==> e.form == EmptyForm
  {
    var data := Api.LoginData(f.username, f.password);
    Submit(CheckInput(f), data, Api.Login(data, send), LoginSuccess, dbWorks, f, EmptyForm)
  }
}
