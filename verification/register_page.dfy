/**
 The registration screen: the input check run before submitting, and the
 submit handler (named `loginHandler` in the screen's code) that calls
 `register`, stores the user on success and clears the form.
 */
module RegisterPage {
  import opened Wrappers
  import opened Text
  import opened AuthScreen
  import Api

  const PasswordsDiffer: string := "passwords are not the same"
  const NameIsNull: string := "Name is Null"
  const RegisterSuccess: string := "register success"

  /** The four text fields of the screen. */
  datatype Form = Form(name: string, username: string, password: string, repeat: string)

  const EmptyForm: Form := Form("", "", "", "")

  /** `checkInput`: the warning of the first failing check, or None when all pass. */
  function CheckInput(f: Form): (r: Option<string>)
    ensures r.None? <==> f.password == f.repeat && !IsBlank(f.name) && !IsBlank(f.username) && !IsBlank(f.password)
    ensures r == Some(PasswordsDiffer) <==> f.password != f.repeat
    ensures r == Some(NameIsNull) <==> f.password == f.repeat && IsBlank(f.name)
    ensures r == Some(UsernameIsNull) <==> f.password == f.repeat && !IsBlank(f.name) && IsBlank(f.username)
    ensures r == Some(PasswordIsNull)
            <==> f.password == f.repeat && !IsBlank(f.name) && !IsBlank(f.username) && IsBlank(f.password)
  {
    if f.password != f.repeat then Some(PasswordsDiffer)
    else if IsBlank(f.name) then Some(NameIsNull)
    else if IsBlank(f.username) then Some(UsernameIsNull)
    else if IsBlank(f.password) then Some(PasswordIsNull)
    else None
  }

  /** A password made only of white space is refused as blank even when the
      repetition matches it character for character. */
  lemma WhitespacePasswordRefused(f: Form)
    requires f.password == f.repeat
    requires forall k :: 0 <= k < |f.password| ==> IsSpace(f.password[k])
    requires !IsBlank(f.name) && !IsBlank(f.username)
    ensures CheckInput(f) == Some(PasswordIsNull)
  {
  }

  /** The mismatch check is exact: a repetition differing only in surrounding
      white space is refused, before any blank check. */
  lemma MismatchBeforeBlank(f: Form)
    requires Trim(f.password) == Trim(f.repeat) && f.password != f.repeat
    ensures CheckInput(f) == Some(PasswordsDiffer)
  {
  }

  /** The submit handler; `send` stands for the server behind `register`, and
      `dbWorks` for whether the SQLite calls of `addUser` succeed. */
  function LoginHandler(f: Form, send: (string, Api.RegisterData) -> Api.Outcome<Api.User>, dbWorks: bool)
    : (e: Effects<Api.RegisterData, Form>)
    ensures e.request.Some? <==> CheckInput(f).None?
    ensures e.request.Some? ==> e.request.value == Api.RegisterData(f.name, f.username, f.password)
    ensures CheckInput(f).Some? ==> e.alerts == [Alert(WarningTitle, CheckInput(f).value)]
    ensures CheckInput(f).None? ==> e.alerts == [Alert(MessageTitle, Api.Register(e.request.value, send).message)]
    ensures e.store.AddUser? <==> e.request.Some? && Api.Register(e.request.value, send).message == RegisterSuccess
    ensures e.store.AddUser? ==> e.store.user == Api.Register(e.request.value, send).data
    ensures e.navigateMain <==> e.store.AddUser? && e.store.user.Some? && dbWorks
    ensures e.stored <==> e.navigateMain
    ensures e.store.AddUser? && !e.stored ==> e.form == f
    ensures !(e.store.AddUser? && !e.stored) ==> e.form == EmptyForm
  {
    var data := Api.RegisterData(f.name, f.username, f.password);
    Submit(CheckInput(f), data, Api.Register(data, send), RegisterSuccess, dbWorks, f, EmptyForm)
  }

  /** A success reply without user data makes `addUser` throw: the handler
      stops before navigating and before clearing the fields. */
  lemma SuccessWithoutDataKeepsForm(f: Form, send: (string, Api.RegisterData) -> Api.Outcome<Api.User>, dbWorks: bool)
    requires CheckInput(f).None?
    requires send(Api.RegisterEndpoint, Api.RegisterData(f.name, f.username, f.password))
             == Api.Resolved(Api.Body(200, RegisterSuccess, None))
    ensures LoginHandler(f, send, dbWorks).store == AddUser(None)
    ensures !LoginHandler(f, send, dbWorks).navigateMain
    ensures LoginHandler(f, send, dbWorks).form == f
  {
  }

  /** A failure without a server reply never logs the user in: the synthesized
      bodies carry neither the success message nor user data. */
  lemma NoServerNoLogin(f: Form, send: (string, Api.RegisterData) -> Api.Outcome<Api.User>, dbWorks: bool)
    requires CheckInput(f).None?
    requires Api.ServerBody(send(Api.RegisterEndpoint, Api.RegisterData(f.name, f.username, f.password))).None?
    ensures !LoginHandler(f, send, dbWorks).navigateMain
    ensures LoginHandler(f, send, dbWorks).store == NoStore
    ensures LoginHandler(f, send, dbWorks).form == EmptyForm
  {
  }
}
