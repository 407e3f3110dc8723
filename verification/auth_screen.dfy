/**
 What the login and registration screens share: the warning texts, the alert
 dialogs, the call of `addUser`, and the submit handler both screens run
 (`loginHandler` in each).
 */
module AuthScreen {
  import opened Wrappers
  import Api

  const UsernameIsNull: string := "Username is Null"
  const PasswordIsNull: string := "password is Null"

  const WarningTitle: string := "Warning!"
  const MessageTitle: string := "Message"

  datatype Alert = Alert(title: string, message: string)

  /** A call of `addUser`, with the `data` of the reply as it came. */
  datatype StoreCall = NoStore | AddUser(user: Option<Api.User>)

  /** Everything one run of a submit handler does: the alerts shown, the
      request sent, the `addUser` call and whether it resolved, the navigation
      to Main, and the form's fields afterwards. */
  datatype Effects<Req, F> = Effects(
    alerts: seq<Alert>,
    request: Option<Req>,
    store: StoreCall,
    stored: bool,
    navigateMain: bool,
    form: F)

  /** `addUser` resolves only when it gets a user (reading a field of an
      undefined `data` throws) and the SQLite calls succeed (`dbWorks`). */
  predicate AddUserResolves(user: Option<Api.User>, dbWorks: bool) {
    user.Some? && dbWorks
  }

  /** The submit handler, given the input check's verdict, the request it would
      send and the reply that request gets. When `addUser` rejects, the handler
      rejects there: no navigation and no field reset. */
  function Submit<Req, F>(warning: Option<string>, data: Req, reply: Api.Body<Api.User>, success: string,
                          dbWorks: bool, form: F, empty: F): (e: Effects<Req, F>)
    ensures e.request.Some? <==> warning.None?
    ensures e.request.Some? ==> e.request.value == data
    ensures warning.Some? ==> e.alerts == [Alert(WarningTitle, warning.value)]
    ensures warning.None? ==> e.alerts == [Alert(MessageTitle, reply.message)]
    ensures e.store.AddUser? <==> warning.None? && reply.message == success
    ensures e.store.AddUser? ==> e.store.user == reply.data
    ensures e.stored <==> e.store.AddUser? && AddUserResolves(reply.data, dbWorks)
    ensures e.navigateMain <==> e.stored
    ensures e.store.AddUser? && !e.stored ==> e.form == form
    ensures !(e.store.AddUser? && !e.stored) ==> e.form == empty
  {
    match warning
    case Some(w) =>
      Effects([Alert(WarningTitle, w)], None, NoStore, false, false, empty)
    case None =>
      var alerts := [Alert(MessageTitle, reply.message)];
      if reply.message != success then
        Effects(alerts, Some(data), NoStore, false, false, empty)
      else if AddUserResolves(reply.data, dbWorks) then
        Effects(alerts, Some(data), AddUser(reply.data), true, true, empty)
      else
        Effects(alerts, Some(data), AddUser(reply.data), false, false, form)
  }
}
