/**
 The HTTP client wrappers `login`, `register` and `getUsers`: each sends one
 request and turns whatever happened into a response body. The transport is a
 parameter (`send`); only the classification of its outcome is modelled.
 */
module Api {
  import opened Wrappers

  datatype User = User(userUuid: string, username: string, name: string)

  datatype LoginData = LoginData(username: string, password: string)

  datatype RegisterData = RegisterData(name: string, username: string, password: string)

  /** A response body: `AuthResponse`/`UsersResponse` carry `data`, `ErrorResponse` does not. */
  datatype Body<D> = Body(status: int, message: string, data: Option<D>)

  /** What a request rejected with: an axios error (with or without a response,
      with or without a request having gone out), or anything else that was thrown. */
  datatype Thrown<D> =
    | LibraryError(response: Option<Body<D>>, requestSent: bool)
    | OtherError

  /** How one request ended. */
  datatype Outcome<D> = Resolved(body: Body<D>) | Rejected(error: Thrown<D>)

  const NoResponseStatus: int := 504
  const NoResponseMessage: string := "No response received from the server"
  const UnexpectedStatus: int := 500
  const UnexpectedMessage: string := "An unexpected error occurred"

  const DefaultServerIp: string := "127.0.0.1"
  const LoginEndpoint: string := "/auth/login"
  const RegisterEndpoint: string := "/auth/register"

  function UsersEndpoint(uuid: string): string {
    "/user/" + uuid
  }

  /** `SERVER_IP = IP_API || '127.0.0.1'`: the configured address when it is truthy. */
  function ServerIp(ipApi: Option<string>): (ip: string)
    ensures ip != []
    ensures ipApi.Some? && ipApi.value != [] ==> ip == ipApi.value
    ensures ipApi.None? || ipApi.value == [] ==> ip == DefaultServerIp
  {
    if ipApi.Some? && ipApi.value != [] then ipApi.value else DefaultServerIp
  }

  /** The body the server itself produced, when the outcome carries one. */
  function ServerBody<D>(o: Outcome<D>): Option<Body<D>> {
    match o
    case Resolved(b) => Some(b)
    case Rejected(LibraryError(Some(b), _)) => Some(b)
    case Rejected(_) => None
  }

  /** The outcome is an axios error whose request went out but got no response. */
  predicate NoResponse<D>(o: Outcome<D>) {
    o.Rejected? && o.error.LibraryError? && o.error.response.None? && o.error.requestSent
  }

  /** The shared `try`/`catch` of the three wrappers. */
  function Classify<D>(o: Outcome<D>): (r: Body<D>)
    ensures ServerBody(o).Some? ==> r == ServerBody(o).value
    ensures NoResponse(o) ==> r == Body(NoResponseStatus, NoResponseMessage, None)
    ensures ServerBody(o).None? && !NoResponse(o) ==> r == Body(UnexpectedStatus, UnexpectedMessage, None)
  {
    if o.Resolved? then
      o.body
    else if o.error.LibraryError? && o.error.response.Some? then
      o.error.response.value
    else if o.error.LibraryError? && o.error.requestSent then
      Body(NoResponseStatus, NoResponseMessage, None)
    else
      Body(UnexpectedStatus, UnexpectedMessage, None)
  }

  /** Every body is either the server's own or one of the two synthesized ones. */
  lemma ClassifyThreeWay<D>(o: Outcome<D>)
    ensures (ServerBody(o).Some? && Classify(o) == ServerBody(o).value)
         || Classify(o) == Body(NoResponseStatus, NoResponseMessage, None)
         || Classify(o) == Body(UnexpectedStatus, UnexpectedMessage, None)
    ensures Classify(o).data.Some? ==> ServerBody(o).Some?
  {
  }

  /** `login`: POST the credentials to the login endpoint and classify the outcome. */
  function Login(data: LoginData, send: (string, LoginData) -> Outcome<User>): (r: Body<User>)
    ensures ServerBody(send(LoginEndpoint, data)).Some? ==> r == ServerBody(send(LoginEndpoint, data)).value
    ensures NoResponse(send(LoginEndpoint, data)) ==> r == Body(NoResponseStatus, NoResponseMessage, None)
    ensures ServerBody(send(LoginEndpoint, data)).None? && !NoResponse(send(LoginEndpoint, data))
            ==> r == Body(UnexpectedStatus, UnexpectedMessage, None)
  {
    Classify(send(LoginEndpoint, data))
  }

  /** `register`: POST the new user to the register endpoint and classify the outcome. */
  function Register(data: RegisterData, send: (string, RegisterData) -> Outcome<User>): (r: Body<User>)
    ensures ServerBody(send(RegisterEndpoint, data)).Some? ==> r == ServerBody(send(RegisterEndpoint, data)).value
    ensures NoResponse(send(RegisterEndpoint, data)) ==> r == Body(NoResponseStatus, NoResponseMessage, None)
    ensures ServerBody(send(RegisterEndpoint, data)).None? && !NoResponse(send(RegisterEndpoint, data))
            ==> r == Body(UnexpectedStatus, UnexpectedMessage, None)
  {
    Classify(send(RegisterEndpoint, data))
  }

  /** `getUsers`: GET the contact list of `uuid` and classify the outcome. */
  function GetUsers(uuid: string, get: string -> Outcome<seq<User>>): (r: Body<seq<User>>)
    ensures ServerBody(get(UsersEndpoint(uuid))).Some? ==> r == ServerBody(get(UsersEndpoint(uuid))).value
    ensures NoResponse(get(UsersEndpoint(uuid))) ==> r == Body(NoResponseStatus, NoResponseMessage, None)
    ensures ServerBody(get(UsersEndpoint(uuid))).None? && !NoResponse(get(UsersEndpoint(uuid)))
            ==> r == Body(UnexpectedStatus, UnexpectedMessage, None)
  {
    Classify(get(UsersEndpoint(uuid)))
  }

  /** The three wrappers treat the same kind of failure identically: a failure
      without a server body yields the same synthesized body from each of them. */
  lemma SameClassification(l: LoginData, sendL: (string, LoginData) -> Outcome<User>,
                           g: RegisterData, sendR: (string, RegisterData) -> Outcome<User>,
                           uuid: string, get: string -> Outcome<seq<User>>)
    requires ServerBody(sendL(LoginEndpoint, l)).None? && ServerBody(sendR(RegisterEndpoint, g)).None?
    requires ServerBody(get(UsersEndpoint(uuid))).None?
    requires NoResponse(sendL(LoginEndpoint, l)) == NoResponse(sendR(RegisterEndpoint, g)) == NoResponse(get(UsersEndpoint(uuid)))
    ensures Login(l, sendL) == Register(g, sendR)
    ensures Login(l, sendL).status == GetUsers(uuid, get).status
    ensures Login(l, sendL).message == GetUsers(uuid, get).message
  {
  }
}
