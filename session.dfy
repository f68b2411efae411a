/**
  The session of the `App` component (src/App.jsx): restoring a stored token
  at start-up, logging in, logging out, and which screen and which dashboard
  a state shows. `localStorage`'s "token" entry is the field `storage`; the
  login call's settled outcome is the parameter `reply`.
 */
module Session {
  import opened Js
  import Token
  import Api

  datatype View = AuthView | DashboardView

  /** The dashboard a role is routed to. */
  datatype Board = AdminView | DriverView | CustomerView

  /** What the main area renders. */
  datatype Screen = AuthScreen | DashboardScreen(board: Board)

  /** `{ token, ...decodeToken(token) }`. */
  datatype Session = Session(token: Value, identity: Token.Identity)

  const MissingTokenMessage := "No se recibió token desde el backend"
  const AccountCreatedNotice := "Cuenta de consumidor creada. Ahora inicia sesión."

  /**
    `Dashboard({ session })`: nothing without a session, otherwise the view of
    the session's role; a role that is neither the string "Admin" nor the
    string "Driver" gets the customer's view.
   */
  function Dashboard(session: Option<Session>): (board: Option<Board>)
    ensures board.None? <==> session.None?
    ensures board == Some(AdminView) <==> session.Some? && session.value.identity.role == Str("Admin")
    ensures board == Some(DriverView) <==> session.Some? && session.value.identity.role == Str("Driver")
    ensures board == Some(CustomerView) <==>
              session.Some? && session.value.identity.role != Str("Admin") && session.value.identity.role != Str("Driver")
  {
    match session
    case None => None
    case Some(s) =>
      if s.identity.role == Str("Admin") then Some(AdminView)
      else if s.identity.role == Str("Driver") then Some(DriverView)
      else Some(CustomerView)
  }

  /**
    The value the login handler reads its token from: the parsed body, or,
    for a response that was not JSON, the `Response` object itself, which has
    none of the properties `token`, `accessToken` and `jwt`.
   */
  function LoginData(reply: Api.Outcome): (data: Value)
    requires !reply.Thrown?
    ensures reply.Json? ==> data == reply.value
    ensures reply.Raw? ==> !Nullish(data) && !Truthy(LoginToken(data))
  {
    if reply.Json? then reply.value else Obj(map[])
  }

  /**
    `data.token || data.accessToken || data.jwt`: the first of the three
    properties that is truthy, or, when none is, the value of `jwt`.
   */
  function LoginToken(data: Value): (token: Value)
    requires !Nullish(data)
    ensures Truthy(token) <==>
              HasTruthyProp(data, "token") || HasTruthyProp(data, "accessToken") || HasTruthyProp(data, "jwt")
    ensures HasTruthyProp(data, "token") ==> token == data.props["token"]
    ensures !HasTruthyProp(data, "token") && HasTruthyProp(data, "accessToken") ==> token == data.props["accessToken"]
    ensures !HasTruthyProp(data, "token") && !HasTruthyProp(data, "accessToken") && HasTruthyProp(data, "jwt") ==>
              token == data.props["jwt"]
  {
    Or(Or(Prop(data, "token"), Prop(data, "accessToken")), Prop(data, "jwt"))
  }

  /**
    The message of the TypeError thrown by reading `key` of `null` or
    `undefined`. Its wording is up to the engine; this is the V8 wording.
   */
  function NullishReadMessage(v: Value, key: string): (message: string)
    requires Nullish(v)
    ensures v == Null ==> message == "Cannot read properties of null (reading '" + key + "')"
    ensures v == Undefined ==> message == "Cannot read properties of undefined (reading '" + key + "')"
  {
    "Cannot read properties of " + ToJsString(v) + " (reading '" + key + "')"
  }

  /** The login reply carries a usable token: the call settled with a value that holds a truthy one. */
  predicate DeliversToken(reply: Api.Outcome) {
    && !reply.Thrown?
    && !Nullish(LoginData(reply))
    && Truthy(LoginToken(LoginData(reply)))
  }

  class App {
    var session: Option<Session>
    var view: View
    var loading: bool
    var error: string
    /** `localStorage`'s "token" entry. */
    var storage: Option<string>
    /** Base64 decoding and `JSON.parse` of a token's payload segment; its results are JSON values, never a `NativeFunction`. */
    const decodePayload: string -> Option<Value>

    /** The two states of the machine: signed out on the auth view, or signed in on the dashboard. */
    ghost predicate Valid()
      reads this
    {
      session.Some? <==> view == DashboardView
    }

    /** The component as it first renders, before the start-up effect; `stored` is what the browser holds. */
    constructor(stored: Option<string>, decodePayload: string -> Option<Value>)
      ensures Valid()
      ensures session == None && view == AuthView && !loading && error == ""
      ensures storage == stored && this.decodePayload == decodePayload
    {
      session, view, loading, error := None, AuthView, false, "";
      storage := stored;
      this.decodePayload := decodePayload;
    }

    /** The start-up effect: a stored, non-empty token becomes the session and opens the dashboard. */
    method RestoreSession()
      requires Valid()
      modifies this
      ensures Valid()
      ensures storage == old(storage) && loading == old(loading) && error == old(error)
      ensures Api.TokenPresent(storage) ==>
                var token := Str(storage.value);
                session == Some(Session(token, Token.DecodeToken(token, decodePayload))) && view == DashboardView
      ensures !Api.TokenPresent(storage) ==> session == old(session) && view == old(view)
    {
      if storage.Some? && Truthy(Str(storage.value)) {
        var token := Str(storage.value);
        session := Some(Session(token, Token.DecodeToken(token, decodePayload)));
        view := DashboardView;
      }
    }

    /**
      `handleLogin`: calls `AuthApi.login(email, password)`, whose outcome is
      `reply`. A usable token is stored (as `String(token)`), decoded into the
      session, and opens the dashboard. Every other outcome only sets the
      error: the call's own message, the TypeError of reading `token` of a
      `null` body, or the missing-token message; storage, session and view
      stay as they were. Loading ends false either way.
     */
    method Login(email: string, password: string, reply: Api.Outcome) returns (call: Api.Endpoint)
      requires Valid()
      modifies this
      ensures Valid()
      ensures call == Api.AuthLogin(email, password)
      ensures !loading
      ensures DeliversToken(reply) ==>
                var token := LoginToken(LoginData(reply));
                && error == ""
                && storage == Some(ToJsString(token))
                && session == Some(Session(token, Token.DecodeToken(token, decodePayload)))
                && view == DashboardView
      ensures !DeliversToken(reply) ==>
                storage == old(storage) && session == old(session) && view == old(view)
      ensures reply.Thrown? ==> error == reply.message
      ensures !reply.Thrown? && Nullish(LoginData(reply)) ==> error == NullishReadMessage(LoginData(reply), "token")
      ensures !reply.Thrown? && !Nullish(LoginData(reply)) && !Truthy(LoginToken(LoginData(reply))) ==>
                error == MissingTokenMessage
    {
      error := "";
      loading := true;
      call := Api.AuthLogin(email, password);
      if reply.Thrown? {
        error := reply.message;
      } else {
        var data := LoginData(reply);
        if Nullish(data) {
          error := NullishReadMessage(data, "token");
        } else {
          var token := LoginToken(data);
          if !Truthy(token) {
            error := MissingTokenMessage;
          } else {
            storage := Some(ToJsString(token));
            session := Some(Session(token, Token.DecodeToken(token, decodePayload)));
            view := DashboardView;
          }
        }
      }
      loading := false;
    }

    /**
      `handleRegister`: calls `AuthApi.registerCustomer(fullName, email,
      password)`, whose outcome is `reply`. Like `handleLogin` it first clears
      the error and sets loading. A failed call sets the error to its message;
      a successful one shows the account-created alert (`notice`) and leaves
      the error clear. Storage, session and view are never touched, and
      loading ends false.
     */
    method Register(fullName: string, email: string, password: string, reply: Api.Outcome)
      returns (call: Api.Endpoint, notice: Option<string>)
      requires Valid()
      modifies this
      ensures Valid()
      ensures call == Api.AuthRegisterCustomer(fullName, email, password)
      ensures !loading
      ensures storage == old(storage) && session == old(session) && view == old(view)
      ensures reply.Thrown? ==> error == reply.message && notice == None
      ensures !reply.Thrown? ==> error == "" && notice == Some(AccountCreatedNotice)
    {
      error := "";
      loading := true;
      call := Api.AuthRegisterCustomer(fullName, email, password);
      if reply.Thrown? {
        error := reply.message;
        notice := None;
      } else {
        notice := Some(AccountCreatedNotice);
      }
      loading := false;
    }

    /** `handleLogout`: forgets the stored token and the session and returns to the auth view. */
    method Logout()
      requires Valid()
      modifies this
      ensures Valid()
      ensures storage == None && session == None && view == AuthView
      ensures loading == old(loading) && error == old(error)
    {
      storage := None;
      session := None;
      view := AuthView;
    }

    /** The main area: the auth screen without a session or on the auth view, else the session's dashboard. */
    function CurrentScreen(): (screen: Screen)
      reads this
      ensures screen == AuthScreen <==> session.None? || view == AuthView
      ensures screen.DashboardScreen? ==> Dashboard(session) == Some(screen.board)
    {
      if session.None? || view == AuthView then AuthScreen else DashboardScreen(Dashboard(session).value)
    }
  }

  /**
    A login whose reply delivers a string token, under any of the three keys
    and beside any other fields, followed by a reload of the page: the
    session restored from storage is the one the login set up, and the
    reloaded page shows the same screen.
   */
  method LoginThenReload(stored: Option<string>, decodePayload: string -> Option<Value>, email: string, password: string, reply: Api.Outcome)
    returns (before: Option<Session>, after: Option<Session>, screenBefore: Screen, screenAfter: Screen)
    requires DeliversToken(reply) && LoginToken(LoginData(reply)).Str?
    ensures before.Some? && before == after
    ensures screenBefore == screenAfter == DashboardScreen(Dashboard(before).value)
  {
    var app := new App(stored, decodePayload);
    var _ := app.Login(email, password, reply);
    before, screenBefore := app.session, app.CurrentScreen();
    var reloaded := new App(app.storage, decodePayload);
    reloaded.RestoreSession();
    after, screenAfter := reloaded.session, reloaded.CurrentScreen();
  }

  /** After a logout, a reload finds no token and stays signed out. */
  method LogoutThenReload(stored: Option<string>, decodePayload: string -> Option<Value>)
    returns (after: Option<Session>, screen: Screen)
    ensures after == None && screen == AuthScreen
  {
    var app := new App(stored, decodePayload);
    app.RestoreSession();
    app.Logout();
    var reloaded := new App(app.storage, decodePayload);
    reloaded.RestoreSession();
    after, screen := reloaded.session, reloaded.CurrentScreen();
  }
}
