/**
 * The login screen: the checks made before a login request, the reading of the
 * server's answer, the remote re-check of a stored token (which lets the user in
 * when the server cannot be reached) and the routing done when the screen opens.
 */
module Login {
  import opened Wrappers
  import opened Text
  import opened Session

  /** A response body as the screen reads it: its string fields by name, or text that is not a JSON object. */
  datatype JsonBody = JsonObject(fields: map<string, string>) | NotJson(error: string)

  /** What a request came back with: an HTTP reply, or an exception with its message. */
  datatype HttpOutcome = Reply(code: nat, body: JsonBody) | CommunicationError(message: string)

  /** OkHttp's `isSuccessful`: a 2xx status code. */
  predicate IsSuccessful(code: nat)
  {
    200 <= code < 300
  }

  /** `optString(key, fallback)`. */
  function OptString(fields: map<string, string>, key: string, fallback: string): string
  {
    if key in fields then fields[key] else fallback
  }

  const MsgMissingCredentials: string := "Informe e-mail e senha."
  const MsgOffline: string := "Sem conexão com a internet para efetuar o primeiro login."
  const MsgPending: string := "Cadastro realizado. Aguarde o administrador liberar seu acesso."
  const MsgBlocked: string := "Seu acesso está bloqueado. Contate o administrador."
  const MsgEmptyToken: string := "Resposta inválida do servidor: token vazio."
  const MsgRevoked: string := "Seu acesso foi bloqueado pelo administrador."

  /** Whether the login button sends a request, and with what; otherwise the status line it shows. */
  datatype LoginGate = Proceed(email: string, password: string) | Halt(message: string)

  /**
   * The checks of the login button: trimmed e-mail and password must both be
   * non-empty, and the device must be online; no request is sent otherwise.
   */
  function CheckLoginInput(emailText: string, passwordText: string, online: bool): (g: LoginGate)
    ensures g.Proceed? <==> Trim(emailText) != "" && Trim(passwordText) != "" && online
    ensures g.Proceed? ==> g.email == Trim(emailText) && g.password == Trim(passwordText)
    ensures (IsBlank(emailText) || IsBlank(passwordText)) ==> g == Halt(MsgMissingCredentials)
    ensures !IsBlank(emailText) && !IsBlank(passwordText) && !online ==> g == Halt(MsgOffline)
  {
    var email := Trim(emailText);
    var password := Trim(passwordText);
    if email == "" || password == "" then Halt(MsgMissingCredentials)
    else if !online then Halt(MsgOffline)
    else Proceed(email, password)
  }

  /** The result of a login request: the token to store, or the message for the status line. */
  datatype LoginResult = LoggedIn(token: string) | Failed(message: string)

  /** The login response carries status `ok` and a non-empty token. */
  predicate GrantsAccess(outcome: HttpOutcome)
  {
    && outcome.Reply?
    && IsSuccessful(outcome.code)
    && outcome.body.JsonObject?
    && OptString(outcome.body.fields, "status", "") == "ok"
    && "token" in outcome.body.fields
    && outcome.body.fields["token"] != ""
  }

  /**
   * The reading of the login response: only status `ok` with a non-empty
   * token logs in, with that token; every other answer fails with its own
   * message.
   */
  function ClassifyLoginReply(outcome: HttpOutcome): (r: LoginResult)
    ensures r.LoggedIn? <==> GrantsAccess(outcome)
    ensures r.LoggedIn? ==> r.token == outcome.body.fields["token"]
    ensures outcome.Reply? && !IsSuccessful(outcome.code) ==> r == Failed("Erro: " + NatToString(outcome.code))
    ensures outcome.CommunicationError? ==> r == Failed("Erro de comunicação: " + outcome.message)
    ensures outcome.Reply? && IsSuccessful(outcome.code) && outcome.body.JsonObject? ==>
      var status := OptString(outcome.body.fields, "status", "");
      && (status == "pending_approval" ==> r == Failed(MsgPending))
      && (status == "blocked" ==> r == Failed(MsgBlocked))
      && (status == "ok" && !GrantsAccess(outcome) ==> r == Failed(MsgEmptyToken))
      && (status !in {"ok", "pending_approval", "blocked"} ==> r == Failed("Status desconhecido: " + status))
  {
    match outcome
    case CommunicationError(message) => Failed("Erro de comunicação: " + message)
    case Reply(code, body) =>
      if !IsSuccessful(code) then Failed("Erro: " + NatToString(code))
      else
        match body
        case NotJson(error) => Failed("Erro de comunicação: " + error)
        case JsonObject(fields) =>
          var status := OptString(fields, "status", "");
          var token := if "token" in fields then Some(fields["token"]) else None;
          if status == "pending_approval" then Failed(MsgPending)
          else if status == "blocked" then Failed(MsgBlocked)
          else if status == "ok" then
            if token.Some? && token.value != "" then LoggedIn(token.value) else Failed(MsgEmptyToken)
          else Failed("Status desconhecido: " + status)
  }

  /** Where the login screen leaves the user: the main screen, or the login form with a status line. */
  datatype Screen = MainScreen | LoginScreen(status: string)

  /**
   * `realizarLogin`: a successful login stores the session for the typed
   * e-mail and opens the main screen; a failed one stores nothing and shows
   * its message.
   */
  method RealizarLogin(session: SessionManager, email: string, outcome: HttpOutcome) returns (screen: Screen)
    requires session.Valid()
    modifies session
    ensures session.Valid()
    ensures screen == MainScreen <==> GrantsAccess(outcome)
    ensures GrantsAccess(outcome) ==>
      && session.GetEmail() == Some(email)
      && session.GetToken() == Some(outcome.body.fields["token"])
      && session.IsAuthorized()
    ensures !GrantsAccess(outcome) ==>
      screen == LoginScreen(ClassifyLoginReply(outcome).message) && session.prefs == old(session.prefs)
  {
    var result := ClassifyLoginReply(outcome);
    match result
    case LoggedIn(token) =>
      session.SaveSession(email, token);
      screen := MainScreen;
    case Failed(message) =>
      screen := LoginScreen(message);
  }

  /**
   * The login button: when the input checks fail no request is sent and the
   * session is untouched; otherwise the request's outcome decides.
   */
  method OnLoginClick(session: SessionManager, emailText: string, passwordText: string, online: bool,
                      outcome: HttpOutcome) returns (requestSent: bool, screen: Screen)
    requires session.Valid()
    modifies session
    ensures session.Valid()
    ensures requestSent <==> CheckLoginInput(emailText, passwordText, online).Proceed?
    ensures !requestSent ==>
      && screen == LoginScreen(CheckLoginInput(emailText, passwordText, online).message)
      && session.prefs == old(session.prefs)
    ensures requestSent ==> (screen == MainScreen <==> GrantsAccess(outcome))
    ensures requestSent && GrantsAccess(outcome) ==>
      && session.GetEmail() == Some(Trim(emailText))
      && session.GetToken() == Some(outcome.body.fields["token"])
      && session.IsAuthorized()
    ensures requestSent && !GrantsAccess(outcome) ==>
      && screen == LoginScreen(ClassifyLoginReply(outcome).message)
      && session.prefs == old(session.prefs)
  {
    var gate := CheckLoginInput(emailText, passwordText, online);
    match gate
    case Halt(message) =>
      requestSent := false;
      screen := LoginScreen(message);
    case Proceed(email, _) =>
      requestSent := true;
      screen := RealizarLogin(session, email, outcome);
  }

  /**
   * `checkRemoteStatus`: no stored token means not allowed; a non-2xx reply
   * means not allowed; a readable reply allows only status `ok` (a missing
   * status counts as `blocked`); any exception, including a body that is not
   * JSON, allows (the screen fails open).
   */
  function CheckRemoteStatus(token: Option<string>, outcome: HttpOutcome): (allowed: bool)
    ensures allowed <==>
      && token.Some?
      && (|| outcome.CommunicationError?
          || (IsSuccessful(outcome.code) && (outcome.body.NotJson? || OptString(outcome.body.fields, "status", "") == "ok")))
    ensures outcome.Reply? && outcome.body.JsonObject? && "status" !in outcome.body.fields ==> !allowed
  {
    match token
    case None => false
    case Some(_) =>
      match outcome
      case CommunicationError(_) => true
      case Reply(code, body) =>
        if !IsSuccessful(code) then false
        else
          match body
          case NotJson(_) => true
          case JsonObject(fields) => OptString(fields, "status", "blocked") == "ok"
  }

  /**
   * The routing of `onCreate`: an unauthorised user gets the login form; an
   * authorised one goes straight to the main screen when offline, and when
   * online only if the remote check allows it, the session being cleared and
   * the block message shown otherwise.
   */
  method OnCreate(session: SessionManager, online: bool, outcome: HttpOutcome) returns (screen: Screen)
    requires session.Valid()
    modifies session
    ensures session.Valid()
    ensures !old(session.IsAuthorized()) ==> screen == LoginScreen("") && session.prefs == old(session.prefs)
    ensures old(session.IsAuthorized()) && !online ==> screen == MainScreen && session.prefs == old(session.prefs)
    ensures old(session.IsAuthorized()) && online && CheckRemoteStatus(old(session.GetToken()), outcome) ==>
      screen == MainScreen && session.prefs == old(session.prefs)
    ensures old(session.IsAuthorized()) && online && !CheckRemoteStatus(old(session.GetToken()), outcome) ==>
      && screen == LoginScreen(MsgRevoked)
      && session.GetToken() == None && session.GetEmail() == None && !session.IsAuthorized()
  {
    if session.IsAuthorized() {
      if online {
        var blocked := !CheckRemoteStatus(session.GetToken(), outcome);
        if blocked {
          session.ClearSession();
          screen := LoginScreen(MsgRevoked);
        } else {
          screen := MainScreen;
        }
      } else {
        screen := MainScreen;
      }
    } else {
      screen := LoginScreen("");
    }
  }
}
