/** The sign-in screen: one form that either logs in or registers, checks
    that the fields it needs are filled, and hands over to the auth context. */
module AuthScreen {
  import opened Seqs
  import opened AuthContext

  /** What handleAuth does with the form before anything is sent. */
  datatype AuthStep =
    | MissingCredentials      // "Preencha email e senha"
    | MissingProfile          // "Preencha todos os campos"
    | Send(request: AuthRequest)

  function HandleAuthStep(isLogin: bool, email: string, password: string, name: string, vehiclePlate: string): AuthStep {
    if email == "" || password == "" then MissingCredentials
    else if !isLogin && (name == "" || vehiclePlate == "") then MissingProfile
    else if isLogin then Send(LoginRequest(email, password))
    else Send(RegisterRequest(email, password, name, vehiclePlate))
  }

  /** A request goes out exactly when email and password are filled and, to
      register, name and plate too; it carries the fields as typed, and the
      mode picks the request. Logging in ignores the registration fields. */
  lemma HandleAuthStepSpec(isLogin: bool, email: string, password: string, name: string, vehiclePlate: string)
    ensures var step := HandleAuthStep(isLogin, email, password, name, vehiclePlate);
      && (step.Send? <==> email != "" && password != "" && (isLogin || (name != "" && vehiclePlate != "")))
      && (step.MissingCredentials? <==> email == "" || password == "")
      && (step.Send? ==> (step.request.LoginRequest? <==> isLogin))
      && (step.Send? ==> step.request.email == email && step.request.password == password)
      && (step.Send? && !isLogin ==> step.request.name == name && step.request.vehiclePlate == vehiclePlate)
    ensures isLogin ==> HandleAuthStep(isLogin, email, password, name, vehiclePlate) == HandleAuthStep(isLogin, email, password, "", "")
  {
  }

  /** Where the screen ends up. */
  datatype AuthOutcome = Alert(message: string) | GoHome

  /** handleAuth: the guard, then login or register through the session; a
      granted session leads home, anything else to an alert that depends on
      the mode. */
  method HandleAuth(session: AuthSession, isLogin: bool, email: string, password: string,
                    name: string, vehiclePlate: string, server: AuthRequest -> AuthResponse)
    returns (outcome: AuthOutcome)
    modifies session`storage, session`user, session`isLoading
    ensures var step := HandleAuthStep(isLogin, email, password, name, vehiclePlate);
      && (step.MissingCredentials? ==> outcome == Alert("Preencha email e senha"))
      && (step.MissingProfile? ==> outcome == Alert("Preencha todos os campos"))
      && (!step.Send? ==> session.storage == old(session.storage) && session.user == old(session.user))
      && (step.Send? ==> (outcome.GoHome? <==> Granted(server(step.request)).Some?))
      && (step.Send? && outcome.Alert? ==>
            outcome.message == (if isLogin then "Email ou senha incorretos" else "Erro no cadastro. Verifique os dados."))
    ensures outcome.GoHome? ==> session.IsAuthenticated()
  {
    if email == "" || password == "" {
      return Alert("Preencha email e senha");
    }
    if !isLogin && (name == "" || vehiclePlate == "") {
      return Alert("Preencha todos os campos");
    }
    var success: bool;
    if isLogin {
      success := session.Login(email, password, server);
      outcome := if success then GoHome else Alert("Email ou senha incorretos");
    } else {
      success := session.Register(email, password, name, vehiclePlate, server);
      outcome := if success then GoHome else Alert("Erro no cadastro. Verifique os dados.");
    }
  }
}
