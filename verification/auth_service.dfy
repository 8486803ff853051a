/**
 * `authService` (`app/services/authService.ts`): sign-up, sign-in and token
 * check against the main server, as functions of the server's reply.
 */
module AuthService {
  import opened Common
  import opened Http
  import AuthRules

  const BaseUrl := "http://82.165.172.113:8745/api/v1"
  const RegisterError := "Erreur lors de l'inscription"
  const LoginError := "Erreur lors de la connexion"
  const InvalidToken := "Token invalide"

  function RegisterRequest(d: AuthRules.RegisterData): (r: Request)
    ensures r.verb == POST && r.url == BaseUrl + "/auth/register"
    ensures r.headers == map["Content-Type" := "application/json"]
    ensures r.body == Some(Obj(map["email" := Str(d.email), "password" := Str(d.password), "alias" := Str(d.alias)]))
  {
    Request(POST, BaseUrl + "/auth/register", map["Content-Type" := "application/json"],
            Some(Obj(map["email" := Str(d.email), "password" := Str(d.password), "alias" := Str(d.alias)])))
  }

  /** `register`: `data` on a 2xx reply, else `message || error ||` the sign-up error. */
  function Register(reply: Reply): (e: Envelope<Json>)
    ensures WellFormed(e) && (e.success <==> Accepted(reply))
    ensures e.success ==> e.data == Prop(BodyOf(reply), "data")
    ensures Answered(reply) && !e.success ==> e.message == Some(Preferred(BodyOf(reply), MessageOrError(RegisterError)))
    ensures !Answered(reply) ==> e == Failure(ConnectionError)
  {
    Standard(reply, AsIs, MessageOrError(RegisterError))
  }

  function LoginRequest(email: string, password: string): (r: Request)
    ensures r.verb == POST && r.url == BaseUrl + "/auth/login"
    ensures r.headers == map["Content-Type" := "application/json"]
    ensures r.body == Some(Obj(map["email" := Str(email), "password" := Str(password)]))
  {
    Request(POST, BaseUrl + "/auth/login", map["Content-Type" := "application/json"],
            Some(Obj(map["email" := Str(email), "password" := Str(password)])))
  }

  /** `login`: `data` on a 2xx reply, else `message || error ||` the sign-in error. */
  function Login(reply: Reply): (e: Envelope<Json>)
    ensures WellFormed(e) && (e.success <==> Accepted(reply))
    ensures e.success ==> e.data == Prop(BodyOf(reply), "data")
    ensures Answered(reply) && !e.success ==> e.message == Some(Preferred(BodyOf(reply), MessageOrError(LoginError)))
    ensures !Answered(reply) ==> e == Failure(ConnectionError)
  {
    Standard(reply, AsIs, MessageOrError(LoginError))
  }

  /** The token check carries the token as a bearer authorization and nothing else. */
  function VerifyRequest(token: string): (r: Request)
    ensures r.verb == GET && r.url == BaseUrl + "/auth/verify" && r.body.None?
    ensures r.headers.Keys == {"Authorization"} && r.headers["Authorization"] == "Bearer " + token
  {
    Request(GET, BaseUrl + "/auth/verify", Bearer(token), None)
  }

  /** `verifyToken`: `data` on a 2xx reply, else `message ||` "Token invalide" (the `error` field is not read). */
  function VerifyToken(reply: Reply): (e: Envelope<Json>)
    ensures WellFormed(e) && (e.success <==> Accepted(reply))
    ensures e.success ==> e.data == Prop(BodyOf(reply), "data")
    ensures Answered(reply) && !e.success ==> e.message == Some(Or(Prop(BodyOf(reply), "message"), Str(InvalidToken)))
    ensures !Answered(reply) ==> e == Failure(ConnectionError)
  {
    Standard(reply, AsIs, MessageOnly(InvalidToken))
  }
}
