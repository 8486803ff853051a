/**
 * `ApiService` (`app/services/apiService.tsx`), the client the authentication
 * context uses: sign-in, sign-up, token check and profile fetch against its own
 * server. Each call is a function of the stored token and of the server's reply.
 */
module ApiService {
  import opened Common
  import opened Http

  const BaseUrl := "http://87.106.108.25:3456/api/v1"

  /** The device-storage key this client reads the token from. */
  const AuthKey := "authToken"

  /** `ApiResponse`: the record `login` and `register` return. */
  datatype ApiResponse = ApiResponse(success: bool, data: Option<Json>, message: Option<Json>, token: Option<Json>)

  function Fail(text: string): ApiResponse {
    ApiResponse(false, None, Some(Str(text)), None)
  }

  // ---------------------------------------------------------------- headers

  /**
   * `getAuthHeaders`: a JSON content type, and a bearer authorization exactly
   * when a non-empty token is stored.
   */
  function GetAuthHeaders(stored: Option<string>): (h: map<string, string>)
    ensures "Content-Type" in h && h["Content-Type"] == "application/json"
    ensures "Authorization" in h <==> stored.Some? && stored.value != ""
    ensures "Authorization" in h ==> h["Authorization"] == "Bearer " + stored.value
    ensures h.Keys <= {"Content-Type", "Authorization"}
  {
    var base := map["Content-Type" := "application/json"];
    if stored.Some? && stored.value != "" then base["Authorization" := "Bearer " + stored.value] else base
  }

  /** The token check and the profile fetch are sent whether or not a token is stored. */
  function AuthedGet(path: string, stored: Option<string>): (r: Request)
    ensures r.verb == GET && r.url == BaseUrl + path && r.body.None?
    ensures r.headers == GetAuthHeaders(stored)
  {
    Request(GET, BaseUrl + path, GetAuthHeaders(stored), None)
  }

  // ---------------------------------------------------------------- login

  const LoginDefault := "Erreur de connexion"
  const LoginNetwork := "Erreur de réseau"

  /**
   * `login`: success needs a 2xx status, a truthy `data` and a truthy
   * `data.token`; the token and the whole `data` are returned. Otherwise the
   * server's message, or a default. A reply that cannot be read gives the
   * network message.
   */
  function Login(reply: Reply): (r: ApiResponse)
    ensures r.success <==> Accepted(reply) && Has(BodyOf(reply), "data")
                           && Has(BodyOf(reply).fields["data"], "token")
    ensures r.success ==> r.token == Some(BodyOf(reply).fields["data"].fields["token"])
                          && r.data == Some(BodyOf(reply).fields["data"]) && r.message.None?
    ensures !r.success ==> Present(r.message) && r.data.None? && r.token.None?
    ensures Answered(reply) && !r.success ==> r.message == Some(Or(Prop(BodyOf(reply), "message"), Str(LoginDefault)))
    ensures !Answered(reply) ==> r == Fail(LoginNetwork)
  {
    if !Answered(reply) then Fail(LoginNetwork)
    else
      var body := BodyOf(reply);
      var data := Prop(body, "data");
      if IsOk(reply.status) && Present(data) && Present(Prop(data.value, "token")) then
        ApiResponse(true, data, None, Prop(data.value, "token"))
      else ApiResponse(false, None, Some(Or(Prop(body, "message"), Str(LoginDefault))), None)
  }

  // ---------------------------------------------------------------- register

  const RegisterDefault := "Erreur lors de l'inscription"
  const RegisterOk := "Inscription réussie"
  const RegisterNetwork := "Erreur de réseau, vérifiez votre connexion"
  const EmailTaken := "Cette adresse email est déjà utilisée"
  const AliasTaken := "Cet alias est déjà pris"
  const WeakPassword := "Le mot de passe ne respecte pas les critères requis"
  const InvalidRegistration := "Données d'inscription invalides"
  const BadFormat := "Format des données incorrect"
  const ServerFault := "Erreur serveur, veuillez réessayer plus tard"

  /** `data.message?.includes(word)`: false when there is no message, None when the call throws. */
  function MessageMentions(body: Json, word: string): Option<bool>
    requires !body.Null?
  {
    match Prop(body, "message")
    case None => Some(false)
    case Some(m) => if m.Null? then Some(false) else JsIncludes(m, word)
  }

  /** What a 400 reply with a text message says to the user: the first keyword found decides. */
  function KeywordMessage(m: string): (r: string)
    ensures Includes(m, "email") ==> r == EmailTaken
    ensures !Includes(m, "email") && Includes(m, "alias") ==> r == AliasTaken
    ensures !Includes(m, "email") && !Includes(m, "alias") && Includes(m, "password") ==> r == WeakPassword
    ensures !Includes(m, "email") && !Includes(m, "alias") && !Includes(m, "password") ==>
              r == (if m == "" then InvalidRegistration else m)
  {
    if Includes(m, "email") then EmailTaken
    else if Includes(m, "alias") then AliasTaken
    else if Includes(m, "password") then WeakPassword
    else if m == "" then InvalidRegistration
    else m
  }

  /** The 400 branch of `register`; None when reading the message throws. */
  function BadRequestMessage(body: Json): (r: Option<Json>)
    requires !body.Null?
    ensures Prop(body, "message").Some? && Prop(body, "message").value.Str? ==>
              r == Some(Str(KeywordMessage(Prop(body, "message").value.s)))
    ensures r.Some? ==> Truthy(r.value)
  {
    match MessageMentions(body, "email")
    case None => None
    case Some(true) => Some(Str(EmailTaken))
    case Some(false) =>
      match MessageMentions(body, "alias")
      case None => None
      case Some(true) => Some(Str(AliasTaken))
      case Some(false) =>
        match MessageMentions(body, "password")
        case None => None
        case Some(true) => Some(Str(WeakPassword))
        case Some(false) => Some(Or(Prop(body, "message"), Str(InvalidRegistration)))
  }

  /** A 2xx reply with an object body whose `success` is truthy. */
  predicate Registered(reply: Reply)
    ensures Registered(reply) <==> reply.Received? && IsOk(reply.status) && reply.body.Parsed? && reply.body.value.Obj?
                                   && "success" in reply.body.value.fields && Truthy(reply.body.value.fields["success"])
  {
    Accepted(reply) && Has(BodyOf(reply), "success")
  }

  /**
   * `register`: success on a 2xx reply whose `success` is truthy; otherwise a
   * message chosen by status (400 by keyword, 422, 5xx, anything else the
   * server's message). A `null` body (whose `success` is read for the log before
   * any status is looked at), an unreadable body or a failed request gives the
   * network message.
   */
  function Register(reply: Reply): (r: ApiResponse)
    ensures r.success <==> Registered(reply)
    ensures r.success ==> r.data == Prop(BodyOf(reply), "data")
                          && r.message == Some(Or(Prop(BodyOf(reply), "message"), Str(RegisterOk)))
    ensures Present(r.message) && r.token.None?
    ensures !r.success ==> r.data.None?
    ensures Answered(reply) && reply.status == 422 ==> r == Fail(BadFormat)
    ensures Answered(reply) && reply.status >= 500 ==> r == Fail(ServerFault)
    ensures Answered(reply) && reply.status == 400 && BadRequestMessage(BodyOf(reply)).Some? ==>
              r == ApiResponse(false, None, BadRequestMessage(BodyOf(reply)), None)
    ensures Answered(reply) && reply.status == 400 && BadRequestMessage(BodyOf(reply)).None? ==> r == Fail(RegisterNetwork)
    ensures Answered(reply) && !Registered(reply) && reply.status != 400 && reply.status != 422 && reply.status < 500 ==>
              r == ApiResponse(false, None, Some(Or(Prop(BodyOf(reply), "message"), Str(RegisterDefault))), None)
    ensures !Answered(reply) ==> r == Fail(RegisterNetwork)
  {
    match reply
    case NetworkFailure => Fail(RegisterNetwork)
    case Received(status, Malformed) => Fail(RegisterNetwork)
    case Received(status, Parsed(body)) =>
      if body.Null? then Fail(RegisterNetwork)
      else if IsOk(status) && Has(body, "success") then
        ApiResponse(true, Prop(body, "data"), Some(Or(Prop(body, "message"), Str(RegisterOk))), None)
      else if status == 400 then
        match BadRequestMessage(body)
        case None => Fail(RegisterNetwork)
        case Some(m) => ApiResponse(false, None, Some(m), None)
      else if status == 422 then Fail(BadFormat)
      else if status >= 500 then Fail(ServerFault)
      else ApiResponse(false, None, Some(Or(Prop(body, "message"), Str(RegisterDefault))), None)
  }

  /** A 400 reply saying "alias already used" is shown as the alias message. */
  lemma RegisterAliasTaken()
    ensures Register(Received(400, Parsed(Obj(map["message" := Str("alias already used")])))).message
            == Some(Str(AliasTaken))
  {
    var m := "alias already used";
    assert OccursAt(m, "alias", 0);
    assert !Includes(m, "email") by {
      forall i | 0 <= i <= |m| - 5 ensures !OccursAt(m, "email", i) {
        assert m[i..i + 5][0] == m[i] && m[i..i + 5][1] == m[i + 1];
      }
    }
  }

  // ---------------------------------------------------------------- token check

  /** `verifyToken`: exactly whether the reply had a 2xx status; false when the request fails. */
  function VerifyToken(reply: Reply): (valid: bool)
    ensures valid <==> reply.Received? && IsOk(reply.status)
  {
    match reply
    case NetworkFailure => false
    case Received(status, _) => IsOk(status)
  }

  // ---------------------------------------------------------------- profile

  /** The user record `getProfile` assembles from `data.user` and `data.profile`. */
  datatype User = User(
    id: Option<Json>, email: Option<Json>, alias: Option<Json>, birthdate: Option<Json>,
    pays: Option<Json>, langue: Option<Json>, description: Option<Json>, avatar: Option<Json>,
    pronous: Option<Json>, isPublic: Option<Json>)

  /** What `getProfile` resolves to when it is not `null`. */
  datatype Fetched = Combined(user: User) | Raw(value: Json)

  /** The fetched value is truthy for `if (profile)`. */
  predicate Usable(p: Option<Fetched>) {
    p.Some? && (p.value.Combined? || Truthy(p.value.value))
  }

  function Combine(u: Json, p: Json): (r: User)
    requires !u.Null? && !p.Null?
    ensures r.id == Prop(u, "id") && r.email == Prop(u, "email")
    ensures r.alias == Prop(p, "alias") && r.birthdate == Prop(p, "birthdate")
    ensures r.pays == Prop(p, "pays") && r.langue == Prop(p, "langue")
    ensures r.description == Prop(p, "description") && r.avatar == Prop(p, "avatar")
    ensures r.pronous == Prop(p, "pronous") && r.isPublic == Prop(p, "is_public")
  {
    User(Prop(u, "id"), Prop(u, "email"), Prop(p, "alias"), Prop(p, "birthdate"), Prop(p, "pays"),
         Prop(p, "langue"), Prop(p, "description"), Prop(p, "avatar"), Prop(p, "pronous"), Prop(p, "is_public"))
  }

  /** Both `data.user` and `data.profile` can be read from. */
  predicate Nested(data: Json)
    requires !data.Null?
  {
    Prop(data, "user").Some? && !Prop(data, "user").value.Null?
    && Prop(data, "profile").Some? && !Prop(data, "profile").value.Null?
  }

  /**
   * `getProfile`: on a 2xx reply with truthy `success` and `data`, the user
   * combined from `data.user` (identity) and `data.profile` (everything else);
   * on a 2xx reply without them, `data.data || data`; on anything else, or when
   * a read throws, `null` (None).
   */
  function GetProfile(reply: Reply): (r: Option<Fetched>)
    ensures !Accepted(reply) ==> r.None?
    ensures Accepted(reply) && Has(BodyOf(reply), "success") && Has(BodyOf(reply), "data") ==>
              var data := BodyOf(reply).fields["data"];
              (Nested(data) ==> r == Some(Combined(Combine(data.fields["user"], data.fields["profile"]))))
              && (!Nested(data) ==> r.None?)
    ensures Accepted(reply) && !(Has(BodyOf(reply), "success") && Has(BodyOf(reply), "data")) ==>
              r == Some(Raw(Or(Prop(BodyOf(reply), "data"), BodyOf(reply))))
  {
    if !Accepted(reply) then None
    else
      var body := BodyOf(reply);
      if Has(body, "success") && Has(body, "data") then
        var data := body.fields["data"];
        if Nested(data) then Some(Combined(Combine(data.fields["user"], data.fields["profile"])))
        else None
      else Some(Raw(Or(Prop(body, "data"), body)))
  }
}
