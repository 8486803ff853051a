/**
 * What the client sends and receives over HTTP, and the response envelope the
 * service modules return. The transport itself is not modelled: a reply is an
 * input, either a status with a body (which may fail to parse as JSON) or a
 * failure of the request itself.
 */
module Http {
  import opened Common

  datatype Body = Parsed(value: Json) | Malformed
  datatype Reply = Received(status: int, body: Body) | NetworkFailure

  datatype Verb = GET | POST | PUT
  datatype Request = Request(verb: Verb, url: string, headers: map<string, string>, body: Option<Json>)

  /** `response.ok`. */
  predicate IsOk(status: int) {
    200 <= status <= 299
  }

  /** The reply body parsed and is not `null`, so its properties can be read. */
  predicate Answered(r: Reply) {
    r.Received? && r.body.Parsed? && !r.body.value.Null?
  }

  /** The reply was answered with a 2xx status. */
  predicate Accepted(r: Reply) {
    Answered(r) && IsOk(r.status)
  }

  function BodyOf(r: Reply): Json
    requires Answered(r)
  {
    r.body.value
  }

  /** `{ success, data?, message? }` as returned by the service modules. */
  datatype Envelope<T> = Envelope(success: bool, data: Option<T>, message: Option<Json>)

  /** A success carries no message; a failure carries no data and a truthy message. */
  predicate WellFormed<T>(e: Envelope<T>) {
    (e.success ==> e.message.None?)
    && (!e.success ==> e.data.None? && Present(e.message))
  }

  function Failure<T>(text: string): Envelope<T> {
    Envelope(false, None, Some(Str(text)))
  }

  /** Message shown when the request fails or the reply cannot be read. */
  const ConnectionError := "Erreur de connexion au serveur"

  /** How a failure message is chosen: `message || error || text` or `message || text`. */
  datatype Fallback = MessageOrError(text: string) | MessageOnly(text: string)

  /** What a success carries: `result.data`, or `result.data || []`. */
  datatype Payload = AsIs | OrEmptyList

  predicate Has(body: Json, k: string)
    requires !body.Null?
  {
    Present(Prop(body, k))
  }

  /** The failure message of a readable body. */
  function Preferred(body: Json, fb: Fallback): (m: Json)
    requires !body.Null? && fb.text != ""
    ensures Truthy(m)
    ensures Has(body, "message") ==> m == body.fields["message"]
    ensures !Has(body, "message") && fb.MessageOrError? && Has(body, "error") ==> m == body.fields["error"]
    ensures !Has(body, "message") && (fb.MessageOnly? || !Has(body, "error")) ==> m == Str(fb.text)
  {
    match fb
    case MessageOrError(text) => Or(Prop(body, "message"), Or(Prop(body, "error"), Str(text)))
    case MessageOnly(text) => Or(Prop(body, "message"), Str(text))
  }

  function PayloadOf(body: Json, p: Payload): Option<Json>
    requires !body.Null?
  {
    match p
    case AsIs => Prop(body, "data")
    case OrEmptyList => Some(Or(Prop(body, "data"), Arr([])))
  }

  /**
   * The shape shared by the service calls: parse the body, then succeed on a
   * 2xx status with the payload, or fail with the server's message; any thrown
   * error (network, unparsable body, property of `null`) gives the connection error.
   */
  function Standard(reply: Reply, p: Payload, fb: Fallback): (e: Envelope<Json>)
    requires fb.text != ""
    ensures WellFormed(e)
    ensures e.success <==> Accepted(reply)
    ensures e.success ==> e.data == PayloadOf(BodyOf(reply), p)
    ensures Answered(reply) && !e.success ==> e.message == Some(Preferred(BodyOf(reply), fb))
    ensures !Answered(reply) ==> e == Failure(ConnectionError)
  {
    if !Answered(reply) then Failure(ConnectionError)
    else if IsOk(reply.status) then Envelope(true, PayloadOf(BodyOf(reply), p), None)
    else Envelope(false, None, Some(Preferred(BodyOf(reply), fb)))
  }

  /** With `data || []`, a success always carries a list when the server sent one or nothing. */
  lemma OrEmptyListPayload(reply: Reply, fb: Fallback)
    requires fb.text != "" && Accepted(reply)
    requires !Has(BodyOf(reply), "data")
    ensures Standard(reply, OrEmptyList, fb).data == Some(Arr([]))
  {
  }

  /** `Authorization: Bearer <token>` together with a JSON content type. */
  function JsonBearer(token: string): map<string, string> {
    map["Content-Type" := "application/json", "Authorization" := "Bearer " + token]
  }

  /** `Authorization: Bearer <token>` alone. */
  function Bearer(token: string): map<string, string> {
    map["Authorization" := "Bearer " + token]
  }

  /** `name=value` in a query string. */
  function Param(name: string, value: string): string {
    name + "=" + value
  }

  /** A parameter whose name and value hold no '&'. */
  lemma ParamLacksAmpersand(name: string, value: string)
    requires Lacks(name, '&') && Lacks(value, '&')
    ensures Lacks(Param(name, value), '&')
  {
    var p := Param(name, value);
    forall i | 0 <= i < |p| ensures p[i] != '&' {
      if i < |name| {
        assert p[i] == name[i];
      } else if i > |name| {
        assert p[i] == value[i - |name| - 1];
      }
    }
  }

  /** A number written in decimal holds no '&'. */
  lemma NumberLacksAmpersand(n: nat)
    ensures Lacks(NatToString(n), '&')
  {
  }

  /** A query string of three parameters splits back into them when none holds '&'. */
  lemma ThreeParameters(p1: string, p2: string, p3: string)
    requires Lacks(p1, '&') && Lacks(p2, '&') && Lacks(p3, '&')
    ensures Split(p1 + "&" + p2 + "&" + p3, "&") == [p1, p2, p3]
  {
    LacksNotIncluded(p1, '&');
    LacksNotIncluded(p2, '&');
    LacksNotIncluded(p3, '&');
    var rest := p2 + "&" + p3;
    assert p1 + "&" + p2 + "&" + p3 == p1 + "&" + rest;
    SplitOnce(p1, "&", rest);
    SplitOnce(p2, "&", p3);
    NoSeparatorNoSplit(p3, "&");
  }
}
