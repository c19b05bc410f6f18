/** The HTTP client: how a response is turned into a payload or an error
    (`handleApiResponse`), and the requests `loginUser`, `registerUser` and
    `fetchUserPreferences` send. `fetch` itself is left out: a request is a
    value, and so is the response it is answered with. */
module ApiService {
  import opened Common
  import opened Json

  const ApiBaseUrl := "https://begainer-api.onrender.com/api"

  // ---------------------------------------------------------------- responses

  /** What `handleApiResponse` reads of a `Response`: its status and its body text. */
  datatype Response = Response(status: nat, text: string)

  /** `response.ok`: an "ok status" of the Fetch Living Standard, 200 to 299. */
  predicate IsOk(status: nat) {
    200 <= status <= 299
  }

  /** What the promise returned by `handleApiResponse` settles to: the parsed
      body (None for `undefined`, when the body was empty), a thrown `Error`
      with its message, or the `TypeError` the engine throws when the
      reported `error` cannot be converted to a string (its message is the
      engine's own). */
  datatype ApiOutcome = Returned(body: Option<Json>) | Thrown(message: string) | ConversionFailed

  const UnexpectedFormatMessage := "Réponse du serveur au format inattendu."

  function UnreadableMessage(status: nat): string {
    "Erreur serveur (" + NatToString(status) + "). Réponse non lisible."
  }

  function GenericFailureMessage(status: nat): string {
    "Erreur lors de la requête (" + NatToString(status) + ")."
  }

  /** `dataJson?.error` when it is truthy. */
  function ReportedError(data: Option<Json>): (r: Option<Json>)
    ensures r.Some? ==> r == Property(data, "error") && IsTruthy(r.value)
    ensures r.Some? <==> Property(data, "error").Some? && IsTruthy(Property(data, "error").value)
  {
    var e := Property(data, "error");
    if e.Some? && IsTruthy(e.value) then e else None
  }

  /** `handleApiResponse`: the body is parsed only when it is non-empty; a
      parse failure is reported by status class; a parsed or empty body of a
      non-ok response is reported through its `error` field or a generic
      message; otherwise the body is returned as it is. */
  function HandleApiResponse(response: Response, parse: string -> Option<Json>): (out: ApiOutcome)
    // an ok response with an empty body yields undefined
    ensures IsOk(response.status) && response.text == "" ==> out == Returned(None)
    // an unparseable body is reported without looking at it further
    ensures response.text != "" && parse(response.text).None? ==>
              out == Thrown(if IsOk(response.status) then UnexpectedFormatMessage
                            else UnreadableMessage(response.status))
    // a non-ok response never yields a payload
    ensures !IsOk(response.status) ==> !out.Returned?
    // a non-ok response whose body was readable reports `error`, else a generic text;
    // an `error` that cannot be converted makes the logging, and then the message, throw
    ensures !IsOk(response.status) && (response.text == "" || parse(response.text).Some?) ==>
              var data := if response.text == "" then None else parse(response.text);
              out == (if ReportedError(data).None? then Thrown(GenericFailureMessage(response.status))
                      else if Convertible(ReportedError(data).value)
                      then Thrown(StringOf(ReportedError(data).value).value)
                      else ConversionFailed)
    // the conversion fails only there, and only for a value that cannot be converted
    ensures out.ConversionFailed? <==>
              && !IsOk(response.status) && response.text != "" && parse(response.text).Some?
              && ReportedError(parse(response.text)).Some?
              && !Convertible(ReportedError(parse(response.text)).value)
    // an ok response with a parsed body returns that body unchanged
    ensures IsOk(response.status) && response.text != "" && parse(response.text).Some? ==>
              out == Returned(parse(response.text))
    // a payload comes back exactly when the status is ok and the body was readable
    ensures out.Returned? <==> IsOk(response.status) && (response.text == "" || parse(response.text).Some?)
  {
    var ok := IsOk(response.status);
    // try { if (responseText) dataJson = JSON.parse(responseText) } catch ...
    var parsed: Option<Option<Json>> :=
      if response.text == "" then Some(None)
      else match parse(response.text)
        case None => None
        case Some(j) => Some(Some(j));
    if parsed.None? then
      if !ok then Thrown(UnreadableMessage(response.status)) else Thrown(UnexpectedFormatMessage)
    else
      var dataJson := parsed.value;
      if !ok then
        var reported := ReportedError(dataJson);
        if reported.None? then Thrown(GenericFailureMessage(response.status))
        else
          // `${dataJson?.error || ...}` and `new Error(dataJson?.error)` both convert it
          match StringOf(reported.value)
          case None => ConversionFailed
          case Some(message) => Thrown(message)
      else Returned(dataJson)
  }

  /** The "unreadable" message names the status: two different statuses never
      produce the same message. */
  lemma UnreadableMessageNamesStatus(s1: nat, s2: nat)
    requires UnreadableMessage(s1) == UnreadableMessage(s2)
    ensures s1 == s2
  {
    var prefix := "Erreur serveur (";
    var suffix := "). Réponse non lisible.";
    var m1, m2 := UnreadableMessage(s1), UnreadableMessage(s2);
    var d1, d2 := NatToString(s1), NatToString(s2);
    assert |m1| == |prefix| + |d1| + |suffix| && |m2| == |prefix| + |d2| + |suffix|;
    assert |d1| == |d2|;
    assert m1[|prefix|..|prefix| + |d1|] == d1;
    assert m2[|prefix|..|prefix| + |d2|] == d2;
    NatToStringInjective(s1, s2);
  }

  /** Likewise for the generic failure message. */
  lemma GenericFailureMessageNamesStatus(s1: nat, s2: nat)
    requires GenericFailureMessage(s1) == GenericFailureMessage(s2)
    ensures s1 == s2
  {
    var prefix := "Erreur lors de la requête (";
    var suffix := ").";
    var m1, m2 := GenericFailureMessage(s1), GenericFailureMessage(s2);
    var d1, d2 := NatToString(s1), NatToString(s2);
    assert |m1| == |prefix| + |d1| + |suffix| && |m2| == |prefix| + |d2| + |suffix|;
    assert |d1| == |d2|;
    assert m1[|prefix|..|prefix| + |d1|] == d1;
    assert m2[|prefix|..|prefix| + |d2|] == d2;
    NatToStringInjective(s1, s2);
  }

  // ---------------------------------------------------------------- requests

  datatype HttpMethod = HttpGet | HttpPost

  /** A `fetch(url, { method, headers, body })` call; `verb` is its `method`. The body is the object
      `JSON.stringify` serialises; the serialisation is not modelled. */
  datatype Request = Request(url: string, verb: HttpMethod, headers: seq<(string, string)>, body: Option<Json>)

  const JsonContentType := ("Content-Type", "application/json")
  const LoginPath := "/auth/login"
  const RegisterPath := "/auth/register"
  const PreferencesPath := "/user-preferences/"

  /** `{ email, password }`. */
  function Credentials(email: string, password: string): (body: Json)
    ensures body.JObject? && body.fields.Keys == {"email", "password"}
  {
    JObject(map["email" := JString(email), "password" := JString(password)])
  }

  /** The credentials a login or register request carries, read back from its body. */
  function CredentialsOf(body: Option<Json>): Option<(string, string)> {
    match body
    case Some(JObject(f)) =>
      if "email" in f && "password" in f && f["email"].JString? && f["password"].JString?
      then Some((f["email"].s, f["password"].s)) else None
    case _ => None
  }

  function LoginRequest(email: string, password: string): (req: Request)
    ensures req.url == ApiBaseUrl + LoginPath && req.verb == HttpPost
    ensures req.headers == [JsonContentType]
    ensures CredentialsOf(req.body) == Some((email, password))
  {
    Request(ApiBaseUrl + LoginPath, HttpPost, [JsonContentType], Some(Credentials(email, password)))
  }

  function RegisterRequest(email: string, password: string): (req: Request)
    ensures req.url == ApiBaseUrl + RegisterPath && req.verb == HttpPost
    ensures req.headers == [JsonContentType]
    ensures CredentialsOf(req.body) == Some((email, password))
  {
    Request(ApiBaseUrl + RegisterPath, HttpPost, [JsonContentType], Some(Credentials(email, password)))
  }

  /** The user id a preferences URL names, read back from the URL. */
  function UserIdOfPreferencesUrl(url: string): Option<string> {
    var prefix := ApiBaseUrl + PreferencesPath;
    if |prefix| <= |url| && url[..|prefix|] == prefix then Some(url[|prefix|..]) else None
  }

  /** The token a request sends as `Authorization: Bearer <token>`. */
  function BearerToken(headers: seq<(string, string)>): Option<string> {
    if headers == [] then None
    else if headers[0].0 == "Authorization" && |headers[0].1| >= 7 && headers[0].1[..7] == "Bearer "
    then Some(headers[0].1[7..])
    else BearerToken(headers[1..])
  }

  function FetchPreferencesRequest(userId: string, token: string): (req: Request)
    ensures req.verb == HttpGet && req.body == None
    ensures UserIdOfPreferencesUrl(req.url) == Some(userId)
    ensures BearerToken(req.headers) == Some(token)
    ensures req.headers == [JsonContentType, ("Authorization", "Bearer " + token)]
  {
    var prefix := ApiBaseUrl + PreferencesPath;
    var url := prefix + userId;
    assert url[..|prefix|] == prefix && url[|prefix|..] == userId;
    var auth := ("Authorization", "Bearer " + token);
    assert auth.1[..7] == "Bearer " && auth.1[7..] == token;
    Request(url, HttpGet, [JsonContentType, auth], None)
  }

  /** Login and register reach different endpoints, and a preferences URL is
      never mistaken for either. */
  lemma EndpointsDiffer(e: string, p: string, u: string, t: string)
    ensures LoginRequest(e, p).url != RegisterRequest(e, p).url
    ensures UserIdOfPreferencesUrl(LoginRequest(e, p).url) == None
    ensures UserIdOfPreferencesUrl(RegisterRequest(e, p).url) == None
  {
    var base := ApiBaseUrl;
    assert (base + LoginPath)[|base| + 6] == 'l';
    assert (base + RegisterPath)[|base| + 6] == 'r';
    assert |base + PreferencesPath| > |base + RegisterPath| > |base + LoginPath|;
  }
}
