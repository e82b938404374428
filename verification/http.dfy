/** The request gates and the response negotiator of the route layer:
    `format_response`, `require_json` and `jwt_required`. A gate either lets the
    request through to its handler or answers it with a fixed status and
    message; the negotiator picks XML or JSON from the `format` argument. */
module Http {
  import opened Strings
  import opened Payload
  import opened Xml

  /** What the route layer reads from a request: the query arguments (first
      value per name), the headers, whether the body is declared JSON, and the
      body itself as a JSON object. Header names are keyed by their canonical
      spelling (`Authorization`): the framework's lookup ignores letter case,
      and this map stands for the result of that lookup. */
  datatype Request = Request(
    args: map<string, string>,
    headers: map<string, string>,
    isJson: bool,
    body: Object)

  /** What a handler hands to `format_response`: a status and a payload. */
  datatype Response = Response(status: int, payload: Value)

  /** The body the negotiator produces. JSON encoding itself is the framework's
      and is represented by the payload it encodes. */
  datatype Body = XmlText(text: string) | JsonOf(payload: Value) | ServerErrorPage

  datatype HttpReply = HttpReply(status: int, contentType: string, body: Body)

  const XmlContentType := "application/xml"
  const JsonContentType := "application/json"
  const HtmlContentType := "text/html"

  /** `request.args.get(name, default)` */
  function Arg(args: map<string, string>, name: string, default: string): string {
    if name in args then args[name] else default
  }

  /** The negotiator's test: the lower-cased `format` argument, `json` when
      absent, equals `xml`. */
  predicate WantsXml(args: map<string, string>) {
    Lower(Arg(args, "format", "json")) == "xml"
  }

  /** The spellings of `xml` in any mix of letter cases. */
  predicate SpellsXml(s: string) {
    && |s| == 3
    && (s[0] == 'x' || s[0] == 'X')
    && (s[1] == 'm' || s[1] == 'M')
    && (s[2] == 'l' || s[2] == 'L')
  }

  /** XML is chosen exactly when a `format` argument is present and spells
      `xml` in some letter case; an absent argument or any other value means
      JSON. */
  lemma WantsXmlExactly(args: map<string, string>)
    ensures WantsXml(args) <==> "format" in args && SpellsXml(args["format"])
  {
  }

  /** `format_response(payload, status)`. */
  function FormatResponse(args: map<string, string>, payload: Value, status: int): (r: HttpReply)
    ensures r.status == status
    ensures r.contentType == XmlContentType <==> "format" in args && SpellsXml(args["format"])
    ensures r.contentType == XmlContentType ==> r.body == XmlText(ToXml(payload, DefaultRoot))
    ensures r.contentType != XmlContentType ==> r.contentType == JsonContentType && r.body == JsonOf(payload)
  {
    WantsXmlExactly(args);
    if WantsXml(args) then HttpReply(status, XmlContentType, XmlText(ToXml(payload, DefaultRoot)))
    else HttpReply(status, JsonContentType, JsonOf(payload))
  }

  // ---------------------------------------------------------------------------
  // require_json

  const NotJsonMessage := "Request body must be JSON"

  /** `require_json`: the answer that stops a request whose body is not
      declared JSON, if any. */
  function JsonGate(isJson: bool): (r: Option<Response>)
    ensures r.Some? <==> !isJson
    ensures r.Some? ==> r.value == Response(415, ErrorMessage(NotJsonMessage))
  {
    if !isJson then Some(Response(415, ErrorMessage(NotJsonMessage))) else None
  }

  // ---------------------------------------------------------------------------
  // jwt_required

  const BearerPrefix := "Bearer "
  const MissingAuthMessage := "Missing or invalid Authorization header"
  const ExpiredMessage := "Token expired"
  const InvalidMessage := "Invalid token"

  /** The outcome of `jwt.decode`: the claims of a token whose signature and
      expiry check out, or which of the two failures it raised. */
  datatype Decoded = Claims(claims: Value) | Expired | Invalid

  /** A gate's verdict: go on to the handler with the decoded claims, or answer. */
  datatype Gate = Admit(claims: Value) | Reject(response: Response)

  /** `request.headers.get('Authorization', '')` */
  function AuthorizationHeader(headers: map<string, string>): string {
    if "Authorization" in headers then headers["Authorization"] else ""
  }

  /** `header.split(' ', 1)[1]` on a header of the form `Bearer <token>`: the
      token is everything after the prefix, spaces included. */
  function BearerToken(header: string): (token: string)
    requires StartsWith(header, BearerPrefix)
    ensures header == BearerPrefix + token
  {
    assert header[6] == ' ';
    FindIs(header, ' ', 0, 6);
    AfterFirst(header, ' ')
  }

  /** `jwt_required`: a header without the `Bearer ` prefix (a missing header
      counts as empty) is refused before anything is decoded; otherwise the
      token after the prefix is decoded and only a successful decode admits. */
  function JwtGate(header: string, decode: string -> Decoded): (g: Gate)
    ensures !StartsWith(header, BearerPrefix) ==> g == Reject(Response(401, ErrorMessage(MissingAuthMessage)))
    ensures StartsWith(header, BearerPrefix) ==>
      var d := decode(header[|BearerPrefix|..]);
      && (d.Expired? ==> g == Reject(Response(401, ErrorMessage(ExpiredMessage))))
      && (d.Invalid? ==> g == Reject(Response(401, ErrorMessage(InvalidMessage))))
      && (d.Claims? ==> g == Admit(d.claims))
    ensures g.Reject? ==> g.response.status == 401
  {
    if !StartsWith(header, BearerPrefix) then
      Reject(Response(401, ErrorMessage(MissingAuthMessage)))
    else
      var token := BearerToken(header);
      assert token == header[|BearerPrefix|..];
      match decode(token)
      case Claims(c) => Admit(c)
      case Expired => Reject(Response(401, ErrorMessage(ExpiredMessage)))
      case Invalid => Reject(Response(401, ErrorMessage(InvalidMessage)))
  }
}
