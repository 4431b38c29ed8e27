/** The gateway's refresh-token endpoint: it picks the refresh token from the
    request, asks the identity service for a new token pair and maps the
    reply to one of three HTTP responses. The identity service's reply is a
    parameter; the one call issued is recorded in the result. */
module AuthController {
  import opened JsStrings

  /** The three places a refresh token may come from: the `refreshToken`
      cookie, the `Authorization` header and the JSON body's `token`. Each is
      a string or missing. */
  datatype Request = Request(
    cookieRefreshToken: Option<string>,
    authorization: Option<string>,
    bodyToken: Option<string>)

  /** The symbolic status codes the handler answers with. */
  datatype StatusCode = Created | Unauthorized | NotAcceptable

  /** What the identity service returns on success, read through the field
      names `accessToken` and `refreshToken`; either may be absent. */
  datatype RefreshResult = RefreshResult(accessToken: Option<string>, refreshToken: Option<string>)

  /** How the `RefreshToken` call ends: an error, or a result that may itself
      be missing. */
  datatype RefreshReply = RefreshFailed | Refreshed(result: Option<RefreshResult>)

  datatype ResponseBody =
    | MessageOnly(message: string)
    | NewTokens(success: bool, token: Option<string>, refreshToken: Option<string>, message: string)

  datatype Response = Response(status: StatusCode, body: ResponseBody)

  /** What one request does: the tokens sent to `RefreshToken` (one entry per
      call) and the response written. */
  datatype Handled = Handled(refreshCalls: seq<string>, response: Response)

  const TokenMissing := "Token is missing"
  const InvalidRefreshToken := "Invalid refresh token"
  const NewTokenGenerated := "new token generated successfully"

  /** `authorization?.trim().split(" ")[1]`: the second single-space-separated
      field of the trimmed header, missing when there is no header or no
      second field. */
  function HeaderToken(authorization: Option<string>): (token: Option<string>)
    ensures token.Some? <==> authorization.Some? && ' ' in Trim(authorization.value)
    ensures token.Some? ==> ' ' !in token.value
  {
    match authorization
    case None => None
    case Some(h) => SecondField(Trim(h))
  }

  /** `t.split(" ")[1]`: present exactly when `t` holds a space, and then
      free of spaces. */
  function SecondField(t: string): (field: Option<string>)
    ensures field.Some? <==> ' ' in t
    ensures field.Some? ==> ' ' !in field.value
  {
    At(Split(t, ' '), 1)
  }

  /** The value of `cookie || headerField || body.token`: the first truthy
      source in that order, else whatever the body holds. */
  function SelectToken(req: Request): (token: Option<string>)
    ensures Truthy(token) <==>
      Truthy(req.cookieRefreshToken) || Truthy(HeaderToken(req.authorization)) || Truthy(req.bodyToken)
    ensures Truthy(req.cookieRefreshToken) ==> token == req.cookieRefreshToken
    ensures !Truthy(req.cookieRefreshToken) && Truthy(HeaderToken(req.authorization)) ==>
      token == HeaderToken(req.authorization)
    ensures !Truthy(req.cookieRefreshToken) && !Truthy(HeaderToken(req.authorization)) ==>
      token == req.bodyToken
  {
    Or(Or(req.cookieRefreshToken, HeaderToken(req.authorization)), req.bodyToken)
  }

  /** `result?.field` on an optional result. */
  function AccessTokenOf(result: Option<RefreshResult>): Option<string> {
    if result.Some? then result.value.accessToken else None
  }

  function RefreshTokenOf(result: Option<RefreshResult>): Option<string> {
    if result.Some? then result.value.refreshToken else None
  }

  /** The `refreshToken` handler. Exactly one `RefreshToken` call, carrying
      the selected token, is made when a token is found, and none otherwise;
      the status tells the three outcomes apart, each with its own body. */
  function RefreshToken(req: Request, reply: RefreshReply): (h: Handled)
    ensures |h.refreshCalls| <= 1
    ensures h.refreshCalls == [] <==> !Truthy(SelectToken(req))
    ensures h.refreshCalls != [] ==> Some(h.refreshCalls[0]) == SelectToken(req) && h.refreshCalls[0] != ""
    ensures h.response.status == Unauthorized <==> !Truthy(SelectToken(req))
    ensures h.response.status == NotAcceptable <==> Truthy(SelectToken(req)) && reply.RefreshFailed?
    ensures h.response.status == Created <==> Truthy(SelectToken(req)) && reply.Refreshed?
    ensures h.response.status == Unauthorized ==> h.response.body == MessageOnly(TokenMissing)
    ensures h.response.status == NotAcceptable ==> h.response.body == MessageOnly(InvalidRefreshToken)
    ensures h.response.status == Created ==>
      h.response.body == NewTokens(true, AccessTokenOf(reply.result), RefreshTokenOf(reply.result), NewTokenGenerated)
  {
    var token := SelectToken(req);
    if Truthy(token) then
      var response :=
        match reply
        case RefreshFailed => Response(NotAcceptable, MessageOnly(InvalidRefreshToken))
        case Refreshed(result) =>
          Response(Created, NewTokens(true, AccessTokenOf(result), RefreshTokenOf(result), NewTokenGenerated));
      Handled([token.value], response)
    else
      Handled([], Response(Unauthorized, MessageOnly(TokenMissing)))
  }

  /** The single-space join of space-free fields has the second field as
      its `split(" ")[1]`, or nothing when there is only one field. */
  lemma HeaderTokenOfFields(fields: seq<string>)
    requires |fields| >= 1
    requires forall i :: 0 <= i < |fields| ==> ' ' !in fields[i]
    ensures SecondField(Join(fields, ' ')) == if |fields| >= 2 then Some(fields[1]) else None
  {
    SplitJoin(fields, ' ');
  }

  /** A scheme: non-empty, no space, and not starting with white space. */
  predicate IsScheme(scheme: string) {
    scheme != [] && ' ' !in scheme && scheme[0] !in WhiteSpace
  }

  /** A field that may end a header: non-empty, no space, and not ending
      with white space. */
  predicate IsLastField(f: string) {
    f != [] && ' ' !in f && f[|f| - 1] !in WhiteSpace
  }

  /** A run of white space. */
  predicate AllWhiteSpace(s: string) {
    forall i :: 0 <= i < |s| ==> s[i] in WhiteSpace
  }

  lemma JoinTwoFields(a: string, b: string)
    ensures a + " " + b == Join([a, b], ' ')
  {
    assert Join([a, b], ' ') == a + [' '] + Join([b], ' ');
  }

  lemma JoinEmptyMiddleField(a: string, c: string)
    ensures a + "  " + c == Join([a, "", c], ' ')
  {
    assert Join(["", c], ' ') == [' '] + c;
    assert Join([a, "", c], ' ') == a + [' '] + ([' '] + c);
    assert a + "  " + c == a + [' '] + ([' '] + c);
  }

  /** White space around a header's text is trimmed away before splitting. */
  lemma PaddedHeader(pre: string, core: string, post: string)
    requires AllWhiteSpace(pre) && AllWhiteSpace(post)
    requires core != [] && core[0] !in WhiteSpace && core[|core| - 1] !in WhiteSpace
    ensures HeaderToken(Some(pre + core + post)) == SecondField(core)
  {
    TrimStripsPadding(pre, core, post);
  }

  lemma SchemeTokenCore(scheme: string, token: string)
    requires IsScheme(scheme) && IsLastField(token)
    ensures var core := scheme + " " + token;
      && core[0] !in WhiteSpace && core[|core| - 1] !in WhiteSpace
      && SecondField(core) == Some(token)
  {
    var core := scheme + " " + token;
    assert core[0] == scheme[0];
    assert core[|core| - 1] == token[|token| - 1];
    JoinTwoFields(scheme, token);
    HeaderTokenOfFields([scheme, token]);
  }

  lemma DoubleSpacedCore(scheme: string, rest: string)
    requires IsScheme(scheme) && IsLastField(rest)
    ensures var core := scheme + "  " + rest;
      && core[0] !in WhiteSpace && core[|core| - 1] !in WhiteSpace
      && SecondField(core) == Some("")
  {
    var core := scheme + "  " + rest;
    assert core[0] == scheme[0];
    assert core[|core| - 1] == rest[|rest| - 1];
    JoinEmptyMiddleField(scheme, rest);
    HeaderTokenOfFields([scheme, "", rest]);
  }

  /** `<scheme> <token>`, with any white space around it, yields `<token>`. */
  lemma SecondFieldIsToken(pre: string, scheme: string, token: string, post: string)
    requires AllWhiteSpace(pre) && AllWhiteSpace(post)
    requires IsScheme(scheme) && IsLastField(token)
    ensures HeaderToken(Some(pre + (scheme + " " + token) + post)) == Some(token)
  {
    SchemeTokenCore(scheme, token);
    PaddedHeader(pre, scheme + " " + token, post);
  }

  /** `<scheme>  <rest>` (two spaces) yields an empty second field. */
  lemma EmptySecondField(pre: string, scheme: string, rest: string, post: string)
    requires AllWhiteSpace(pre) && AllWhiteSpace(post)
    requires IsScheme(scheme) && IsLastField(rest)
    ensures HeaderToken(Some(pre + (scheme + "  " + rest) + post)) == Some("")
  {
    DoubleSpacedCore(scheme, rest);
    PaddedHeader(pre, scheme + "  " + rest, post);
  }

  /** The empty second field of `<scheme>  <rest>` is falsy: with no usable
      cookie the body's token is used. */
  lemma DoubleSpaceFallsThrough(
    pre: string, scheme: string, rest: string, post: string, cookie: Option<string>, body: Option<string>)
    requires AllWhiteSpace(pre) && AllWhiteSpace(post)
    requires IsScheme(scheme) && IsLastField(rest)
    requires !Truthy(cookie)
    ensures SelectToken(Request(cookie, Some(pre + (scheme + "  " + rest) + post), body)) == body
  {
    EmptySecondField(pre, scheme, rest, post);
  }

  /** A header that is a single field yields nothing: with no usable cookie
      the body's token is used. */
  lemma SingleFieldFallsThrough(
    pre: string, scheme: string, post: string, cookie: Option<string>, body: Option<string>)
    requires AllWhiteSpace(pre) && AllWhiteSpace(post)
    requires IsScheme(scheme) && IsLastField(scheme)
    requires !Truthy(cookie)
    ensures HeaderToken(Some(pre + scheme + post)) == None
    ensures SelectToken(Request(cookie, Some(pre + scheme + post), body)) == body
  {
    TrimStripsPadding(pre, scheme, post);
    assert scheme == Join([scheme], ' ');
    HeaderTokenOfFields([scheme]);
  }

  /** The two header shapes `"Bearer  x"` and `"Bearer"`: the first yields
      an empty field, the second none, and both fall through to the body. */
  lemma BearerEdgeCases(doubled: string, bare: string, cookie: Option<string>, body: Option<string>)
    requires doubled == "Bearer  x" && bare == "Bearer"
    requires !Truthy(cookie)
    ensures HeaderToken(Some(doubled)) == Some("")
    ensures HeaderToken(Some(bare)) == None
    ensures SelectToken(Request(cookie, Some(doubled), body)) == body
    ensures SelectToken(Request(cookie, Some(bare), body)) == body
  {
    var scheme, x := "Bearer", "x";
    assert 'B' !in WhiteSpace && 'r' !in WhiteSpace && 'x' !in WhiteSpace;
    assert IsScheme(scheme) && IsLastField(scheme) && IsLastField(x);
    assert doubled == "" + (scheme + "  " + x) + "";
    assert bare == "" + scheme + "";
    EmptySecondField("", scheme, x, "");
    DoubleSpaceFallsThrough("", scheme, x, "", cookie, body);
    SingleFieldFallsThrough("", scheme, "", cookie, body);
  }

  /** With no token anywhere the answer is Unauthorized and no refresh call
      is made, whatever the identity service would have said. */
  lemma MissingTokenIsUnauthorized(req: Request, reply: RefreshReply)
    requires !Truthy(req.cookieRefreshToken) && !Truthy(HeaderToken(req.authorization)) && !Truthy(req.bodyToken)
    ensures RefreshToken(req, reply) == Handled([], Response(Unauthorized, MessageOnly(TokenMissing)))
  {
  }
}
