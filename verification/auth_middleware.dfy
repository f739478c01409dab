/**
 * The HTTP `Verify_jwt` middleware: the access token is taken from the
 * `accessToken` cookie when it is non-empty, otherwise from an
 * `Authorization` header of the form `Bearer <token>`; the request is then
 * refused with 401, passed on with the token's `id` and `name`, or passed
 * on with an error when verification throws.
 */
module AuthMiddleware {
  import opened Wrappers
  import opened JsStrings
  import Jwt

  /** A request header as Node delivers it: absent, one string, or a list of strings. */
  datatype Header = NoHeader | HeaderText(s: string) | HeaderList(values: seq<string>)

  /** JavaScript truthiness of a header value: a non-empty string or any array. */
  predicate Truthy(h: Header) {
    (h.HeaderText? && h.s != "") || h.HeaderList?
  }

  /** `req.headers['authorization'] || req.headers['Authorization']`. */
  function PickHeader(lower: Header, upper: Header): (r: Header)
    ensures Truthy(lower) ==> r == lower
    ensures !Truthy(lower) ==> r == upper
  {
    if Truthy(lower) then lower else upper
  }

  const BearerPrefix: string := "Bearer "

  /**
   * The token the middleware goes on with: a non-empty cookie wins; else
   * a string header starting with "Bearer " gives `header.split(" ")[1]`,
   * which is the text after the prefix up to the next space; else none.
   */
  function SelectToken(cookie: Option<string>, lower: Header, upper: Header): (r: Option<string>)
    ensures cookie.Some? && cookie.value != "" ==> r == cookie
    ensures !(cookie.Some? && cookie.value != "") ==>
      var h := PickHeader(lower, upper);
      if h.HeaderText? && StartsWith(h.s, BearerPrefix)
      then r == Some(UpTo(h.s[|BearerPrefix|..], ' '))
      else r.None?
  {
    if cookie.Some? && cookie.value != "" then cookie
    else
      var h := PickHeader(lower, upper);
      if h.HeaderText? && StartsWith(h.s, BearerPrefix) then
        var rest := h.s[|BearerPrefix|..];
        assert BearerPrefix == "Bearer" + [' '] && ' ' !in "Bearer";
        assert h.s == "Bearer" + [' '] + rest;
        SplitAfterWord("Bearer", ' ', rest);
        SplitHead(rest, ' ');
        Some(Split(h.s, ' ')[1])
      else None
  }

  /** `"Bearer a b"` yields `"a"`: the token stops at the next space. */
  lemma BearerTokenStopsAtSpace()
    ensures SelectToken(None, HeaderText("Bearer a b"), NoHeader) == Some("a")
  {
    assert StartsWith("Bearer a b", BearerPrefix) && "Bearer a b"[|BearerPrefix|..] == "a b";
    assert UpTo("a b", ' ') == "a" by {
      assert "a b"[1..] == " b";
    }
  }

  /** `"Bearer "` yields the empty token, not a missing one. */
  lemma BearerEmptyToken()
    ensures SelectToken(None, HeaderText("Bearer "), NoHeader) == Some("")
  {
    assert PickHeader(HeaderText("Bearer "), NoHeader) == HeaderText("Bearer ");
    assert StartsWith("Bearer ", BearerPrefix) && "Bearer "[|BearerPrefix|..] == "";
    assert UpTo("", ' ') == "";
  }

  /** An empty cookie falls through to the header. */
  lemma EmptyCookieFallsThrough()
    ensures SelectToken(Some(""), NoHeader, HeaderText("Bearer x")) == Some("x")
  {
    assert PickHeader(NoHeader, HeaderText("Bearer x")) == HeaderText("Bearer x");
    assert StartsWith("Bearer x", BearerPrefix) && "Bearer x"[|BearerPrefix|..] == "x";
    assert UpTo("x", ' ') == "x" by {
      assert "x"[1..] == "";
    }
  }

  /** The middleware's effect: the response it sends or how it calls `next`. */
  datatype Verdict =
    | Respond(status: int, message: string)
    | Next(userId: Option<int>, name: Option<string>)
    | NextWithError(message: string)

  const TokenMissingMessage: string := "unauthorized token missing"
  const UnauthorizedMessage: string := "unauthorized"
  const VerifyErrorMessage: string := "error in verification of jwt"

  /**
   * `Verify_jwt`'s decision: no token is a 401 "unauthorized token missing";
   * a token `jwt.verify` throws on calls `next` with an error and sends no
   * response; a truthy payload calls `next` with its `id` and `name`; a falsy
   * one is a 401 "unauthorized".
   */
  function Authenticate(cookie: Option<string>, lower: Header, upper: Header, verify: Jwt.Verifier): (r: Verdict)
    ensures SelectToken(cookie, lower, upper).None? <==> r == Respond(401, TokenMissingMessage)
    ensures r.NextWithError? <==>
      SelectToken(cookie, lower, upper).Some? && verify(SelectToken(cookie, lower, upper).value).None?
    ensures r.NextWithError? ==> r.message == VerifyErrorMessage
    ensures r.Next? <==>
      SelectToken(cookie, lower, upper).Some? && verify(SelectToken(cookie, lower, upper).value).Some?
      && Jwt.Truthy(verify(SelectToken(cookie, lower, upper).value).value)
    ensures SelectToken(cookie, lower, upper).Some? && verify(SelectToken(cookie, lower, upper).value).Some?
            && !Jwt.Truthy(verify(SelectToken(cookie, lower, upper).value).value) ==>
      r == Respond(401, UnauthorizedMessage)
    ensures r.Next? ==>
      var d := verify(SelectToken(cookie, lower, upper).value).value;
      r.userId == Jwt.IdOf(d) && r.name == Jwt.NameOf(d)
  {
    match SelectToken(cookie, lower, upper)
    case None => Respond(401, TokenMissingMessage)
    case Some(token) =>
      match verify(token)
      case None => NextWithError(VerifyErrorMessage)
      case Some(decoded) =>
        if Jwt.Truthy(decoded) then Next(Jwt.IdOf(decoded), Jwt.NameOf(decoded))
        else Respond(401, UnauthorizedMessage)
  }

  /** The parts of an Express request the middleware reads and writes. */
  class Request {
    const cookieToken: Option<string>
    const authorizationLower: Header
    const authorizationUpper: Header
    var userId: Option<int>
    var name: Option<string>

    constructor (cookieToken: Option<string>, lower: Header, upper: Header)
      ensures this.cookieToken == cookieToken
      ensures authorizationLower == lower && authorizationUpper == upper
      ensures userId.None? && name.None?
    {
      this.cookieToken := cookieToken;
      authorizationLower := lower;
      authorizationUpper := upper;
      userId := None;
      name := None;
    }
  }

  /**
   * `Verify_jwt` on a request: `req.userId` and `req.name` are set from the
   * payload exactly when `next` is called without an error.
   */
  method VerifyJwt(req: Request, verify: Jwt.Verifier) returns (v: Verdict)
    modifies req
    ensures v == Authenticate(req.cookieToken, req.authorizationLower, req.authorizationUpper, verify)
    ensures v.Next? ==> req.userId == v.userId && req.name == v.name
    ensures !v.Next? ==> req.userId == old(req.userId) && req.name == old(req.name)
  {
    var token := SelectToken(req.cookieToken, req.authorizationLower, req.authorizationUpper);
    if token.None? {
      return Respond(401, TokenMissingMessage);
    }
    var decoded := verify(token.value);
    if decoded.None? {
      return NextWithError(VerifyErrorMessage);
    }
    if Jwt.Truthy(decoded.value) {
      req.userId := Jwt.IdOf(decoded.value);
      req.name := Jwt.NameOf(decoded.value);
      return Next(req.userId, req.name);
    }
    return Respond(401, UnauthorizedMessage);
  }
}
