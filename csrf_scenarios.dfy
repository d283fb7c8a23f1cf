/** The request sequences of test/csrf.js, run against the model: each method
    builds its own module, requests and responses, and its postconditions are
    what the test asserts. Random inputs stay parameters. */
module CsrfScenarios {
  import opened Wrappers
  import opened Js
  import opened Errors
  import opened Strings
  import opened Http
  import opened Csrf
  import Token

  predicate RandomInput(freshSecret: string, draws: seq<real>)
  {
    freshSecret != "" && |draws| == Token.LENGTH && Token.AreDraws(draws)
  }

  /** Without a session the middleware fails with SessionInvalid. */
  method NoSession(hash: Token.Hasher, freshSecret: string, draws: seq<real>) returns (outcome: Outcome)
    requires RandomInput(freshSecret, draws)
    ensures outcome == Fail(SessionInvalid)
  {
    var m := new CsrfModule(hash);
    m.Configure(null);
    var req := new Request("GET", None, map[], None);
    var res := new Response();
    var accessor: TokenAccessor?;
    outcome, accessor := m.Middleware(req, res, freshSecret, draws);
  }

  /** A GET issues a token in `res.locals._csrf` and the default cookie; a POST
      on the same session echoing it in the body field `_csrf` is accepted. */
  method GetThenPostWithBodyToken(hash: Token.Hasher, fresh1: string, draws1: seq<real>, fresh2: string, draws2: seq<real>)
    returns (get: Outcome, post: Outcome, token: string)
    requires RandomInput(fresh1, draws1) && RandomInput(fresh2, draws2)
    ensures get == Continue && post == Continue
    ensures |token| == Token.LENGTH + Token.DIGEST_LENGTH
  {
    var m := new CsrfModule(hash);
    m.Configure(null);
    assert m.config.value == Config(DEFAULT_KEY, DEFAULT_HEADER, DEFAULT_SECRET, Some(DEFAULT_COOKIE), map[]);
    var cookies, session;
    get, token, cookies, session := IssueOnGet(m, fresh1, draws1);
    assert cookies[DEFAULT_COOKIE] == Cookie(token, map[]);
    var body := map[DEFAULT_KEY := Text(token)];
    assert Submitted(m.config.value, Some(body), map[]) == Text(token);
    post := PostOn(m, session, body, map[], fresh2, draws2);
  }

  /** A POST with neither body field nor header is refused with 403 and
      TokenMissing. */
  method PostWithoutToken(hash: Token.Hasher, freshSecret: string, draws: seq<real>) returns (outcome: Outcome, status: int)
    requires RandomInput(freshSecret, draws)
    ensures outcome == Fail(CsrfTokenMissing) && status == 403
  {
    var m := new CsrfModule(hash);
    m.Configure(null);
    var req := new Request("POST", Some(map[]), map[], Some(map[]));
    var res := new Response();
    var accessor: TokenAccessor?;
    outcome, accessor := m.Middleware(req, res, freshSecret, draws);
    status := res.statusCode;
  }

  /** A random number submitted as the token is truthy but not a string, so
      it never validates: refused with 403 and TokenMismatch. */
  method PostWithForeignToken(hash: Token.Hasher, freshSecret: string, draws: seq<real>, forged: int)
    returns (outcome: Outcome, status: int)
    requires RandomInput(freshSecret, draws)
    requires forged != 0
    ensures outcome == Fail(CsrfTokenMismatch) && status == 403
  {
    var m := new CsrfModule(hash);
    m.Configure(null);
    var req := new Request("POST", Some(map[DEFAULT_KEY := Number(forged)]), map[], Some(map[]));
    var res := new Response();
    var accessor: TokenAccessor?;
    outcome, accessor := m.Middleware(req, res, freshSecret, draws);
    status := res.statusCode;
  }

  /** A GET on a fresh, empty session: the token it leaves in `res.locals`
      and the cookies, and the session it leaves behind, which holds a truthy
      secret the token validates against. */
  method IssueOnGet(m: CsrfModule, freshSecret: string, draws: seq<real>)
    returns (outcome: Outcome, token: string, cookies: map<string, Cookie>, session: Session)
    requires m.config.Some? && RandomInput(freshSecret, draws)
    ensures outcome == Continue
    ensures cookies == Stamped(m.config.value, map[], token)
    ensures m.config.value.secret in session && session[m.config.value.secret] != ""
    ensures Token.Validate(m.hash, m.config.value.secret, session, Text(token))
  {
    var req := new Request("GET", None, map[], Some(map[]));
    var res := new Response();
    var accessor;
    outcome, accessor := m.Middleware(req, res, freshSecret, draws);
    token := res.locals[m.config.value.key];
    cookies := res.cookies;
    session := req.session.value;
  }

  /** A POST on a session that already holds a secret: the verdict on the
      submitted body and headers, against that same session. */
  method PostOn(m: CsrfModule, session: Session, body: map<string, Value>, headers: map<string, string>,
                freshSecret: string, draws: seq<real>)
    returns (outcome: Outcome)
    requires m.config.Some? && RandomInput(freshSecret, draws)
    requires m.config.value.secret in session && session[m.config.value.secret] != ""
    ensures outcome == Verdict(m.hash, m.config.value, "POST", Submitted(m.config.value, Some(body), headers), session)
  {
    var req := new Request("POST", Some(body), headers, Some(session));
    var res := new Response();
    var accessor;
    outcome, accessor := m.Middleware(req, res, freshSecret, draws);
  }

  /** With a custom header configured in upper case, a token sent only in that
      header (which arrives lower-cased) is accepted. */
  method TokenInCustomHeader(hash: Token.Hasher, fresh1: string, draws1: seq<real>, fresh2: string, draws2: seq<real>)
    returns (post: Outcome)
    requires RandomInput(fresh1, draws1) && RandomInput(fresh2, draws2)
    ensures post == Continue
  {
    var m := new CsrfModule(hash);
    var options := new Options(false, "", "X-XSRF-TOKEN", "", NoCookie);
    m.Configure(options);
    assert m.config.value.header == "X-XSRF-TOKEN";
    var get, token, cookies, session := IssueOnGet(m, fresh1, draws1);
    assert Lower("X-XSRF-TOKEN") == "x-xsrf-token";
    var body := map["name" := Text("Test")];
    var headers := map["x-xsrf-token" := token];
    assert Submitted(m.config.value, Some(body), headers) == Text(token);
    post := PostOn(m, session, body, headers, fresh2, draws2);
  }

  /** `angular: true` overrides an explicit header and cookie: the token is set
      in the cookie XSRF-TOKEN and accepted from the header x-xsrf-token. */
  method AngularShorthand(hash: Token.Hasher, fresh1: string, draws1: seq<real>, fresh2: string, draws2: seq<real>)
    returns (cookie: Cookie, token: string, post: Outcome)
    requires RandomInput(fresh1, draws1) && RandomInput(fresh2, draws2)
    ensures cookie == Cookie(token, map[]) && post == Continue
  {
    var m := new CsrfModule(hash);
    var options := new Options(true, "", "x-other", "_csrfSecret", CookieName("CSRF"));
    m.Configure(options);
    assert m.config.value.header == ANGULAR_HEADER && m.config.value.cookieName == Some(ANGULAR_COOKIE);
    var get, cookies, session;
    get, token, cookies, session := IssueOnGet(m, fresh1, draws1);
    cookie := cookies[ANGULAR_COOKIE];
    assert Lower(ANGULAR_HEADER) == ANGULAR_HEADER;
    var body := map["cool" := Text("stuff")];
    var headers := map[ANGULAR_HEADER := token];
    assert Submitted(m.config.value, Some(body), headers) == Text(token);
    post := PostOn(m, session, body, headers, fresh2, draws2);
  }

  /** Calling `req.csrfToken()` while the secret is unchanged returns the token
      already in `res.locals` and leaves it there. */
  method AccessorReturnsCachedToken(hash: Token.Hasher, fresh1: string, draws1: seq<real>, fresh2: string, draws2: seq<real>)
    returns (issued: string, returned: Result<string, Error>, after: string)
    requires RandomInput(fresh1, draws1) && RandomInput(fresh2, draws2)
    ensures returned == Ok(issued) && after == issued
  {
    var m := new CsrfModule(hash);
    var options := new Options(false, "foo", "", "", NoCookie);
    m.Configure(options);
    var req := new Request("GET", None, map[], Some(map[]));
    var res := new Response();
    var _, accessor := m.Middleware(req, res, fresh1, draws1);
    issued := res.locals["foo"];
    returned := accessor.Call(fresh2, draws2);
    after := res.locals["foo"];
  }

  /** After the session secret is deleted, `req.csrfToken()` stores a new
      secret, adopts a new token and writes it over the one in `res.locals`,
      and a second call returns that same token. The new token differs from
      the issued one whenever the two salts differ, whatever the digest. */
  method AccessorAfterSecretDeleted(hash: Token.Hasher, fresh1: string, draws1: seq<real>, fresh2: string, draws2: seq<real>,
                                    fresh3: string, draws3: seq<real>)
    returns (issued: string, first: Result<string, Error>, written: string, second: Result<string, Error>, secret: string)
    requires RandomInput(fresh1, draws1) && RandomInput(fresh2, draws2) && RandomInput(fresh3, draws3)
    requires fresh2 != fresh1
    requires Token.SaltOf(draws1) != Token.SaltOf(draws2)
    ensures first == Ok(written) && second == first && secret == fresh2
    ensures written != issued
  {
    var m := new CsrfModule(hash);
    var options := new Options(false, "foo", "", "csrfSecret", NoCookie);
    m.Configure(options);
    var req := new Request("GET", None, map[], Some(map[]));
    var res := new Response();
    var _, accessor := m.Middleware(req, res, fresh1, draws1);
    issued := res.locals["foo"];
    assert issued[..Token.LENGTH] == Token.SaltOf(draws1);
    req.session := Some(req.session.value - {"csrfSecret"});
    first := accessor.Call(fresh2, draws2);
    written := res.locals["foo"];
    assert written[..Token.LENGTH] == Token.SaltOf(draws2);
    Token.DistinctSaltsDistinctTokens(written, issued, Token.SaltOf(draws2), Token.SaltOf(draws1));
    second := accessor.Call(fresh3, draws3);
    secret := req.session.value["csrfSecret"];
  }
}
