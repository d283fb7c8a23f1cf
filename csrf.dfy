/** The CSRF middleware of lib/csrf.js: the module-level configuration, the
    per-request token issue and check, and the `req.csrfToken` accessor. Only
    the default token engine (module Token) is modelled. */
module Csrf {
  import opened Wrappers
  import opened Js
  import opened Errors
  import opened Strings
  import opened Http
  import Token

  const DEFAULT_KEY := "_csrf"
  const DEFAULT_HEADER := "x-csrf-token"
  const DEFAULT_SECRET := "_csrfSecret"
  const DEFAULT_COOKIE := "csrf-token"
  const ANGULAR_HEADER := "x-xsrf-token"
  const ANGULAR_COOKIE := "XSRF-TOKEN"

  type CookieOptions = map<string, string>

  /** The `cookie` option: absent or a falsy non-string, a string (the empty
      string included), or an object with an optional `name` and optional
      `options`. */
  datatype CookieOption =
    | NoCookie
    | CookieName(text: string)
    | CookieObject(name: Option<string>, options: Option<CookieOptions>)

  /** The caller's options as the configure function reads them; "" stands
      for an absent or otherwise falsy string option. */
  datatype OptionsView = OptionsView(angular: bool, key: string, header: string, secret: string, cookie: CookieOption)

  /** What `options || {}` yields when no options are passed. */
  const NO_OPTIONS := OptionsView(false, "", "", "", NoCookie)

  /** The module-level `config` once configured. */
  datatype Config = Config(key: string, header: string, secret: string, cookieName: Option<string>, cookieOptions: CookieOptions)

  /** The rewrite `angular: true` makes in the caller's options object. */
  function AngularRewrite(v: OptionsView): OptionsView
  {
    if v.angular then v.(header := ANGULAR_HEADER, cookie := CookieObject(Some(ANGULAR_COOKIE), None)) else v
  }

  function OrDefault(s: string, default: string): string
  {
    if s != "" then s else default
  }

  /** The configuration read from (rewritten) options. */
  function Resolve(v: OptionsView): Config
  {
    var name := match v.cookie
      case NoCookie => Some(DEFAULT_COOKIE)
      case CookieName(n) => Some(n)
      case CookieObject(n, _) => n;
    var options := match v.cookie
      case CookieObject(_, Some(o)) => o
      case _ => map[];
    Config(OrDefault(v.key, DEFAULT_KEY), OrDefault(v.header, DEFAULT_HEADER), OrDefault(v.secret, DEFAULT_SECRET), name, options)
  }

  /** The configuration the configure function installs for given options:
      defaults for absent options, the angular shorthand taking precedence
      over explicit header and cookie settings, and the three cookie shapes. */
  function Configuration(v: OptionsView): (c: Config)
    ensures c.key == (if v.key != "" then v.key else DEFAULT_KEY)
    ensures c.secret == (if v.secret != "" then v.secret else DEFAULT_SECRET)
    ensures v.angular ==> c.header == ANGULAR_HEADER && c.cookieName == Some(ANGULAR_COOKIE) && c.cookieOptions == map[]
    ensures !v.angular ==> c.header == (if v.header != "" then v.header else DEFAULT_HEADER)
    ensures !v.angular && v.cookie.NoCookie? ==> c.cookieName == Some(DEFAULT_COOKIE) && c.cookieOptions == map[]
    ensures !v.angular && v.cookie.CookieName? ==> c.cookieName == Some(v.cookie.text) && c.cookieOptions == map[]
    ensures !v.angular && v.cookie.CookieObject? ==>
              c.cookieName == v.cookie.name
              && c.cookieOptions == (if v.cookie.options.Some? then v.cookie.options.value else map[])
  {
    Resolve(AngularRewrite(v))
  }

  /** Without options every setting takes its default. */
  lemma DefaultConfiguration()
    ensures Configuration(NO_OPTIONS) == Config(DEFAULT_KEY, DEFAULT_HEADER, DEFAULT_SECRET, Some(DEFAULT_COOKIE), map[])
  {
  }

  /** Whether setToken also sets a cookie: the cookie name must be truthy. */
  predicate CookieEnabled(c: Config)
  {
    c.cookieName.Some? && c.cookieName.value != ""
  }

  /** The cookies after setToken(res, token). */
  function Stamped(c: Config, cookies: map<string, Cookie>, token: string): (r: map<string, Cookie>)
    ensures CookieEnabled(c) ==> c.cookieName.value in r && r[c.cookieName.value] == Cookie(token, c.cookieOptions)
    ensures !CookieEnabled(c) ==> r == cookies
    ensures r.Keys == cookies.Keys + (if CookieEnabled(c) then {c.cookieName.value} else {})
    ensures forall n :: n in cookies && (c.cookieName != Some(n)) ==> n in r && r[n] == cookies[n]
  {
    if CookieEnabled(c) then cookies[c.cookieName.value := Cookie(token, c.cookieOptions)] else cookies
  }

  /** `req.body && req.body[key]`, undefined when there is no body or field. */
  function BodyField(body: Option<map<string, Value>>, key: string): Value
  {
    if body.Some? && key in body.value then body.value[key] else Undefined
  }

  /** `req.headers[name]`. */
  function HeaderField(headers: map<string, string>, name: string): Value
  {
    if name in headers then Text(headers[name]) else Undefined
  }

  /** The submitted token: the body field under the key when truthy, otherwise
      the request header under the lower-cased configured header name. */
  function Submitted(c: Config, body: Option<map<string, Value>>, headers: map<string, string>): Value
  {
    var fromBody := BodyField(body, c.key);
    if Truthy(fromBody) then fromBody else HeaderField(headers, Lower(c.header))
  }

  /** The hard-coded safe verbs, which are never checked. */
  predicate IsSafeVerb(verb: string)
  {
    verb == "OPTIONS" || verb == "HEAD" || verb == "GET"
  }

  /** What the middleware passes to `next` once the token is issued: safe verbs
      continue; other verbs continue exactly when the submitted token
      validates against the session's secret, and otherwise fail with
      TokenMissing when nothing truthy was submitted, TokenMismatch when
      something was. */
  function Verdict(hash: Token.Hasher, c: Config, verb: string, token: Value, session: Session): (o: Outcome)
    ensures IsSafeVerb(verb) ==> o == Continue
    ensures !IsSafeVerb(verb) ==> (o == Continue <==> Token.Validate(hash, c.secret, session, token))
    ensures o == Fail(CsrfTokenMissing) <==> !IsSafeVerb(verb) && !Truthy(token)
    ensures o == Fail(CsrfTokenMismatch) <==> !IsSafeVerb(verb) && Truthy(token) && !Token.Validate(hash, c.secret, session, token)
    ensures o.Fail? ==> o.error == CsrfTokenMissing || o.error == CsrfTokenMismatch
  {
    if IsSafeVerb(verb) then Continue
    else if Token.Validate(hash, c.secret, session, token) then Continue
    else if !Truthy(token) then Fail(CsrfTokenMissing)
    else Fail(CsrfTokenMismatch)
  }

  /** The caller's options object, which the configure function rewrites in
      place under `angular`. */
  class Options {
    var angular: bool
    var key: string
    var header: string
    var secret: string
    var cookie: CookieOption

    constructor (angular: bool, key: string, header: string, secret: string, cookie: CookieOption)
      ensures View() == OptionsView(angular, key, header, secret, cookie)
    {
      this.angular := angular;
      this.key := key;
      this.header := header;
      this.secret := secret;
      this.cookie := cookie;
    }

    function View(): OptionsView
      reads this
    {
      OptionsView(angular, key, header, secret, cookie)
    }
  }

  /** The module: its `config` object (absent until configured) and the
      digest function of the token engine. */
  class CsrfModule {
    const hash: Token.Hasher
    var config: Option<Config>

    constructor (hash: Token.Hasher)
      ensures this.hash == hash && config == None
    {
      this.hash := hash;
      config := None;
    }

    /** The exported configure function: rewrites the caller's options under
        `angular`, then overwrites every field of `config`. */
    method Configure(options: Options?)
      modifies this`config, options
      ensures options == null ==> config == Some(Configuration(NO_OPTIONS))
      ensures options != null ==> config == Some(Configuration(old(options.View())))
      ensures options != null ==> options.View() == AngularRewrite(old(options.View()))
    {
      var v := NO_OPTIONS;
      if options != null {
        if options.angular {
          options.header := ANGULAR_HEADER;
          options.cookie := CookieObject(Some(ANGULAR_COOKIE), None);
        }
        v := options.View();
      }
      var key := if v.key != "" then v.key else DEFAULT_KEY;
      var header := if v.header != "" then v.header else DEFAULT_HEADER;
      var secret := if v.secret != "" then v.secret else DEFAULT_SECRET;
      var cookieName: Option<string> := Some(DEFAULT_COOKIE);
      match v.cookie {
        case CookieName(n) => cookieName := Some(n);
        case CookieObject(n, _) => cookieName := n;
        case NoCookie =>
      }
      var cookieOptions: CookieOptions := map[];
      if v.cookie.CookieObject? && v.cookie.options.Some? {
        cookieOptions := v.cookie.options.value;
      }
      config := Some(Config(key, header, secret, cookieName, cookieOptions));
    }

    /** getCsrf: create() under the configured secret key. */
    method GetCsrf(req: Request, freshSecret: string, draws: seq<real>) returns (r: Result<Token.Minted, Error>)
      requires config.Some?
      requires freshSecret != "" && |draws| == Token.LENGTH && Token.AreDraws(draws)
      modifies req`session
      ensures var created := Token.CreateOn(hash, old(req.session), config.value.secret, freshSecret, Token.SaltOf(draws));
              && (created.Err? ==> r == Err(created.error) && req.session == old(req.session))
              && (created.Ok? ==> r == Ok(created.value.1) && req.session == Some(created.value.0))
    {
      r := Token.Create(hash, req, config.value.secret, freshSecret, draws);
    }

    /** setToken: the token goes into `res.locals[key]` and, when the cookie
        name is truthy, into that cookie. */
    method SetToken(res: Response, token: string)
      requires config.Some?
      modifies res`locals, res`cookies
      ensures res.locals == old(res.locals)[config.value.key := token]
      ensures res.cookies == Stamped(config.value, old(res.cookies), token)
    {
      var c := config.value;
      res.locals := res.locals[c.key := token];
      if c.cookieName.Some? && c.cookieName.value != "" {
        res.cookies := res.cookies[c.cookieName.value := Cookie(token, c.cookieOptions)];
      }
    }

    /** The middleware: issue a token on every request, then check unsafe
        verbs. Without a session create() throws, which the host turns into
        `next(error)`. `freshSecret` and `draws` are the random inputs of
        create(). */
    method Middleware(req: Request, res: Response, freshSecret: string, draws: seq<real>)
      returns (outcome: Outcome, accessor: TokenAccessor?)
      requires config.Some?
      requires freshSecret != "" && |draws| == Token.LENGTH && Token.AreDraws(draws)
      modifies req`session, res`locals, res`cookies, res`statusCode
      ensures old(req.session).None? ==>
                && outcome == Fail(SessionInvalid) && accessor == null
                && req.session == old(req.session) && res.locals == old(res.locals)
                && res.cookies == old(res.cookies) && res.statusCode == old(res.statusCode)
      ensures old(req.session).Some? ==>
                var c := config.value;
                var created := Token.CreateOn(hash, old(req.session), c.secret, freshSecret, Token.SaltOf(draws)).value;
                && req.session == Some(created.0)
                && res.locals == old(res.locals)[c.key := created.1.token]
                && res.cookies == Stamped(c, old(res.cookies), created.1.token)
                && outcome == Verdict(hash, c, req.verb, Submitted(c, req.body, req.headers), created.0)
                && res.statusCode == (if outcome.Fail? then 403 else old(res.statusCode))
                && accessor != null && fresh(accessor) && accessor.Valid()
                && accessor.owner == this && accessor.req == req && accessor.res == res
                && accessor.csrf == created.1
    {
      var csrf := GetCsrf(req, freshSecret, draws);
      if csrf.Err? {
        return Fail(csrf.error), null;
      }
      SetToken(res, csrf.value.token);
      accessor := new TokenAccessor(this, req, res, csrf.value);
      if IsSafeVerb(req.verb) {
        return Continue, accessor;
      }
      var c := config.value;
      var token := BodyField(req.body, c.key);
      if !Truthy(token) {
        token := HeaderField(req.headers, Lower(c.header));
      }
      if Token.Validate(hash, c.secret, req.session.value, token) {
        return Continue, accessor;
      }
      res.statusCode := 403;
      if !Truthy(token) {
        outcome := Fail(CsrfTokenMissing);
      } else {
        outcome := Fail(CsrfTokenMismatch);
      }
    }
  }

  /** `req.csrfToken`: the closure over the request, the response and the
      token object `csrf` the middleware captured. */
  class TokenAccessor {
    const owner: CsrfModule
    const req: Request
    const res: Response
    var csrf: Token.Minted

    /** The captured token is some salt's token under the captured secret,
        which is truthy. */
    ghost predicate Valid()
      reads this, owner
    {
      owner.config.Some? && csrf.secret != "" && Token.WellMinted(owner.hash, csrf)
    }

    constructor (owner: CsrfModule, req: Request, res: Response, csrf: Token.Minted)
      requires owner.config.Some? && csrf.secret != "" && Token.WellMinted(owner.hash, csrf)
      ensures this.owner == owner && this.req == req && this.res == res && this.csrf == csrf
      ensures Valid()
    {
      this.owner := owner;
      this.req := req;
      this.res := res;
      this.csrf := csrf;
    }

    /** Calls `req.csrfToken()`: mints against the session's current secret;
        when that secret is the captured one the cached token is returned and
        the response is left alone, otherwise the new token is adopted and
        written with setToken. Whatever it returns validates against the
        session as it now stands. */
    method Call(freshSecret: string, draws: seq<real>) returns (r: Result<string, Error>)
      requires Valid()
      requires freshSecret != "" && |draws| == Token.LENGTH && Token.AreDraws(draws)
      modifies this`csrf, req`session, res`locals, res`cookies
      ensures Valid()
      ensures var c := owner.config.value;
              var created := Token.CreateOn(owner.hash, old(req.session), c.secret, freshSecret, Token.SaltOf(draws));
              && (created.Err? ==>
                    && r == Err(SessionInvalid) && csrf == old(csrf) && req.session == old(req.session)
                    && res.locals == old(res.locals) && res.cookies == old(res.cookies))
              && (created.Ok? ==> req.session == Some(created.value.0))
              && (created.Ok? && created.value.1.secret == old(csrf.secret) ==>
                    && r == Ok(old(csrf.token)) && csrf == old(csrf)
                    && res.locals == old(res.locals) && res.cookies == old(res.cookies))
              && (created.Ok? && created.value.1.secret != old(csrf.secret) ==>
                    && r == Ok(created.value.1.token) && csrf == created.value.1
                    && res.locals == old(res.locals)[c.key := csrf.token]
                    && res.cookies == Stamped(c, old(res.cookies), csrf.token))
      ensures r.Ok? ==>
                && r.value == csrf.token && req.session.Some?
                && Token.SecretText(req.session.value, owner.config.value.secret) == csrf.secret
                && Token.Validate(owner.hash, owner.config.value.secret, req.session.value, Text(r.value))
    {
      var newCsrf := owner.GetCsrf(req, freshSecret, draws);
      if newCsrf.Err? {
        return Err(newCsrf.error);
      }
      if csrf.secret != "" && newCsrf.value.secret != "" && csrf.secret == newCsrf.value.secret {
        Token.WellMintedValidates(owner.hash, owner.config.value.secret, req.session.value, csrf);
        return Ok(csrf.token);
      }
      csrf := newCsrf.value;
      owner.SetToken(res, csrf.token);
      Token.WellMintedValidates(owner.hash, owner.config.value.secret, req.session.value, csrf);
      r := Ok(csrf.token);
    }
  }
}
