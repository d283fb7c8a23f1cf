# fi-aegis security middleware, modelled in Dafny

fi-aegis is a set of Express middlewares that harden HTTP responses. This
project models its core:

- the CSRF protection (`lib/csrf.js`) and the default token engine it uses
  (`lib/token.js`). The engine mints a per-session secret and salted SHA-1
  tokens, and validates submitted tokens. The middleware issues a token on
  every request, checks non-safe verbs, and exposes `req.csrfToken()`;
- the Content-Security-Policy builder (`lib/csp.js`), which renders string,
  array and object policies into one header value;
- the Strict-Transport-Security header (`lib/hsts.js`);
- the X-XSS-Protection header (`lib/xssprotection.js`);
- the composition in `index.js` and `lib/index.js`. It selects one
  component per truthy option, in registration order. Its middleware nests
  them into continuations that run the last registered component first and
  let an error fall through to the outer `next`.

Module-level state (the CSRF `config`, the CSP `name`/`value`, the HSTS and
X-XSS-Protection `value`) is modelled as the fields of one class per
module. Caller option objects that the source rewrites in place are
classes too: the CSRF options under `angular`, and the HSTS options whose
`maxAge` is normalised. Express requests and responses are classes with
the fields the core reads and writes (`http.dfy`). An error handed to
`next(err)` is the `Fail` outcome. The two errors the core throws are
mapped by where they surface:
- SESSION_INVALID, thrown by create() (lib/token.js:68), is caught by the
  host and handed to `next`. It is the `Fail(SessionInvalid)` outcome of
  `Csrf.CsrfModule.Middleware`, and an `Err` result of `Token.CreateOn`
  and `Csrf.TokenAccessor.Call`.
- CSP_INVALID_POLICY (lib/csp.js:101) escapes the configure call. It is
  `Err` from the policy renderer, and the `Some(CspInvalidPolicy)` return
  of `Csp.CspModule.Configure`.

The SHA-1/base64 digest is the parameter `hash: Hasher`. Its result always
has 28 characters, which is the length of a base64-encoded SHA-1 digest.
`Math.random()` is a sequence of draws in [0, 1), and each draw picks the
alphabet character at `floor(r * 62)`. The random session secret that
`crypto.pseudoRandomBytes` yields is a non-empty string parameter.

The functions that compute the source's results, and which the lemmas and
method contracts in the table below are stated over:
- `Token.Validate` computes validate (lib/token.js:48-54);
- `Csrf.Submitted` computes the submitted token, the body field or else
  the header (lib/csrf.js:103-104);
- `Csp.Render` and `Csp.RenderAll` compute createPolicyString
  (lib/csp.js:78-102);
- `Hsts.HstsValue` computes the header value (lib/hsts.js:35-43);
- `XssProtection.Enabled`, `XssProtection.Mode` and `XssProtection.XssValue`
  compute the header value (lib/xssprotection.js:40-56).

Files: `wrappers.dfy` (Option, Result), `js.dfy` (JavaScript values,
truthiness and the error messages of `lib/errors.js`), `strings.dfy`
(lower-casing, number-to-text, `Array.prototype.join`), `http.dfy`,
`token.dfy`, `csrf.dfy`, `csrf_scenarios.dfy` (the request sequences of
`test/csrf.js`), `csp.dfy`, `hsts.dfy`, `xssprotection.dfy`, `aegis.dfy`.

## Model

| member | source | states |
|---|---|---|
| Token.Tokenize | lib/token.js:17-19 | a token is the salt followed by a 28-character digest of salt and secret; its prefix is the salt |
| Token.SaltOf | lib/token.js:28-37 | one character per draw, each taken from the 62-character alphabet at index floor(r*62) |
| Token.Salt | lib/token.js:28-37 | the salt loop builds exactly the salt SaltOf describes for the draws |
| Token.Validate | lib/token.js:48-54 | a non-string never validates; a string validates iff it has 38 characters and its last 28 are the digest of its first 10 followed by the session secret (the text "undefined" when no secret is stored) |
| Token.FalsyNeverValidates | lib/token.js:48-54 | no falsy token (undefined, null, "", 0, false) validates |
| Token.ValidateReadsOnlySecret | lib/token.js:53 | validation depends on the session only through the secret under the bound key |
| Token.ValidateTokenize | lib/token.js:17-54 | round trip: tokenising any 10-character salt with the session's secret yields a token that validates |
| Token.WellMintedValidates | lib/token.js:79-83 | a token minted from a 10-character salt validates against any session holding its secret |
| Token.DistinctSaltsDistinctTokens | lib/token.js:17-19 | two tokens that start with different salts of the same length differ, whatever the digest |
| Token.StoreSecret | lib/token.js:72-77 | a truthy stored secret is kept; otherwise the fresh secret is stored; every other session key is unchanged and the stored secret is truthy |
| Token.CreateOn | lib/token.js:64-84 | no session gives SESSION_INVALID; otherwise the session gets its secret, the returned secret is the stored one, and the token carries the salt, is well minted and validates against the new session |
| Token.Create | lib/token.js:64-84 | create() on a request equals CreateOn with the salt drawn from the random draws, and the request session is updated as CreateOn says |
| Csrf.Configuration | lib/csrf.js:121-154 | key, header and secret default to "_csrf", "x-csrf-token" and "_csrfSecret"; angular forces header "x-xsrf-token" and cookie "XSRF-TOKEN" with no options; a string cookie option names the cookie; an object gives its name and options; an absent cookie option gives "csrf-token" |
| Csrf.DefaultConfiguration | lib/csrf.js:121-139 | configuring with no options installs all the defaults |
| Csrf.Stamped | lib/csrf.js:52-54 | with a truthy cookie name the token is set in that cookie with the configured options; other cookies are unchanged and no other cookie is added; without a name nothing changes |
| Csrf.Verdict | lib/csrf.js:94-118 | OPTIONS, HEAD and GET always continue; any other verb continues iff the submitted token validates; otherwise the error is CSRF_TOKEN_MISSING iff the submitted value is falsy, and CSRF_TOKEN_MISMATCH iff it is truthy |
| Csrf.CsrfModule.Configure | lib/csrf.js:121-158 | the installed config is Configuration of the options as passed, and the caller's options object is rewritten by the angular shorthand |
| Csrf.CsrfModule.GetCsrf | lib/csrf.js:29-41 | getCsrf is create() under the configured secret key |
| Csrf.CsrfModule.SetToken | lib/csrf.js:49-55 | res.locals[key] becomes the token, and the cookies are Stamped |
| Csrf.CsrfModule.Middleware | lib/csrf.js:66-119 | no session: fails with SESSION_INVALID and changes nothing. Otherwise: the session is updated by create(); locals and cookies carry the new token; the outcome is the Verdict on the body field, else the lower-cased header; status 403 iff the outcome is a failure; a valid accessor holds the new token |
| Csrf.TokenAccessor.Call | lib/csrf.js:78-90 | when the session secret still equals the captured secret, returns the cached token and leaves the response alone; otherwise adopts and sets the new token; whatever it returns validates against the current session |
| CsrfScenarios.NoSession | test/csrf.js:36-53 | a request without a session fails with SESSION_INVALID |
| CsrfScenarios.GetThenPostWithBodyToken | test/csrf.js:81-107 | a POST echoing the token a GET issued, in the body field, is accepted |
| CsrfScenarios.PostWithForeignToken | test/csrf.js:150-176 | a POST whose token is a non-zero number (the test sends `Math.random()`) is truthy but not a string, so it fails with CSRF_TOKEN_MISMATCH and status 403 |
| CsrfScenarios.PostWithoutToken | test/csrf.js:178-196 | a POST without a token fails with CSRF_TOKEN_MISSING and status 403 |
| CsrfScenarios.TokenInCustomHeader | lib/csrf.js:103-104 | the configured header name is lower-cased before lookup: with header option "X-XSRF-TOKEN", a token sent under "x-xsrf-token" is accepted (request header names arrive lower-cased, as Node delivers them) |
| CsrfScenarios.AngularShorthand | test/csrf.js:416-457 | angular sets the XSRF-TOKEN cookie to the issued token, and a POST echoing it in x-xsrf-token is accepted |
| CsrfScenarios.AccessorReturnsCachedToken | test/csrf.js:460-512 | req.csrfToken() on an unchanged session returns the token the middleware issued |
| CsrfScenarios.AccessorAfterSecretDeleted | test/csrf.js:515-570 | after the session secret is deleted, req.csrfToken() stores a new secret and returns the new token it writes to res.locals; a second call returns that token again; the new token differs from the issued one whenever the two salts differ, because each token starts with its salt |
| Csp.DirectiveText | lib/csp.js:90-96 | a directive keeps its name, and its value is appended after a space iff the value is 0 or truthy |
| Csp.RenderString | lib/csp.js:81-83 | a string policy is used as it is |
| Csp.RenderOkIffWellFormed | lib/csp.js:78-102 | a policy renders iff it is, recursively, strings, arrays and objects of scalars; any other policy fails with CSP_INVALID_POLICY |
| Csp.RenderAllOkIffWellFormed | lib/csp.js:85-87 | an array renders iff every element is well formed; the error is CSP_INVALID_POLICY |
| Csp.RenderArray | lib/csp.js:85-87 | an array renders as its elements' renderings joined with "; " |
| Csp.RenderAllParts | lib/csp.js:86 | the array map yields exactly the element renderings, in order |
| Csp.RenderObject | lib/csp.js:89-98 | an object renders exactly as the array of its directive texts |
| Csp.RenderConcat | lib/csp.js:85-87 | rendering two non-empty arrays concatenated equals their renderings joined by "; " |
| Csp.RenderAllConcat | lib/csp.js:86 | element renderings distribute over array concatenation |
| Csp.HeaderValue | lib/csp.js:56-66 | with a report URI, "report-uri <uri>" is appended, preceded by "; " unless the policy string is empty; without one the value is the policy |
| Csp.CspModule.Configure | lib/csp.js:39-69 | the header name is content-security-policy, with "-report-only" appended when reportOnly is set; a policy that renders gives the value HeaderValue; an invalid one reports CSP_INVALID_POLICY and keeps the previous value |
| Csp.CspModule.Middleware | lib/csp.js:23-27 | writes the configured header and continues |
| Csp.TestPolicies | test/csp.js:22-97 | the object, string, array and nested configurations render "default-src *" and "default-src *; img-src *"; the report value; a non-policy fails |
| Csp.Misconfigured | test/csp.js:16-20 | configuring with options that carry no policy reports CSP_INVALID_POLICY after the header name has been set, and leaves no value |
| Hsts.NormaliseMaxAge | lib/hsts.js:30-32 | an integer maxAge is clamped at 0; any other value becomes NaN |
| Hsts.HstsValueParses | lib/hsts.js:34-44 | round trip: the header value reads back as its max-age and the two flags |
| Strings.DecimalRoundTrip | lib/hsts.js:35 | the decimal text of a max-age reads back as the number |
| Hsts.HstsModule.Configure | lib/hsts.js:26-47 | the normalised maxAge is written back into the caller's options and the flags stay; the value is set iff maxAge is an integer, and the previous value is kept otherwise |
| Hsts.HstsModule.Middleware | lib/hsts.js:18-24 | the header is written iff a non-empty value is configured; always continues |
| Hsts.NegativeMaxAge | test/hsts.js:32-48 | a negative maxAge yields "max-age=0" and writes 0 back into the options |
| Hsts.MissingMaxAge | test/hsts.js:89-107 | a missing maxAge leaves a value from an earlier configuration in place, and a fresh module sets none |
| XssProtection.Mode | lib/xssprotection.js:50-54 | the mode is a non-empty string mode option, otherwise "block" |
| XssProtection.EnabledCases | lib/xssprotection.js:40-48 | booleans are taken as they are; the string "0" disables, every other string enables; other values enable iff truthy |
| XssProtection.XssValueParses | lib/xssprotection.js:38-59 | round trip: the value "<0 or 1>; mode=<mode>" reads back as the enabled flag and the mode |
| XssProtection.XssModule.Configure | lib/xssprotection.js:38-59 | the configure branches set exactly XssValue of the options |
| XssProtection.XssModule.Middleware | lib/xssprotection.js:19-25 | the header is written iff the value is truthy; always continues |
| XssProtection.TestValues | test/xssprotection.js:14-82 | the four test configurations give "1; mode=block", "1; mode=foo", "1; mode=block" and "0; mode=block" |
| XssProtection.ConfiguredResponse | lib/xssprotection.js:19-59 | after configuring, a response carries a header that reads back as the configured flag and mode |
| Aegis.Selected | index.js:30-38 | a component is selected iff its key is registered and its option is truthy |
| Aegis.SelectedAppend | index.js:31-37 | selection keeps registration order: it distributes over concatenation |
| Aegis.NoOptionsSelectNothing | index.js:28-30 | falsy options select no component |
| Aegis.SelectedDistinct | index.js:31-37 | each registered key yields at most one component |
| Aegis.SelectComponents | lib/index.js:25-36 | the push loop collects exactly the Selected components |
| Aegis.BuildChain | index.js:48-58 | the chain built by the wrapping loop runs the components in reverse order |
| Aegis.Invoke | index.js:51-53 | a wrapper handed an error runs nothing and forwards the error unchanged |
| Aegis.InvokeRuns | index.js:47-61 | calling the nested chain behaves as running its components one after another until the first error |
| Aegis.RunAllContinue | index.js:50-60 | if every component continues, each runs once, in order, and the outer next gets no error |
| Aegis.RunFirstFailure | index.js:51-56 | the first failing component is the last to run, and its error reaches the outer next unchanged |
| Aegis.RunPrefix | index.js:50-60 | the components that ran are a prefix of the order, and all of them ran when no error came out |
| Aegis.Handle | lib/index.js:45-59 | the middleware runs the selected components in reverse registration order until the first error; with falsy options it calls next with no error |
| Aegis.MiddlewareAllContinue | lib/index.js:48-58 | when every selected component continues, each enabled key runs exactly once and next gets no error |
| Aegis.MiddlewareFailure | lib/index.js:49-52 | the first error in reverse registration order ends the run and reaches next |
| Aegis.AllOptionsSelection | index.js:67-73 | with every option set (test/index.js), both registrations keep all their components |
| Aegis.RunOrders | lib/index.js:64-69 | the root file runs nosniff first and csrf last; the lib file runs csp first and xssProtection last |

## Left out

- The pluggable `impl` option of the CSRF module (`options.impl`, lib/csrf.js:30-32, 133). Only the default engine of `lib/token.js` is modelled, so `getCsrf` always yields `{validate, secret, token}` from create().
- SHA-1, base64, `Math.random` and `crypto.pseudoRandomBytes` are parameters. Their outputs enter only as the `hash` function (28-character results), the draws and the fresh secret.
- Express plumbing: cookie serialisation, body parsing, sessions, the error handler and `res.header` case handling. Headers are a map keyed by the name as written.
- `console.warn` about `report-uri` (lib/csp.js:59) is I/O and is not modelled.
- `lib/nosniff.js`, `lib/p3p.js` and `lib/xframes.js` copy a constant or an option into one header. In the composition they are components whose behaviour is a parameter.
- Aegis.Handle: a component is modelled by its outcome only. Its header writes and the `next` it calls are not threaded through the chain. The configure calls made during selection are modelled separately per module.
- Object key order: the CSP object policy is a sequence of (directive, value) pairs in insertion order. JavaScript's ordering of integer-like keys first is not modelled.
- Csp.DirectiveText: object directive values are scalars. Nested objects or arrays as directive values, and their JavaScript string forms, are not modelled.
- JavaScript numbers are doubles; the model's numbers (Js.Value.Number, Hsts.NumberValue.Int) are unbounded integers. Fractions, precision past 2^53 and the exponent notation JavaScript uses from 10^21 are not modelled: for example, maxAge 10^21 becomes `max-age=1` in the source (`parseInt("1e+21")`), while the model keeps 10^21. Strings.NatToDecimal and Strings.IntToString match JavaScript's text only below 10^21.
- Hsts.NormaliseMaxAge: `parseInt` is modelled on integers, missing and NaN values only. Strings, floats and `true` options (which throw in strict mode) are not modelled.
- Strings.Lower: lower-cases ASCII letters only. Unicode case mapping is not modelled.
- Token.Validate: strings are sequences of Unicode characters, while JavaScript's `slice` and `length` count UTF-16 code units. A submitted token holding characters outside the Basic Multilingual Plane (an emoji counts as two units in JavaScript, one character here) is cut at a different place, so such a token can validate in the source and not in the model. Minted tokens are ASCII and are unaffected.
- Concurrency: each module keeps one configuration shared by all requests. A second configure call overwrites it, and requests are modelled one at a time.
- Csp.CspModule.Middleware requires a configured name and value. The middleware is only handed out by a configure call that succeeded, and a later failing call keeps the old value.

## Notes on the source

- lib/hsts.js:30 compares `typeof options.maxAge` with the value `undefined` rather than the string `"undefined"`, so the guard is always true. A missing maxAge therefore becomes NaN and no new value is set. The previous configuration's value stays in force (Hsts.MissingMaxAge).
- A CSP configure call that throws has already switched `name` to the new header name, but keeps the old `value` (Csp.CspModule.Configure).
- In lib/xssprotection.js:42-43 any string other than "0" enables the header, including "" and "false" (XssProtection.EnabledCases).
