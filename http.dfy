/** The request and response objects the middlewares read and write. Body
    parsing, cookie serialisation and the session store belong to the host
    server; here they are plain fields. */
module Http {
  import opened Wrappers
  import opened Js
  import opened Errors

  /** The part of a session the CSRF core touches: string-valued entries. */
  type Session = map<string, string>

  /** What a middleware hands to `next`: nothing, or an error. */
  datatype Outcome = Continue | Fail(error: Error)

  /** A cookie set with `res.cookie(name, value, options)`. */
  datatype Cookie = Cookie(value: string, options: map<string, string>)

  class Request {
    var verb: string
    /** `req.body`, absent when no body parser ran. */
    var body: Option<map<string, Value>>
    /** `req.headers`; the HTTP layer delivers header names lower-cased. */
    var headers: map<string, string>
    /** `req.session`, absent when no session middleware ran. */
    var session: Option<Session>

    constructor (verb: string, body: Option<map<string, Value>>, headers: map<string, string>, session: Option<Session>)
      ensures this.verb == verb && this.body == body && this.headers == headers && this.session == session
    {
      this.verb := verb;
      this.body := body;
      this.headers := headers;
      this.session := session;
    }
  }

  class Response {
    /** `res.locals`, as far as string values go. */
    var locals: map<string, string>
    /** Cookies set on the response, by name. */
    var cookies: map<string, Cookie>
    /** Headers set with `res.header(name, value)`, by the name as written. */
    var headers: map<string, string>
    var statusCode: int

    constructor ()
      ensures locals == map[] && cookies == map[] && headers == map[] && statusCode == 200
    {
      locals := map[];
      cookies := map[];
      headers := map[];
      statusCode := 200;
    }
  }
}
