/** X-XSS-Protection of lib/xssprotection.js: the configure function turns a
    boolean or an options object into the module-level header value
    `<0|1>; mode=<mode>`. */
module XssProtection {
  import opened Wrappers
  import opened Js
  import opened Http

  const HEADER := "X-XSS-Protection"
  const DEFAULT_MODE := "block"
  const MODE_PREFIX := "; mode="

  /** The argument: a boolean, or an object with `enabled` and `mode`. */
  datatype XssOptions = Flag(on: bool) | Settings(enabled: Value, mode: Value)

  /** The default parameter `{}` used when nothing is passed. */
  const NO_OPTIONS := Settings(Undefined, Undefined)

  /** Whether the header value starts with 1: a boolean as it is, the string
      "0" off and every other string on, anything else by truthiness. */
  predicate Enabled(o: XssOptions)
  {
    match o
    case Flag(on) => on
    case Settings(enabled, _) => if enabled.Text? then enabled.s != "0" else Truthy(enabled)
  }

  /** The mode: a non-empty string `mode` option, otherwise "block". */
  function Mode(o: XssOptions): (m: string)
    ensures m != ""
    ensures o.Settings? && o.mode.Text? && o.mode.s != "" ==> m == o.mode.s
    ensures !(o.Settings? && o.mode.Text? && o.mode.s != "") ==> m == DEFAULT_MODE
  {
    if o.Settings? && o.mode.Text? && o.mode.s != "" then o.mode.s else DEFAULT_MODE
  }

  /** The header value the configure function produces. */
  function XssValue(o: XssOptions): (v: string)
    ensures |v| > 1 + |MODE_PREFIX|
  {
    (if Enabled(o) then "1" else "0") + MODE_PREFIX + Mode(o)
  }

  /** Reads a header value back into its flag and mode. */
  function Parse(v: string): Option<(bool, string)>
  {
    if |v| > 1 + |MODE_PREFIX| && (v[0] == '0' || v[0] == '1') && v[1..1 + |MODE_PREFIX|] == MODE_PREFIX
    then Some((v[0] == '1', v[1 + |MODE_PREFIX|..]))
    else None
  }

  /** Every value is `<0|1>; mode=<mode>` with a non-empty mode, and it reads
      back as the flag and the mode it was made from. */
  lemma XssValueParses(o: XssOptions)
    ensures Parse(XssValue(o)) == Some((Enabled(o), Mode(o)))
  {
    var v := XssValue(o);
    var digit := if Enabled(o) then "1" else "0";
    assert v == digit + (MODE_PREFIX + Mode(o));
    assert v[1..1 + |MODE_PREFIX|] == MODE_PREFIX;
    assert v[1 + |MODE_PREFIX|..] == Mode(o);
  }

  /** The flag for the inputs the source singles out. */
  lemma EnabledCases(mode: Value)
    ensures Enabled(Flag(true)) && !Enabled(Flag(false))
    ensures !Enabled(Settings(Text("0"), mode))
    ensures Enabled(Settings(Text("false"), mode)) && Enabled(Settings(Text(""), mode))
    ensures Enabled(Settings(Number(1), mode)) && !Enabled(Settings(Number(0), mode))
    ensures Enabled(Settings(Bool(true), mode)) && !Enabled(Settings(Bool(false), mode))
    ensures !Enabled(Settings(Undefined, mode)) && !Enabled(NO_OPTIONS)
  {
  }

  /** The module-level header value, undefined until configured. */
  class XssModule {
    var value: Option<string>

    constructor ()
      ensures value == None
    {
      value := None;
    }

    /** The configure function: picks the digit by the type of the options,
        then appends the mode. */
    method Configure(options: XssOptions)
      modifies this
      ensures value == Some(XssValue(options))
    {
      var v: string;
      if options.Flag? {
        v := if options.on then "1" else "0";
      } else if options.enabled.Text? {
        v := if options.enabled.s == "0" then "0" else "1";
      } else if Truthy(options.enabled) {
        v := "1";
      } else {
        v := "0";
      }
      var mode := DEFAULT_MODE;
      if options.Settings? && Truthy(options.mode) && options.mode.Text? {
        mode := options.mode.s;
      }
      v := v + MODE_PREFIX + mode;
      value := Some(v);
    }

    /** The middleware writes the header when the value is truthy, which a
        configured value always is (XssValueParses: it is never empty). */
    method Middleware(res: Response) returns (outcome: Outcome)
      modifies res`headers
      ensures value.Some? && value.value != "" ==> res.headers == old(res.headers)[HEADER := value.value]
      ensures value.None? || value.value == "" ==> res.headers == old(res.headers)
      ensures outcome == Continue
    {
      if value.Some? && value.value != "" {
        res.headers := res.headers[HEADER := value.value];
      }
      outcome := Continue;
    }
  }

  /** The configurations of test/xssprotection.js. */
  lemma TestValues()
    ensures XssValue(Flag(true)) == "1; mode=block"
    ensures XssValue(Settings(Number(1), Text("foo"))) == "1; mode=foo"
    ensures XssValue(Settings(Bool(true), Undefined)) == "1; mode=block"
    ensures XssValue(Settings(Number(0), Undefined)) == "0; mode=block"
  {
  }

  /** Configure then handle a request: the response carries the header that
      reads back as the configured flag and mode. */
  method ConfiguredResponse(options: XssOptions) returns (header: string)
    ensures Parse(header) == Some((Enabled(options), Mode(options)))
  {
    var xss := new XssModule();
    xss.Configure(options);
    var res := new Response();
    var outcome := xss.Middleware(res);
    header := res.headers[HEADER];
    XssValueParses(options);
  }
}
