/** Strict-Transport-Security of lib/hsts.js. The configure function
    normalises `maxAge` in the caller's options and, when it is a number,
    overwrites the module-level header value; otherwise the previous value
    stays. */
module Hsts {
  import opened Wrappers
  import opened Strings
  import opened Http

  const HEADER := "strict-transport-security"
  const MAX_AGE := "max-age="
  const INCLUDE_SUB_DOMAINS := "; includeSubDomains"
  const PRELOAD := "; preload"

  /** A numeric option: undefined, an integer, or NaN. Integers are
      unbounded; see Js.Value for the limits this puts on the model. */
  datatype NumberValue = Missing | Int(n: int) | NaN

  /** parseInt on undefined and on integers. */
  function ParseInt(v: NumberValue): NumberValue
  {
    if v.Int? then v else NaN
  }

  /** Math.max(0, v): NaN stays NaN. */
  function MaxZero(v: NumberValue): NumberValue
  {
    match v
    case Int(n) => Int(if n < 0 then 0 else n)
    case _ => NaN
  }

  /** `Math.max(0, parseInt(maxAge))`: integers are clamped at 0, anything
      else becomes NaN. */
  function NormaliseMaxAge(v: NumberValue): (r: NumberValue)
    ensures v.Int? <==> r.Int?
    ensures r.Int? ==> r.n >= 0 && (v.n >= 0 ==> r.n == v.n) && (v.n < 0 ==> r.n == 0)
    ensures !v.Int? ==> r == NaN
  {
    MaxZero(ParseInt(v))
  }

  /** The header value for a non-negative max-age and the two flags. */
  function HstsValue(maxAge: nat, includeSubDomains: bool, preload: bool): string
  {
    MAX_AGE + NatToDecimal(maxAge)
      + (if includeSubDomains then INCLUDE_SUB_DOMAINS else "")
      + (if preload then PRELOAD else "")
  }

  /** What a header value says. */
  datatype Directives = Directives(maxAge: nat, includeSubDomains: bool, preload: bool)

  /** The longest run of digits at the start of `s`. */
  function LeadingDigits(s: string): (d: string)
    ensures |d| <= |s| && d == s[..|d|]
    ensures forall i :: 0 <= i < |d| ==> IsDigit(d[i])
  {
    if s != [] && IsDigit(s[0]) then [s[0]] + LeadingDigits(s[1..]) else ""
  }

  lemma {:induction false} LeadingDigitsOf(digits: string, rest: string)
    requires forall i :: 0 <= i < |digits| ==> IsDigit(digits[i])
    requires rest == "" || !IsDigit(rest[0])
    ensures LeadingDigits(digits + rest) == digits
  {
    if digits != [] {
      assert (digits + rest)[1..] == digits[1..] + rest;
      LeadingDigitsOf(digits[1..], rest);
    } else {
      assert digits + rest == rest;
    }
  }

  /** Reads a header value back: `max-age=` and digits, then the directives
      that may follow, in their fixed order. */
  function Parse(s: string): Option<Directives>
  {
    if |s| < |MAX_AGE| || s[..|MAX_AGE|] != MAX_AGE then None
    else
      var rest := s[|MAX_AGE|..];
      var digits := LeadingDigits(rest);
      var tail := rest[|digits|..];
      if digits == "" then None
      else if tail == "" then Some(Directives(DecimalValue(digits), false, false))
      else if tail == INCLUDE_SUB_DOMAINS then Some(Directives(DecimalValue(digits), true, false))
      else if tail == PRELOAD then Some(Directives(DecimalValue(digits), false, true))
      else if tail == INCLUDE_SUB_DOMAINS + PRELOAD then Some(Directives(DecimalValue(digits), true, true))
      else None
  }

  /** The header value states the max-age, then includeSubDomains exactly when
      asked, then preload exactly when asked, and nothing else. */
  lemma HstsValueParses(maxAge: nat, includeSubDomains: bool, preload: bool)
    ensures Parse(HstsValue(maxAge, includeSubDomains, preload)) == Some(Directives(maxAge, includeSubDomains, preload))
  {
    var digits := NatToDecimal(maxAge);
    var tail := (if includeSubDomains then INCLUDE_SUB_DOMAINS else "") + (if preload then PRELOAD else "");
    var s := HstsValue(maxAge, includeSubDomains, preload);
    assert s == MAX_AGE + (digits + tail);
    assert s[|MAX_AGE|..] == digits + tail;
    assert tail == "" || tail[0] == ';';
    LeadingDigitsOf(digits, tail);
    assert (digits + tail)[|digits|..] == tail;
    DecimalRoundTrip(maxAge);
  }

  /** The caller's options object; `maxAge` is rewritten in place. */
  class HstsOptions {
    var maxAge: NumberValue
    var includeSubDomains: bool
    var preload: bool

    constructor (maxAge: NumberValue, includeSubDomains: bool, preload: bool)
      ensures this.maxAge == maxAge && this.includeSubDomains == includeSubDomains && this.preload == preload
    {
      this.maxAge := maxAge;
      this.includeSubDomains := includeSubDomains;
      this.preload := preload;
    }
  }

  /** The module-level header value, undefined until a configuration with a
      numeric max-age. */
  class HstsModule {
    var value: Option<string>

    constructor ()
      ensures value == None
    {
      value := None;
    }

    /** The configure function; no options read as an empty object. */
    method Configure(options: HstsOptions?)
      modifies this`value, options
      ensures options != null ==> options.maxAge == NormaliseMaxAge(old(options.maxAge))
      ensures options != null ==> options.includeSubDomains == old(options.includeSubDomains) && options.preload == old(options.preload)
      ensures var maxAge := NormaliseMaxAge(if options == null then Missing else old(options.maxAge));
              && (maxAge.Int? ==> value == Some(HstsValue(maxAge.n, options != null && options.includeSubDomains,
                                                          options != null && options.preload)))
              && (!maxAge.Int? ==> value == old(value))
    {
      var maxAge := NormaliseMaxAge(Missing);
      var includeSubDomains, preload := false, false;
      if options != null {
        options.maxAge := MaxZero(ParseInt(options.maxAge));
        maxAge := options.maxAge;
        includeSubDomains, preload := options.includeSubDomains, options.preload;
      }
      if maxAge.Int? && maxAge.n > -1 {
        var v := MAX_AGE + NatToDecimal(maxAge.n);
        if includeSubDomains {
          v := v + INCLUDE_SUB_DOMAINS;
        }
        if preload {
          v := v + PRELOAD;
        }
        assert v == HstsValue(maxAge.n, includeSubDomains, preload) by {
          var head := MAX_AGE + NatToDecimal(maxAge.n);
          assert head + "" == head;
          assert (if includeSubDomains then head + INCLUDE_SUB_DOMAINS else head) + "" ==
                 (if includeSubDomains then head + INCLUDE_SUB_DOMAINS else head);
        }
        value := Some(v);
      }
    }

    /** The middleware writes the header only when a value is set. */
    method Middleware(res: Response) returns (outcome: Outcome)
      modifies res`headers
      ensures value.Some? && value.value != "" ==> res.headers == old(res.headers)[HEADER := value.value]
      ensures !(value.Some? && value.value != "") ==> res.headers == old(res.headers)
      ensures outcome == Continue
    {
      if value.Some? && value.value != "" {
        res.headers := res.headers[HEADER := value.value];
      }
      outcome := Continue;
    }
  }

  /** The decimal text of the one-year max-age the tests use. */
  lemma OneYearDecimal()
    ensures NatToDecimal(31536000) == "31536000"
  {
    assert NatToDecimal(3) == "3";
    assert NatToDecimal(31) == "31";
    assert NatToDecimal(315) == "315";
    assert NatToDecimal(3153) == "3153";
    assert NatToDecimal(31536) == "31536";
    assert NatToDecimal(315360) == "315360";
    assert NatToDecimal(3153600) == "3153600";
  }

  /** test/hsts.js: a negative max-age is written back into the options as 0
      and the header reads `max-age=0`. */
  method NegativeMaxAge() returns (value: Option<string>, written: NumberValue)
    ensures value == Some("max-age=0") && written == Int(0)
  {
    var m := new HstsModule();
    var options := new HstsOptions(Int(-3456356356), false, false);
    m.Configure(options);
    assert NatToDecimal(0) == "0";
    assert HstsValue(0, false, false) == "max-age=0";
    value := m.value;
    written := options.maxAge;
  }

  /** A configuration without max-age keeps the header value of an earlier
      configuration, and sets none on a module never configured before. */
  method MissingMaxAge() returns (stale: Option<string>, none: Option<string>)
    ensures stale == Some("max-age=31536000; includeSubDomains")
    ensures none == None
  {
    var m := new HstsModule();
    var first := new HstsOptions(Int(31536000), true, false);
    m.Configure(first);
    OneYearDecimal();
    assert HstsValue(31536000, true, false) == "max-age=31536000; includeSubDomains";
    var second := new HstsOptions(Missing, false, true);
    m.Configure(second);
    stale := m.value;
    var n := new HstsModule();
    n.Configure(null);
    none := n.value;
  }
}
