/** Content-Security-Policy of lib/csp.js: the recursive policy renderer and
    the configure function that sets the module-level header name and value. */
module Csp {
  import opened Wrappers
  import opened Js
  import opened Errors
  import opened Strings
  import opened Http

  const HEADER := "content-security-policy"
  const REPORT_ONLY_SUFFIX := "-report-only"
  const SEPARATOR := "; "

  /** A directive's value in a policy object: any value that is not an object
      or array. */
  type Scalar = v: Value | !v.Object? witness Undefined

  /** The shapes a policy can take: a string, an array of policies, an object
      mapping directive names to values (in key order), or anything else
      (undefined, null, a number, a boolean). */
  datatype Policy =
    | Str(text: string)
    | Arr(items: seq<Policy>)
    | Obj(directives: seq<(string, Scalar)>)
    | Other

  /** `"" + v` for a scalar. */
  function ScalarText(v: Scalar): string
  {
    match v
    case Undefined => "undefined"
    case Null => "null"
    case Bool(b) => if b then "true" else "false"
    case Number(n) => IntToString(n)
    case Text(s) => s
  }

  /** One object entry as a directive: the name, followed by a space and the
      value exactly when the value is 0 or truthy. */
  function DirectiveText(entry: (string, Scalar)): (d: string)
    ensures |d| >= |entry.0| && d[..|entry.0|] == entry.0
    ensures (entry.1 == Number(0) || Truthy(entry.1)) <==> d != entry.0
    ensures d != entry.0 ==> d == entry.0 + " " + ScalarText(entry.1)
  {
    if entry.1 == Number(0) || Truthy(entry.1) then entry.0 + " " + ScalarText(entry.1) else entry.0
  }

  function DirectiveTexts(directives: seq<(string, Scalar)>): (r: seq<string>)
    ensures |r| == |directives|
    ensures forall i :: 0 <= i < |r| ==> r[i] == DirectiveText(directives[i])
  {
    seq(|directives|, i requires 0 <= i < |directives| => DirectiveText(directives[i]))
  }

  /** The policies a renderer accepts: no `Other` anywhere. */
  predicate WellFormed(p: Policy)
  {
    match p
    case Str(_) => true
    case Arr(items) => forall i :: 0 <= i < |items| ==> WellFormed(items[i])
    case Obj(_) => true
    case Other => false
  }

  /** createPolicyString. An object's directives are rendered here directly;
      RenderObject shows this is the source's re-rendering of them as an array
      of strings. */
  function Render(p: Policy): Result<string, Error>
  {
    match p
    case Str(s) => Ok(s)
    case Arr(items) =>
      (match RenderAll(items)
       case Ok(parts) => Ok(Join(parts, SEPARATOR))
       case Err(e) => Err(e))
    case Obj(directives) => Ok(Join(DirectiveTexts(directives), SEPARATOR))
    case Other => Err(CspInvalidPolicy)
  }

  /** `policy.map(createPolicyString)`, throwing at the first element that throws. */
  function RenderAll(items: seq<Policy>): (r: Result<seq<string>, Error>)
    ensures r.Ok? ==> |r.value| == |items|
  {
    if items == [] then Ok([])
    else
      match Render(items[0])
      case Err(e) => Err(e)
      case Ok(first) =>
        (match RenderAll(items[1..])
         case Err(e) => Err(e)
         case Ok(rest) => Ok([first] + rest))
  }

  /** A string policy is used as it is. */
  lemma RenderString(s: string)
    ensures Render(Str(s)) == Ok(s)
  {
  }

  /** Rendering succeeds exactly on well-formed policies, and the only error
      it raises is CspInvalidPolicy. */
  lemma {:induction false} RenderOkIffWellFormed(p: Policy)
    ensures Render(p).Ok? <==> WellFormed(p)
    ensures Render(p).Err? ==> Render(p).error == CspInvalidPolicy
    decreases p, 1
  {
    match p
    case Str(_) =>
    case Arr(items) => RenderAllOkIffWellFormed(items);
    case Obj(_) =>
    case Other =>
  }

  lemma {:induction false} RenderAllOkIffWellFormed(items: seq<Policy>)
    ensures RenderAll(items).Ok? <==> forall i :: 0 <= i < |items| ==> WellFormed(items[i])
    ensures RenderAll(items).Err? ==> RenderAll(items).error == CspInvalidPolicy
    decreases items, 0
  {
    if items != [] {
      RenderOkIffWellFormed(items[0]);
      RenderAllOkIffWellFormed(items[1..]);
      assert forall i :: 1 <= i < |items| ==> items[i] == items[1..][i - 1];
    }
  }

  /** An array renders each element and joins the results with "; ". */
  lemma {:induction false} RenderArray(items: seq<Policy>, parts: seq<string>)
    requires |parts| == |items|
    requires forall i :: 0 <= i < |items| ==> Render(items[i]) == Ok(parts[i])
    ensures Render(Arr(items)) == Ok(Join(parts, SEPARATOR))
  {
    RenderAllParts(items, parts);
  }

  lemma {:induction false} RenderAllParts(items: seq<Policy>, parts: seq<string>)
    requires |parts| == |items|
    requires forall i :: 0 <= i < |items| ==> Render(items[i]) == Ok(parts[i])
    ensures RenderAll(items) == Ok(parts)
  {
    if items != [] {
      RenderAllParts(items[1..], parts[1..]);
      assert parts == [parts[0]] + parts[1..];
    }
  }

  /** An object renders as the array of its directive strings, in key order,
      that is, joined with "; ". */
  lemma RenderObject(directives: seq<(string, Scalar)>)
    ensures Render(Obj(directives)) == Render(Arr(seq(|directives|, i requires 0 <= i < |directives| => Str(DirectiveText(directives[i])))))
  {
    var strs := seq(|directives|, i requires 0 <= i < |directives| => Str(DirectiveText(directives[i])));
    RenderArray(strs, DirectiveTexts(directives));
  }

  /** Rendering is compositional: two non-empty arrays of well-formed policies
      render, side by side, with one separator between them. */
  lemma {:induction false} RenderConcat(a: seq<Policy>, b: seq<Policy>)
    requires |a| > 0 && |b| > 0
    requires Render(Arr(a)).Ok? && Render(Arr(b)).Ok?
    ensures Render(Arr(a + b)) == Ok(Render(Arr(a)).value + SEPARATOR + Render(Arr(b)).value)
  {
    RenderAllConcat(a, b);
    JoinAppend(RenderAll(a).value, RenderAll(b).value, SEPARATOR);
  }

  lemma {:induction false} RenderAllConcat(a: seq<Policy>, b: seq<Policy>)
    requires RenderAll(a).Ok? && RenderAll(b).Ok?
    ensures RenderAll(a + b) == Ok(RenderAll(a).value + RenderAll(b).value)
  {
    if a == [] {
      assert a + b == b;
      assert RenderAll(a).value == [];
      assert RenderAll(a).value + RenderAll(b).value == RenderAll(b).value;
    } else {
      assert (a + b)[0] == a[0];
      assert (a + b)[1..] == a[1..] + b;
      var first := Render(a[0]);
      assert first.Ok? && RenderAll(a[1..]).Ok?;
      RenderAllConcat(a[1..], b);
      assert RenderAll(a).value == [first.value] + RenderAll(a[1..]).value;
      assert RenderAll(a + b) == Ok([first.value] + RenderAll(a[1..] + b).value);
      assert [first.value] + (RenderAll(a[1..]).value + RenderAll(b).value)
          == ([first.value] + RenderAll(a[1..]).value) + RenderAll(b).value;
    }
  }

  /** The header value: the rendered policy, then `report-uri <uri>` when a
      report URI is given, preceded by "; " only after a non-empty policy. */
  function HeaderValue(policy: string, reportUri: string): (v: string)
    ensures reportUri == "" ==> v == policy
    ensures reportUri != "" && policy == "" ==> v == "report-uri " + reportUri
    ensures reportUri != "" && policy != "" ==> v == policy + SEPARATOR + "report-uri " + reportUri
  {
    if reportUri == "" then policy
    else (if policy != "" then policy + SEPARATOR else policy) + "report-uri " + reportUri
  }

  /** The options object; an absent one, or an object without a `policy`
      such as a Date, reads as an `Other` policy, no report URI, not
      report-only. */
  datatype CspOptions = CspOptions(reportOnly: bool, reportUri: string, policy: Policy)

  const NO_OPTIONS := CspOptions(false, "", Other)

  /** The module-level `name` and `value`. */
  class CspModule {
    var name: Option<string>
    var value: Option<string>

    constructor ()
      ensures name == None && value == None
    {
      name := None;
      value := None;
    }

    /** csp(options): sets the header name, then the value; an invalid policy
        throws after the name was already set, leaving the previous value. */
    method Configure(options: CspOptions) returns (error: Option<Error>)
      modifies this
      ensures name == Some(if options.reportOnly then HEADER + REPORT_ONLY_SUFFIX else HEADER)
      ensures Render(options.policy).Err? ==> error == Some(CspInvalidPolicy) && value == old(value)
      ensures Render(options.policy).Ok? ==> error == None && value == Some(HeaderValue(Render(options.policy).value, options.reportUri))
    {
      var n := HEADER;
      if options.reportOnly {
        n := n + REPORT_ONLY_SUFFIX;
      }
      name := Some(n);
      var rendered := Render(options.policy);
      RenderOkIffWellFormed(options.policy);
      if rendered.Err? {
        return Some(rendered.error);
      }
      var v := rendered.value;
      if options.reportUri != "" {
        if v != "" {
          v := v + SEPARATOR;
        }
        v := v + "report-uri " + options.reportUri;
      }
      value := Some(v);
      error := None;
    }

    /** The middleware writes the configured header. */
    method Middleware(res: Response) returns (outcome: Outcome)
      requires name.Some? && value.Some?
      modifies res`headers
      ensures res.headers == old(res.headers)[name.value := value.value]
      ensures outcome == Continue
    {
      res.headers := res.headers[name.value := value.value];
      outcome := Continue;
    }
  }

  /** The policies of test/csp.js render as the test expects. */
  lemma TestPolicies()
    ensures Render(Obj([("default-src", Text("*"))])) == Ok("default-src *")
    ensures Render(Arr([Str("default-src *"), Str("img-src *")])) == Ok("default-src *; img-src *")
    ensures Render(Arr([Obj([("default-src", Text("*"))]), Str("img-src *")])) == Ok("default-src *; img-src *")
    ensures HeaderValue("default-src *", "/report") == "default-src *; report-uri /report"
    ensures Render(Other).Err?
  {
    var directive: (string, Scalar) := ("default-src", Text("*"));
    assert DirectiveText(directive) == "default-src *";
    assert DirectiveTexts([directive]) == ["default-src *"];
    assert Render(Obj([directive])) == Ok("default-src *");
    var parts := ["default-src *", "img-src *"];
    assert Join(parts, SEPARATOR) == "default-src *; img-src *";
    RenderArray([Str("default-src *"), Str("img-src *")], parts);
    RenderArray([Obj([directive]), Str("img-src *")], parts);
  }

  /** Configuring without a policy (test/csp.js passes a Date) reports
      CSP_INVALID_POLICY, after the header name has already been set. */
  method Misconfigured() returns (error: Option<Error>, name: Option<string>, value: Option<string>)
    ensures error == Some(CspInvalidPolicy)
    ensures name == Some(HEADER) && value == None
  {
    var csp := new CspModule();
    error := csp.Configure(NO_OPTIONS);
    name, value := csp.name, csp.value;
  }
}
