/** The composition of index.js and lib/index.js: the `aegis` function picks
    one component per truthy option, in registration order, and its
    middleware nests them into a chain of continuations that runs the last
    registered component first and lets an error fall through to the
    outer `next`. */
module Aegis {
  import opened Wrappers
  import opened Js
  import opened Errors
  import opened Http

  /** The keys registered on the exported function. */
  datatype Name = Csrf | Csp | Hsts | P3p | Xframe | XssProtection | Nosniff

  /** Registration order of index.js. */
  const RootRegistration: seq<Name> := [Csrf, Csp, Hsts, P3p, Xframe, XssProtection, Nosniff]

  /** Registration order of lib/index.js, which has no P3P component. */
  const LibRegistration: seq<Name> := [XssProtection, Nosniff, Xframe, Csrf, Hsts, Csp]

  /** The options argument: None when it is falsy, otherwise the value found
      under each key (a key that is absent reads as undefined). */
  type AegisOptions = Option<map<Name, Value>>

  predicate Enabled(options: AegisOptions, n: Name)
  {
    options.Some? && n in options.value && Truthy(options.value[n])
  }

  /** The components the configure loop collects, as names. */
  function Selected(registration: seq<Name>, options: AegisOptions): (cs: seq<Name>)
    ensures |cs| <= |registration|
    ensures forall n :: n in cs <==> n in registration && Enabled(options, n)
  {
    if registration == [] then []
    else
      var rest := Selected(registration[1..], options);
      if Enabled(options, registration[0]) then [registration[0]] + rest else rest
  }

  /** Selection keeps registration order: it distributes over concatenation. */
  lemma {:induction false} SelectedAppend(r1: seq<Name>, r2: seq<Name>, options: AegisOptions)
    ensures Selected(r1 + r2, options) == Selected(r1, options) + Selected(r2, options)
  {
    if r1 == [] {
      assert r1 + r2 == r2;
    } else {
      assert (r1 + r2)[1..] == r1[1..] + r2;
      SelectedAppend(r1[1..], r2, options);
    }
  }

  /** Falsy options select nothing. */
  lemma NoOptionsSelectNothing(registration: seq<Name>)
    ensures Selected(registration, None) == []
  {
    if registration != [] {
      NoOptionsSelectNothing(registration[1..]);
    }
  }

  /** A registration without repeated keys yields components without
      repetitions. */
  lemma {:induction false} SelectedDistinct(registration: seq<Name>, options: AegisOptions)
    requires Distinct(registration)
    ensures Distinct(Selected(registration, options))
  {
    if registration != [] {
      var tail := registration[1..];
      assert forall i, j :: 0 <= i < j < |tail| ==> tail[i] != tail[j] by {
        forall i, j | 0 <= i < j < |tail| ensures tail[i] != tail[j] {
          assert tail[i] == registration[i + 1] && tail[j] == registration[j + 1];
        }
      }
      SelectedDistinct(tail, options);
      assert registration[0] !in tail;
    }
  }

  /** The configure loop: pushes one component per enabled key. */
  method SelectComponents(registration: seq<Name>, options: AegisOptions) returns (components: seq<Name>)
    ensures components == Selected(registration, options)
  {
    components := [];
    if options.Some? {
      for i := 0 to |registration|
        invariant Selected(registration, options) == components + Selected(registration[i..], options)
      {
        assert registration[i..] == [registration[i]] + registration[i + 1..];
        if Enabled(options, registration[i]) {
          components := components + [registration[i]];
        }
      }
      assert registration[|registration|..] == [];
    } else {
      NoOptionsSelectNothing(registration);
    }
  }

  /** A chain of continuations: the outer `next`, or a wrapper that runs
      `component` unless it is handed an error, and passes on to `next`. */
  datatype Chain = Outer | Wrap(component: Name, next: Chain)

  /** The components of a chain from the outermost wrapper inwards. */
  function Order(chain: Chain): (order: seq<Name>)
    ensures chain.Outer? <==> order == []
  {
    match chain
    case Outer => []
    case Wrap(c, next) => [c] + Order(next)
  }

  function Reverse(s: seq<Name>): (r: seq<Name>)
    ensures |r| == |s|
    ensures forall i :: 0 <= i < |s| ==> r[i] == s[|s| - 1 - i]
  {
    if s == [] then [] else Reverse(s[1..]) + [s[0]]
  }

  /** The middleware's loop: each component wraps the chain built so far. */
  method BuildChain(components: seq<Name>) returns (chain: Chain)
    ensures Order(chain) == Reverse(components)
  {
    chain := Outer;
    for i := 0 to |components|
      invariant Order(chain) == Reverse(components[..i])
    {
      chain := Wrap(components[i], chain);
      assert components[..i + 1][1..] == components[1..i + 1];
      assert Reverse(components[..i + 1]) == [components[i]] + Reverse(components[..i]);
    }
    assert components[..|components|] == components;
  }

  /** Calling a chain with an error (or none): the components run, in
      order, and the error the outer `next` receives. A component's
      behaviour is its outcome on the current request. */
  function Invoke(chain: Chain, err: Option<Error>, behaviour: Name -> Outcome): (r: (seq<Name>, Option<Error>))
    ensures err.Some? ==> r == ([], err)
    ensures |r.0| <= |Order(chain)|
  {
    match chain
    case Outer => ([], err)
    case Wrap(c, next) =>
      if err.Some? then Invoke(next, err, behaviour)
      else
        var passed := if behaviour(c).Fail? then Some(behaviour(c).error) else None;
        var rest := Invoke(next, passed, behaviour);
        ([c] + rest.0, rest.1)
  }

  /** Reference semantics: run the components one after the other and stop
      at the first failure. */
  function Run(order: seq<Name>, behaviour: Name -> Outcome): (r: (seq<Name>, Option<Error>))
  {
    if order == [] then ([], None)
    else if behaviour(order[0]).Fail? then ([order[0]], Some(behaviour(order[0]).error))
    else
      var rest := Run(order[1..], behaviour);
      ([order[0]] + rest.0, rest.1)
  }

  /** The nested continuations behave as the sequential run of their order. */
  lemma {:induction false} InvokeRuns(chain: Chain, behaviour: Name -> Outcome)
    ensures Invoke(chain, None, behaviour) == Run(Order(chain), behaviour)
  {
    match chain
    case Outer =>
    case Wrap(c, next) =>
      assert Order(chain)[0] == c && Order(chain)[1..] == Order(next);
      if behaviour(c).Fail? {
        var e := behaviour(c).error;
        assert Invoke(next, Some(e), behaviour) == ([], Some(e));
        assert [c] + [] == [c];
        assert Run(Order(chain), behaviour) == ([c], Some(e));
      } else {
        InvokeRuns(next, behaviour);
      }
  }

  /** If every component continues, each runs once, in order, and the outer
      `next` receives no error. */
  lemma {:induction false} RunAllContinue(order: seq<Name>, behaviour: Name -> Outcome)
    requires forall i :: 0 <= i < |order| ==> behaviour(order[i]) == Continue
    ensures Run(order, behaviour) == (order, None)
  {
    if order != [] {
      RunAllContinue(order[1..], behaviour);
      assert [order[0]] + order[1..] == order;
    }
  }

  /** The first failing component is the last to run, and its error reaches
      the outer `next` unchanged. */
  lemma {:induction false} RunFirstFailure(order: seq<Name>, behaviour: Name -> Outcome, j: nat)
    requires j < |order|
    requires forall i :: 0 <= i < j ==> behaviour(order[i]) == Continue
    requires behaviour(order[j]).Fail?
    ensures Run(order, behaviour) == (order[..j + 1], Some(behaviour(order[j]).error))
  {
    if j == 0 {
      assert order[..1] == [order[0]];
    } else {
      RunFirstFailure(order[1..], behaviour, j - 1);
      assert [order[0]] + order[1..][..j] == order[..j + 1];
    }
  }

  /** Every component that runs belongs to the order, and the run is a
      prefix of it. */
  lemma {:induction false} RunPrefix(order: seq<Name>, behaviour: Name -> Outcome)
    ensures |Run(order, behaviour).0| <= |order|
    ensures Run(order, behaviour).0 == order[..|Run(order, behaviour).0|]
    ensures Run(order, behaviour).1.None? ==> Run(order, behaviour).0 == order
  {
    if order != [] && !behaviour(order[0]).Fail? {
      RunPrefix(order[1..], behaviour);
      var t := Run(order[1..], behaviour).0;
      assert [order[0]] + t == order[..|t| + 1];
    }
  }

  /** The middleware returned by `aegis(options)` handling one request:
      selection, chain construction and the call `chain()`. */
  method Handle(registration: seq<Name>, options: AegisOptions, behaviour: Name -> Outcome)
    returns (trace: seq<Name>, error: Option<Error>)
    ensures (trace, error) == Run(Reverse(Selected(registration, options)), behaviour)
    ensures options.None? ==> trace == [] && error == None
  {
    var components := SelectComponents(registration, options);
    var chain := BuildChain(components);
    InvokeRuns(chain, behaviour);
    trace, error := Invoke(chain, None, behaviour).0, Invoke(chain, None, behaviour).1;
    if options.None? {
      NoOptionsSelectNothing(registration);
    }
  }

  /** The configuration of test/index.js enables every key. */
  const AllOptions: AegisOptions := Some(map[
    Csrf := Bool(true), Xframe := Text("SAMEORIGIN"), P3p := Text("MY_P3P_VALUE"),
    Hsts := Object, Csp := Object, XssProtection := Bool(true), Nosniff := Bool(true)])

  predicate Distinct(s: seq<Name>)
  {
    forall i, j :: 0 <= i < j < |s| ==> s[i] != s[j]
  }

  /** Reversal keeps the members and their distinctness. */
  lemma ReverseMembers(s: seq<Name>)
    ensures forall n :: n in Reverse(s) <==> n in s
    ensures Distinct(s) ==> Distinct(Reverse(s))
  {
    var r := Reverse(s);
    forall n ensures n in r <==> n in s {
      if n in r {
        var i :| 0 <= i < |r| && r[i] == n;
        assert s[|s| - 1 - i] == n;
      }
      if n in s {
        var i :| 0 <= i < |s| && s[i] == n;
        assert r[|s| - 1 - i] == n;
      }
    }
    if Distinct(s) {
      forall i, j | 0 <= i < j < |r| ensures r[i] != r[j] {
        assert r[i] == s[|s| - 1 - i] && r[j] == s[|s| - 1 - j];
      }
    }
  }

  /** Whole-middleware reading of RunAllContinue: when every selected
      component continues, each enabled key runs exactly once, last
      registered first, and the outer `next` receives no error. */
  lemma MiddlewareAllContinue(registration: seq<Name>, options: AegisOptions, behaviour: Name -> Outcome)
    requires Distinct(registration)
    requires forall n :: n in registration && Enabled(options, n) ==> behaviour(n) == Continue
    ensures var r := Run(Reverse(Selected(registration, options)), behaviour);
      && r.1 == None
      && r.0 == Reverse(Selected(registration, options))
      && (forall n :: n in r.0 <==> n in registration && Enabled(options, n))
      && Distinct(r.0)
  {
    var cs := Selected(registration, options);
    var order := Reverse(cs);
    ReverseMembers(cs);
    forall i | 0 <= i < |order| ensures behaviour(order[i]) == Continue {
      assert order[i] in cs;
    }
    RunAllContinue(order, behaviour);
    SelectedDistinct(registration, options);
  }

  /** Whole-middleware reading of RunFirstFailure: the first component to
      fail, counted from the last registered, ends the run and its error
      is the one the outer `next` receives. */
  lemma MiddlewareFailure(registration: seq<Name>, options: AegisOptions, behaviour: Name -> Outcome, j: nat)
    requires j < |Selected(registration, options)|
    requires forall i :: 0 <= i < j ==> behaviour(Reverse(Selected(registration, options))[i]) == Continue
    requires behaviour(Reverse(Selected(registration, options))[j]).Fail?
    ensures var order := Reverse(Selected(registration, options));
      Run(order, behaviour) == (order[..j + 1], Some(behaviour(order[j]).error))
  {
    RunFirstFailure(Reverse(Selected(registration, options)), behaviour, j);
  }

  /** Options under which every key is truthy. */
  predicate EveryKeyEnabled(options: AegisOptions)
  {
    forall n: Name :: Enabled(options, n)
  }

  /** Under such options a registration is kept whole. */
  lemma {:induction false} SelectedAll(registration: seq<Name>, options: AegisOptions)
    requires EveryKeyEnabled(options)
    ensures Selected(registration, options) == registration
  {
    if registration != [] {
      SelectedAll(registration[1..], options);
      assert Enabled(options, registration[0]);
      assert [registration[0]] + registration[1..] == registration;
    }
  }

  lemma AllOptionsEnabled()
    ensures EveryKeyEnabled(AllOptions)
  {
    var m := AllOptions.value;
    forall n: Name ensures Enabled(AllOptions, n) {
      match n
      case Csrf => assert m[Csrf] == Bool(true);
      case Csp => assert m[Csp] == Object;
      case Hsts => assert m[Hsts] == Object;
      case P3p => assert m[P3p] == Text("MY_P3P_VALUE");
      case Xframe => assert m[Xframe] == Text("SAMEORIGIN");
      case XssProtection => assert m[XssProtection] == Bool(true);
      case Nosniff => assert m[Nosniff] == Bool(true);
    }
  }

  /** With every key enabled both registrations keep all their components. */
  lemma AllOptionsSelection()
    ensures Selected(RootRegistration, AllOptions) == RootRegistration
    ensures Selected(LibRegistration, AllOptions) == LibRegistration
  {
    AllOptionsEnabled();
    SelectedAll(RootRegistration, AllOptions);
    SelectedAll(LibRegistration, AllOptions);
  }

  /** The last registered component runs first. */
  lemma RunOrders()
    ensures Reverse(RootRegistration) == [Nosniff, XssProtection, Xframe, P3p, Hsts, Csp, Csrf]
    ensures Reverse(LibRegistration) == [Csp, Hsts, Csrf, Xframe, Nosniff, XssProtection]
  {
  }
}
