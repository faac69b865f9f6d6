/** The client router: matching a path against the route table (an exact key
    first, then the patterns with `:name` parameters in table order) and the
    authentication guard that decides which view is loaded and whether the
    address is replaced. */
module Router {
  import opened Wrappers

  /** A view is named by its class. */
  type View = string

  /** The route table in insertion order: a pattern and its view. */
  type Routes = seq<(string, View)>

  /** A pattern is a sequence of literal characters and parameters. */
  datatype Token = Lit(c: char) | Param(name: string)

  /** The number of leading characters of `s` that are not '/'. */
  function RunLength(s: string): (n: nat)
    ensures n <= |s|
    ensures forall k :: 0 <= k < n ==> s[k] != '/'
    ensures n == |s| || s[n] == '/'
  {
    if s == [] || s[0] == '/' then 0 else 1 + RunLength(s[1..])
  }

  /** A pattern read as `pattern.replace(/:([^/]+)/g, ...)` reads it: a ':'
      followed by at least one character other than '/' starts a parameter
      named by the longest such run; every other character stands for
      itself. */
  function Tokens(p: string): seq<Token>
    decreases |p|
  {
    if p == [] then []
    else if p[0] == ':' && |p| > 1 && p[1] != '/' then
      var n := RunLength(p[1..]);
      [Param(p[1..1 + n])] + Tokens(p[1 + n..])
    else [Lit(p[0])] + Tokens(p[1..])
  }

  /** The parameter names of a pattern, in order. */
  function Names(toks: seq<Token>): (r: seq<string>)
    ensures |r| <= |toks|
  {
    if toks == [] then []
    else (if toks[0].Param? then [toks[0].name] else []) + Names(toks[1..])
  }

  /** A value `([^/]+)` can capture. */
  predicate Segment(v: string)
  {
    v != [] && '/' !in v
  }

  /** The path a pattern stands for once each parameter is given a value. */
  function Fill(toks: seq<Token>, caps: seq<string>): string
    requires |caps| == |Names(toks)|
  {
    if toks == [] then []
    else if toks[0].Lit? then [toks[0].c] + Fill(toks[1..], caps)
    else caps[0] + Fill(toks[1..], caps[1..])
  }

  /** The anchored regular expression `^...$` applied to `path`, with the
      captures a backtracking matcher reports: each parameter takes the
      longest run it can such that the rest still matches. */
  function MatchFrom(toks: seq<Token>, path: string): Option<seq<string>>
    decreases |toks|, |path| + 1
  {
    if toks == [] then (if path == [] then Some([]) else None)
    else if toks[0].Lit? then
      if path != [] && path[0] == toks[0].c then MatchFrom(toks[1..], path[1..]) else None
    else TryLengths(toks[1..], path, RunLength(path))
  }

  /** A parameter followed by `rest`, tried with capture lengths n, n-1, ..., 1. */
  function TryLengths(rest: seq<Token>, path: string, n: nat): Option<seq<string>>
    requires n <= |path|
    decreases |rest| + 1, n
  {
    if n == 0 then None
    else match MatchFrom(rest, path[n..])
      case Some(caps) => Some([path[..n]] + caps)
      case None => TryLengths(rest, path, n - 1)
  }

  /** What a successful match reports: one value per parameter, each a
      non-empty segment without '/', and together they spell the path. */
  lemma {:induction false} MatchSound(toks: seq<Token>, path: string)
    requires MatchFrom(toks, path).Some?
    ensures var caps := MatchFrom(toks, path).value;
      |caps| == |Names(toks)|
      && (forall i :: 0 <= i < |caps| ==> Segment(caps[i]))
      && Fill(toks, caps) == path
    decreases |toks|, |path| + 1
  {
    if toks != [] {
      if toks[0].Lit? {
        MatchSound(toks[1..], path[1..]);
      } else {
        TryLengthsSound(toks[1..], path, RunLength(path));
        assert toks[1..] == toks[1..];
      }
    }
  }

  lemma {:induction false} TryLengthsSound(rest: seq<Token>, path: string, n: nat)
    requires n <= |path| && n <= RunLength(path)
    requires TryLengths(rest, path, n).Some?
    ensures var caps := TryLengths(rest, path, n).value;
      |caps| == 1 + |Names(rest)|
      && (forall i :: 0 <= i < |caps| ==> Segment(caps[i]))
      && caps[0] + Fill(rest, caps[1..]) == path
    decreases |rest| + 1, n
  {
    if MatchFrom(rest, path[n..]).Some? {
      MatchSound(rest, path[n..]);
      var caps := MatchFrom(rest, path[n..]).value;
      assert [path[..n]] + caps == TryLengths(rest, path, n).value;
      assert path[..n] + path[n..] == path;
      assert forall k :: 0 <= k < n ==> path[..n][k] == path[k];
    } else {
      TryLengthsSound(rest, path, n - 1);
    }
  }

  /** Conversely, a path spelled by the pattern with some segment values is
      matched. */
  lemma {:induction false} MatchComplete(toks: seq<Token>, caps: seq<string>, path: string)
    requires |caps| == |Names(toks)|
    requires forall i :: 0 <= i < |caps| ==> Segment(caps[i])
    requires Fill(toks, caps) == path
    ensures MatchFrom(toks, path).Some?
    decreases |toks|
  {
    if toks != [] {
      if toks[0].Lit? {
        MatchComplete(toks[1..], caps, path[1..]);
      } else {
        var m := |caps[0]|;
        var rest := Fill(toks[1..], caps[1..]);
        assert path == caps[0] + rest;
        assert path[..m] == caps[0] && path[m..] == rest;
        NoSlashWithinRun(path, m);
        MatchComplete(toks[1..], caps[1..], rest);
        TryLengthsComplete(toks[1..], path, RunLength(path), m);
      }
    }
  }

  lemma {:induction false} NoSlashWithinRun(s: string, m: nat)
    requires m <= |s| && '/' !in s[..m]
    ensures m <= RunLength(s)
  {
  }

  lemma {:induction false} TryLengthsComplete(rest: seq<Token>, path: string, n: nat, m: nat)
    requires n <= |path| && 1 <= m <= n
    requires MatchFrom(rest, path[m..]).Some?
    ensures TryLengths(rest, path, n).Some?
    decreases n
  {
    if n != m && MatchFrom(rest, path[n..]).None? {
      TryLengthsComplete(rest, path, n - 1, m);
    }
  }

  /** `paramNames.forEach((name, index) => params[name] = match[index + 1])`:
      a later parameter of the same name overwrites an earlier one. */
  function ParamMap(names: seq<string>, caps: seq<string>): map<string, string>
    requires |names| == |caps|
  {
    if names == [] then map[]
    else ParamMap(names[..|names| - 1], caps[..|names| - 1])[names[|names| - 1] := caps[|names| - 1]]
  }

  /** The map holds exactly the parameter names, each bound to the value
      captured by its last occurrence. */
  lemma {:induction false} ParamMapBinds(names: seq<string>, caps: seq<string>)
    requires |names| == |caps|
    ensures ParamMap(names, caps).Keys == set i | 0 <= i < |names| :: names[i]
    ensures forall i :: 0 <= i < |names| ==>
      (forall j :: i < j < |names| ==> names[j] != names[i]) ==> ParamMap(names, caps)[names[i]] == caps[i]
  {
    if names != [] {
      var k := |names| - 1;
      ParamMapBinds(names[..k], caps[..k]);
      assert forall i :: 0 <= i < k ==> names[..k][i] == names[i];
      assert (set i | 0 <= i < |names| :: names[i]) == (set i | 0 <= i < k :: names[..k][i]) + {names[k]};
    }
  }

  /** The outcome of `matchRoute`: a view (or null) and the parameters. */
  datatype RouteMatch = RouteMatch(view: Option<View>, params: map<string, string>)

  /** `this.routes[key]`: the view stored under exactly that key. */
  function Lookup(routes: Routes, key: string): (r: Option<View>)
    ensures r.Some? <==> exists i :: 0 <= i < |routes| && routes[i].0 == key
    ensures r.Some? ==> exists i :: 0 <= i < |routes| && routes[i] == (key, r.value)
  {
    if routes == [] then None
    else if routes[0].0 == key then Some(routes[0].1)
    else
      var r := Lookup(routes[1..], key);
      assert r.Some? ==> exists i :: 0 <= i < |routes[1..]| && routes[1..][i] == (key, r.value);
      r
  }

  /** The first pattern of the table that matches the whole path. */
  function PatternMatch(routes: Routes, path: string): RouteMatch
  {
    if routes == [] then RouteMatch(None, map[])
    else
      var toks := Tokens(routes[0].0);
      match MatchFrom(toks, path)
      case Some(caps) =>
        MatchSound(toks, path);
        RouteMatch(Some(routes[0].1), ParamMap(Names(toks), caps))
      case None => PatternMatch(routes[1..], path)
  }

  /** `matchRoute(path)`: an exact key wins with no parameters; otherwise the
      first matching pattern in table order; otherwise no view. */
  function MatchRoute(routes: Routes, path: string): RouteMatch
  {
    match Lookup(routes, path)
    case Some(v) => RouteMatch(Some(v), map[])
    case None => PatternMatch(routes, path)
  }

  /** The loop of `matchRoute` over `Object.entries(this.routes)`. */
  method MatchRouteLoop(routes: Routes, path: string) returns (m: RouteMatch)
    ensures m == MatchRoute(routes, path)
  {
    var exact := Lookup(routes, path);
    if exact.Some? {
      return RouteMatch(exact, map[]);
    }
    var i := 0;
    while i < |routes|
      invariant i <= |routes|
      invariant PatternMatch(routes[i..], path) == PatternMatch(routes, path)
    {
      var toks := Tokens(routes[i].0);
      var found := MatchFrom(toks, path);
      if found.Some? {
        MatchSound(toks, path);
        var params := BindParams(Names(toks), found.value);
        return RouteMatch(Some(routes[i].1), params);
      }
      assert routes[i..][1..] == routes[i + 1..];
      i := i + 1;
    }
    m := RouteMatch(None, map[]);
  }

  /** The inner loop of `matchRoute`: each parameter name bound, in order,
      to its captured value, a later name overwriting an earlier one. */
  method BindParams(names: seq<string>, caps: seq<string>) returns (params: map<string, string>)
    requires |names| == |caps|
    ensures params == ParamMap(names, caps)
  {
    params := map[];
    for j := 0 to |names|
      invariant params == ParamMap(names[..j], caps[..j])
    {
      assert names[..j + 1][..j] == names[..j];
      assert caps[..j + 1][..j] == caps[..j];
      params := params[names[j] := caps[j]];
    }
    assert names[..|names|] == names && caps[..|names|] == caps;
  }

  /** An exact key is preferred even over an earlier pattern that would also
      match, and then no parameter is bound. */
  lemma ExactKeyWins(routes: Routes, path: string, v: View)
    requires forall i, j :: 0 <= i < j < |routes| ==> routes[i].0 != routes[j].0
    requires (path, v) in routes
    ensures MatchRoute(routes, path) == RouteMatch(Some(v), map[])
  {
    var k :| 0 <= k < |routes| && routes[k] == (path, v);
    var w :| 0 <= w < |routes| && routes[w] == (path, Lookup(routes, path).value);
    assert w == k;
  }

  /** Without an exact key, the view is that of the first pattern matching
      the path, and no earlier pattern matches it. */
  lemma {:induction false} FirstPatternWins(routes: Routes, path: string)
    requires PatternMatch(routes, path).view.Some?
    ensures exists i :: (0 <= i < |routes|
      && PatternMatch(routes, path).view == Some(routes[i].1)
      && MatchFrom(Tokens(routes[i].0), path).Some?
      && forall j :: 0 <= j < i ==> MatchFrom(Tokens(routes[j].0), path).None?)
  {
    if MatchFrom(Tokens(routes[0].0), path).None? {
      FirstPatternWins(routes[1..], path);
      var i :| 0 <= i < |routes[1..]|
        && PatternMatch(routes[1..], path).view == Some(routes[1..][i].1)
        && MatchFrom(Tokens(routes[1..][i].0), path).Some?
        && forall j :: 0 <= j < i ==> MatchFrom(Tokens(routes[1..][j].0), path).None?;
      assert forall j :: 1 <= j < i + 1 ==> routes[j] == routes[1..][j - 1];
    }
  }

  /** No pattern matching means no view. */
  lemma {:induction false} NoPatternNoView(routes: Routes, path: string)
    requires forall i :: 0 <= i < |routes| ==> MatchFrom(Tokens(routes[i].0), path).None?
    ensures PatternMatch(routes, path) == RouteMatch(None, map[])
  {
    if routes != [] {
      NoPatternNoView(routes[1..], path);
    }
  }

  /** A route made of one parameter, `/:id`, matches '/' followed by any
      non-empty value without '/', and binds it; the literal prefix of a
      route such as `/results/:ecosystemId` is matched by `MatchFrom`'s
      literal steps before it. */
  lemma ParameterRoute(v: string)
    requires Segment(v)
    ensures MatchFrom([Lit('/'), Param("id")], ['/'] + v) == Some([v])
  {
    var toks := [Lit('/'), Param("id")];
    var path := ['/'] + v;
    assert path[1..] == v && toks[1..] == [Param("id")] && toks[1..][1..] == [];
    assert RunLength(v) == |v|;
    assert v[|v|..] == [] && v[..|v|] == v;
    assert MatchFrom([], v[|v|..]) == Some([]);
    var none: seq<string> := [];
    assert [v[..|v|]] + none == [v];
    assert TryLengths([], v, |v|) == Some([v]);
    assert MatchFrom(toks[1..], v) == Some([v]);
  }

  // ---------------------------------------------------------------------
  // The authentication guard of `route`
  // ---------------------------------------------------------------------

  const PublicRoutes: seq<string> := ["/", "/login", "/register", "/auth/callback"]

  /** What `route` does for a path: the address it leaves in the bar and the
      view it loads with its parameters (`None` when the table has no view
      for it, where `new ViewClass` throws). */
  datatype Outcome = Outcome(location: string, load: Option<(View, map<string, string>)>)

  function Guard(routes: Routes, path: string, authenticated: bool): (o: Outcome)
    ensures !authenticated && path !in PublicRoutes ==> o.location == "/login"
    ensures authenticated && path in PublicRoutes ==> o.location == "/dashboard"
    ensures (authenticated <==> path !in PublicRoutes) ==> o.location == path
  {
    var m := MatchRoute(routes, path);
    if path !in PublicRoutes && !authenticated then
      Outcome("/login", LoadOf(Lookup(routes, "/login")))
    else if path in PublicRoutes && authenticated then
      Outcome("/dashboard", LoadOf(Lookup(routes, "/dashboard")))
    else if m.view.Some? then
      Outcome(path, Some((m.view.value, m.params)))
    else
      Outcome(path, LoadOf(Lookup(routes, "/")))
  }

  function LoadOf(v: Option<View>): Option<(View, map<string, string>)>
  {
    if v.Some? then Some((v.value, map[])) else None
  }

  /** A visitor who is not signed in only ever sees a public page, a signed-in
      one never stays on a public address, and an unknown address that
      passes the guard shows the '/' view. */
  lemma GuardOutcomes(routes: Routes, path: string, authenticated: bool)
    ensures !authenticated ==> Guard(routes, path, authenticated).location in PublicRoutes
    ensures authenticated ==> Guard(routes, path, authenticated).location !in PublicRoutes
    ensures (authenticated <==> path !in PublicRoutes) && MatchRoute(routes, path).view.None?
      ==> Guard(routes, path, authenticated).load == LoadOf(Lookup(routes, "/"))
  {
    assert "/dashboard" != "/" && "/dashboard"[1] != "/login"[1];
    assert "/dashboard"[1] != "/register"[1] && "/dashboard"[1] != "/auth/callback"[1];
  }

  /** The router keeps the table, the address and the mounted view. */
  class AppRouter {
    var routes: Routes
    var location: string
    var currentView: Option<(View, map<string, string>)>

    constructor (table: Routes, start: string)
      ensures routes == table && location == start && currentView == None
    {
      routes := table;
      location := start;
      currentView := None;
    }

    /** `route()`: apply the guard to the current address; the address may be
        replaced, and the chosen view is mounted. When the table has no view
        for it, loading fails and the previous view stays. */
    method Route(authenticated: bool)
      modifies this
      ensures routes == old(routes)
      ensures location == Guard(routes, old(location), authenticated).location
      ensures currentView == (if Guard(routes, old(location), authenticated).load.Some?
        then Guard(routes, old(location), authenticated).load else old(currentView))
    {
      var o := Guard(routes, location, authenticated);
      location := o.location;
      if o.load.Some? {
        currentView := o.load;
      }
    }

    /** `navigate(path)`: push the address, then route. */
    method Navigate(path: string, authenticated: bool)
      modifies this
      ensures routes == old(routes)
      ensures location == Guard(routes, path, authenticated).location
      ensures Guard(routes, path, authenticated).load.Some? ==> currentView == Guard(routes, path, authenticated).load
      ensures Guard(routes, path, authenticated).load.None? ==> currentView == old(currentView)
    {
      location := path;
      Route(authenticated);
    }
  }
}
