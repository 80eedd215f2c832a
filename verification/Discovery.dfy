/** protect.go, resource.go and the per-resource routes of server.go: host and
    delegate must name the same metadata document. */
module Discovery {
  import opened Wrappers
  import opened Text
  import opened Audience

  const METADATA_PATH := "/.well-known/oauth-protected-resource"

  /** The path of resource under base, or nothing for the bare host. */
  function ResourceSuffix(base: string, resource: string): string {
    var p := TrimPrefix(resource, base);
    if p != "/" then p else ""
  }

  /** The base itself has no path, with or without a slash behind it; what is not
      under the base is its own. */
  lemma {:induction false} SuffixExactly(base: string, resource: string)
    ensures ResourceSuffix(base, base) == "" == ResourceSuffix(base, base + "/")
    ensures resource != "/" ==> ResourceSuffix(base, base + resource) == resource
    ensures resource != "/" && !(base <= resource) ==> ResourceSuffix(base, resource) == resource
  {
    assert (base + "/")[|base|..] == "/" && (base + resource)[|base|..] == resource && base <= base + "/";
  }

  function MetadataURL(base: string, resource: string): string {
    base + METADATA_PATH + ResourceSuffix(base, resource)
  }

  /** The route that serves a resource's own metadata, when it has a path. */
  function Route(base: string, resource: string): Option<string> {
    var suffix := ResourceSuffix(base, resource);
    if suffix == "" then None else Some(METADATA_PATH + suffix)
  }

  // ----- the mux ---------------------------------------------------------

  /** What the host needs to know of the request multiplexer: whether it accepts
      a pattern, whether a pattern conflicts with one that is registered, and
      whether a request for a path is handled under a pattern. */
  datatype Mux = Mux(
    accepts: string -> bool,
    conflict: (string, string) -> bool,
    handles: (string, string) -> bool)

  /** Characters that stand for themselves in patterns and in request paths. */
  predicate PlainChar(c: char) {
    || 'a' <= c <= 'z' || 'A' <= c <= 'Z' || '0' <= c <= '9'
    || c in ['-', '.', '_', '~', '!', '$', '&', '\'', '(', ')', '*', '+', ',', ';', '=', ':', '@', '/']
  }

  /** The segment that starts at j is "." or "..". */
  predicate DotSegment(p: string, j: nat) {
    && j < |p| && p[j] == '.'
    && (j + 1 == |p| || p[j + 1] == '/' || (p[j + 1] == '.' && (j + 2 == |p| || p[j + 2] == '/')))
  }

  /** A clean path of plain characters: no escapes, wildcards or white space, no
      empty or dotted segment, no trailing slash. */
  predicate PlainPath(p: string) {
    && p != "" && p[0] == '/' && (forall i :: 0 <= i < |p| ==> PlainChar(p[i]))
    && forall i :: 0 <= i < |p| && p[i] == '/' ==> i + 1 < |p| && p[i + 1] != '/' && !DotSegment(p, i + 1)
  }

  /** Plain paths are taken as they are written. */
  ghost predicate ReadsPlainly(mux: Mux) {
    && (forall p :: PlainPath(p) ==> mux.accepts(p))
    && (forall p, q {:trigger mux.conflict(p, q)} :: PlainPath(p) && PlainPath(q) ==> (mux.conflict(p, q) <==> p == q))
    && (forall p, q {:trigger mux.handles(p, q)} :: PlainPath(p) && PlainPath(q) ==> (mux.handles(p, q) <==> p == q))
  }

  lemma {:induction false} PlainIsAccepted(mux: Mux, p: string)
    requires ReadsPlainly(mux) && PlainPath(p)
    ensures mux.accepts(p)
  {
  }

  ghost predicate AllPlain(base: string, resources: seq<string>) {
    forall r :: r in resources && Route(base, r).Some? ==> PlainPath(Route(base, r).value)
  }

  // ----- the routes of the host ------------------------------------------

  /** The table of metadata routes: path to the resource it describes. */
  type Routes = map<string, string>

  /** The mux refuses a pattern it cannot read, or one that is or conflicts with
      a registered one. */
  predicate Refuses(mux: Mux, path: string, routes: Routes) {
    !mux.accepts(path) || path in routes || exists p :: p in routes && mux.conflict(path, p)
  }

  /** A refused pattern makes RegisterRoutes panic. */
  function Registered(mux: Mux, base: string, resources: seq<string>, routes: Routes): Result<Routes> {
    if resources == [] then Ok(routes)
    else
      match Route(base, resources[0])
      case None => Registered(mux, base, resources[1..], routes)
      case Some(path) =>
        if Refuses(mux, path, routes) then Err
        else Registered(mux, base, resources[1..], routes[path := resources[0]])
  }

  /** The per-resource loop of RegisterRoutes. */
  method RegisterResources(mux: Mux, base: string, resources: seq<string>) returns (r: Result<Routes>)
    ensures r == Registered(mux, base, resources, map[])
  {
    var routes: Routes := map[];
    var i := 0;
    while i < |resources|
      invariant 0 <= i <= |resources|
      invariant Registered(mux, base, resources[i..], routes) == Registered(mux, base, resources, map[])
    {
      var route := Route(base, resources[i]);
      assert resources[i..][0] == resources[i] && resources[i..][1..] == resources[i + 1..];
      if route.Some? {
        if Refuses(mux, route.value, routes) {
          return Err;
        }
        routes := routes[route.value := resources[i]];
      }
      i := i + 1;
    }
    r := Ok(routes);
  }

  ghost predicate Serves(routes: Routes, path: string, resource: string) {
    path in routes && routes[path] == resource
  }

  /** The later route of two entries is refused for the earlier one. */
  predicate Collide(mux: Mux, base: string, earlier: string, later: string) {
    && Route(base, earlier).Some? && Route(base, later).Some?
    && (Route(base, earlier) == Route(base, later)
        || mux.conflict(Route(base, later).value, Route(base, earlier).value))
  }

  /** Every route is accepted and no two entries collide. */
  ghost predicate RoutesDistinct(mux: Mux, base: string, resources: seq<string>) {
    && AllAccepted(mux, base, resources)
    && (forall i, j :: 0 <= i < j < |resources| ==> !Collide(mux, base, resources[i], resources[j]))
  }

  ghost predicate RoutesNew(mux: Mux, base: string, resources: seq<string>, routes: Routes) {
    forall i, p :: 0 <= i < |resources| && p in routes && Route(base, resources[i]).Some? ==>
      Route(base, resources[i]).value != p && !mux.conflict(Route(base, resources[i]).value, p)
  }

  /** Whatever the mux: registration succeeds exactly when it accepts every route
      and no two entries collide. */
  lemma {:induction false} RegisteredExactly(mux: Mux, base: string, resources: seq<string>, routes: Routes)
    ensures Registered(mux, base, resources, routes).Ok?
            <==> RoutesDistinct(mux, base, resources) && RoutesNew(mux, base, resources, routes)
  {
    if resources != [] {
      var head, rest := resources[0], resources[1..];
      var route := Route(base, head);
      var routes' := if route.None? then routes else routes[route.value := head];
      RegisteredExactly(mux, base, rest, routes');
      assert forall i :: 0 <= i < |rest| ==> rest[i] == resources[i + 1];
      if Registered(mux, base, resources, routes).Ok? {
        HeadRegisters(mux, base, resources, routes, routes');
      }
      if RoutesDistinct(mux, base, resources) && RoutesNew(mux, base, resources, routes) {
        RestRegisters(mux, base, resources, routes, routes');
      }
    }
  }

  lemma {:induction false} HeadRegisters(
      mux: Mux, base: string, resources: seq<string>, routes: Routes, routes': Routes)
    requires resources != [] && var route := Route(base, resources[0]);
             && routes' == (if route.None? then routes else routes[route.value := resources[0]])
             && (route.Some? ==> !Refuses(mux, route.value, routes))
    requires RoutesDistinct(mux, base, resources[1..]) && RoutesNew(mux, base, resources[1..], routes')
    ensures RoutesDistinct(mux, base, resources) && RoutesNew(mux, base, resources, routes)
  {
    var rest := resources[1..];
    forall i, j | 0 <= i < j < |resources| ensures !Collide(mux, base, resources[i], resources[j]) {
      assert resources[j] == rest[j - 1];
      if i > 0 {
        assert resources[i] == rest[i - 1];
      } else if Route(base, resources[0]).Some? {
        assert Route(base, resources[0]).value in routes';
      }
    }
    forall i | 0 <= i < |resources| && Route(base, resources[i]).Some?
      ensures mux.accepts(Route(base, resources[i]).value)
    {
      if i > 0 { assert resources[i] == rest[i - 1]; }
    }
    forall i, p | 0 <= i < |resources| && p in routes && Route(base, resources[i]).Some?
      ensures Route(base, resources[i]).value != p && !mux.conflict(Route(base, resources[i]).value, p)
    {
      if i > 0 {
        assert resources[i] == rest[i - 1] && p in routes';
      }
    }
  }

  lemma {:induction false} RestRegisters(
      mux: Mux, base: string, resources: seq<string>, routes: Routes, routes': Routes)
    requires resources != [] && var route := Route(base, resources[0]);
             routes' == (if route.None? then routes else routes[route.value := resources[0]])
    requires RoutesDistinct(mux, base, resources) && RoutesNew(mux, base, resources, routes)
    ensures Route(base, resources[0]).Some? ==> !Refuses(mux, Route(base, resources[0]).value, routes)
    ensures RoutesDistinct(mux, base, resources[1..]) && RoutesNew(mux, base, resources[1..], routes')
  {
    var rest := resources[1..];
    assert forall i :: 0 <= i < |rest| ==> rest[i] == resources[i + 1];
    forall i, p | 0 <= i < |rest| && p in routes' && Route(base, rest[i]).Some?
      ensures Route(base, rest[i]).value != p && !mux.conflict(Route(base, rest[i]).value, p)
    {
      if p !in routes || Route(base, resources[0]) == Some(p) {
        assert !Collide(mux, base, resources[0], resources[i + 1]);
      }
    }
  }

  /** The finished table holds exactly each entry's own route. */
  lemma {:induction false} RegisteredTable(mux: Mux, base: string, resources: seq<string>, routes: Routes)
    requires Registered(mux, base, resources, routes).Ok?
    ensures var table := Registered(mux, base, resources, routes).value;
            forall path, res :: Serves(table, path, res) <==>
              Serves(routes, path, res) || (res in resources && Route(base, res) == Some(path))
  {
    if resources != [] {
      var head, rest := resources[0], resources[1..];
      var route := Route(base, head);
      assert resources == [head] + rest;
      RegisteredTable(mux, base, rest, if route.None? then routes else routes[route.value := head]);
      RegisteredExactly(mux, base, resources, routes);
      forall path, res | Serves(routes, path, res)
        ensures Serves(Registered(mux, base, resources, routes).value, path, res)
      {
        assert route != Some(path);
      }
    }
  }

  /** Two different resources share a route exactly when one sits under the
      base and the other is literally its path, outside the base. */
  lemma {:induction false} SharedRouteExactly(base: string, a: string, b: string)
    requires a != b && Route(base, a).Some? && Route(base, b).Some?
    ensures Route(base, a) == Route(base, b) <==>
            || (a == base + b && !HasPrefix(b, base))
            || (b == base + a && !HasPrefix(a, base))
  {
    SameRouteSameSuffix(base, a, b);
    if HasPrefix(a, base) { assert a == base + a[|base|..]; }
    if HasPrefix(b, base) { assert b == base + b[|base|..]; }
  }

  /** Such a configuration, which New accepts: the path of one resource is the
      whole of the other, and registering the routes fails at start, whatever
      the mux. */
  lemma {:induction false} SharedRouteFails(mux: Mux)
    ensures var list := Audiences(DefaultResource("https://h", ""), ["https://h/mcp", "/mcp"]);
            && Route("https://h", "https://h/mcp") == Route("https://h", "/mcp")
            && Registered(mux, "https://h", list, map[]).Err?
  {
    var base, a, b := "https://h", "https://h/mcp", "/mcp";
    var list := Audiences(DefaultResource(base, ""), [a, b]);
    BothAllowed(a, b);
    assert a[|base|..] == b && !HasPrefix(b, base);
    var i :| 0 <= i < |list| && list[i] == a;
    var j :| 0 <= j < |list| && list[j] == b;
    assert Collide(mux, base, list[if i < j then i else j], list[if i < j then j else i]);
    RegisteredExactly(mux, base, list, map[]);
  }

  lemma {:induction false} BothAllowed(a: string, b: string)
    requires a != "" && a[|a| - 1] != '/' && b != "" && b[|b| - 1] != '/'
    ensures var list := Audiences(DefaultResource("https://h", ""), [a, b]);
            a in list && b in list && NoDuplicates(list)
  {
    DefaultIsTrimmed("https://h", "");
    AudiencesExactly(DefaultResource("https://h", ""), [a, b]);
    assert TrimRight([a, b][0], '/') == a && TrimRight([a, b][1], '/') == b;
  }

  /** Another, with a mux that reads an escaped character as the character, both
      resources under the public URL and none the path of the other. */
  lemma {:induction false} EscapedRouteFails(mux: Mux)
    requires mux.conflict(METADATA_PATH + "/%61", METADATA_PATH + "/a")
    requires mux.conflict(METADATA_PATH + "/a", METADATA_PATH + "/%61")
    ensures var list := Audiences(DefaultResource("https://h", ""), ["https://h/a", "https://h/%61"]);
            && "https://h/a" in list && "https://h/%61" in list
            && Registered(mux, "https://h", list, map[]).Err?
  {
    var base, a, b := "https://h", "https://h/a", "https://h/%61";
    var list := Audiences(DefaultResource(base, ""), [a, b]);
    BothAllowed(a, b);
    assert a[|base|..] == "/a" && b[|base|..] == "/%61";
    var i :| 0 <= i < |list| && list[i] == a;
    var j :| 0 <= j < |list| && list[j] == b;
    assert Collide(mux, base, list[if i < j then i else j], list[if i < j then j else i]);
    RegisteredExactly(mux, base, list, map[]);
  }

  lemma {:induction false} SameRouteSameSuffix(base: string, a: string, b: string)
    requires Route(base, a).Some? && Route(base, b).Some?
    ensures Route(base, a) == Route(base, b) <==> ResourceSuffix(base, a) == ResourceSuffix(base, b)
  {
    assert Route(base, a).value[|METADATA_PATH|..] == ResourceSuffix(base, a);
    assert Route(base, b).value[|METADATA_PATH|..] == ResourceSuffix(base, b);
  }

  /** NewResourceServer: a delegate for one resource under the host. */
  datatype ResourceServer = ResourceServer(issuerURL: string, audience: string, metadataURL: string)

  function NewResourceServer(issuerURL: string, resource: string, keyValid: bool): Result<ResourceServer> {
    var issuer := TrimRight(issuerURL, '/');
    var audience := TrimRight(resource, '/');
    if issuer == "" || audience == "" || !HasPrefix(audience, issuer + "/") || !keyValid then Err
    else Ok(ResourceServer(issuer, audience, MetadataURL(issuer, audience)))
  }

  /** A delegate starts exactly with a valid key, a non-empty issuer, and a resource
      under it, slashes at the end aside. */
  lemma {:induction false} ResourceServerExactly(issuerURL: string, resource: string, keyValid: bool)
    ensures var issuer, audience := TrimRight(issuerURL, '/'), TrimRight(resource, '/');
            && (NewResourceServer(issuerURL, resource, keyValid).Ok?
                <==> keyValid && issuer != "" && HasPrefix(audience, issuer + "/"))
            && (NewResourceServer(issuerURL, resource, keyValid).Ok? ==>
                var s := NewResourceServer(issuerURL, resource, keyValid).value;
                s.issuerURL == issuer && s.audience == audience
                && s.metadataURL == issuer + "/.well-known/oauth-protected-resource" + audience[|issuer|..])
  {
    var issuer, audience := TrimRight(issuerURL, '/'), TrimRight(resource, '/');
    if HasPrefix(audience, issuer + "/") {
      TrimRightPrefix(resource, '/');
      UnderBase(issuer, audience);
      assert audience[|issuer|..] == ResourceSuffix(issuer, audience);
    }
  }

  /** Resources under the base have routes of their own and never share
      one. */
  lemma {:induction false} UnderBaseNeverShares(base: string, a: string, b: string)
    requires HasPrefix(a, base + "/") && HasPrefix(b, base + "/")
    requires TrimRight(a, '/') == a && TrimRight(b, '/') == b
    ensures Route(base, a).Some?
    ensures Route(base, a) == Route(base, b) <==> a == b
  {
    UnderBase(base, a);
    UnderBase(base, b);
    SameRouteSameSuffix(base, a, b);
  }

  lemma {:induction false} UnderBase(base: string, a: string)
    requires HasPrefix(a, base + "/") && TrimRight(a, '/') == a
    ensures a == base + ResourceSuffix(base, a) && ResourceSuffix(base, a) != ""
  {
    TrimRightPrefix(a, '/');
    assert a == base + "/" + a[|base| + 1..];
    assert a == base + a[|base|..];
    assert a[|a| - 1] != '/' && a[|base|] == '/';
  }

  /** One entry is the path of another that sits under the base. */
  ghost predicate Clash(base: string, resources: seq<string>) {
    exists a, b :: a in resources && b in resources && a == base + b && a != b
                   && !HasPrefix(b, base) && Route(base, b).Some?
  }

  /** The routes of an allowed list with plain paths register exactly when no
      entry is the path of another. */
  lemma {:induction false} RegistrationExactly(mux: Mux, base: string, resources: seq<string>)
    requires NoDuplicates(resources) && ReadsPlainly(mux) && AllPlain(base, resources)
    ensures Registered(mux, base, resources, map[]).Ok? <==> !Clash(base, resources)
  {
    RegisteredExactly(mux, base, resources, map[]);
    CollidingClashes(mux, base, resources);
    if Clash(base, resources) {
      ClashCollides(mux, base, resources);
    }
  }

  ghost predicate AllAccepted(mux: Mux, base: string, resources: seq<string>) {
    forall i :: 0 <= i < |resources| && Route(base, resources[i]).Some? ==> mux.accepts(Route(base, resources[i]).value)
  }

  lemma {:induction false} PlainAccepted(mux: Mux, base: string, resources: seq<string>)
    requires ReadsPlainly(mux) && AllPlain(base, resources)
    ensures AllAccepted(mux, base, resources)
  {
    forall i | 0 <= i < |resources| && Route(base, resources[i]).Some?
      ensures mux.accepts(Route(base, resources[i]).value)
    {
      assert resources[i] in resources;
      PlainIsAccepted(mux, Route(base, resources[i]).value);
    }
  }

  lemma {:induction false} CollidingClashes(mux: Mux, base: string, resources: seq<string>)
    requires NoDuplicates(resources) && ReadsPlainly(mux) && AllPlain(base, resources)
    ensures !RoutesDistinct(mux, base, resources) ==> Clash(base, resources)
  {
    PlainAccepted(mux, base, resources);
    if !RoutesDistinct(mux, base, resources) {
      var i, j :| 0 <= i < j < |resources| && Collide(mux, base, resources[i], resources[j]);
      PairClashes(mux, base, resources, resources[i], resources[j]);
    }
  }

  lemma {:induction false} PairClashes(mux: Mux, base: string, resources: seq<string>, a: string, b: string)
    requires ReadsPlainly(mux) && AllPlain(base, resources)
    requires a in resources && b in resources && a != b && Collide(mux, base, a, b)
    ensures Clash(base, resources)
  {
    CollidingShare(mux, base, a, b);
  }

  lemma {:induction false} CollidingShare(mux: Mux, base: string, a: string, b: string)
    requires ReadsPlainly(mux) && a != b && Collide(mux, base, a, b)
    requires PlainPath(Route(base, a).value) && PlainPath(Route(base, b).value)
    ensures (a == base + b && !HasPrefix(b, base)) || (b == base + a && !HasPrefix(a, base))
  {
    assert mux.conflict(Route(base, b).value, Route(base, a).value) ==> Route(base, b) == Route(base, a);
    SharedRouteExactly(base, a, b);
  }

  lemma {:induction false} ClashCollides(mux: Mux, base: string, resources: seq<string>)
    requires Clash(base, resources)
    ensures !RoutesDistinct(mux, base, resources)
  {
    var a, b :| a in resources && b in resources && a == base + b && a != b
                && !HasPrefix(b, base) && Route(base, b).Some?;
    ClashRoute(base, a, b);
    PairCollides(mux, base, resources, a, b);
  }

  lemma {:induction false} PairCollides(mux: Mux, base: string, resources: seq<string>, a: string, b: string)
    requires a in resources && b in resources && a != b && Route(base, b).Some? && Route(base, a) == Route(base, b)
    ensures !RoutesDistinct(mux, base, resources)
  {
    var i :| 0 <= i < |resources| && resources[i] == a;
    var j :| 0 <= j < |resources| && resources[j] == b;
    assert Collide(mux, base, resources[if i < j then i else j], resources[if i < j then j else i]);
  }

  lemma {:induction false} ClashRoute(base: string, a: string, b: string)
    requires a == base + b && !HasPrefix(b, base)
    ensures Route(base, a) == Route(base, b)
  {
    assert a[|base|..] == b;
  }

  /** A request for the route of res is handled for exactly that resource. */
  ghost predicate ServedAlone(mux: Mux, table: Routes, route: string, res: string) {
    && Serves(table, route, res)
    && forall p :: p in table ==> (mux.handles(p, route) <==> p == route)
  }

  /** Host and delegate agree, for every allowed resource under a non-empty
      public URL: a delegate with a valid key starts, expects exactly that
      audience, and challenges toward the resource's route. When the routes of
      the list are plain paths, the host serves there exactly that resource, if
      and only if its list has no clash; and lists under the public URL have
      none. */
  lemma {:induction false} HostAndDelegateAgree(
      mux: Mux, publicURL: string, resource: string, extra: seq<string>, res: string)
    requires TrimRight(publicURL, '/') != "" && ReadsPlainly(mux)
    requires res in Audiences(DefaultResource(publicURL, resource), extra)
    requires HasPrefix(res, TrimRight(publicURL, '/') + "/")
    ensures NewResourceServer(publicURL, res, true).Ok?
    ensures NewResourceServer(publicURL, res, true).value.audience == res
    ensures var base, list := TrimRight(publicURL, '/'), Audiences(DefaultResource(publicURL, resource), extra);
            var registered := Registered(mux, base, list, map[]);
            && Route(base, res).Some?
            && NewResourceServer(publicURL, res, true).value.metadataURL == base + Route(base, res).value
            && (registered.Ok? ==> Serves(registered.value, Route(base, res).value, res))
            && (AllPlain(base, list) ==>
                && (registered.Ok? <==> !Clash(base, list))
                && (registered.Ok? ==> ServedAlone(mux, registered.value, Route(base, res).value, res)))
            && ((forall x :: x in list ==> HasPrefix(x, base)) ==> !Clash(base, list))
  {
    var base := TrimRight(publicURL, '/');
    var list := Audiences(DefaultResource(publicURL, resource), extra);
    DefaultIsTrimmed(publicURL, resource);
    AudiencesExactly(DefaultResource(publicURL, resource), extra);
    UnderBase(base, res);
    if Registered(mux, base, list, map[]).Ok? {
      RegisteredTable(mux, base, list, map[]);
    }
    if AllPlain(base, list) {
      RegistrationExactly(mux, base, list);
      if Registered(mux, base, list, map[]).Ok? {
        PlainlyServed(mux, base, list, res);
      }
    }
  }

  lemma {:induction false} PlainlyServed(mux: Mux, base: string, list: seq<string>, res: string)
    requires ReadsPlainly(mux) && AllPlain(base, list) && res in list && Route(base, res).Some?
    requires Registered(mux, base, list, map[]).Ok?
    ensures ServedAlone(mux, Registered(mux, base, list, map[]).value, Route(base, res).value, res)
  {
    var table, route := Registered(mux, base, list, map[]).value, Route(base, res).value;
    RegisteredTable(mux, base, list, map[]);
    assert Serves(table, route, res);
    forall p | p in table ensures mux.handles(p, route) <==> p == route {
      assert Serves(table, p, table[p]);
    }
  }
}
