/** server.go: the list of audiences a server may issue for, and how a
    requested resource is matched against it. */
module Audience {
  import opened Wrappers
  import opened Text

  /** The default audience: the configured resource, else the public URL. */
  function DefaultResource(publicURL: string, resource: string): string {
    var r := TrimRight(resource, '/');
    if r == "" then TrimRight(publicURL, '/') else r
  }

  /** The default first, then each further non-empty trimmed entry at its
      first appearance. */
  function Audiences(default: string, extra: seq<string>): seq<string> {
    if extra == [] then [default]
    else
      var known := Audiences(default, extra[..|extra| - 1]);
      var r := TrimRight(extra[|extra| - 1], '/');
      if r != "" && r !in known then known + [r] else known
  }

  /** The audience part of New. A blank public URL is refused. */
  method BuildAudiences(publicURL: string, resource: string, extra: seq<string>)
      returns (r: Result<(string, seq<string>)>)
    ensures r == if TrimSpace(publicURL) == "" then Err
                 else Ok((DefaultResource(publicURL, resource),
                          Audiences(DefaultResource(publicURL, resource), extra)))
  {
    if TrimSpace(publicURL) == "" {
      return Err;
    }
    var public := TrimRight(publicURL, '/');
    var default := TrimRight(resource, '/');
    if default == "" {
      default := public;
    }
    var resources := [default];
    var i := 0;
    while i < |extra|
      invariant 0 <= i <= |extra|
      invariant resources == Audiences(default, extra[..i])
      invariant default in resources
    {
      var e := TrimRight(extra[i], '/');
      assert extra[..i + 1][..i] == extra[..i];
      if e != "" && e != default && e !in resources {
        resources := resources + [e];
      }
      i := i + 1;
    }
    assert extra[..i] == extra;
    r := Ok((default, resources));
  }

  ghost predicate NoDuplicates(xs: seq<string>) {
    forall i, j :: 0 <= i < j < |xs| ==> xs[i] != xs[j]
  }

  /** The list: no duplicates, default first, exactly the wanted members, all
      without trailing slash. */
  lemma {:induction false} AudiencesExactly(default: string, extra: seq<string>)
    requires TrimRight(default, '/') == default
    ensures var l := Audiences(default, extra);
            && NoDuplicates(l) && l != [] && l[0] == default
            && (forall x :: x in l <==>
                x == default || (x != "" && exists i :: 0 <= i < |extra| && TrimRight(extra[i], '/') == x))
            && (forall x :: x in l ==> TrimRight(x, '/') == x)
  {
    if extra != [] {
      var n := |extra| - 1;
      var known, l := Audiences(default, extra[..n]), Audiences(default, extra);
      AudiencesExactly(default, extra[..n]);
      TrimRightPrefix(extra[n], '/');
      forall x
        ensures x in l <==> x == default || (x != "" && exists i :: 0 <= i < |extra| && TrimRight(extra[i], '/') == x)
      {
        if x in known && x != default {
          var i :| 0 <= i < n && TrimRight(extra[..n][i], '/') == x;
          assert TrimRight(extra[i], '/') == x;
        }
        if i :| 0 <= i < |extra| && TrimRight(extra[i], '/') == x {
          if i < n { assert TrimRight(extra[..n][i], '/') == x; }
        }
      }
    }
  }

  /** Further configuration only appends: first appearances fix the order. */
  lemma {:induction false} AudiencesGrow(default: string, extra: seq<string>, more: seq<string>)
    ensures Audiences(default, extra) <= Audiences(default, extra + more)
  {
    if more == [] {
      assert extra + more == extra;
    } else {
      var all := extra + more;
      assert all[..|all| - 1] == extra + more[..|more| - 1];
      AudiencesGrow(default, extra, more[..|more| - 1]);
    }
  }

  /** resolveResource: nothing requested means the default. */
  function Resolve(resources: seq<string>, default: string, requested: string): Option<string> {
    if requested == "" then Some(default)
    else
      var r := TrimRight(requested, '/');
      if r in resources then Some(r) else None
  }

  lemma {:induction false} DefaultIsTrimmed(publicURL: string, resource: string)
    ensures TrimRight(DefaultResource(publicURL, resource), '/') == DefaultResource(publicURL, resource)
  {
    TrimRightPrefix(resource, '/');
    TrimRightPrefix(publicURL, '/');
  }

  /** Resolution lands in the list, a resolved audience resolves to itself,
      and every allowed audience can be reached. */
  lemma {:induction false} ResolveIdempotent(publicURL: string, resource: string, extra: seq<string>, requested: string)
    ensures var default := DefaultResource(publicURL, resource);
            var l := Audiences(default, extra);
            && (Resolve(l, default, requested).Some? ==>
                  && Resolve(l, default, requested).value in l
                  && Resolve(l, default, Resolve(l, default, requested).value) == Resolve(l, default, requested))
            && (forall x :: x in l ==> Resolve(l, default, x) == Some(x))
  {
    DefaultIsTrimmed(publicURL, resource);
    AudiencesExactly(DefaultResource(publicURL, resource), extra);
  }

  /** The bare slash: a server for one URL resolves nothing to it, and a slash to
      no audience at all. */
  lemma BareSlashDiffers()
    ensures var l := Audiences("https://h", []);
            Resolve(l, "https://h", "") == Some("https://h") && Resolve(l, "https://h", "/") == None
  {
    assert TrimRight("/", '/') == "" by { assert "/"[..0] == ""; }
  }

  /** A trailing slash makes no difference, except for a bare slash: nothing
      requested means the default, while "/" names the empty audience. */
  lemma {:induction false} TrailingSlashExactly(
      publicURL: string, resource: string, extra: seq<string>, requested: string)
    ensures var default := DefaultResource(publicURL, resource);
            var l := Audiences(default, extra);
            Resolve(l, default, requested + "/") == Resolve(l, default, requested)
            <==> requested != "" || default == ""
  {
    var default := DefaultResource(publicURL, resource);
    DefaultIsTrimmed(publicURL, resource);
    AudiencesExactly(default, extra);
    TrimRightAppend(requested, '/');
    assert requested + "/" == requested + ['/'];
  }

  /** The default is the configured resource without trailing slashes, or, when that
      leaves nothing, the public URL without them. */
  lemma DefaultExactly(publicURL: string, resource: string)
    ensures TrimRight(resource, '/') != "" ==> DefaultResource(publicURL, resource) == TrimRight(resource, '/')
    ensures TrimRight(resource, '/') == "" ==> DefaultResource(publicURL, resource) == TrimRight(publicURL, '/')
  {
  }

  /** Nothing requested is the default; else the request without trailing slashes,
      exactly if it is allowed. */
  lemma ResolveExactly(resources: seq<string>, default: string, requested: string)
    ensures requested == "" ==> Resolve(resources, default, requested) == Some(default)
    ensures requested != "" ==>
              (Resolve(resources, default, requested).Some? <==> TrimRight(requested, '/') in resources)
    ensures requested != "" && Resolve(resources, default, requested).Some? ==>
              Resolve(resources, default, requested).value == TrimRight(requested, '/')
  {
  }
}
