/**
 * The active-link rule of src/components/Navbar.jsx.
 */
module Navbar {
  import opened Text

  /** The paths of the navigation items, in menu order. */
  const NavPaths: seq<string> := ["/", "/search", "/reviews", "/contact"]

  /** `isActivePath(path)` for the current `location.pathname`: an active
      link's path always begins the pathname. */
  function IsActivePath(pathname: string, path: string): (r: bool)
    ensures r ==> StartsWith(pathname, path)
  {
    assert pathname == "/" ==> pathname[..|pathname|] == pathname;
    if path == "/" && pathname == "/" then true
    else if path != "/" && StartsWith(pathname, path) then true
    else false
  }

  /** The home link is active on "/" and nowhere else. */
  lemma RootIsExact(pathname: string)
    ensures IsActivePath(pathname, "/") <==> pathname == "/"
  {
  }

  /** Any other link is active exactly on the pathnames it prefixes. */
  lemma OtherPathsArePrefixes(pathname: string, path: string)
    requires path != "/"
    ensures IsActivePath(pathname, path) <==> |path| <= |pathname| && pathname[..|path|] == path
  {
  }

  /** The prefix test reads characters, not path segments. */
  lemma SearchActiveOnSearchResults()
    ensures IsActivePath("/searchresults", "/search")
    ensures !IsActivePath("/search", "/")
  {
    assert "/searchresults"[..|"/search"|] == "/search";
  }

  /** A link stays active on every extension of a pathname it is active
      on, except the home link. */
  lemma ActiveOnExtensions(pathname: string, path: string, more: string)
    requires path != "/" && IsActivePath(pathname, path)
    ensures IsActivePath(pathname + more, path)
  {
    assert (pathname + more)[..|path|] == pathname[..|path|];
  }

  /** On "/search/…" only "Search Cars" is highlighted. */
  lemma OnlySearchActive(rest: string)
    ensures forall i :: 0 <= i < |NavPaths| ==>
      (IsActivePath("/search/" + rest, NavPaths[i]) <==> NavPaths[i] == "/search")
  {
    var p := "/search/" + rest;
    assert p[..7] == "/search";
    assert p[..8] == "/search/";
    assert p[1] == 's';
  }
}
