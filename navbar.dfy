/**
 * Which navigation link the navigation bar highlights for the current path.
 */
module Navbar {

  const Root: string := "/"

  /**
   * `isActive(path)`: the home link is active on the home page only; any
   * other link is active on every path that starts with its target.
   */
  function IsActive(pathname: string, path: string): (active: bool)
    ensures path == Root ==> (active <==> pathname == Root)
    ensures path != Root ==> (active <==> path <= pathname)
  {
    if path == Root && pathname == Root then true
    else if path != Root && path <= pathname then true
    else false
  }

  /** A link stays active on every path below its target, e.g. `/tickets` on `/tickets/list`. */
  lemma {:induction false} ActiveBelowTarget(path: string, suffix: string)
    requires path != Root
    ensures IsActive(path + suffix, path)
  {
    assert (path + suffix)[..|path|] == path;
  }

  /** The home link is not active anywhere else, in particular not under `/tickets`. */
  lemma HomeOnlyOnHome(pathname: string)
    requires pathname != Root
    ensures !IsActive(pathname, Root)
  {
  }

  /** A pathname never holds a fragment, so the links to `/#lineup` and `/#schedule` are never active. */
  lemma FragmentLinksNeverActive(pathname: string, fragment: string)
    requires forall k :: 0 <= k < |pathname| ==> pathname[k] != '#'
    ensures !IsActive(pathname, "/#" + fragment)
  {
    var path := "/#" + fragment;
    assert path[1] == '#';
    if |pathname| > 1 {
      assert pathname[1] != '#';
    }
  }

  /** The highlights on the list page: `/tickets` yes, home and the fragment links no. */
  lemma ListPageHighlights()
    ensures IsActive("/tickets/list", "/tickets")
    ensures !IsActive("/tickets/list", Root)
    ensures !IsActive("/tickets/list", "/#lineup")
  {
    ActiveBelowTarget("/tickets", "/list");
    assert "/tickets" + "/list" == "/tickets/list";
    assert "/tickets/list"[1] != "/#lineup"[1];
  }
}
