/** The bottom navigation bar: which of its four items the current path highlights. */
module MainNavBar {
  import opened Strings

  /** The items' paths, in bar order: Home, Groups, Explore, Profile. */
  const NavPaths: seq<string> := ["/", "/groups", "/explore", "/profile"]

  /** `getCurrentIndex()`: the item for `pathname`, or -1 for a path outside the bar. */
  function CurrentIndex(pathname: string): (r: int)
    ensures -1 <= r < |NavPaths|
    ensures r == 0 <==> pathname == "/"
    ensures r == 1 <==> StartsWith(pathname, "/groups")
    ensures r == 2 <==> pathname == "/explore"
    ensures r == 3 <==> pathname == "/profile"
  {
    OtherPathsAreNotGroups();
    if pathname == "/" then 0
    else if StartsWith(pathname, "/groups") then 1
    else if pathname == "/explore" then 2
    else if pathname == "/profile" then 3
    else -1
  }

  lemma OtherPathsAreNotGroups()
    ensures !StartsWith("/", "/groups") && !StartsWith("/explore", "/groups") && !StartsWith("/profile", "/groups")
  {
    assert "/explore"[1] != "/groups"[1];
    assert "/profile"[1] != "/groups"[1];
  }

  /** `isActive` for the item at `index`. */
  predicate IsActive(pathname: string, index: int) {
    CurrentIndex(pathname) == index
  }

  /** At most one item is highlighted, and none on a path outside the bar. */
  lemma AtMostOneActive(pathname: string, i: int, j: int)
    requires 0 <= i < |NavPaths| && 0 <= j < |NavPaths|
    ensures IsActive(pathname, i) && IsActive(pathname, j) ==> i == j
    ensures CurrentIndex(pathname) == -1 ==> !IsActive(pathname, i)
  {
  }

  /** Following an item's link highlights that item, and any page below `/groups` highlights Groups. */
  lemma ItemsHighlightTheirOwnPath(k: int, rest: string)
    requires 0 <= k < |NavPaths|
    ensures CurrentIndex(NavPaths[k]) == k
    ensures CurrentIndex("/groups" + rest) == 1
  {
    assert StartsWith("/groups" + rest, "/groups") by {
      assert ("/groups" + rest)[..7] == "/groups";
    }
  }
}
