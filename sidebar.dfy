/** The navigation of components/admin/sidebar.tsx: seven fixed menu items,
    in order, each highlighted when the current path is its page or lies
    below it. */
module Sidebar {
  import opened Text

  datatype MenuItem = MenuItem(name: string, href: string)

  const MenuItems: seq<MenuItem> := [
    MenuItem("Dashboard", "/dashboard"),
    MenuItem("Projeler", "/projects"),
    MenuItem("Takvim", "/calendar"),
    MenuItem("Müşteriler", "/clients"),
    MenuItem("Teklifler", "/proposals"),
    MenuItem("Sözleşmeler", "/contracts"),
    MenuItem("Ayarlar", "/settings")
  ]

  /** `pathname === href || pathname.startsWith(href + '/')`. */
  predicate IsActive(path: string, href: string) {
    path == href || StartsWith(path, href + "/")
  }

  /** One rendered link: the item and whether it is highlighted. */
  datatype Link = Link(name: string, href: string, active: bool)

  /** The rendered navigation, in the items' order. */
  function Navigation(path: string): (r: seq<Link>)
    ensures |r| == |MenuItems|
    ensures forall k :: 0 <= k < |r| ==>
              r[k].name == MenuItems[k].name && r[k].href == MenuItems[k].href
              && (r[k].active <==> IsActive(path, MenuItems[k].href))
  {
    seq(|MenuItems|, k requires 0 <= k < |MenuItems| =>
      Link(MenuItems[k].name, MenuItems[k].href, IsActive(path, MenuItems[k].href)))
  }

  /** A page's own path and the paths below it activate it; a longer name
      that merely starts the same way does not. */
  lemma BelowButNotBeside()
    ensures IsActive("/projects/123", "/projects")
    ensures IsActive("/projects", "/projects")
    ensures !IsActive("/projectsX", "/projects")
  {
    assert ("/projects/123")[..|"/projects/"|] == "/projects/";
    assert ("/projectsX")[9] == 'X';
  }

  /** A one-segment link: a slash and a name without further slashes. */
  predicate OneSegment(href: string) {
    |href| >= 2 && href[0] == '/' && forall k :: 1 <= k < |href| ==> href[k] != '/'
  }

  /** Where the segment starting at `i` ends: the next slash, or the end of
      the path. */
  function SegmentEnd(path: string, i: nat): nat
    decreases |path| - i
  {
    if i >= |path| then |path| else if path[i] == '/' then i else SegmentEnd(path, i + 1)
  }

  /** A slash-free stretch from `i` to `e`, followed by a slash or the end
      of the path, is the segment. */
  lemma {:induction false} SegmentEndAt(path: string, i: nat, e: nat)
    requires i <= e <= |path|
    requires forall k :: i <= k < e ==> path[k] != '/'
    requires e == |path| || path[e] == '/'
    ensures SegmentEnd(path, i) == e
    decreases e - i
  {
    if i < e {
      SegmentEndAt(path, i + 1, e);
    }
  }

  /** An active one-segment link is the path's first segment. */
  lemma ActiveIsFirstSegment(path: string, href: string)
    requires OneSegment(href) && IsActive(path, href)
    ensures |href| <= |path| && path[..|href|] == href
    ensures |href| == SegmentEnd(path, 1)
  {
    if path != href {
      assert path[..|href| + 1] == href + "/";
      assert path[..|href|] == (href + "/")[..|href|];
      assert path[|href|] == (href + "/")[|href|];
    }
    assert forall k :: 1 <= k < |href| ==> path[k] == href[k];
    SegmentEndAt(path, 1, |href|);
  }

  /** Two one-segment links active on the same path are the same link. */
  lemma ActiveSegmentUnique(path: string, h1: string, h2: string)
    requires OneSegment(h1) && OneSegment(h2)
    requires IsActive(path, h1) && IsActive(path, h2)
    ensures h1 == h2
  {
    ActiveIsFirstSegment(path, h1);
    ActiveIsFirstSegment(path, h2);
  }

  lemma MenuItemsShape()
    ensures forall k :: 0 <= k < |MenuItems| ==> OneSegment(MenuItems[k].href)
    ensures forall i, j :: 0 <= i < j < |MenuItems| ==> MenuItems[i].href != MenuItems[j].href
  {
  }

  /** At most one menu item is highlighted, whatever the path. */
  lemma AtMostOneActive(path: string, i: nat, j: nat)
    requires i < |MenuItems| && j < |MenuItems|
    requires IsActive(path, MenuItems[i].href) && IsActive(path, MenuItems[j].href)
    ensures i == j
  {
    MenuItemsShape();
    ActiveSegmentUnique(path, MenuItems[i].href, MenuItems[j].href);
  }
}
