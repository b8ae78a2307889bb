/** The application shell of src/shared/layouts/AppLayout.tsx: user header and bottom navigation. */
module AppLayout {
  import opened Wrappers
  import opened AuthTypes
  import Router

  datatype NavItem = NavItem(to: string, caption: string)

  const NavItems: seq<NavItem> := [
    NavItem("/", "Resumen"),
    NavItem("/contracts", "Contratos"),
    NavItem("/payments", "Pagos"),
    NavItem("/notices", "Avisos"),
    NavItem("/settings", "Perfil")
  ]

  /** `s.startsWith(prefix)` */
  predicate StartsWith(s: string, prefix: string)
  {
    |prefix| <= |s| && s[..|prefix|] == prefix
  }

  /** The home item is active only on `/` exactly; the others on any path with their prefix. */
  predicate IsActive(item: NavItem, activePath: string)
  {
    if item.to == "/" then activePath == "/" else StartsWith(activePath, item.to)
  }

  /** Two prefixes of one string: the shorter is a prefix of the longer. */
  lemma PrefixesNest(s: string, p: string, q: string)
    requires StartsWith(s, p) && StartsWith(s, q) && |p| <= |q|
    ensures StartsWith(q, p)
  {
    assert q[..|p|] == s[..|q|][..|p|] == s[..|p|];
  }

  /**
   * A menu whose targets are distinct, none (other than `/`) a prefix of another,
   * and none shorter than two characters besides `/`.
   */
  predicate WellFormedMenu(items: seq<NavItem>)
  {
    && (forall i :: 0 <= i < |items| ==> items[i].to == "/" || |items[i].to| >= 2)
    && (forall i, j :: 0 <= i < |items| && 0 <= j < |items| && i != j ==> items[i].to != items[j].to)
    && (forall i, j :: 0 <= i < |items| && 0 <= j < |items| && i != j && items[i].to != "/" ==>
          !StartsWith(items[j].to, items[i].to))
  }

  /** In a well-formed menu, at most one item is active for any path. */
  lemma {:induction false} AtMostOneActiveIn(items: seq<NavItem>, activePath: string)
    requires WellFormedMenu(items)
    ensures forall i, j :: 0 <= i < j < |items| && IsActive(items[i], activePath) ==> !IsActive(items[j], activePath)
  {
    forall i, j | 0 <= i < j < |items| && IsActive(items[i], activePath)
      ensures !IsActive(items[j], activePath)
    {
      var p, q := items[i].to, items[j].to;
      if IsActive(items[j], activePath) && p != "/" && q != "/" {
        if |p| <= |q| {
          PrefixesNest(activePath, p, q);
        } else {
          PrefixesNest(activePath, q, p);
        }
      }
    }
  }

  /** The fixed menu is well formed: its targets differ from the second character on. */
  lemma NavItemsWellFormed()
    ensures WellFormedMenu(NavItems)
  {
    forall i, j | 0 <= i < |NavItems| && 0 <= j < |NavItems| && i != j && NavItems[i].to != "/"
      ensures !StartsWith(NavItems[j].to, NavItems[i].to)
    {
      assert i != 0 && |NavItems[i].to| >= 2;
      if j != 0 {
        assert NavItems[i].to[1] != NavItems[j].to[1];
      }
    }
  }

  /** Whatever the path, at most one of the fixed items is highlighted. */
  lemma AtMostOneActive(activePath: string)
    ensures forall i, j :: 0 <= i < j < |NavItems| && IsActive(NavItems[i], activePath) ==> !IsActive(NavItems[j], activePath)
  {
    NavItemsWellFormed();
    AtMostOneActiveIn(NavItems, activePath);
  }

  /** Every navigation target is a guarded route. */
  lemma NavTargetsGuarded()
    ensures forall i :: 0 <= i < |NavItems| ==> Router.IsGuarded(NavItems[i].to)
  {
    assert Router.Routes[1].path == NavItems[0].to;
    assert Router.Routes[2].path == NavItems[1].to;
    assert Router.Routes[5].path == NavItems[2].to;
    assert Router.Routes[6].path == NavItems[3].to;
    assert Router.Routes[8].path == NavItems[4].to;
  }

  datatype NavLink = NavLink(to: string, caption: string, active: bool)

  /** What the shell shows around the page: the user badge and the bottom navigation. */
  datatype Chrome = Chrome(badge: Option<(string, Role)>, bottomNav: seq<NavLink>)

  /** The shell for a user (or none) on a path: badge and navigation appear only with a user. */
  function Render(user: Option<AuthUser>, activePath: string): (c: Chrome)
    ensures c.badge.Some? <==> user.Some?
    ensures user.Some? ==> c.badge.value == (user.value.fullName, user.value.defaultRole)
    ensures user.None? ==> c.bottomNav == []
    ensures user.Some? ==> |c.bottomNav| == |NavItems|
    ensures user.Some? ==> forall i :: 0 <= i < |NavItems| ==>
              c.bottomNav[i] == NavLink(NavItems[i].to, NavItems[i].caption, IsActive(NavItems[i], activePath))
  {
    if user.None? then Chrome(None, [])
    else
      Chrome(Some((user.value.fullName, user.value.defaultRole)),
             seq(|NavItems|, i requires 0 <= i < |NavItems| =>
               NavLink(NavItems[i].to, NavItems[i].caption, IsActive(NavItems[i], activePath))))
  }

  /** The rendered bottom navigation highlights at most one link, whatever the path. */
  lemma RenderedAtMostOneActive(u: AuthUser, activePath: string)
    ensures var c := Render(Some(u), activePath);
            forall i, j :: 0 <= i < j < |c.bottomNav| && c.bottomNav[i].active ==> !c.bottomNav[j].active
  {
    AtMostOneActive(activePath);
  }
}
