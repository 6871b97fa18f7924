/**
 * The page layout (`Layout` and `NavItem`): which navigation list a user sees,
 * which entry is highlighted for the current path, the avatar and name
 * fallbacks, the theme toggle and the logout handler.
 */
module Layout {
  import opened Js
  import opened Auth

  /** A navigation entry: its target path, its label text, and whether it matches only exactly. */
  datatype NavItem = NavItem(to: string, text: string, exact: bool)

  /** `s.startsWith(prefix)`. */
  predicate StartsWith(s: string, prefix: string)
  {
    |prefix| <= |s| && s[..|prefix|] == prefix
  }

  /**
   * `isActive`: an exact entry is active only on its own path; any other entry
   * also on every path below it, that is, one that continues with `/`.
   */
  predicate IsActive(pathname: string, item: NavItem)
    ensures pathname == item.to ==> IsActive(pathname, item)
    ensures IsActive(pathname, item) ==> StartsWith(pathname, item.to)
    ensures item.exact ==> (IsActive(pathname, item) <==> pathname == item.to)
  {
    if item.exact then pathname == item.to
    else pathname == item.to || StartsWith(pathname, item.to + "/")
  }

  /** Being below a path means extending it with a `/` and then anything. */
  lemma ActiveCharacterised(pathname: string, item: NavItem)
    ensures item.exact ==> (IsActive(pathname, item) <==> pathname == item.to)
    ensures !item.exact ==> (IsActive(pathname, item) <==>
      pathname == item.to ||
      (|pathname| > |item.to| && pathname[..|item.to|] == item.to && pathname[|item.to|] == '/'))
  {
    var to := item.to;
    if |pathname| > |to| && pathname[..|to|] == to && pathname[|to|] == '/' {
      assert pathname[..|to| + 1] == to + "/" by {
        assert pathname[..|to| + 1] == pathname[..|to|] + [pathname[|to|]];
      }
    }
    if StartsWith(pathname, to + "/") {
      assert pathname[..|to|] == (to + "/")[..|to|];
      assert pathname[|to|] == (to + "/")[|to|];
    }
  }

  /** A sibling whose name merely starts the same is not below the entry; a child path is. */
  lemma PrefixIsNotEnough()
    ensures !IsActive("/admin/zonesX", NavItem("/admin/zones", "Zones", false))
    ensures IsActive("/admin/zones/5", NavItem("/admin/zones", "Zones", false))
    ensures !IsActive("/admin/zones", NavItem("/admin", "Dashboard", true))
  {
    ActiveCharacterised("/admin/zonesX", NavItem("/admin/zones", "Zones", false));
    ActiveCharacterised("/admin/zones/5", NavItem("/admin/zones", "Zones", false));
    assert "/admin/zonesX"[12] == 'X';
  }

  /** The administrator's entries. */
  const AdminNav := [
    NavItem("/admin", "Dashboard", true),
    NavItem("/admin/zones", "Zones", false),
    NavItem("/admin/records", "Records", false),
    NavItem("/admin/users", "Users", false),
    NavItem("/admin/servers", "Servers", false),
    NavItem("/admin/agents", "Agents", false),
    NavItem("/admin/georules", "GeoDNS", false),
    NavItem("/admin/certificates", "SSL", false),
    NavItem("/admin/metrics", "Metrics", false),
    NavItem("/admin/audit", "Audit Logs", false)
  ]

  /** Every other user's entries. */
  const UserNav := [
    NavItem("/user", "Dashboard", true),
    NavItem("/user/zones", "My Zones", false),
    NavItem("/user/records", "My Records", false)
  ]

  /** `navItems`: the administrator's list exactly for the admin role, the three user entries otherwise. */
  function NavItems(user: Option<Obj>): (items: seq<NavItem>)
    ensures HasRole(user, "admin") ==> items == AdminNav && |items| == 10
    ensures !HasRole(user, "admin") ==> items == UserNav && |items| == 3
  {
    if HasRole(user, "admin") then AdminNav else UserNav
  }

  /** Without a session the layout shows only its children; the navigation is not shown. */
  function VisibleNav(isAuthenticated: bool, user: Option<Obj>): (nav: Option<seq<NavItem>>)
    ensures nav.None? <==> !isAuthenticated
    ensures nav.Some? ==> nav.value == NavItems(user)
  {
    if isAuthenticated then Some(NavItems(user)) else None
  }

  /** Two entries that some single path could make active together. */
  predicate Overlap(a: NavItem, b: NavItem)
  {
    a.to == b.to ||
    (!a.exact && StartsWith(b.to, a.to + "/")) ||
    (!b.exact && StartsWith(a.to, b.to + "/"))
  }

  /** Of two prefixes of one string, the shorter is a prefix of the longer. */
  lemma PrefixesNest(s: string, x: string, y: string)
    requires StartsWith(s, x) && StartsWith(s, y) && |x| <= |y|
    ensures StartsWith(y, x)
  {
    assert y[..|x|] == s[..|y|][..|x|] == s[..|x|];
  }

  /** When one path makes two entries active, the entries overlap. */
  lemma BothActiveOverlap(pathname: string, a: NavItem, b: NavItem)
    requires IsActive(pathname, a) && IsActive(pathname, b)
    ensures Overlap(a, b)
  {
    if pathname != a.to && pathname != b.to {
      var x, y := a.to + "/", b.to + "/";
      if |x| <= |y| {
        PrefixesNest(pathname, x, y);
        if |x| < |y| {
          assert StartsWith(b.to, x) by {
            assert b.to[..|x|] == y[..|x|];
          }
        } else {
          assert a.to == x[..|a.to|] == y[..|b.to|] == b.to;
        }
      } else {
        PrefixesNest(pathname, y, x);
        assert StartsWith(a.to, y) by {
          assert a.to[..|y|] == x[..|y|];
        }
      }
    }
  }

  /** No two entries of a list overlap. */
  predicate Separated(items: seq<NavItem>)
  {
    forall i, j :: 0 <= i < j < |items| ==> !Overlap(items[i], items[j])
  }

  /** In a list of entries no two of which overlap, at most one entry is active on any path. */
  lemma AtMostOneActive(items: seq<NavItem>, pathname: string)
    requires Separated(items)
    ensures forall i, j :: 0 <= i < j < |items| && IsActive(pathname, items[i]) ==> !IsActive(pathname, items[j])
  {
    forall i, j | 0 <= i < j < |items| && IsActive(pathname, items[i])
      ensures !IsActive(pathname, items[j])
    {
      if IsActive(pathname, items[j]) {
        BothActiveOverlap(pathname, items[i], items[j]);
      }
    }
  }

  /** Two paths that differ at position `k` are distinct and neither lies below the other. */
  lemma DifferAt(x: string, y: string, k: nat)
    requires k < |x| && k < |y| && x[k] != y[k]
    ensures x != y && !StartsWith(x, y + "/") && !StartsWith(y, x + "/")
  {
  }

  /** The administrator's entries are pairwise separated. */
  lemma AdminNavSeparated()
    ensures Separated(AdminNav)
  {
    forall i, j | 0 <= i < j < |AdminNav| ensures !Overlap(AdminNav[i], AdminNav[j]) {
      if i == 0 {
        assert |AdminNav[j].to| > |AdminNav[0].to| + 1;
      } else {
        // the segments after "/admin/" first differ at position 7, except "agents" and "audit"
        DifferAt(AdminNav[i].to, AdminNav[j].to, if i == 5 && j == 9 then 8 else 7);
      }
    }
  }

  /** The user's entries are pairwise separated. */
  lemma UserNavSeparated()
    ensures Separated(UserNav)
  {
    forall i, j | 0 <= i < j < |UserNav| ensures !Overlap(UserNav[i], UserNav[j]) {
      if i == 0 {
        assert |UserNav[j].to| > |UserNav[0].to| + 1;
      } else {
        DifferAt(UserNav[i].to, UserNav[j].to, 6);
      }
    }
  }

  /** Whatever the path, at most one entry of the list a user sees is highlighted. */
  lemma NavListsHighlightOne(user: Option<Obj>, pathname: string)
    ensures var items := NavItems(user);
      forall i, j :: 0 <= i < j < |items| && IsActive(pathname, items[i]) ==> !IsActive(pathname, items[j])
  {
    AdminNavSeparated();
    UserNavSeparated();
    AtMostOneActive(NavItems(user), pathname);
  }

  /** `x.toUpperCase()` for one character, on the ASCII letters. */
  function UpperAscii(c: char): char
  {
    if 'a' <= c <= 'z' then (c as int - 32) as char else c
  }

  /**
   * The avatar letter `user?.username?.charAt(0).toUpperCase() || 'U'`: the
   * upper-cased first letter of a non-empty name, "U" without one. A username
   * that is neither a string nor null has no `charAt`, so rendering fails (`None`).
   */
  function AvatarInitial(user: Option<Obj>): (initial: Option<string>)
    ensures initial.Some? ==> |initial.value| == 1
    ensures initial == Some("U") <==>
      user.None? || (match Get(user.value, "username")
                     case Undefined => true
                     case Null => true
                     case Str(s) => s == "" || UpperAscii(s[0]) == 'U'
                     case _ => false)
    ensures user.Some? && Get(user.value, "username").Str? && Get(user.value, "username").s != "" ==>
      initial == Some([UpperAscii(Get(user.value, "username").s[0])])
    ensures initial.None? <==>
      (user.Some? && !Get(user.value, "username").Undefined? && !Get(user.value, "username").Null? &&
       !Get(user.value, "username").Str?)
  {
    if user.None? then Some("U")
    else
      match Get(user.value, "username")
      case Undefined => Some("U")
      case Null => Some("U")
      case Str(s) => if s == "" then Some("U") else Some([UpperAscii(s[0])])
      case _ => None
  }

  /**
   * The labels under the avatar, `user?.username || 'User'` and
   * `user?.role || 'user'`: the user's value when truthy, else the fallback.
   */
  function ShownOr(user: Option<Obj>, key: string, fallback: string): (shown: Value)
    requires fallback != ""
    ensures Truthy(shown)
    ensures user.Some? && Truthy(Get(user.value, key)) ==> shown == Get(user.value, key)
    ensures !(user.Some? && Truthy(Get(user.value, key))) ==> shown == Str(fallback)
  {
    Or(if user.Some? then Get(user.value, key) else Undefined, Str(fallback))
  }

  /** The theme button: "dark" goes to "light", anything else to "dark". */
  function NextTheme(theme: string): (next: string)
    ensures next != theme
    ensures next == "light" || next == "dark"
    ensures theme != "dark" ==> next == "dark"
  {
    if theme == "dark" then "light" else "dark"
  }

  /** Toggling the theme twice returns to a light or dark theme. */
  lemma NextThemeInvolutive(theme: string)
    requires theme == "light" || theme == "dark"
    ensures NextTheme(NextTheme(theme)) == theme
  {
  }

  /** `handleLogout`: log out, then go to the login page. */
  method HandleLogout(store: AuthStore) returns (target: string)
    requires store.Valid()
    modifies store
    ensures store.Valid()
    ensures store.State() == SignOut(old(store.State()))
    ensures store.effects == old(store.effects) + [Bound(Null), Committed(SignOut(old(store.State())))]
    ensures target == "/login"
  {
    store.Logout();
    target := "/login";
  }
}
