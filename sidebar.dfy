/** The navigation sidebar: a fixed table of menu entries, each open to a list
    of roles, filtered by the signed-in user's role. */
module Sidebar {
  import opened Wrappers
  import opened Users

  datatype MenuItem = MenuItem(path: string, caption: string, roles: seq<string>)

  /** Every role some entry names. */
  const Roles: seq<string> := ["Admin", "Purchase", "Approver", "Accounts", "Stores", "Logistics", "Sales"]

  /** The menu table, in display order (the icons are left out). */
  const MenuItems: seq<MenuItem> := [
    MenuItem("/dashboard", "Dashboard", ["Admin", "Purchase", "Approver", "Accounts", "Stores", "Logistics", "Sales"]),
    MenuItem("/purchase-orders", "Purchase Orders", ["Admin", "Purchase", "Approver"]),
    MenuItem("/payments", "Payments", ["Admin", "Accounts"]),
    MenuItem("/procurement", "Procurement", ["Admin", "Stores"]),
    MenuItem("/logistics", "Logistics", ["Admin", "Logistics"]),
    MenuItem("/inventory", "Inventory", ["Admin", "Stores", "Logistics"]),
    MenuItem("/invoices", "Invoices", ["Admin", "Accounts"]),
    MenuItem("/reports", "Reports", ["Admin", "Approver"]),
    MenuItem("/users", "Users", ["Admin"])
  ]

  /** `item.roles.includes(role)`: no role is never included. */
  predicate VisibleTo(item: MenuItem, role: Option<string>) {
    role.Some? && role.value in item.roles
  }

  /** `xs` is `ys` with some entries left out and the rest in their order. */
  predicate IsSubsequence<T(==)>(xs: seq<T>, ys: seq<T>)
    decreases |ys|
  {
    if xs == [] then true
    else if ys == [] then false
    else (xs[0] == ys[0] && IsSubsequence(xs[1..], ys[1..])) || IsSubsequence(xs, ys[1..])
  }

  /** `items.filter(item => item.roles.includes(role))`. */
  function FilterByRole(items: seq<MenuItem>, role: Option<string>): (r: seq<MenuItem>)
    ensures forall x :: x in r <==> x in items && VisibleTo(x, role)
    ensures IsSubsequence(r, items)
    decreases |items|
  {
    if items == [] then []
    else if VisibleTo(items[0], role) then [items[0]] + FilterByRole(items[1..], role)
    else FilterByRole(items[1..], role)
  }

  /** The filter keeps each visible entry as often as the list holds it, and no
      other entry. */
  lemma {:induction false} FilterByRoleCounts(items: seq<MenuItem>, role: Option<string>, x: MenuItem)
    ensures multiset(FilterByRole(items, role))[x] == if VisibleTo(x, role) then multiset(items)[x] else 0
    decreases |items|
  {
    if items != [] {
      assert items == [items[0]] + items[1..];
      FilterByRoleCounts(items[1..], role, x);
    }
  }

  /** `filteredMenu`: the entries the signed-in user may open. */
  function FilteredMenu(user: Option<User>): (menu: seq<MenuItem>)
    ensures forall x :: x in menu <==> x in MenuItems && user.Some? && user.value.role in x.roles
  {
    FilterByRole(MenuItems, RoleOf(user))
  }

  /** A filter that keeps every entry returns the list itself. */
  lemma {:induction false} FilterKeepsAll(items: seq<MenuItem>, role: Option<string>)
    requires forall x :: x in items ==> VisibleTo(x, role)
    ensures FilterByRole(items, role) == items
    decreases |items|
  {
    if items != [] {
      assert items[0] in items;
      FilterKeepsAll(items[1..], role);
    }
  }

  /** A filter that keeps no entry returns the empty list. */
  lemma {:induction false} FilterKeepsNone(items: seq<MenuItem>, role: Option<string>)
    requires forall x :: x in items ==> !VisibleTo(x, role)
    ensures FilterByRole(items, role) == []
    decreases |items|
  {
    if items != [] {
      assert items[0] in items;
      FilterKeepsNone(items[1..], role);
    }
  }

  /** The Admin role sees all nine entries, in table order. */
  lemma AdminSeesAll(organization: string)
    ensures FilteredMenu(Some(User("Admin", organization))) == MenuItems
    ensures |FilteredMenu(Some(User("Admin", organization)))| == 9
  {
    forall x | x in MenuItems ensures VisibleTo(x, Some("Admin")) {
      var i :| 0 <= i < |MenuItems| && MenuItems[i] == x;
      assert x.roles[0] == "Admin";
    }
    FilterKeepsAll(MenuItems, Some("Admin"));
  }

  /** Dashboard is open to each of the seven roles; Users to Admin alone. */
  lemma DashboardForEveryRoleUsersForAdmin(user: Option<User>)
    ensures MenuItems[0] in FilteredMenu(user) <==> RoleOf(user).Some? && RoleOf(user).value in Roles
    ensures MenuItems[8] in FilteredMenu(user) <==> RoleOf(user) == Some("Admin")
  {
  }

  /** Every role an entry names is one of the seven. */
  lemma MenuRolesKnown()
    ensures forall i, s :: 0 <= i < |MenuItems| && s in MenuItems[i].roles ==> s in Roles
  {
  }

  /** Nobody signed in, or a role no entry names, gives an empty menu. */
  lemma UnknownRoleSeesNothing(user: Option<User>)
    requires user.None? || user.value.role !in Roles
    ensures FilteredMenu(user) == []
  {
    MenuRolesKnown();
    forall x | x in MenuItems ensures !VisibleTo(x, RoleOf(user)) {
      var i :| 0 <= i < |MenuItems| && MenuItems[i] == x;
    }
    FilterKeepsNone(MenuItems, RoleOf(user));
  }

  /** `isActive`: the entry whose path is exactly the current location. */
  predicate IsActive(pathname: string, item: MenuItem) {
    pathname == item.path
  }

  predicate DistinctPaths(items: seq<MenuItem>) {
    forall i, j :: 0 <= i < j < |items| ==> items[i].path != items[j].path
  }

  lemma MenuPathsDistinct()
    ensures DistinctPaths(MenuItems)
  {
  }

  lemma {:induction false} FilterKeepsDistinctPaths(items: seq<MenuItem>, role: Option<string>)
    requires DistinctPaths(items)
    ensures DistinctPaths(FilterByRole(items, role))
    decreases |items|
  {
    if items != [] {
      var rest := FilterByRole(items[1..], role);
      FilterKeepsDistinctPaths(items[1..], role);
      if VisibleTo(items[0], role) {
        var r := [items[0]] + rest;
        forall i, j | 0 <= i < j < |r| ensures r[i].path != r[j].path {
          if i == 0 {
            assert r[j] in items[1..];
            var k :| 0 <= k < |items[1..]| && items[1..][k] == r[j];
            assert items[k + 1] == r[j];
          } else {
            assert r[i] == rest[i - 1] && r[j] == rest[j - 1];
          }
        }
      }
    }
  }

  /** Whatever the location and the user, at most one shown entry is active. */
  lemma AtMostOneActive(pathname: string, user: Option<User>)
    ensures forall i, j :: 0 <= i < j < |FilteredMenu(user)| ==>
              !(IsActive(pathname, FilteredMenu(user)[i]) && IsActive(pathname, FilteredMenu(user)[j]))
  {
    MenuPathsDistinct();
    FilterKeepsDistinctPaths(MenuItems, RoleOf(user));
  }

  /** ASCII `toLowerCase` of one character. */
  function LowerChar(c: char): (d: char)
    ensures 'A' <= c <= 'Z' ==> 'a' <= d <= 'z' && d as int - c as int == 32
    ensures !('A' <= c <= 'Z') ==> d == c
  {
    if 'A' <= c <= 'Z' then (c as int + 32) as char else c
  }

  function ToLower(s: string): (r: string)
    ensures |r| == |s| && forall i :: 0 <= i < |s| ==> r[i] == LowerChar(s[i])
    decreases |s|
  {
    if s == [] then [] else [LowerChar(s[0])] + ToLower(s[1..])
  }

  /** `s.replace(' ', '-')`: a string pattern replaces only its first occurrence. */
  function ReplaceFirstSpace(s: string): (r: string)
    ensures |r| == |s|
    ensures forall i :: 0 <= i < |s| ==> r[i] == if s[i] == ' ' && ' ' !in s[..i] then '-' else s[i]
    decreases |s|
  {
    if s == [] then []
    else if s[0] == ' ' then "-" + s[1..]
    else
      var r := [s[0]] + ReplaceFirstSpace(s[1..]);
      assert forall i :: 1 <= i <= |s| ==> s[..i] == [s[0]] + s[1..][..i - 1];
      r
  }

  /** Lower-casing neither creates nor removes a space. */
  lemma LowerKeepsSpaces(s: string)
    ensures forall i :: 0 <= i <= |s| ==> (' ' in ToLower(s)[..i] <==> ' ' in s[..i])
  {
    var r := ToLower(s);
    forall i | 0 <= i <= |s| ensures ' ' in r[..i] <==> ' ' in s[..i] {
      if ' ' in r[..i] {
        var j :| 0 <= j < i && r[..i][j] == ' ';
        assert r[j] == ' ' && s[..i][j] == s[j];
      }
      if ' ' in s[..i] {
        var j :| 0 <= j < i && s[..i][j] == ' ';
        assert r[..i][j] == r[j] == ' ';
      }
    }
  }

  /** The `data-testid` of a menu link: `nav-`, then the caption lower-cased
      with its first space, and only that one, turned into `-`. */
  function TestId(caption: string): (id: string)
    ensures |id| == |caption| + 4 && id[..4] == "nav-"
    ensures forall i :: 0 <= i < |caption| ==>
              id[i + 4] == if caption[i] == ' ' && ' ' !in caption[..i] then '-' else LowerChar(caption[i])
  {
    LowerKeepsSpaces(caption);
    "nav-" + ReplaceFirstSpace(ToLower(caption))
  }
}
