/**
 * The role rules of the administrative client: which navigation tabs a
 * `tipeUser` sees, which "add" buttons are shown, and which record rows offer
 * edit and delete. Every rule here is a plain expression over the role, the
 * club ids and the author name; none of them keeps state.
 */
module Roles {
  import opened JsString

  const AdminPusat := "ADMIN_PUSAT"
  const AdminMedia := "ADMIN_MEDIA"
  const AdminKlub := "ADMIN_KLUB"

  /** The signed-in account as the session stores it. */
  datatype User = User(username: string, tipeUser: string, idKlub: string)

  /** A navigation entry and the roles allowed to see it. */
  datatype Tab = Tab(id: string, name: string, roles: seq<string>)

  const AllAdmins: seq<string> := [AdminPusat, AdminMedia, AdminKlub]

  /** The navigation table, in menu order. */
  const Tabs: seq<Tab> := [
    Tab("tab-home", "Home", AllAdmins),
    Tab("tab-a1", "Form A1", AllAdmins),
    Tab("tab-a2", "Form A2", AllAdmins),
    Tab("tab-a3", "Form A3", AllAdmins),
    Tab("tab-berita", "Berita", AllAdmins),
    Tab("tab-chat", "Chat Admin", AllAdmins)
  ]

  /** A club administrator's role is `ADMIN_KLUB` or any role that starts
      with it; such a role is neither of the other two. */
  function IsClubAdmin(role: string): (b: bool)
    ensures b ==> role != AdminPusat && role != AdminMedia
  {
    var club := StartsWith(role, AdminKlub);
    assert club ==> role != AdminPusat && role != AdminMedia by {
      if club {
        assert role[..|AdminKlub|] == AdminKlub;
        assert AdminPusat[6] != AdminKlub[6];
        assert AdminMedia[6] != AdminKlub[6];
      }
    }
    club
  }

  /** The menu filter: the role is listed for the tab, or it is a club
      administrator's role and the tab lists `ADMIN_KLUB`. For a tab open to
      all three administrators, that is: an administrator's role or one
      starting with `ADMIN_KLUB`. */
  function TabAllowed(tab: Tab, role: string): (b: bool)
    ensures tab.roles == AllAdmins ==> (b <==> role in AllAdmins || IsClubAdmin(role))
    ensures role in tab.roles ==> b
  {
    assert AdminKlub in AllAdmins;
    role in tab.roles || (IsClubAdmin(role) && AdminKlub in tab.roles)
  }

  /** The menu a role sees: the allowed tabs, in table order. */
  function VisibleTabs(tabs: seq<Tab>, role: string): (r: seq<Tab>)
    ensures |r| <= |tabs|
    ensures forall t :: t in r <==> t in tabs && TabAllowed(t, role)
    ensures (forall i :: 0 <= i < |tabs| ==> TabAllowed(tabs[i], role)) ==> r == tabs
    ensures (forall i :: 0 <= i < |tabs| ==> !TabAllowed(tabs[i], role)) ==> r == []
  {
    if tabs == [] then []
    else
      var rest := VisibleTabs(tabs[1..], role);
      assert forall t :: t in tabs <==> t == tabs[0] || t in tabs[1..];
      assert forall i :: 1 <= i < |tabs| ==> tabs[1..][i - 1] == tabs[i];
      if TabAllowed(tabs[0], role) then [tabs[0]] + rest else rest
  }

  /** The menu of two tables in a row is the menu of the first followed by
      that of the second; with VisibleTabsOne this fixes the menu as the
      allowed tabs in table order, repeats included. */
  lemma {:induction false} VisibleTabsAppend(a: seq<Tab>, b: seq<Tab>, role: string)
    ensures VisibleTabs(a + b, role) == VisibleTabs(a, role) + VisibleTabs(b, role)
  {
    if a == [] {
      assert a + b == b;
    } else {
      var ab := a + b;
      assert ab[0] == a[0];
      assert ab[1..] == a[1..] + b;
      VisibleTabsAppend(a[1..], b, role);
      if TabAllowed(a[0], role) {
        calc {
          VisibleTabs(ab, role);
          [a[0]] + VisibleTabs(a[1..] + b, role);
          [a[0]] + (VisibleTabs(a[1..], role) + VisibleTabs(b, role));
          ([a[0]] + VisibleTabs(a[1..], role)) + VisibleTabs(b, role);
        }
      }
    }
  }

  /** A one-tab table shows its tab exactly when the role is allowed. */
  lemma VisibleTabsOne(t: Tab, role: string)
    ensures VisibleTabs([t], role) == if TabAllowed(t, role) then [t] else []
  {
    assert [t][1..] == [];
  }

  /** Since every tab lists all three administrator roles, the menu is all or
      nothing: the whole table for an administrator, empty for anyone else. */
  lemma {:induction false} MenuAllOrNothing(role: string)
    ensures role in AllAdmins || IsClubAdmin(role) ==> VisibleTabs(Tabs, role) == Tabs
    ensures !(role in AllAdmins || IsClubAdmin(role)) ==> VisibleTabs(Tabs, role) == []
  {
    forall i | 0 <= i < |Tabs|
      ensures TabAllowed(Tabs[i], role) == (role in AllAdmins || IsClubAdmin(role))
    {
      assert Tabs[i].roles == AllAdmins;
    }
  }

  /** Edit and delete on an A1 or A2 row: only for a club administrator, and
      only on the rows of the administrator's own club; so never for the
      central or media administrator, and only for a user who also sees the
      table's "add" button. */
  function CanEditClubRecord(role: string, itemClub: string, userClub: string): (b: bool)
    ensures b ==> itemClub == userClub && ShowAddClubRecord(role)
    ensures b ==> role != AdminPusat && role != AdminMedia
  {
    IsClubAdmin(role) && itemClub == userClub
  }

  /** The "add" button of forms A1 and A2: club administrators only. */
  function ShowAddClubRecord(role: string): (b: bool)
    ensures b ==> role != AdminPusat && role != AdminMedia
  {
    IsClubAdmin(role)
  }

  /** The match-schedule button of form A3: the central administrator only. */
  function ShowAddSchedule(role: string): (b: bool)
    ensures b ==> !IsClubAdmin(role)
  {
    role == AdminPusat
  }

  /** The player line-up button of form A3: club administrators only. */
  function ShowAddA3Player(role: string): (b: bool)
    ensures b ==> role != AdminPusat
  {
    IsClubAdmin(role)
  }

  /** The news "add" button: the central and media administrators. */
  function ShowAddBerita(role: string): (b: bool)
    ensures b ==> !IsClubAdmin(role)
  {
    role == AdminPusat || role == AdminMedia
  }

  /** Edit and delete on a news row: the backend must allow editing at all,
      and then the central administrator may act on every article, a media
      administrator only on the articles it wrote. */
  function ShowBeritaActions(canEditDelete: bool, role: string, author: string,
                              username: string): (b: bool)
    ensures b ==> canEditDelete && !IsClubAdmin(role)
    ensures b ==> role == AdminPusat || role == AdminMedia
    ensures b && role != AdminPusat ==> author == username
    ensures canEditDelete && role == AdminPusat ==> b
    ensures canEditDelete && role == AdminMedia && author == username ==> b
  {
    canEditDelete && (role == AdminPusat || (role == AdminMedia && author == username))
  }

  /** Opening an article for editing is refused to a media administrator who
      is not its author. */
  function BeritaEditRefused(role: string, author: string, username: string): (b: bool)
    ensures b ==> author != username && role != AdminPusat && !IsClubAdmin(role)
  {
    role == AdminMedia && author != username
  }

  /** The edit button of a news row never leads to the refusal; and the
      refusal is the media rule of the row actions seen from the other side. */
  lemma BeritaRowAndModalAgree(canEditDelete: bool, role: string, author: string, username: string)
    ensures ShowBeritaActions(canEditDelete, role, author, username)
            ==> !BeritaEditRefused(role, author, username)
    ensures canEditDelete && role == AdminMedia
            ==> (ShowBeritaActions(canEditDelete, role, author, username)
                 <==> !BeritaEditRefused(role, author, username))
  {
  }

  /** Form A3's two buttons go to different roles: never both shown. */
  lemma A3ButtonsExclusive(role: string)
    ensures !(ShowAddSchedule(role) && ShowAddA3Player(role))
  {
  }
}
