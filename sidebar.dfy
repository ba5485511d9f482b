/** The sidebar: the nine-item menu filtered by the signed-in user's role,
    and the "Logged in as" name. */
module Sidebar {
  import opened Common
  import opened AuthContext

  /** A menu entry; `roles` absent means every user sees it. */
  datatype MenuItem = MenuItem(path: string, caption: string, roles: Option<seq<string>>)

  const Dashboard := MenuItem("/", "Dashboard", None)
  const BinsItem := MenuItem("/bins", "Bins", None)
  const Vehicles := MenuItem("/vehicles", "Vehicles", Some(["admin", "worker"]))
  const Collections := MenuItem("/collections", "Collections", Some(["admin", "worker"]))
  const Complaints := MenuItem("/complaints", "Complaints", None)
  const Analytics := MenuItem("/analytics", "Analytics", Some(["admin"]))
  const Predictions := MenuItem("/predictions", "Predictions", Some(["admin"]))
  const Forecasting := MenuItem("/forecasting", "Forecasting", Some(["admin"]))
  const ProfileItem := MenuItem("/profile", "Profile", None)

  const MenuItems: seq<MenuItem> :=
    [Dashboard, BinsItem, Vehicles, Collections, Complaints, Analytics, Predictions, Forecasting, ProfileItem]

  /** `user?.role`: a string role, or none when the user or the key is missing
      (an array of strings never includes `undefined`). */
  function RoleOf(user: Option<JsObject>): (role: Option<string>)
    ensures role.Some? <==> GetOpt(user, "role").Str?
  {
    match GetOpt(user, "role")
    case Str(s) => Some(s)
    case _ => None
  }

  /** `!item.roles || item.roles.includes(user?.role)`. */
  predicate Visible(role: Option<string>, item: MenuItem) {
    item.roles.None? || (role.Some? && role.value in item.roles.value)
  }

  function VisibleTo(role: Option<string>): MenuItem -> bool {
    item => Visible(role, item)
  }

  function FilteredMenuItems(role: Option<string>): (r: seq<MenuItem>)
    ensures IsSubseq(r, MenuItems)
  {
    FilterIsSubseq(MenuItems, VisibleTo(role));
    Filter(MenuItems, VisibleTo(role))
  }

  /** An item is shown exactly when it is in the menu and visible to the
      role; in particular every item without roles is shown. */
  lemma FilteredMenuMembership(role: Option<string>, item: MenuItem)
    ensures item in FilteredMenuItems(role) <==> item in MenuItems && Visible(role, item)
    ensures item in MenuItems && item.roles.None? ==> item in FilteredMenuItems(role)
  {
    FilterMembership(MenuItems, VisibleTo(role), item);
  }

  /** Without a role only Dashboard, Bins, Complaints and Profile remain. */
  lemma NoRoleMenu()
    ensures FilteredMenuItems(None) == [Dashboard, BinsItem, Complaints, ProfileItem]
  {
    NoRoleMenuFilter();
  }

  lemma NoRoleMenuFilter()
    ensures Filter(MenuItems, VisibleTo(None)) == [Dashboard, BinsItem, Complaints, ProfileItem]
  {
    var p := VisibleTo(None);
    assert [Dashboard] + ([BinsItem] + ([Complaints] + [ProfileItem])) == [Dashboard, BinsItem, Complaints, ProfileItem];
    var t8 := [ProfileItem];
    var t7 := [Forecasting] + t8;
    var t6 := [Predictions] + t7;
    var t5 := [Analytics] + t6;
    var t4 := [Complaints] + t5;
    var t3 := [Collections] + t4;
    var t2 := [Vehicles] + t3;
    var t1 := [BinsItem] + t2;
    assert MenuItems == [Dashboard] + t1;
    assert Filter(t8, p) == [ProfileItem] by {
      FilterCons(ProfileItem, [], p);
      assert t8 == [ProfileItem] + [];
    }
    assert Filter(t7, p) == Filter(t8, p) by { FilterCons(Forecasting, t8, p); }
    assert Filter(t6, p) == Filter(t7, p) by { FilterCons(Predictions, t7, p); }
    assert Filter(t5, p) == Filter(t6, p) by { FilterCons(Analytics, t6, p); }
    assert Filter(t4, p) == [Complaints] + Filter(t5, p) by { FilterCons(Complaints, t5, p); }
    assert Filter(t3, p) == Filter(t4, p) by { FilterCons(Collections, t4, p); }
    assert Filter(t2, p) == Filter(t3, p) by { FilterCons(Vehicles, t3, p); }
    assert Filter(t1, p) == [BinsItem] + Filter(t2, p) by { FilterCons(BinsItem, t2, p); }
    assert Filter(MenuItems, p) == [Dashboard] + Filter(t1, p) by { FilterCons(Dashboard, t1, p); }
  }

  /** An admin sees all nine items. */
  lemma AdminMenu()
    ensures FilteredMenuItems(Some("admin")) == MenuItems
  {
    AdminMenuFilter();
  }

  lemma AdminMenuFilter()
    ensures Filter(MenuItems, VisibleTo(Some("admin"))) == MenuItems
  {
    var p := VisibleTo(Some("admin"));
    forall item | item in MenuItems ensures p(item) {
      assert item.roles.None? || "admin" in item.roles.value;
    }
    FilterAllTrue(MenuItems, p);
  }

  /** A worker sees Vehicles and Collections but none of the three analysis pages. */
  lemma WorkerMenu()
    ensures FilteredMenuItems(Some("worker")) == [Dashboard, BinsItem, Vehicles, Collections, Complaints, ProfileItem]
  {
    WorkerMenuFilter();
  }

  lemma WorkerMenuFilter()
    ensures Filter(MenuItems, VisibleTo(Some("worker"))) == [Dashboard, BinsItem, Vehicles, Collections, Complaints, ProfileItem]
  {
    var p := VisibleTo(Some("worker"));
    assert [Dashboard] + ([BinsItem] + ([Vehicles] + ([Collections] + ([Complaints] + [ProfileItem]))))
      == [Dashboard, BinsItem, Vehicles, Collections, Complaints, ProfileItem];
    var t8 := [ProfileItem];
    var t7 := [Forecasting] + t8;
    var t6 := [Predictions] + t7;
    var t5 := [Analytics] + t6;
    var t4 := [Complaints] + t5;
    var t3 := [Collections] + t4;
    var t2 := [Vehicles] + t3;
    var t1 := [BinsItem] + t2;
    assert MenuItems == [Dashboard] + t1;
    assert Filter(t8, p) == [ProfileItem] by {
      FilterCons(ProfileItem, [], p);
      assert t8 == [ProfileItem] + [];
    }
    assert Filter(t7, p) == Filter(t8, p) by { FilterCons(Forecasting, t8, p); }
    assert Filter(t6, p) == Filter(t7, p) by { FilterCons(Predictions, t7, p); }
    assert Filter(t5, p) == Filter(t6, p) by { FilterCons(Analytics, t6, p); }
    assert Filter(t4, p) == [Complaints] + Filter(t5, p) by { FilterCons(Complaints, t5, p); }
    assert Filter(t3, p) == [Collections] + Filter(t4, p) by {
      FilterCons(Collections, t4, p);
      assert "worker" in ["admin", "worker"];
    }
    assert Filter(t2, p) == [Vehicles] + Filter(t3, p) by { FilterCons(Vehicles, t3, p); }
    assert Filter(t1, p) == [BinsItem] + Filter(t2, p) by { FilterCons(BinsItem, t2, p); }
    assert Filter(MenuItems, p) == [Dashboard] + Filter(t1, p) by { FilterCons(Dashboard, t1, p); }
  }

  /** Behind the identity provider the user object never has a role, so
      every signed-in user gets the four-item menu. */
  lemma ProviderUserGetsFourItems(c: ClerkState)
    ensures FilteredMenuItems(RoleOf(UseAuth(Provided(ProviderValue(c))).view.user))
      == [Dashboard, BinsItem, Complaints, ProfileItem]
  {
    AdaptedUserHasNoNameOrRole(c);
    NoRoleMenu();
  }

  /** `user?.name || user?.email || 'User'`. */
  function DisplayName(user: Option<JsObject>): (v: JsValue)
    ensures Truthy(GetOpt(user, "name")) ==> v == GetOpt(user, "name")
    ensures !Truthy(GetOpt(user, "name")) && Truthy(GetOpt(user, "email")) ==> v == GetOpt(user, "email")
    ensures !Truthy(GetOpt(user, "name")) && !Truthy(GetOpt(user, "email")) ==> v == Str("User")
    ensures Truthy(v)
  {
    if Truthy(GetOpt(user, "name")) then GetOpt(user, "name")
    else if Truthy(GetOpt(user, "email")) then GetOpt(user, "email")
    else Str("User")
  }

  /** Behind the identity provider the sidebar shows the primary email
      address, or 'User' when there is none. */
  lemma ProviderUserShownByEmail(c: ClerkState)
    requires c.user.Some?
    ensures DisplayName(ProviderValue(c).user) ==
      (if c.user.value.primaryEmail.Some? && c.user.value.primaryEmail.value != ""
       then Str(c.user.value.primaryEmail.value) else Str("User"))
  {
  }
}
