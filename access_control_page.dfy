/**
 * app/dashboard/access-control/page.tsx: the roles table and the create/edit role dialog over
 * a local list of roles and a fixed list of permissions.
 */
module AccessControlPage {
  import opened Wrappers
  import opened Seqs
  import opened Entities

  const SuperAdmin := "Super Admin"
  const BadgeLimit := 3

  /** `handlePermissionToggle`: a checked permission is removed (every copy of it), an unchecked one appended. */
  function Toggle(selected: seq<string>, permission: string): (r: seq<string>)
    ensures permission in r <==> permission !in selected
    ensures forall x :: x != permission ==> (x in r <==> x in selected)
    ensures permission !in selected ==> r == selected + [permission]
    ensures permission in selected ==> IsSubseq(r, selected) && |r| < |selected|
  {
    if permission in selected then
      var r := Filter(selected, x => x != permission);
      FilterShrinks(selected, x => x != permission, permission);
      r
    else selected + [permission]
  }

  /** A filter that rejects an element of the list leaves a shorter list. */
  lemma {:induction false} FilterShrinks(s: seq<string>, p: string -> bool, x: string)
    requires x in s && !p(x)
    ensures |Filter(s, p)| < |s|
  {
    if s[0] != x {
      FilterShrinks(s[1..], p, x);
    }
  }

  /** Checking and then unchecking a permission that was not selected restores the selection exactly. */
  lemma ToggleTwiceAbsent(selected: seq<string>, permission: string)
    requires permission !in selected
    ensures Toggle(Toggle(selected, permission), permission) == selected
  {
    var p := (x: string) => x != permission;
    FilterAppend(selected, [permission], p);
    FilterAll(selected, p);
  }

  /**
   * Unchecking and re-checking a selected permission keeps the same set of permissions,
   * but moves it to the end and drops its duplicates.
   */
  lemma ToggleTwicePresent(selected: seq<string>, permission: string)
    requires permission in selected
    ensures Toggle(Toggle(selected, permission), permission) == Filter(selected, x => x != permission) + [permission]
    ensures forall x :: x in Toggle(Toggle(selected, permission), permission) <==> x in selected
  {
  }

  /** The `category` of each permission, in order. */
  function CategoryList(permissions: seq<Permission>): (r: seq<string>)
    ensures |r| == |permissions| && forall i :: 0 <= i < |r| ==> r[i] == permissions[i].category
  {
    seq(|permissions|, i requires 0 <= i < |permissions| => permissions[i].category)
  }

  /**
   * `permissionCategories`, `Array.from(new Set(...))`: each category once. Their order is
   * that of first occurrence (`Seqs.DedupOrder`).
   */
  function PermissionCategories(permissions: seq<Permission>): (r: seq<string>)
    ensures forall c :: c in r <==> exists i :: 0 <= i < |permissions| && permissions[i].category == c
    ensures forall i, j :: 0 <= i < j < |r| ==> r[i] != r[j]
  {
    var cats := CategoryList(permissions);
    assert forall c :: c in cats <==> exists i :: 0 <= i < |permissions| && permissions[i].category == c by {
      forall c | c in cats ensures exists i :: 0 <= i < |permissions| && permissions[i].category == c {
        var i :| 0 <= i < |cats| && cats[i] == c;
        assert permissions[i].category == c;
      }
    }
    Dedup(cats)
  }

  /** `confirmDelete`: removes the roles with the selected id and clears the selection; without one, nothing. */
  function ConfirmDelete(roles: seq<Role>, selectedRole: Option<Role>): (r: (seq<Role>, Option<Role>))
    ensures selectedRole.None? ==> r == (roles, selectedRole)
    ensures selectedRole.Some? ==>
      r.1.None? && IsSubseq(r.0, roles) &&
      forall x :: x in r.0 <==> x in roles && x.id != selectedRole.value.id
  {
    if selectedRole.None? then (roles, selectedRole)
    else (RemoveKey(roles, RoleId, selectedRole.value.id), None)
  }

  /** The delete button is disabled on the "Super Admin" role. */
  predicate DeleteDisabled(role: Role)
  {
    role.name == SuperAdmin
  }

  predicate UniqueRoleIds(roles: seq<Role>)
  {
    forall i, j :: 0 <= i < j < |roles| ==> roles[i].id != roles[j].id
  }

  /**
   * With unique ids, deleting through an enabled delete button never removes a "Super Admin"
   * role: the role deleted is another one, so it has another id.
   */
  lemma SuperAdminSurvivesDelete(roles: seq<Role>, selected: Role)
    requires UniqueRoleIds(roles) && selected in roles && !DeleteDisabled(selected)
    ensures forall r :: r in roles && DeleteDisabled(r) ==> r in ConfirmDelete(roles, Some(selected)).0
  {
    forall r | r in roles && DeleteDisabled(r)
      ensures r.id != selected.id
    {
      var i :| 0 <= i < |roles| && roles[i] == r;
      var j :| 0 <= j < |roles| && roles[j] == selected;
      assert i != j;
    }
  }

  /** The permission badges of a row: the first three permissions, then "+k" for the `k` others. */
  datatype Badges = Badges(shown: seq<string>, more: Option<nat>)

  function BadgeRow(permissions: seq<string>): (b: Badges)
    ensures |b.shown| == if |permissions| < BadgeLimit then |permissions| else BadgeLimit
    ensures b.shown == permissions[..|b.shown|]
    ensures b.more.Some? <==> |permissions| > BadgeLimit
    ensures |b.shown| + b.more.GetOr(0) == |permissions|
  {
    var shown := if |permissions| < BadgeLimit then permissions else permissions[..BadgeLimit];
    Badges(shown, if |permissions| > BadgeLimit then Some(|permissions| - BadgeLimit) else None)
  }

  /** "Total Users": `roles.reduce((acc, r) => acc + r.userCount, 0)`. */
  function TotalUsers(roles: seq<Role>): (n: int)
    ensures (forall i :: 0 <= i < |roles| ==> roles[i].userCount >= 0) ==> n >= 0
  {
    if roles == [] then 0 else roles[0].userCount + TotalUsers(roles[1..])
  }

  /** The total of a concatenation is the sum of the totals. */
  lemma {:induction false} TotalUsersAppend(a: seq<Role>, b: seq<Role>)
    ensures TotalUsers(a + b) == TotalUsers(a) + TotalUsers(b)
  {
    if a == [] {
      assert a + b == b;
    } else {
      assert (a + b)[1..] == a[1..] + b;
      TotalUsersAppend(a[1..], b);
    }
  }

  /** Deleting a role lowers "Total Users" by the user count of the roles removed. */
  lemma {:induction false} TotalUsersAfterDelete(roles: seq<Role>, id: string)
    ensures TotalUsers(RemoveKey(roles, RoleId, id)) + TotalUsers(Filter(roles, (r: Role) => r.id == id)) == TotalUsers(roles)
  {
    if roles != [] {
      TotalUsersAfterDelete(roles[1..], id);
    }
  }

  /** The create/edit dialog: which mode is open, the role being edited, the checked permissions and the two text fields. */
  datatype RoleDialog = RoleDialog(
    createOpen: bool, editOpen: bool, selectedRole: Option<Role>,
    selectedPermissions: seq<string>, name: string, description: string)

  const InitialDialog := RoleDialog(false, false, None, [], "", "")

  /** "Create Role": opens the dialog with whatever selection and form it holds. */
  function OpenCreate(d: RoleDialog): (e: RoleDialog)
    ensures e == d.(createOpen := true)
  {
    d.(createOpen := true)
  }

  /** `handleEdit`: the dialog opens on the role's name, description and permissions. */
  function OpenEdit(d: RoleDialog, role: Role): (e: RoleDialog)
    ensures e.editOpen && e.selectedRole == Some(role)
    ensures e.selectedPermissions == role.permissions && e.name == role.name && e.description == role.description
    ensures e.createOpen == d.createOpen
  {
    d.(editOpen := true, selectedRole := Some(role), selectedPermissions := role.permissions,
       name := role.name, description := role.description)
  }

  /** `onOpenChange(false)` (Escape, the close button, a click outside): closes and resets the selection and the form. */
  function Dismiss(d: RoleDialog): (e: RoleDialog)
    ensures !e.createOpen && !e.editOpen
    ensures e.selectedPermissions == [] && e.name == "" && e.description == ""
    ensures e.selectedRole == d.selectedRole
  {
    d.(createOpen := false, editOpen := false, selectedPermissions := [], name := "", description := "")
  }

  /**
   * The Cancel button as written: it only clears the two open flags. Changing the `open`
   * property does not call `onOpenChange`, so the checked permissions and the form survive.
   */
  function CancelAsWritten(d: RoleDialog): (e: RoleDialog)
    ensures !e.createOpen && !e.editOpen
    ensures e.selectedPermissions == d.selectedPermissions && e.name == d.name && e.description == d.description
  {
    d.(createOpen := false, editOpen := false)
  }

  /** After editing a role and cancelling, "Create Role" opens with that role's permissions already checked. */
  lemma CancelLeaksIntoCreate()
    ensures var role := Role("1", "Editor", "Edits content", ["users.read"], 2, "2024-01-01");
      var d := OpenCreate(CancelAsWritten(OpenEdit(InitialDialog, role)));
      d.createOpen && d.selectedPermissions == ["users.read"] && d.name == "Editor"
  {
  }

  /** Cancel as intended: the same reset as dismissing the dialog. */
  function Cancel(d: RoleDialog): (e: RoleDialog)
    ensures e == Dismiss(d)
  {
    Dismiss(d)
  }

  /** After cancelling or dismissing, "Create Role" always starts from an empty selection and form. */
  lemma CreateAfterCloseIsEmpty(d: RoleDialog)
    ensures var e := OpenCreate(Cancel(d)); e.selectedPermissions == [] && e.name == "" && e.description == ""
    ensures var e := OpenCreate(Dismiss(d)); e.selectedPermissions == [] && e.name == "" && e.description == ""
  {
  }
}
