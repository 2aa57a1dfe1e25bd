/**
 * features/accessControl/accessControlSlice.ts: the admin roles, the permission catalogue,
 * the selected role and the loading flags.
 */
module AccessControlSlice {
  import opened Wrappers
  import opened Thunks
  import opened Entities
  import Seqs

  datatype AccessControlState = AccessControlState(
    roles: seq<Role>, permissions: seq<Permission>, selectedRole: Option<Role>,
    loading: bool, error: Option<string>, actionLoading: bool)

  const InitialState := AccessControlState([], [], None, false, None, false)

  class AccessControlStore {
    var roles: seq<Role>
    var permissions: seq<Permission>
    var selectedRole: Option<Role>
    var loading: bool
    var error: Option<string>
    var actionLoading: bool

    function State(): AccessControlState
      reads this
    {
      AccessControlState(roles, permissions, selectedRole, loading, error, actionLoading)
    }

    constructor ()
      ensures State() == InitialState
    {
      roles, permissions, selectedRole := [], [], None;
      loading, error, actionLoading := false, None, false;
    }

    method SetSelectedRole(r: Option<Role>)
      modifies this
      ensures State() == old(State()).(selectedRole := r)
    {
      selectedRole := r;
    }

    method ClearError()
      modifies this
      ensures State() == old(State()).(error := None)
    {
      error := None;
    }

    method FetchRoles(o: Outcome<seq<Role>>)
      modifies this
      ensures match o
        case Pending => State() == old(State()).(loading := true, error := None)
        case Fulfilled(rs) => State() == old(State()).(loading := false, roles := rs)
        case Rejected(m) =>
          State() == old(State()).(loading := false, error := Some(MessageOr(m, "Failed to fetch roles")))
    {
      match o
      case Pending =>
        loading := true;
        error := None;
      case Fulfilled(rs) =>
        loading := false;
        roles := rs;
      case Rejected(m) =>
        loading := false;
        error := Some(MessageOr(m, "Failed to fetch roles"));
    }

    /** Only success is handled, and it touches neither `loading` nor `roles`. */
    method FetchPermissions(o: Outcome<seq<Permission>>)
      modifies this
      ensures o.Fulfilled? ==> State() == old(State()).(permissions := o.payload)
      ensures !o.Fulfilled? ==> State() == old(State())
    {
      if o.Fulfilled? {
        permissions := o.payload;
      }
    }

    /** Success appends the new role at the end. */
    method CreateRole(o: Outcome<Role>)
      modifies this
      ensures match o
        case Pending => State() == old(State()).(actionLoading := true)
        case Fulfilled(r) => State() == old(State()).(actionLoading := false, roles := old(roles) + [r])
        case Rejected(m) =>
          State() == old(State()).(actionLoading := false, error := Some(MessageOr(m, "Failed to create role")))
    {
      match o
      case Pending =>
        actionLoading := true;
      case Fulfilled(r) =>
        actionLoading := false;
        roles := roles + [r];
      case Rejected(m) =>
        actionLoading := false;
        error := Some(MessageOr(m, "Failed to create role"));
    }

    method UpdateRole(o: Outcome<Role>)
      modifies this
      ensures o.Fulfilled? ==> State() == old(State()).(roles := Seqs.ReplaceFirst(old(roles), RoleId, o.payload))
      ensures !o.Fulfilled? ==> State() == old(State())
    {
      if o.Fulfilled? {
        var index := Seqs.FindIndex(roles, RoleId, o.payload.id);
        if index != -1 {
          roles := roles[index := o.payload];
        }
      }
    }

    method DeleteRole(o: Outcome<string>)
      modifies this
      ensures o.Fulfilled? ==> State() == old(State()).(roles := Seqs.RemoveKey(old(roles), RoleId, o.payload))
      ensures !o.Fulfilled? ==> State() == old(State())
    {
      if o.Fulfilled? {
        roles := Seqs.RemoveKey(roles, RoleId, o.payload);
      }
    }
  }
}
