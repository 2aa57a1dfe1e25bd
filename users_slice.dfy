/**
 * features/users/usersSlice.ts: the users list of the admin dashboard, its selection, paging
 * counters, filters and the two loading flags, updated in place by the reducers.
 */
module UsersSlice {
  import opened Wrappers
  import opened Thunks
  import opened Entities
  import Seqs

  /** api/users.api.ts `UsersFilters`: every field optional. */
  datatype UsersFilters = UsersFilters(
    status: Option<string>, plan: Option<string>, sport: Option<string>,
    search: Option<string>, page: Option<int>, limit: Option<int>)

  /** `{}` */
  const NoFilters := UsersFilters(None, None, None, None, None, None)

  datatype UsersState = UsersState(
    users: seq<User>, selectedUser: Option<User>, total: int, page: int, limit: int,
    filters: UsersFilters, loading: bool, error: Option<string>, actionLoading: bool)

  const InitialState := UsersState([], None, 0, 1, 10, NoFilters, false, None, false)

  class UsersStore {
    var users: seq<User>
    var selectedUser: Option<User>
    var total: int
    var page: int
    var limit: int
    var filters: UsersFilters
    var loading: bool
    var error: Option<string>
    var actionLoading: bool

    /** The whole slice state as one value. */
    function State(): UsersState
      reads this
    {
      UsersState(users, selectedUser, total, page, limit, filters, loading, error, actionLoading)
    }

    /** `initialState`: no users, page 1 of size 10, nothing selected, nothing loading. */
    constructor ()
      ensures State() == InitialState
      ensures users == [] && selectedUser.None? && total == 0 && page == 1 && limit == 10
      ensures !loading && !actionLoading && error.None?
    {
      users, selectedUser, total, page, limit := [], None, 0, 1, 10;
      filters, loading, error, actionLoading := NoFilters, false, None, false;
    }

    method SetFilters(f: UsersFilters)
      modifies this
      ensures State() == old(State()).(filters := f)
    {
      filters := f;
    }

    method ClearFilters()
      modifies this
      ensures State() == old(State()).(filters := NoFilters)
    {
      filters := NoFilters;
    }

    method SetSelectedUser(u: Option<User>)
      modifies this
      ensures State() == old(State()).(selectedUser := u)
    {
      selectedUser := u;
    }

    method ClearError()
      modifies this
      ensures State() == old(State()).(error := None)
    {
      error := None;
    }

    method FetchUsers(o: Outcome<UsersResponse>)
      modifies this
      ensures match o
        case Pending => State() == old(State()).(loading := true, error := None)
        case Fulfilled(r) =>
          State() == old(State()).(loading := false, users := r.users, total := r.total, page := r.page, limit := r.limit)
        case Rejected(m) =>
          State() == old(State()).(loading := false, error := Some(MessageOr(m, "Failed to fetch users")))
    {
      match o
      case Pending =>
        loading := true;
        error := None;
      case Fulfilled(r) =>
        loading := false;
        users := r.users;
        total := r.total;
        page := r.page;
        limit := r.limit;
      case Rejected(m) =>
        loading := false;
        error := Some(MessageOr(m, "Failed to fetch users"));
    }

    method FetchUserById(o: Outcome<User>)
      modifies this
      ensures match o
        case Pending => State() == old(State()).(actionLoading := true, error := None)
        case Fulfilled(u) => State() == old(State()).(actionLoading := false, selectedUser := Some(u))
        case Rejected(m) =>
          State() == old(State()).(actionLoading := false, error := Some(MessageOr(m, "Failed to fetch user")))
    {
      match o
      case Pending =>
        actionLoading := true;
        error := None;
      case Fulfilled(u) =>
        actionLoading := false;
        selectedUser := Some(u);
      case Rejected(m) =>
        actionLoading := false;
        error := Some(MessageOr(m, "Failed to fetch user"));
    }

    /** `state.users[index] = payload` after `findIndex` on the id. */
    method ReplaceById(u: User)
      modifies this
      ensures State() == old(State()).(users := Seqs.ReplaceFirst(old(users), UserId, u))
    {
      var index := Seqs.FindIndex(users, UserId, u.id);
      if index != -1 {
        users := users[index := u];
      }
    }

    /** On success the first user with the payload's id is replaced, and the payload is selected even when no id matched. */
    method UpdateUser(o: Outcome<User>)
      modifies this
      ensures match o
        case Pending => State() == old(State()).(actionLoading := true, error := None)
        case Fulfilled(u) =>
          State() == old(State()).(actionLoading := false, users := Seqs.ReplaceFirst(old(users), UserId, u), selectedUser := Some(u))
        case Rejected(m) =>
          State() == old(State()).(actionLoading := false, error := Some(MessageOr(m, "Failed to update user")))
    {
      match o
      case Pending =>
        actionLoading := true;
        error := None;
      case Fulfilled(u) =>
        actionLoading := false;
        ReplaceById(u);
        selectedUser := Some(u);
      case Rejected(m) =>
        actionLoading := false;
        error := Some(MessageOr(m, "Failed to update user"));
    }

    /** On success every user with the id is removed and `total` drops by one, whether or not one matched. */
    method DeleteUser(o: Outcome<string>)
      modifies this
      ensures match o
        case Pending => State() == old(State()).(actionLoading := true, error := None)
        case Fulfilled(id) =>
          State() == old(State()).(actionLoading := false, users := Seqs.RemoveKey(old(users), UserId, id), total := old(total) - 1)
        case Rejected(m) =>
          State() == old(State()).(actionLoading := false, error := Some(MessageOr(m, "Failed to delete user")))
    {
      match o
      case Pending =>
        actionLoading := true;
        error := None;
      case Fulfilled(id) =>
        actionLoading := false;
        users := Seqs.RemoveKey(users, UserId, id);
        total := total - 1;
      case Rejected(m) =>
        actionLoading := false;
        error := Some(MessageOr(m, "Failed to delete user"));
    }

    /** Only the fulfilled case has a handler: it replaces by id and touches no flag. */
    method SuspendUser(o: Outcome<User>)
      modifies this
      ensures o.Fulfilled? ==> State() == old(State()).(users := Seqs.ReplaceFirst(old(users), UserId, o.payload))
      ensures !o.Fulfilled? ==> State() == old(State())
    {
      if o.Fulfilled? {
        ReplaceById(o.payload);
      }
    }

    method ActivateUser(o: Outcome<User>)
      modifies this
      ensures o.Fulfilled? ==> State() == old(State()).(users := Seqs.ReplaceFirst(old(users), UserId, o.payload))
      ensures !o.Fulfilled? ==> State() == old(State())
    {
      if o.Fulfilled? {
        ReplaceById(o.payload);
      }
    }
  }
}
