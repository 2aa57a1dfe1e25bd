/**
 * app/dashboard/users/page.tsx: the users table over a local list (seeded with mock data).
 * The page filters it by a search text and two drop-downs, counts it for the stat cards,
 * deletes and edits entries, and shows avatar initials. Every handler replaces the list with
 * a new one, so each is a function from the old page state to the new.
 */
module UsersPage {
  import opened Wrappers
  import opened Strings
  import opened Seqs
  import opened Entities

  const All := "all"

  /**
   * The search box matches the name or the e-mail, ignoring case (ASCII); the empty query
   * matches every user.
   */
  predicate MatchesSearch(u: User, query: string)
    ensures query == "" ==> MatchesSearch(u, query)
  {
    ContainsTrivial(ToLower(u.name));
    Contains(ToLower(u.name), ToLower(query)) || Contains(ToLower(u.email), ToLower(query))
  }

  /** Typing the query in lower case finds the same users. */
  lemma MatchesSearchIgnoresCase(u: User, query: string)
    ensures MatchesSearch(u, ToLower(query)) <==> MatchesSearch(u, query)
  {
    ToLowerIdempotent(query);
  }

  /**
   * A user is listed when the search matches and each drop-down is "all" or names the user's
   * value; with nothing typed and both drop-downs on "all", every user is.
   */
  predicate Listed(u: User, query: string, statusFilter: string, planFilter: string)
    ensures query == "" && statusFilter == All && planFilter == All ==> Listed(u, query, statusFilter, planFilter)
    ensures statusFilter != All && Listed(u, query, statusFilter, planFilter) ==> UserStatusName(u.status) == statusFilter
    ensures planFilter != All && Listed(u, query, statusFilter, planFilter) ==> PlanName(u.plan) == planFilter
  {
    MatchesSearch(u, query) &&
    (statusFilter == All || UserStatusName(u.status) == statusFilter) &&
    (planFilter == All || PlanName(u.plan) == planFilter)
  }

  /** `filteredUsers`. */
  function FilteredUsers(users: seq<User>, query: string, statusFilter: string, planFilter: string): (r: seq<User>)
    ensures forall u :: u in r <==> u in users && Listed(u, query, statusFilter, planFilter)
    ensures IsSubseq(r, users)
  {
    Filter(users, u => Listed(u, query, statusFilter, planFilter))
  }

  /** With an empty search and both drop-downs on "all", every user is listed, in order. */
  lemma UnfilteredShowsAll(users: seq<User>)
    ensures FilteredUsers(users, "", All, All) == users
  {
    forall u | u in users ensures Listed(u, "", All, All) {
      ContainsTrivial(ToLower(u.name));
    }
    FilterAll(users, u => Listed(u, "", All, All));
  }

  predicate IsActiveUser(u: User) { u.status == ActiveUser }
  predicate IsPaying(u: User) { u.plan != FreePlan }
  function UserPlan(u: User): Plan { u.plan }

  /** The stat cards: all users, those with status "Active", and those on a plan other than "Free". */
  datatype UserStats = UserStats(total: nat, active: nat, paid: nat)

  function Stats(users: seq<User>): (s: UserStats)
    ensures s.total == |users|
    ensures s.active == |Filter(users, IsActiveUser)| <= s.total
    ensures s.paid == |Filter(users, IsPaying)| <= s.total
  {
    UserStats(|users|, Count(users, IsActiveUser), Count(users, IsPaying))
  }

  /** Every user is either paying or on the free plan. */
  lemma PaidPlusFree(users: seq<User>)
    ensures Stats(users).paid + Count(users, (u: User) => u.plan == FreePlan) == |users|
  {
    RemoveKeyCount(users, UserPlan, FreePlan, (u: User) => u.plan == FreePlan);
    PayingIsNotFree(users);
  }

  /** Keeping the paying users is removing those whose plan is free. */
  lemma {:induction false} PayingIsNotFree(users: seq<User>)
    ensures Filter(users, IsPaying) == RemoveKey(users, UserPlan, FreePlan)
  {
    if users != [] {
      PayingIsNotFree(users[1..]);
    }
  }

  /** The part of the page state the delete and edit handlers change. */
  datatype PageState = PageState(users: seq<User>, selectedUser: Option<User>)

  /**
   * `confirmDelete`: removes every user with the selected user's id and clears the selection
   * (the modal closes); without a selection nothing happens.
   */
  function ConfirmDelete(s: PageState): (t: PageState)
    ensures s.selectedUser.None? ==> t == s
    ensures s.selectedUser.Some? ==>
      t.selectedUser.None? &&
      (forall u :: u in t.users <==> u in s.users && u.id != s.selectedUser.value.id) &&
      IsSubseq(t.users, s.users)
  {
    if s.selectedUser.None? then s
    else PageState(RemoveKey(s.users, UserId, s.selectedUser.value.id), None)
  }

  /** Deleting the same user again has nothing left to remove. */
  lemma ConfirmDeleteTwice(s: PageState)
    requires s.selectedUser.Some?
    ensures var t := ConfirmDelete(s);
      ConfirmDelete(t.(selectedUser := s.selectedUser)).users == t.users
  {
    RemoveKeyIdempotent(s.users, UserId, s.selectedUser.value.id);
  }

  /** The edit dialog's fields. */
  datatype EditForm = EditForm(name: string, email: string, sport: string, skillLevel: SkillLevel, plan: Plan, status: UserStatus)

  /** `handleEdit`: the dialog opens with the user's current values. */
  function FormOf(u: User): (f: EditForm)
    ensures Merge(u, f) == u
  {
    EditForm(u.name, u.email, u.sport, u.skillLevel, u.plan, u.status)
  }

  /** `{ ...u, ...editForm }`: the six edited fields come from the form, the rest from the user. */
  function Merge(u: User, f: EditForm): (v: User)
    ensures v.name == f.name && v.email == f.email && v.sport == f.sport
    ensures v.skillLevel == f.skillLevel && v.plan == f.plan && v.status == f.status
    ensures v.id == u.id && v.videos == u.videos && v.engagement == u.engagement
    ensures v.avatar == u.avatar && v.createdAt == u.createdAt && v.lastActive == u.lastActive
  {
    u.(name := f.name, email := f.email, sport := f.sport, skillLevel := f.skillLevel, plan := f.plan, status := f.status)
  }

  /** Every user whose id is `id` merged with the form; the others as they were. */
  function ApplyEdit(users: seq<User>, id: string, f: EditForm): (r: seq<User>)
    ensures |r| == |users|
    ensures forall i :: 0 <= i < |users| ==> r[i] == if users[i].id == id then Merge(users[i], f) else users[i]
  {
    seq(|users|, i requires 0 <= i < |users| => if users[i].id == id then Merge(users[i], f) else users[i])
  }

  /**
   * `saveEdit`: applies the form to the selected user's entries (by id) and clears the
   * selection; without a selection nothing happens.
   */
  function SaveEdit(s: PageState, f: EditForm): (t: PageState)
    ensures s.selectedUser.None? ==> t == s
    ensures s.selectedUser.Some? ==> t == PageState(ApplyEdit(s.users, s.selectedUser.value.id, f), None)
  {
    if s.selectedUser.None? then s
    else PageState(ApplyEdit(s.users, s.selectedUser.value.id, f), None)
  }

  /** Applying the same form twice is applying it once. */
  lemma ApplyEditIdempotent(users: seq<User>, id: string, f: EditForm)
    ensures ApplyEdit(ApplyEdit(users, id, f), id, f) == ApplyEdit(users, id, f)
  {
  }

  /** Saving the dialog unchanged, as `handleEdit` filled it, leaves the list as it was (for unique ids). */
  lemma SaveUnchangedForm(users: seq<User>, u: User)
    requires u in users
    requires forall i :: 0 <= i < |users| && users[i].id == u.id ==> users[i] == u
    ensures ApplyEdit(users, u.id, FormOf(u)) == users
  {
  }

  /** The first character of every word of `s`, where a word is a maximal run of non-space characters. */
  function WordStarts(s: string, atBoundary: bool): (r: string)
    ensures |r| <= |s|
  {
    if s == [] then ""
    else (if atBoundary && s[0] != ' ' then [s[0]] else []) + WordStarts(s[1..], s[0] == ' ')
  }

  /** `parts.map(n => n[0]).join("")`: an empty part contributes nothing (its `n[0]` is `undefined`). */
  function Heads(parts: seq<string>): (r: string)
    ensures |r| <= |parts|
    ensures (forall i :: 0 <= i < |parts| ==> parts[i] != "") ==>
      |r| == |parts| && forall i :: 0 <= i < |parts| ==> r[i] == parts[i][0]
  {
    if parts == [] then ""
    else
      var rest := Heads(parts[1..]);
      assert forall i :: 1 <= i < |parts| ==> parts[i] == parts[1..][i - 1];
      (if parts[0] == "" then "" else [parts[0][0]]) + rest
  }

  /** `getInitials`: the upper-cased first letter of each word of the name. */
  function Initials(name: string): (r: string)
    ensures r == ToUpper(WordStarts(name, true))
  {
    HeadsOfWords(name);
    ToUpper(Heads(Split(name, " ")))
  }

  /** The heads of the space-separated parts are the word starts. */
  lemma {:induction false} HeadsOfWords(s: string)
    ensures Heads(Split(s, " ")) == WordStarts(s, true)
    decreases |s|
  {
    var i := IndexOf(s, " ");
    if i == -1 {
      assert ' ' !in s by {
        forall m | 0 <= m < |s| ensures s[m] != ' ' {
          assert !OccursAt(s, m, " ");
          assert s[m..m + 1] == [s[m]];
        }
      }
      NoSpaceStarts(s, true);
    } else {
      var p, rest := s[..i], s[i + 1..];
      assert s == p + " " + rest;
      assert ' ' !in p by {
        forall m | 0 <= m < |p| ensures p[m] != ' ' {
          assert !OccursAt(s, m, " ");
          assert s[m..m + 1] == [s[m]];
        }
      }
      HeadsOfWords(rest);
      WordStartsAfterSpace(p, rest, true);
    }
  }

  /** A space-free word starting at a boundary contributes exactly its first character. */
  lemma {:induction false} NoSpaceStarts(p: string, b: bool)
    requires ' ' !in p
    ensures WordStarts(p, b) == if b && p != "" then [p[0]] else ""
    decreases |p|
  {
    if p != [] {
      NoSpaceStarts(p[1..], false);
    }
  }

  /** Word starts across one space: those of the word before it, then those of the rest. */
  lemma {:induction false} WordStartsAfterSpace(p: string, rest: string, b: bool)
    requires ' ' !in p
    ensures WordStarts(p + " " + rest, b) == (if b && p != "" then [p[0]] else "") + WordStarts(rest, true)
    decreases |p|
  {
    if p == [] {
      assert p + " " + rest == [' '] + rest;
      assert (p + " " + rest)[1..] == rest;
    } else {
      assert (p + " " + rest)[1..] == p[1..] + " " + rest;
      WordStartsAfterSpace(p[1..], rest, false);
    }
  }
}
