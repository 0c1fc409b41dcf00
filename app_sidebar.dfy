/** The role filter of the application sidebar
    (src/components/layout/app-sidebar.tsx). */
module AppSidebar {
  import opened Wrappers
  import opened Seqs

  const TeacherRole: string := "TEACHER"

  datatype NavItem = NavItem(title: string, url: Option<string>, badge: Option<string>)

  /** `NavGroup`: `isAdmin?: boolean`, `None` standing for a missing flag. */
  datatype NavGroup = NavGroup(title: string, isAdmin: Option<bool>, items: seq<NavItem>)

  /** The fields of the signed-in user the filter reads. */
  datatype User = User(id: int, name: string, role: string)

  predicate AdminOnly(group: NavGroup) {
    group.isAdmin == Some(true)
  }

  /** `(group) => !group.isAdmin || (user && user.role === 'TEACHER')`;
      `user` is `None` while it loads or when nobody is signed in. */
  function Visible(user: Option<User>): NavGroup -> bool
  {
    (group: NavGroup) => !AdminOnly(group) || (user.Some? && user.value.role == TeacherRole)
  }

  function NotAdminOnly(group: NavGroup): bool {
    !AdminOnly(group)
  }

  /** `filteredNavGroups`. */
  function FilterNavGroups(groups: seq<NavGroup>, user: Option<User>): (r: seq<NavGroup>)
    ensures forall k :: 0 <= k < |groups| && !AdminOnly(groups[k]) ==> groups[k] in r
    ensures forall k :: 0 <= k < |r| ==> r[k] in groups
  {
    Filter(groups, Visible(user))
  }

  /** The sidebar shows the configured groups in their configured order. */
  lemma FilteredIsSubsequence(groups: seq<NavGroup>, user: Option<User>)
    ensures IsSubsequence(FilterNavGroups(groups, user), groups)
  {
    FilterIsSubsequence(groups, Visible(user));
  }

  /** An admin group is shown exactly when a teacher is signed in. */
  lemma AdminGroupNeedsTeacher(groups: seq<NavGroup>, user: Option<User>, k: nat)
    requires k < |groups| && AdminOnly(groups[k])
    ensures groups[k] in FilterNavGroups(groups, user) <==> user.Some? && user.value.role == TeacherRole
  {
    var r := FilterNavGroups(groups, user);
    if groups[k] in r {
      var j :| 0 <= j < |r| && r[j] == groups[k];
    }
  }

  /** A teacher sees every group. */
  lemma TeacherSeesAll(groups: seq<NavGroup>, user: User)
    requires user.role == TeacherRole
    ensures FilterNavGroups(groups, Some(user)) == groups
  {
    FilterAll(groups, Visible(Some(user)));
  }

  /** Without a user (and for any other role) the sidebar is exactly the
      groups not flagged admin-only. */
  lemma OthersSeeNonAdminGroups(groups: seq<NavGroup>, user: Option<User>)
    requires user.None? || user.value.role != TeacherRole
    ensures FilterNavGroups(groups, user) == Filter(groups, NotAdminOnly)
  {
    FilterAgreeing(groups, Visible(user), NotAdminOnly);
  }
}
