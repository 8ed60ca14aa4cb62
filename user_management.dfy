/** The user administration panel of src/components/UserManagement/UserManagement.tsx:
    the user list filter, the invite form, the role/permission matrix of the
    permissions tab, and the counts shown on the stat cards and role badges. */
module UserManagement {
  import opened Strings
  import Seqs

  datatype Role = Admin | Editor | Viewer | Analyst
  datatype UserStatus = Active | Inactive | Pending | Suspended

  function RoleName(r: Role): string {
    match r
    case Admin => "admin"
    case Editor => "editor"
    case Viewer => "viewer"
    case Analyst => "analyst"
  }

  function StatusName(s: UserStatus): string {
    match s
    case Active => "active"
    case Inactive => "inactive"
    case Pending => "pending"
    case Suspended => "suspended"
  }

  /** The fields of `User` the modelled logic reads. */
  datatype User = User(id: string, name: string, email: string, role: Role, status: UserStatus)

  // ---------------------------------------------------------------------
  // The user list filter
  // ---------------------------------------------------------------------

  /** The test of `filteredUsers` for one user. */
  predicate UserMatches(u: User, searchTerm: string, selectedRole: string, selectedStatus: string) {
    && (IncludesIgnoringCase(u.name, searchTerm) || IncludesIgnoringCase(u.email, searchTerm))
    && (selectedRole == "all" || RoleName(u.role) == selectedRole)
    && (selectedStatus == "all" || StatusName(u.status) == selectedStatus)
  }

  /** `filteredUsers`: the matching users, in list order. */
  function FilteredUsers(users: seq<User>, searchTerm: string, selectedRole: string, selectedStatus: string)
    : (r: seq<User>)
    ensures forall u :: u in r <==> u in users && UserMatches(u, searchTerm, selectedRole, selectedStatus)
    ensures Seqs.IsSubsequence(r, users)
    ensures forall u ::
      multiset(r)[u] == if UserMatches(u, searchTerm, selectedRole, selectedStatus) then multiset(users)[u] else 0
  {
    var p := (u: User) => UserMatches(u, searchTerm, selectedRole, selectedStatus);
    Seqs.FilterIsSubsequence(users, p);
    Seqs.FilterMultiset(users, p);
    Seqs.Filter(users, p)
  }

  /** The initial filters (empty search, "all", "all") list every user. */
  lemma DefaultFiltersListEverything(users: seq<User>)
    ensures FilteredUsers(users, "", "all", "all") == users
  {
    forall u | u in users
      ensures UserMatches(u, "", "all", "all")
    {
      EmptySearchMatches(u.name);
    }
    Seqs.FilterKeepsAll(users, (u: User) => UserMatches(u, "", "all", "all"));
  }

  // ---------------------------------------------------------------------
  // The invite form
  // ---------------------------------------------------------------------

  /** The invite form's state, with the calls made to `onInviteUser`. */
  class InviteForm {
    var isInviting: bool
    var inviteEmail: string
    var inviteRole: string
    var invitations: seq<(string, string)>

    constructor ()
      ensures !isInviting && inviteEmail == "" && inviteRole == "viewer" && invitations == []
    {
      isInviting := false;
      inviteEmail := "";
      inviteRole := "viewer";
      invitations := [];
    }

    /** The "Invite User" button opens the form. */
    method Open()
      modifies this
      ensures isInviting
      ensures inviteEmail == old(inviteEmail) && inviteRole == old(inviteRole) && invitations == old(invitations)
    {
      isInviting := true;
    }

    /** "Cancel" closes the form and keeps what was typed. */
    method Cancel()
      modifies this
      ensures !isInviting
      ensures inviteEmail == old(inviteEmail) && inviteRole == old(inviteRole) && invitations == old(invitations)
    {
      isInviting := false;
    }

    /** Typing in the email field. */
    method OnEmailChange(text: string)
      modifies this
      ensures inviteEmail == text
      ensures isInviting == old(isInviting) && inviteRole == old(inviteRole) && invitations == old(invitations)
    {
      inviteEmail := text;
    }

    /** Choosing a role in the role select. */
    method OnRoleChange(role: string)
      modifies this
      ensures inviteRole == role
      ensures isInviting == old(isInviting) && inviteEmail == old(inviteEmail) && invitations == old(invitations)
    {
      inviteRole := role;
    }

    /** `handleInviteUser`: with an email, invite once with the chosen role,
        clear the email and close; with an empty email, do nothing. */
    method HandleInviteUser()
      modifies this
      ensures old(inviteEmail) == "" ==>
        isInviting == old(isInviting) && inviteEmail == old(inviteEmail)
        && inviteRole == old(inviteRole) && invitations == old(invitations)
      ensures old(inviteEmail) != "" ==>
        invitations == old(invitations) + [(old(inviteEmail), old(inviteRole))]
        && inviteEmail == "" && !isInviting && inviteRole == old(inviteRole)
    {
      if inviteEmail != "" {
        invitations := invitations + [(inviteEmail, inviteRole)];
        inviteEmail := "";
        isInviting := false;
      }
    }
  }

  // ---------------------------------------------------------------------
  // The permission matrix
  // ---------------------------------------------------------------------

  const PermissionNames: seq<string> := ["View Analytics", "Export Data", "Manage Users", "Admin Settings"]
  /** The `defaultChecked` condition of the switch for one role and permission. */
  predicate DefaultChecked(role: string, permission: string) {
    || role == "admin"
    || (role == "editor" && permission != "Admin Settings")
    || (role == "analyst" && permission in ["View Analytics", "Export Data"])
    || (role == "viewer" && permission == "View Analytics")
  }

  /** The switches that start checked in a role's row. */
  function GrantedPermissions(role: string): (r: set<string>)
    ensures r <= set p | p in PermissionNames
  {
    set p | p in PermissionNames && DefaultChecked(role, p)
  }

  /** The rows of the matrix, one by one. */
  lemma PermissionMatrix()
    ensures GrantedPermissions("admin") == {"View Analytics", "Export Data", "Manage Users", "Admin Settings"}
    ensures GrantedPermissions("editor") == {"View Analytics", "Export Data", "Manage Users"}
    ensures GrantedPermissions("analyst") == {"View Analytics", "Export Data"}
    ensures GrantedPermissions("viewer") == {"View Analytics"}
  {
    assert forall p :: p in PermissionNames <==> p in {"View Analytics", "Export Data", "Manage Users", "Admin Settings"};
  }

  /** Each role's permissions include those of the role below it. */
  lemma PermissionsNested()
    ensures GrantedPermissions("viewer") < GrantedPermissions("analyst")
    ensures GrantedPermissions("analyst") < GrantedPermissions("editor")
    ensures GrantedPermissions("editor") < GrantedPermissions("admin")
  {
    PermissionMatrix();
  }

  // ---------------------------------------------------------------------
  // Counts
  // ---------------------------------------------------------------------

  function HasRole(role: string): User -> bool {
    (u: User) => RoleName(u.role) == role
  }

  function HasStatus(status: string): User -> bool {
    (u: User) => StatusName(u.status) == status
  }

  /** The "N users" badge of a role's row. */
  function RoleCount(users: seq<User>, role: string): (n: nat)
    ensures n <= |users|
  {
    |Seqs.Filter(users, HasRole(role))|
  }

  /** The Active Users and Pending stat cards. */
  function StatusCount(users: seq<User>, status: string): (n: nat)
    ensures n <= |users|
  {
    |Seqs.Filter(users, HasStatus(status))|
  }

  /** The first user adds one to the count of their own role only. */
  lemma RoleCountStep(users: seq<User>, role: string)
    requires users != []
    ensures RoleCount(users, role)
         == (if RoleName(users[0].role) == role then 1 else 0) + RoleCount(users[1..], role)
  {
  }

  /** Every user has one of the four roles, so the badges add up to Total Users. */
  lemma {:induction false} RoleCountsSumToTotal(users: seq<User>)
    ensures RoleCount(users, "admin") + RoleCount(users, "editor")
          + RoleCount(users, "analyst") + RoleCount(users, "viewer") == |users|
  {
    if users != [] {
      RoleCountsSumToTotal(users[1..]);
      RoleCountStep(users, "admin");
      RoleCountStep(users, "editor");
      RoleCountStep(users, "analyst");
      RoleCountStep(users, "viewer");
    }
  }

  /** No user is both active and pending, so the two cards together never exceed Total Users. */
  lemma ActiveAndPendingBounded(users: seq<User>)
    ensures StatusCount(users, "active") + StatusCount(users, "pending") <= |users|
  {
    Seqs.FilterDisjointBound(users, HasStatus("active"), HasStatus("pending"));
  }
}
