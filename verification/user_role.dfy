/**
  Role resolution of src/hooks/useUserRole.ts: a test-role override kept in
  local storage wins; otherwise the signed-in user's email decides between the
  admin domain, the reviewer marker and the subcontractor default.

  The stored override is whatever string local storage holds, so it need not be
  one of the three roles; the model keeps it as a string for that reason.
*/
module UserRole {
  import opened Wrappers
  import opened JsText

  const Admin: string := "admin"
  const Reviewer: string := "reviewer"
  const Subcontractor: string := "subcontractor"

  const AdminDomain: string := "@hunterharvey.com.au"
  const ReviewerMarker: string := "@reviewer."

  /** The identity-provider user; only the email takes part in resolution. */
  datatype User = User(email: Option<string>)

  /**
    The hook's state: the identity provider's answer, the in-memory test role and
    the `testRole` entry of local storage.
  */
  datatype RoleState = RoleState(
    user: Option<User>,
    isAuthenticated: bool,
    testRole: Option<string>,
    storedTestRole: Option<string>)

  /** The flags the hook returns next to the role. */
  datatype RoleFlags = RoleFlags(isAdmin: bool, isReviewer: bool, isSubcontractor: bool)

  /** The initial test role: the stored entry in a browser, nothing during server rendering. */
  function InitialTestRole(hasWindow: bool, stored: Option<string>): (r: Option<string>)
    ensures hasWindow ==> r == stored
    ensures !hasWindow ==> r.None?
  {
    if hasWindow then stored else None
  }

  /** The role an email alone resolves to. */
  function EmailRole(email: Option<string>): (r: string)
    ensures r == Admin <==> Truthy(email) && Contains(email.value, AdminDomain)
    ensures r == Reviewer <==> Truthy(email) && !Contains(email.value, AdminDomain) && Contains(email.value, ReviewerMarker)
    ensures r == Subcontractor <==> !Truthy(email) || (!Contains(email.value, AdminDomain) && !Contains(email.value, ReviewerMarker))
  {
    if !Truthy(email) then Subcontractor
    else if Contains(email.value, AdminDomain) then Admin
    else if Contains(email.value, ReviewerMarker) then Reviewer
    else Subcontractor
  }

  /** `getUserRole`: a non-empty test role wins, else the email decides. */
  function GetUserRole(testRole: Option<string>, user: User): (r: string)
    ensures Truthy(testRole) ==> r == testRole.value
    ensures !Truthy(testRole) ==> r == EmailRole(user.email)
  {
    if Truthy(testRole) then testRole.value else EmailRole(user.email)
  }

  /** `userRole`: resolved only for an authenticated session with a user. */
  function ResolvedRole(s: RoleState): (r: Option<string>)
    ensures r.Some? <==> s.isAuthenticated && s.user.Some?
    ensures r.Some? ==> r.value == GetUserRole(s.testRole, s.user.value)
  {
    if s.isAuthenticated && s.user.Some? then Some(GetUserRole(s.testRole, s.user.value)) else None
  }

  /** The three flags compare the resolved role with each role name. */
  function Flags(s: RoleState): (r: RoleFlags)
    ensures r.isAdmin <==> ResolvedRole(s) == Some(Admin)
    ensures r.isReviewer <==> ResolvedRole(s) == Some(Reviewer)
    ensures r.isSubcontractor <==> ResolvedRole(s) == Some(Subcontractor)
  {
    var role := ResolvedRole(s);
    RoleFlags(role == Some(Admin), role == Some(Reviewer), role == Some(Subcontractor))
  }

  predicate IsRole(name: string) {
    name == Admin || name == Reviewer || name == Subcontractor
  }

  /** At most one flag holds, and none when there is no role or the role is not one of the three. */
  lemma FlagsExclusive(s: RoleState)
    ensures var f := Flags(s);
      (f.isAdmin ==> !f.isReviewer && !f.isSubcontractor) && (f.isReviewer ==> !f.isSubcontractor)
    ensures ResolvedRole(s).None? || !IsRole(ResolvedRole(s).value)
        ==> !Flags(s).isAdmin && !Flags(s).isReviewer && !Flags(s).isSubcontractor
  {
    assert Admin != Reviewer && Admin != Subcontractor && Reviewer != Subcontractor;
  }

  /** `setTestRole`: remembered in memory and in local storage. */
  function SetTestRole(s: RoleState, role: string): (r: RoleState)
    ensures r.testRole == Some(role) && r.storedTestRole == Some(role)
    ensures r.user == s.user && r.isAuthenticated == s.isAuthenticated
  {
    s.(testRole := Some(role), storedTestRole := Some(role))
  }

  /** `clearTestRole`: forgotten in memory and removed from local storage. */
  function ClearTestRole(s: RoleState): (r: RoleState)
    ensures r.testRole.None? && r.storedTestRole.None?
    ensures r.user == s.user && r.isAuthenticated == s.isAuthenticated
  {
    s.(testRole := None, storedTestRole := None)
  }

  /** A test role that was set is the resolved role, now and after a reload in a browser. */
  lemma SetTestRoleWins(s: RoleState, role: string)
    requires IsRole(role) && s.isAuthenticated && s.user.Some?
    ensures ResolvedRole(SetTestRole(s, role)) == Some(role)
    ensures var reloaded := SetTestRole(s, role).(testRole := InitialTestRole(true, Some(role)));
      ResolvedRole(reloaded) == Some(role)
  {
    assert role != "";
  }

  /** After clearing, resolution is by email again. */
  lemma ClearTestRoleUsesEmail(s: RoleState)
    requires s.isAuthenticated && s.user.Some?
    ensures ResolvedRole(ClearTestRole(s)) == Some(EmailRole(s.user.value.email))
  {
  }

  /** An email holding both markers resolves to admin: the admin check comes first. */
  lemma AdminBeforeReviewer(email: string)
    requires Contains(email, AdminDomain) && Contains(email, ReviewerMarker)
    ensures EmailRole(Some(email)) == Admin
  {
    assert email != "" by {
      assert IndexOf(email, AdminDomain).Some?;
    }
  }
}
