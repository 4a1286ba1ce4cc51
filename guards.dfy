/** `RoleGuard`: the redirect decision taken before a BrandView route renders. */
module Guards {
  import opened Seqs
  import opened Strings
  import opened Session

  /** `getRole`: the session's role, absent when there is no session object. */
  function GetRole(s: BrandViewSession?): (r: Option<Role>)
    reads s
    ensures s == null ==> r == None
    ensures s != null ==> r == s.role
  {
    if s == null then None else s.role
  }

  const OnboardingPath: string := "/brandview/onboarding"

  /** The route prefixes that need a role. */
  predicate NeedsRole(path: string) {
    StartsWith(path, "/brandview/dashboard") || StartsWith(path, "/brandview/matches") ||
    StartsWith(path, "/brandview/learn")
  }

  datatype GuardResult = Render | Redirect(target: string)

  function Decide(role: Option<Role>, required: Option<Role>, path: string): (r: GuardResult)
    ensures role.None? && NeedsRole(path) ==> r == Redirect(OnboardingPath)
    ensures role.Some? && required.Some? && role.value != required.value ==>
      r == Redirect(DashboardPath(role.value))
    ensures r == Render <==>
      (role.Some? || !NeedsRole(path)) && !(role.Some? && required.Some? && role.value != required.value)
  {
    if role.None? && NeedsRole(path) then Redirect(OnboardingPath)
    else if required.Some? && role.Some? && role.value != required.value then
      Redirect(DashboardPath(role.value))
    else Render
  }

  /** `RoleGuard`: a guard component, not mounted in the routes. */
  function Guard(s: BrandViewSession?, required: Option<Role>, path: string): GuardResult
    reads s
  {
    Decide(GetRole(s), required, path)
  }

  lemma OnboardingNeedsNoRole()
    ensures !NeedsRole(OnboardingPath)
  {
    assert OnboardingPath[11] == 'o';
    assert "/brandview/dashboard"[11] == 'd';
    assert "/brandview/matches"[11] == 'm';
    assert "/brandview/learn"[11] == 'l';
  }

  /** Following a redirect does not redirect again: a missing role lands on
      onboarding, which needs no role, and that half is the substance.  The
      role-mismatch half holds for any target, since a route guarded by the
      visitor's own role never mismatches; it adds nothing beyond `Decide`. */
  lemma {:induction false} NoRedirectLoop(role: Option<Role>, required: Option<Role>, path: string)
    requires Decide(role, required, path).Redirect?
    ensures role.Some? ==> Decide(role, role, Decide(role, required, path).target) == Render
    ensures role.None? ==> Decide(role, required, Decide(role, required, path).target) == Render
  {
    OnboardingNeedsNoRole();
  }

  /** The redirect target never depends on the path once a role is set. */
  lemma MismatchTargetIsDashboard(r: Role, required: Role, p1: string, p2: string)
    requires r != required
    ensures Decide(Some(r), Some(required), p1) == Decide(Some(r), Some(required), p2)
    ensures Decide(Some(r), Some(required), p1).target == DashboardPath(r)
  {
  }
}
