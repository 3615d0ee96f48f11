/** The route guard: what a protected page shows, from the auth context's
    loading flag and user and the page's required role. */
module Routes {
  import opened Types
  import Auth

  datatype RequiredRole = RequireAdmin | RequireClinician

  datatype View = Spinner | AccessDenied | InsufficientPermissions | Children

  /** The permission test of a page that names a required role. */
  function HasPermission(required: RequiredRole, role: Role): bool {
    (required == RequireAdmin && role == Admin)
    || (required == RequireClinician && (role == Clinician || role == Admin))
  }

  /** `ProtectedRoute`. */
  function ProtectedRoute(loading: bool, user: Option<User>, required: Option<RequiredRole>): (v: View)
    ensures v == Children ==> !loading && user.Some?
    ensures v == Spinner <==> loading
  {
    if loading then Spinner
    else if user.None? then AccessDenied
    else if required.Some? && !HasPermission(required.value, user.value.role) then InsufficientPermissions
    else Children
  }

  /** Rank of a role: user < clinician < admin. */
  function Rank(role: Role): nat {
    match role
    case UserRole => 0
    case Clinician => 1
    case Admin => 2
  }

  /** The guard's decisions, case by case. */
  lemma GuardDecisions(loading: bool, user: Option<User>, required: Option<RequiredRole>)
    ensures loading ==> ProtectedRoute(loading, user, required) == Spinner
    ensures !loading && user.None? ==> ProtectedRoute(loading, user, required) == AccessDenied
    ensures !loading && user.Some? && required.None? ==> ProtectedRoute(loading, user, required) == Children
    ensures !loading && user.Some? && required == Some(RequireAdmin) ==>
      (ProtectedRoute(loading, user, required) == Children <==> user.value.role == Admin)
    ensures !loading && user.Some? && required == Some(RequireClinician) ==>
      (ProtectedRoute(loading, user, required) == Children <==> user.value.role in {Clinician, Admin})
    ensures !loading && user.Some? && user.value.role == Admin ==> ProtectedRoute(loading, user, required) == Children
    ensures !loading && user.Some? && user.value.role == UserRole ==>
      (ProtectedRoute(loading, user, required) == Children <==> required.None?)
  {
  }

  /** Permission only grows with rank: a page open to a role is open to
      every higher role. */
  lemma PermissionMonotone(required: RequiredRole, r1: Role, r2: Role)
    requires HasPermission(required, r1) && Rank(r1) <= Rank(r2)
    ensures HasPermission(required, r2)
  {
  }

  /** The guard agrees with the auth context's role flags: admin pages open
      exactly for `isAdmin`, clinician pages exactly for `isClinician`. */
  lemma GuardMatchesRoleFlags(user: Option<User>)
    ensures ProtectedRoute(false, user, Some(RequireAdmin)) == Children <==> Auth.IsAdmin(user)
    ensures ProtectedRoute(false, user, Some(RequireClinician)) == Children <==> Auth.IsClinician(user)
  {
  }
}
