/** The access guard wrapped around protected routes (src/components/Auth/AuthGuard.tsx): from
    the auth state and the route's required role to a spinner, a redirect or the protected
    page. A profile's role is the string stored in its row. */
module AuthGuard {
  import opened Wrappers

  datatype Access =
    | Verifying
    | ToLogin(from: string)
    | ToDashboard
    | Granted

  /** `requiredRole` is absent or empty when the route accepts any signed-in user. */
  predicate RoleAccepted(profileRole: string, requiredRole: Option<string>) {
    requiredRole.None? || requiredRole.value == "" || profileRole == requiredRole.value || profileRole == "Admin"
  }

  /** `loading` and `hasUser` come from the auth hook, `profileRole` is the role of the loaded
      profile (absent when no profile is loaded) and `location` the path being visited. */
  function Guard(loading: bool, hasUser: bool, profileRole: Option<string>, requiredRole: Option<string>,
                 location: string): (a: Access)
    ensures a == Verifying <==> loading
    ensures a.ToLogin? <==> !loading && (!hasUser || profileRole.None?)
    ensures a.ToLogin? ==> a.from == location
    ensures a == Granted <==> !loading && hasUser && profileRole.Some? && RoleAccepted(profileRole.value, requiredRole)
  {
    if loading then Verifying
    else if !hasUser || profileRole.None? then ToLogin(location)
    else if requiredRole.Some? && requiredRole.value != "" && profileRole.value != requiredRole.value
            && profileRole.value != "Admin" then ToDashboard
    else Granted
  }

  /** A signed-in admin passes every role requirement. */
  lemma AdminPassesEverywhere(requiredRole: Option<string>, location: string)
    ensures Guard(false, true, Some("Admin"), requiredRole, location) == Granted
  {}

  /** A signed-in user whose role differs from the route's is sent to /dashboard, unless the
      user is an admin. */
  lemma WrongRoleToDashboard(role: string, required: string, location: string)
    requires required != "" && role != required
    ensures Guard(false, true, Some(role), Some(required), location) == ToDashboard <==> role != "Admin"
  {}

  /** A route with a requirement admits no one that the same route without it would turn away. */
  lemma RequirementOnlyNarrows(loading: bool, hasUser: bool, profileRole: Option<string>, required: string,
                               location: string)
    ensures Guard(loading, hasUser, profileRole, Some(required), location) == Granted
        ==> Guard(loading, hasUser, profileRole, None, location) == Granted
  {}
}
