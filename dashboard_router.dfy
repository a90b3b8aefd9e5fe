/** The /dashboard page (src/pages/DashboardRouter.tsx): it reads the session and the signed-in
    user's profile, keeps either the profile's role or an error, and then shows an error card,
    a loading card, or the dashboard of the role. The session and profile replies are
    parameters; the timeouts raced against them are not modelled, an exception they raise is
    just another reply carrying a message. */
module DashboardRouter {
  import opened Wrappers
  import opened Schema

  /** The reply of `auth.getSession`: an error, a session with or without a user, or an
      exception. */
  datatype SessionReply = SessionFailed | SessionFound(userId: Option<string>) | SessionThrew(message: string)

  /** The reply of the profile query: an error with its code, the profile's stored role (absent
      when the column is null), or an exception. */
  datatype ProfileReply = ProfileFailed(code: string) | ProfileFound(role: Option<string>) | ProfileThrew(message: string)

  const NoRowsCode := "PGRST116"

  /** The error stored for an exception without a message. */
  const UnknownError := "Unknown error"

  /** How `initializeDashboard` ends: the role it stores, the error it stores, and whether it
      sends the user to /login at once or after a delay. */
  datatype Outcome = Outcome(role: Option<string>, error: Option<string>, toLoginNow: bool, toLoginLater: bool)

  function Classify(session: SessionReply, profile: ProfileReply): (o: Outcome)
    ensures o.role.Some? <==> o.error.None?
    ensures o.error.Some? ==> o.error.value != "" && (o.toLoginNow != o.toLoginLater)
    ensures o.error.None? ==> !o.toLoginNow && !o.toLoginLater
    ensures session == SessionFailed ==> o.error == Some("Session error") && o.toLoginNow
    ensures session == SessionFound(None) ==> o.error == Some("No session") && o.toLoginNow
    ensures session.SessionFound? && session.userId.Some? && profile.ProfileFailed? ==>
      o.error == Some(if profile.code == NoRowsCode then "Profile not found" else "Database error") && o.toLoginNow
    ensures session.SessionFound? && session.userId.Some? && profile.ProfileFound? ==>
      if profile.role.None? || profile.role.value == "" then o.error == Some("No role assigned") && o.toLoginNow
      else o.role == profile.role
    ensures o.toLoginLater <==> session.SessionThrew? || (session.SessionFound? && session.userId.Some? && profile.ProfileThrew?)
  {
    match session
    case SessionFailed => Outcome(None, Some("Session error"), true, false)
    case SessionThrew(message) => Outcome(None, Some(MessageOr(message, UnknownError)), false, true)
    case SessionFound(userId) =>
      if userId.None? then Outcome(None, Some("No session"), true, false)
      else match profile
        case ProfileFailed(code) =>
          Outcome(None, Some(if code == NoRowsCode then "Profile not found" else "Database error"), true, false)
        case ProfileThrew(message) => Outcome(None, Some(MessageOr(message, UnknownError)), false, true)
        case ProfileFound(role) =>
          if role.None? || role.value == "" then Outcome(None, Some("No role assigned"), true, false)
          else Outcome(role, None, false, false)
  }

  /** The text of the error card. */
  function ErrorMessage(error: string): (m: string)
    ensures error == "Profile not found" ==> m == "Your profile could not be found. Please contact support."
    ensures error == "No role assigned" ==> m == "Your account does not have a role assigned. Please contact support."
    ensures error == "Session error" || error == "No session" ==> m == "Please sign in again."
    ensures error !in {"Profile not found", "No role assigned", "Session error", "No session"} ==> m == "Error: " + error
  {
    if error == "Profile not found" then "Your profile could not be found. Please contact support."
    else if error == "No role assigned" then "Your account does not have a role assigned. Please contact support."
    else if error == "Session error" || error == "No session" then "Please sign in again."
    else "Error: " + error
  }

  /** Only the two session failures ask the user to sign in again. */
  lemma SignInAgainOnlyForSessions(error: string)
    ensures ErrorMessage(error) == "Please sign in again." <==> error == "Session error" || error == "No session"
  {
    if error !in {"Profile not found", "No role assigned", "Session error", "No session"} {
      assert ErrorMessage(error)[0] == 'E';
    }
  }

  datatype Screen =
    | ErrorCard(message: string)
    | LoadingCard
    | AdminHome
    | VendorHome
    | DriverHome
    | CustomerHome
    | UnknownRoleCard(role: Option<string>)

  /** What the page renders: an error first, then the loading card, then the role's page. */
  function View(error: Option<string>, loading: bool, role: Option<string>): (s: Screen)
    ensures error.Some? && error.value != "" ==> s == ErrorCard(ErrorMessage(error.value))
    ensures (error.None? || error.value == "") && loading ==> s == LoadingCard
    ensures s.UnknownRoleCard? ==> s.role == role && (role.None? || RoleOf(role.value).None?)
  {
    if error.Some? && error.value != "" then ErrorCard(ErrorMessage(error.value))
    else if loading then LoadingCard
    else if role.None? then UnknownRoleCard(role)
    else match RoleOf(role.value)
      case Some(Admin) => AdminHome
      case Some(Vendor) => VendorHome
      case Some(Driver) => DriverHome
      case Some(Customer) => CustomerHome
      case None => UnknownRoleCard(role)
  }

  /** Once initialisation has ended, the page shows the error card exactly when it failed, and
      otherwise the home of the stored role, which is the marketplace for customers. */
  lemma SettledView(session: SessionReply, profile: ProfileReply)
    ensures var o := Classify(session, profile);
      && (View(o.error, false, o.role).ErrorCard? <==> o.error.Some?)
      && (o.error.None? ==> match RoleOf(o.role.value)
            case Some(Admin) => View(o.error, false, o.role) == AdminHome
            case Some(Vendor) => View(o.error, false, o.role) == VendorHome
            case Some(Driver) => View(o.error, false, o.role) == DriverHome
            case Some(Customer) => View(o.error, false, o.role) == CustomerHome
            case None => View(o.error, false, o.role) == UnknownRoleCard(o.role))
  {}

  /** A missing profile row is reported to the user as a profile that could not be found, and
      any other profile error with the code-free database message. */
  lemma ProfileErrorsShown(userId: string, code: string)
    ensures var o := Classify(SessionFound(Some(userId)), ProfileFailed(code));
      ErrorMessage(o.error.value) == if code == NoRowsCode then "Your profile could not be found. Please contact support."
                                     else "Error: Database error"
  {}

  /** The page's state. */
  class Router {
    var loading: bool
    var role: Option<string>
    var error: Option<string>
    /** Navigations to /login: the immediate ones and the one scheduled after a delay. */
    var navigatedTo: seq<string>
    var scheduled: Option<string>

    constructor ()
      ensures loading && role.None? && error.None? && navigatedTo == [] && scheduled.None?
    {
      loading := true;
      role := None;
      error := None;
      navigatedTo := [];
      scheduled := None;
    }

    /** `initializeDashboard`, with the replies it awaits. */
    method Initialize(session: SessionReply, profile: ProfileReply)
      modifies this
      ensures var o := Classify(session, profile);
        && !loading && error == o.error
        && role == (if o.role.Some? then o.role else old(role))
        && navigatedTo == old(navigatedTo) + (if o.toLoginNow then ["/login"] else [])
        && scheduled == (if o.toLoginLater then Some("/login") else old(scheduled))
    {
      match session {
        case SessionFailed =>
          error := Some("Session error");
          navigatedTo := navigatedTo + ["/login"];
        case SessionThrew(message) =>
          error := Some(if message == "" then "Unknown error" else message);
          scheduled := Some("/login");
        case SessionFound(userId) =>
          if userId.None? {
            error := Some("No session");
            navigatedTo := navigatedTo + ["/login"];
          } else {
            match profile {
              case ProfileFailed(code) =>
                if code == NoRowsCode {
                  error := Some("Profile not found");
                } else {
                  error := Some("Database error");
                }
                navigatedTo := navigatedTo + ["/login"];
              case ProfileThrew(message) =>
                error := Some(if message == "" then "Unknown error" else message);
                scheduled := Some("/login");
              case ProfileFound(r) =>
                if r.None? || r.value == "" {
                  error := Some("No role assigned");
                  navigatedTo := navigatedTo + ["/login"];
                } else {
                  role := r;
                  error := None;
                }
            }
          }
      }
      loading := false;
    }
  }

  /** While initialisation runs the loading card shows; an error set at any time hides it. */
  lemma ErrorBeforeLoading(error: string, role: Option<string>)
    requires error != ""
    ensures View(Some(error), true, role) == View(Some(error), false, role) == ErrorCard(ErrorMessage(error))
    ensures View(None, true, role) == LoadingCard
  {}
}
