/** The sign-in form (src/components/Auth/LoginForm.tsx): it signs the user in and, once the
    profile is loaded, sends them to their role's area or back to the page that asked them to
    sign in. */
module LoginForm {
  import opened Wrappers
  import opened Schema
  import Header

  /** `location.state?.from?.pathname || '/'`: `fromPath` is the pathname the guard passed
      along, absent when the page was opened directly. */
  function FromOf(fromPath: Option<string>): (from: string)
    ensures from != ""
    ensures fromPath.Some? && fromPath.value != "" ==> from == fromPath.value
  {
    if fromPath.Some? && fromPath.value != "" then fromPath.value else "/"
  }

  /** Where a signed-in user is sent: the three staff roles to their areas, customers and
      unknown roles back where they came from, or to /browse from the home page. */
  function RedirectTarget(role: string, from: string): (path: string)
    ensures RoleOf(role) == Some(Admin) ==> path == "/admin"
    ensures RoleOf(role) == Some(Vendor) ==> path == "/vendor"
    ensures RoleOf(role) == Some(Driver) ==> path == "/driver"
    ensures RoleOf(role) !in {Some(Admin), Some(Vendor), Some(Driver)} ==> path == (if from == "/" then "/browse" else from)
  {
    match RoleOf(role)
    case Some(Admin) => "/admin"
    case Some(Vendor) => "/vendor"
    case Some(Driver) => "/driver"
    case _ => if from == "/" then "/browse" else from
  }

  /** The effect that redirects: only once a user and a profile are loaded and nothing is
      loading. `profileRole` is absent when no profile is loaded. */
  function Redirect(hasUser: bool, profileRole: Option<string>, loading: bool, fromPath: Option<string>): (to: Option<string>)
    ensures to.Some? <==> hasUser && profileRole.Some? && !loading
    ensures to.Some? ==> to.value == RedirectTarget(profileRole.value, FromOf(fromPath))
  {
    if hasUser && profileRole.Some? && !loading then Some(RedirectTarget(profileRole.value, FromOf(fromPath)))
    else None
  }

  /** A user who signed in from the home page lands where the header's dashboard link points,
      whatever their known role. */
  lemma HomeLoginLandsOnHeaderLink(role: string)
    requires RoleOf(role).Some?
    ensures RedirectTarget(role, FromOf(None)) == Header.DashboardLink(Some(role))
  {}

  /** A customer sent to sign in by a protected page returns to it; staff never do. */
  lemma CustomersReturnWhereTheyWere(role: string, fromPath: string)
    requires fromPath != "" && fromPath != "/"
    ensures RoleOf(role) == Some(Customer) ==> RedirectTarget(role, FromOf(Some(fromPath))) == fromPath
    ensures RoleOf(role) in {Some(Admin), Some(Vendor), Some(Driver)} ==>
      RedirectTarget(role, FromOf(Some(fromPath))) == Header.DashboardLink(Some(role))
  {}

  /** As written, a successful sign-in leaves the form's `loading` set, so the redirect effect
      does not fire, whatever user and profile the auth state then holds. */
  lemma SuccessBlocksRedirect(hasUser: bool, profileRole: Option<string>, fromPath: Option<string>)
    ensures Redirect(hasUser, profileRole, true, fromPath).None?
  {}

  /** The reply of `signIn`: an error with its message, success, or an exception with its
      message. */
  datatype SignInReply = SignInError(message: string) | SignedIn | Threw(message: string)

  const UnexpectedError := "An unexpected error occurred"

  /** The form's `loading` and `error` state. */
  class SignInForm {
    var loading: bool
    var error: string

    constructor ()
      ensures !loading && error == ""
    {
      loading := false;
      error := "";
    }

    /** `handleSubmit`: a reported error is shown as it is and stops the spinner; an exception
        shows its message or a fixed text; a success leaves the spinner running, and with it the
        form's own `loading`, which the redirect effect waits on. */
    method HandleSubmit(reply: SignInReply)
      modifies this
      ensures reply.SignedIn? ==> loading && error == ""
      ensures reply.SignInError? ==> !loading && error == reply.message
      ensures reply.Threw? ==> !loading && error == MessageOr(reply.message, UnexpectedError)
    {
      loading := true;
      error := "";
      match reply {
        case SignInError(message) =>
          error := message;
          loading := false;
        case SignedIn =>
        case Threw(message) =>
          error := if message == "" then UnexpectedError else message;
          loading := false;
      }
    }

    /** `handleSubmit` with the spinner released on success too, so that the wait for the
        profile is left to the auth state: once a profile is loaded, the redirect fires. */
    method HandleSubmitReleasing(reply: SignInReply)
      modifies this
      ensures !loading
      ensures reply.SignedIn? ==> error == ""
      ensures reply.SignInError? ==> error == reply.message
      ensures reply.Threw? ==> error == MessageOr(reply.message, UnexpectedError)
      ensures reply.SignedIn? ==> forall role, fromPath ::
        Redirect(true, Some(role), loading, fromPath) == Some(RedirectTarget(role, FromOf(fromPath)))
    {
      error := "";
      match reply {
        case SignInError(message) =>
          error := message;
        case SignedIn =>
        case Threw(message) =>
          error := if message == "" then UnexpectedError else message;
      }
      loading := false;
    }
  }
}
