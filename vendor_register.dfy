/** The two-step vendor sign-up form (src/pages/auth/VendorRegisterPage.tsx). Step 1 collects
    the account details and only checks that the two passwords agree; step 2 collects the
    business details and, given POPIA consent, signs the user up, then inserts the vendor's
    profile row and business row, stopping at the first failure. The replies of the sign-up
    call and of the two inserts are parameters; the rows the form sends are recorded in the
    form's state so that their shape can be stated. */
module VendorRegister {
  import opened Wrappers
  import opened Schema

  datatype Step = AccountDetails | BusinessDetails

  /** A form field: text inputs hold their string, the consent checkbox its boolean. */
  datatype FieldValue = Text(text: string) | Checked(checked: bool)

  /** The ten fields of the form. */
  const FieldNames: seq<string> := ["full_name", "email", "password", "confirmPassword", "phone_number",
    "business_name", "business_description", "address_text", "contact_person_name", "popia_consent"]

  /** The initial `formData`. */
  function InitialForm(): (m: map<string, FieldValue>)
    ensures forall k :: k in m <==> k in FieldNames
  {
    map k | k in FieldNames :: if k == "popia_consent" then Checked(false) else Text("")
  }

  /** The string a text field holds. */
  function TextOf(form: map<string, FieldValue>, name: string): string {
    if name in form && form[name].Text? then form[name].text else ""
  }

  /** `formData[name]`, undefined when the form has no such field. */
  function Lookup(form: map<string, FieldValue>, name: string): Option<FieldValue> {
    if name in form then Some(form[name]) else None
  }

  /** `formData.password !== formData.confirmPassword` */
  predicate PasswordsDiffer(form: map<string, FieldValue>) {
    Lookup(form, "password") != Lookup(form, "confirmPassword")
  }

  /** JavaScript truthiness of a field: a checked box, or a non-empty string. */
  predicate Truthy(form: map<string, FieldValue>, name: string) {
    name in form && (if form[name].Checked? then form[name].checked else form[name].text != "")
  }

  /** `handleInputChange`: the named field takes the checkbox's state or the input's text. */
  function Changed(form: map<string, FieldValue>, name: string, isCheckbox: bool, checked: bool, value: string): (r: map<string, FieldValue>)
    ensures name in r && r[name] == (if isCheckbox then Checked(checked) else Text(value))
    ensures forall k :: k != name ==> (k in r <==> k in form) && (k in form ==> r[k] == form[k])
  {
    form[name := if isCheckbox then Checked(checked) else Text(value)]
  }

  /** The reply of `auth.signUp`. */
  datatype SignUpReply = SignUpFailed(message: string) | NoUser | SignedUp(userId: string)

  datatype SignUpRequest = SignUpRequest(email: string, password: string, fullName: string, phoneNumber: string, role: Role)

  datatype ProfileInsert = ProfileInsert(
    id: string, fullName: string, email: string, phoneNumber: string,
    role: Role, isActive: bool, popiaConsentTimestamp: string)

  datatype BusinessInsert = BusinessInsert(
    userId: string, businessName: string, businessDescription: Option<string>,
    addressText: string, contactPersonName: Option<string>, approvalStatus: ApprovalStatus)

  const MismatchError := "Passwords do not match"
  const ConsentError := "Please consent to POPIA data processing"
  const DefaultError := "Registration failed. Please try again."

  /** What submitting step 2 does: the sign-up request and the two insert requests it sends
      (an insert is sent whether or not the store then accepts it), and the error, loading flag
      and navigation it ends with. `now` is the consent timestamp. */
  datatype Submission = Submission(
    signUp: Option<SignUpRequest>,
    profile: Option<ProfileInsert>,
    business: Option<BusinessInsert>,
    error: string,
    loading: bool,
    navigateTo: Option<string>)

  function ProfileRow(form: map<string, FieldValue>, userId: string, now: string): ProfileInsert {
    ProfileInsert(userId, TextOf(form, "full_name"), TextOf(form, "email"), TextOf(form, "phone_number"),
                  Vendor, true, now)
  }

  function BusinessRow(form: map<string, FieldValue>, userId: string): BusinessInsert {
    BusinessInsert(userId, TextOf(form, "business_name"), OrNull(TextOf(form, "business_description")),
                   TextOf(form, "address_text"), OrNull(TextOf(form, "contact_person_name")), ApprovalStatus.Pending)
  }

  function StepTwo(form: map<string, FieldValue>, reply: SignUpReply, profileError: Option<string>,
                   businessError: Option<string>, now: string): (s: Submission)
    ensures s.signUp.Some? <==> Truthy(form, "popia_consent")
    ensures s.profile.Some? <==> s.signUp.Some? && reply.SignedUp?
    ensures s.business.Some? <==> s.profile.Some? && profileError.None?
    ensures s.navigateTo.Some? <==> s.business.Some? && businessError.None?
  {
    if !Truthy(form, "popia_consent") then Submission(None, None, None, ConsentError, false, None)
    else
      var request := SignUpRequest(TextOf(form, "email"), TextOf(form, "password"), TextOf(form, "full_name"),
                                   TextOf(form, "phone_number"), Vendor);
      match reply
      case SignUpFailed(message) => Submission(Some(request), None, None, MessageOr(message, DefaultError), false, None)
      case NoUser => Submission(Some(request), None, None, "", true, None)
      case SignedUp(userId) => AfterSignUp(form, request, userId, profileError, businessError, now)
  }

  /** The rest of step 2 once `auth.signUp` has returned a user: the profile insert, then the
      business insert unless the profile failed. */
  function AfterSignUp(form: map<string, FieldValue>, request: SignUpRequest, userId: string,
                       profileError: Option<string>, businessError: Option<string>, now: string): (s: Submission)
    ensures s.signUp == Some(request) && s.profile == Some(ProfileRow(form, userId, now))
    ensures s.business.Some? <==> profileError.None?
    ensures s.navigateTo.Some? <==> profileError.None? && businessError.None?
  {
    var profile := ProfileRow(form, userId, now);
    if profileError.Some? then Submission(Some(request), Some(profile), None, MessageOr(profileError.value, DefaultError), false, None)
    else
      var business := BusinessRow(form, userId);
      if businessError.Some? then
        Submission(Some(request), Some(profile), Some(business), MessageOr(businessError.value, DefaultError), false, None)
      else Submission(Some(request), Some(profile), Some(business), "", true, Some("/dashboard"))
  }

  /** Without consent the form stops with an error, loading off, before any sign-up. */
  lemma NoConsentNoSignUp(form: map<string, FieldValue>, reply: SignUpReply, profileError: Option<string>,
                          businessError: Option<string>, now: string)
    requires !Truthy(form, "popia_consent")
    ensures var s := StepTwo(form, reply, profileError, businessError, now);
      s.signUp.None? && s.profile.None? && s.error == ConsentError && !s.loading
  {}

  /** The rows sent are a Vendor profile that is active and a Pending business of the same
      user, with an empty description or contact sent as null. */
  lemma InsertedRowsShape(form: map<string, FieldValue>, reply: SignUpReply, profileError: Option<string>,
                          businessError: Option<string>, now: string)
    ensures var s := StepTwo(form, reply, profileError, businessError, now);
      && (s.signUp.Some? ==> s.signUp.value.role == Vendor)
      && (s.profile.Some? ==>
            && s.profile.value.role == Vendor && s.profile.value.isActive
            && s.profile.value.id == reply.userId && s.profile.value.popiaConsentTimestamp == now)
      && (s.business.Some? ==>
            && s.business.value.approvalStatus == ApprovalStatus.Pending
            && s.business.value.userId == s.profile.value.id
            && (s.business.value.businessDescription.None? <==> TextOf(form, "business_description") == "")
            && (s.business.value.contactPersonName.None? <==> TextOf(form, "contact_person_name") == ""))
  {}

  /** Every failure (sign-up, profile insert, business insert) ends with a non-empty error and
      loading off; a success ends with no error and a move to the dashboard. */
  lemma FailuresReported(form: map<string, FieldValue>, reply: SignUpReply, profileError: Option<string>,
                         businessError: Option<string>, now: string)
    requires Truthy(form, "popia_consent")
    ensures var s := StepTwo(form, reply, profileError, businessError, now);
      var failed := reply.SignUpFailed? || (reply.SignedUp? && (profileError.Some? || businessError.Some?));
      && (failed ==> s.error != "" && !s.loading && s.navigateTo.None?)
      && (reply.SignedUp? && profileError.None? && businessError.None? ==> s.error == "" && s.navigateTo == Some("/dashboard"))
  {}

  /** The form's state. */
  class RegistrationForm {
    var step: Step
    var form: map<string, FieldValue>
    var loading: bool
    var error: string
    /** What has been sent: sign-up requests and the rows inserted into `profiles` and
        `businesses`. */
    var signUps: seq<SignUpRequest>
    var profiles: seq<ProfileInsert>
    var businesses: seq<BusinessInsert>
    var navigatedTo: Option<string>

    constructor ()
      ensures step == AccountDetails && form == InitialForm() && !loading && error == ""
      ensures signUps == [] && profiles == [] && businesses == [] && navigatedTo.None?
    {
      step := AccountDetails;
      form := InitialForm();
      loading := false;
      error := "";
      signUps := [];
      profiles := [];
      businesses := [];
      navigatedTo := None;
    }

    /** `handleInputChange` */
    method InputChange(name: string, isCheckbox: bool, checked: bool, value: string)
      modifies this
      ensures form == Changed(old(form), name, isCheckbox, checked, value)
      ensures step == old(step) && loading == old(loading) && error == old(error)
      ensures signUps == old(signUps) && profiles == old(profiles) && businesses == old(businesses)
      ensures navigatedTo == old(navigatedTo)
    {
      form := form[name := if isCheckbox then Checked(checked) else Text(value)];
    }

    /** The "Previous" button on step 2. */
    method Previous()
      modifies this
      ensures step == AccountDetails
      ensures form == old(form) && loading == old(loading) && error == old(error)
      ensures signUps == old(signUps) && profiles == old(profiles) && businesses == old(businesses)
      ensures navigatedTo == old(navigatedTo)
    {
      step := AccountDetails;
    }

    /** `handleSubmit`. On step 1 nothing is sent: a password mismatch sets the error and keeps
        the step, otherwise the error is cleared and step 2 follows. On step 2 the requests
        `StepTwo` describes are sent, one after the other, and its error, loading flag and
        navigation are stored. */
    method Submit(reply: SignUpReply, profileError: Option<string>, businessError: Option<string>, now: string)
      modifies this
      ensures form == old(form)
      ensures old(step) == AccountDetails ==>
        && signUps == old(signUps) && profiles == old(profiles) && businesses == old(businesses)
        && loading == old(loading) && navigatedTo == old(navigatedTo)
        && (if PasswordsDiffer(form) then step == AccountDetails && error == MismatchError
            else step == BusinessDetails && error == "")
      ensures old(step) == BusinessDetails ==>
        var s := StepTwo(form, reply, profileError, businessError, now);
        && step == BusinessDetails && error == s.error && loading == s.loading
        && signUps == old(signUps) + (if s.signUp.Some? then [s.signUp.value] else [])
        && profiles == old(profiles) + (if s.profile.Some? then [s.profile.value] else [])
        && businesses == old(businesses) + (if s.business.Some? then [s.business.value] else [])
        && navigatedTo == (if s.navigateTo.Some? then s.navigateTo else old(navigatedTo))
    {
      if step == AccountDetails {
        SubmitAccountDetails();
      } else {
        SubmitBusinessDetails(reply, profileError, businessError, now);
      }
    }

    /** The step 1 branch of `handleSubmit`. */
    method SubmitAccountDetails()
      modifies this
      ensures form == old(form)
      ensures signUps == old(signUps) && profiles == old(profiles) && businesses == old(businesses)
      ensures loading == old(loading) && navigatedTo == old(navigatedTo)
      ensures if PasswordsDiffer(form) then step == old(step) && error == MismatchError
              else step == BusinessDetails && error == ""
    {
      if Lookup(form, "password") != Lookup(form, "confirmPassword") {
        error := MismatchError;
        return;
      }
      error := "";
      step := BusinessDetails;
    }

    /** The step 2 branch of `handleSubmit`. */
    method SubmitBusinessDetails(reply: SignUpReply, profileError: Option<string>, businessError: Option<string>,
                                 now: string)
      modifies this
      ensures form == old(form) && step == old(step)
      ensures var s := StepTwo(form, reply, profileError, businessError, now);
        && error == s.error && loading == s.loading
        && signUps == old(signUps) + (if s.signUp.Some? then [s.signUp.value] else [])
        && profiles == old(profiles) + (if s.profile.Some? then [s.profile.value] else [])
        && businesses == old(businesses) + (if s.business.Some? then [s.business.value] else [])
        && navigatedTo == (if s.navigateTo.Some? then s.navigateTo else old(navigatedTo))
    {
      ghost var outcome := StepTwo(form, reply, profileError, businessError, now);
      loading := true;
      error := "";
      if !Truthy(form, "popia_consent") {
        error := ConsentError;
        loading := false;
        assert outcome == Submission(None, None, None, ConsentError, false, None);
        return;
      }
      var request := SignUpRequest(TextOf(form, "email"), TextOf(form, "password"),
                                   TextOf(form, "full_name"), TextOf(form, "phone_number"), Vendor);
      signUps := signUps + [request];
      match reply {
        case SignUpFailed(message) =>
          error := MessageOr(message, DefaultError);
          loading := false;
          assert outcome == Submission(Some(request), None, None, error, false, None);
        case NoUser =>
          assert outcome == Submission(Some(request), None, None, "", true, None);
        case SignedUp(userId) =>
          assert outcome == AfterSignUp(form, request, userId, profileError, businessError, now);
          InsertRows(request, userId, profileError, businessError, now);
      }
    }

    /** The inserts that follow a successful sign-up, each sent before its reply is known; the
        submission is still loading with no error. */
    method InsertRows(ghost request: SignUpRequest, userId: string, profileError: Option<string>,
                      businessError: Option<string>, now: string)
      requires loading && error == ""
      modifies this
      ensures form == old(form) && step == old(step) && signUps == old(signUps)
      ensures var s := AfterSignUp(form, request, userId, profileError, businessError, now);
        && error == s.error && loading == s.loading
        && profiles == old(profiles) + [s.profile.value]
        && businesses == old(businesses) + (if s.business.Some? then [s.business.value] else [])
        && navigatedTo == (if s.navigateTo.Some? then s.navigateTo else old(navigatedTo))
    {
      var profile := ProfileRow(form, userId, now);
      profiles := profiles + [profile];
      if profileError.Some? {
        error := MessageOr(profileError.value, DefaultError);
        loading := false;
        return;
      }
      var business := BusinessRow(form, userId);
      businesses := businesses + [business];
      if businessError.Some? {
        error := MessageOr(businessError.value, DefaultError);
        loading := false;
        return;
      }
      navigatedTo := Some("/dashboard");
    }
  }
}
