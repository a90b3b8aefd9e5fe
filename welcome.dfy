/** The landing card shown after sign-in (src/pages/WelcomePage.tsx): a role-specific
    greeting and the link to the role's area. */
module Welcome {
  import opened Wrappers
  import opened Schema
  import Header

  const GenericMessage := "Welcome to TukTuk!"

  /** `getDashboardLink`; `role` is absent when no profile is loaded. */
  function DashboardLink(role: Option<string>): (link: string)
    ensures role.None? || RoleOf(role.value).None? ==> link == "/"
    ensures role.Some? && RoleOf(role.value).Some? ==> link == (match RoleOf(role.value).value
      case Customer => "/customer"
      case Vendor => "/vendor"
      case Driver => "/driver"
      case Admin => "/admin")
  {
    if role.None? then "/"
    else match RoleOf(role.value)
      case Some(Customer) => "/customer"
      case Some(Vendor) => "/vendor"
      case Some(Driver) => "/driver"
      case Some(Admin) => "/admin"
      case None => "/"
  }

  /** `getRoleMessage` */
  function RoleMessage(role: Option<string>): (m: string)
    ensures role.None? || RoleOf(role.value).None? ==> m == GenericMessage
  {
    if role.None? then GenericMessage
    else match RoleOf(role.value)
      case Some(Customer) => "Start browsing local vendors and place your first order!"
      case Some(Vendor) => "Set up your business profile and start selling to the Cape Town community!"
      case Some(Driver) => "Complete your driver profile and start earning with deliveries!"
      case Some(Admin) => "Access your admin dashboard to manage the platform!"
      case None => GenericMessage
  }

  /** The generic greeting goes with the link back to the home page, and only with it. */
  lemma GenericMessageLinksHome(role: Option<string>)
    ensures RoleMessage(role) == GenericMessage <==> DashboardLink(role) == "/"
  {}

  /** This card and the header agree on every role's area except the customer's: the card
      links customers to /customer, the header to /browse. */
  lemma AgreesWithHeaderExceptCustomers(role: string)
    requires RoleOf(role).Some?
    ensures DashboardLink(Some(role)) == Header.DashboardLink(Some(role)) <==> RoleOf(role) != Some(Customer)
  {}
}
