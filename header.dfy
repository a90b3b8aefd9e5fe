/** The site header's dashboard link (src/components/Layout/Header.tsx): where the link goes and
    what it says, from the signed-in profile's stored role. */
module Header {
  import opened Wrappers
  import opened Schema

  /** `getDashboardLink`; `role` is absent when no profile is loaded. */
  function DashboardLink(role: Option<string>): (link: string)
    ensures role.None? || RoleOf(role.value).None? ==> link == "/dashboard"
    ensures role.Some? && RoleOf(role.value).Some? ==> link == (match RoleOf(role.value).value
      case Customer => "/browse"
      case Vendor => "/vendor"
      case Driver => "/driver"
      case Admin => "/admin")
  {
    if role.None? then "/dashboard"
    else match RoleOf(role.value)
      case Some(Customer) => "/browse"
      case Some(Vendor) => "/vendor"
      case Some(Driver) => "/driver"
      case Some(Admin) => "/admin"
      case None => "/dashboard"
  }

  /** `getDashboardLabel` */
  function DashboardLabel(role: Option<string>): (caption: string)
    ensures role.None? || RoleOf(role.value).None? ==> caption == "Dashboard"
    ensures role.Some? && RoleOf(role.value).Some? ==> caption == (match RoleOf(role.value).value
      case Customer => "Browse"
      case Vendor => "Vendor Dashboard"
      case Driver => "Driver Dashboard"
      case Admin => "Admin Dashboard")
  {
    if role.None? then "Dashboard"
    else match RoleOf(role.value)
      case Some(Customer) => "Browse"
      case Some(Vendor) => "Vendor Dashboard"
      case Some(Driver) => "Driver Dashboard"
      case Some(Admin) => "Admin Dashboard"
      case None => "Dashboard"
  }

  /** The link and its label agree: the generic label goes with the generic link, and the four
      roles get four different links. */
  lemma LinkMatchesLabel(role: Option<string>, other: Option<string>)
    ensures DashboardLabel(role) == "Dashboard" <==> DashboardLink(role) == "/dashboard"
    ensures DashboardLink(role) == DashboardLink(other) && DashboardLink(role) != "/dashboard"
        ==> RoleOf(role.value) == RoleOf(other.value)
  {}
}
