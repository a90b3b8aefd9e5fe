/** The database rows the application reads and writes, with their closed enumerations, and
    the start-up check on the two connection parameters (src/lib/supabase.ts).
    A nullable column is an `Option`; joined rows that a query expands (a product's business
    and category, an order's business name and items, an item's product name) are `Option`
    or `seq` fields beside the columns. A `created_at` timestamp is kept only as its UTC
    calendar day, the one thing the modelled code derives from it. */
module Schema {
  import opened Wrappers

  datatype Role = Customer | Vendor | Driver | Admin

  datatype ApprovalStatus = Pending | Approved | Rejected

  datatype OrderStatus =
    | Pending | Confirmed | Preparing | Ready_for_Pickup | Out_for_Delivery | Delivered | Cancelled

  datatype PaymentMethod = COD | Card | EFT | Digital_Wallet

  datatype TransactionType = SaleRevenue | VendorPayout | PlatformFee | DeliveryFee | Refund

  datatype PayoutStatus = Owed | Processing | Paid | Failed

  datatype Profile = Profile(
    id: string,
    fullName: string,
    phoneNumber: Option<string>,
    role: Role,
    isActive: bool,
    popiaConsentTimestamp: Option<string>)

  datatype Business = Business(
    id: string,
    userId: string,
    businessName: string,
    businessDescription: Option<string>,
    addressText: string,
    contactPersonName: Option<string>,
    approvalStatus: ApprovalStatus,
    bankAccountDetails: Option<string>)

  datatype Category = Category(id: string, name: string, description: Option<string>)

  datatype Product = Product(
    id: string,
    businessId: string,
    name: string,
    description: Option<string>,
    price: real,
    categoryId: Option<string>,
    imageUrl: Option<string>,
    isAvailable: bool,
    business: Option<Business>,
    category: Option<Category>)

  datatype OrderItem = OrderItem(
    id: string,
    orderId: string,
    productId: string,
    quantity: int,
    priceAtPurchase: real,
    productName: Option<string>)

  datatype Order = Order(
    id: string,
    customerId: string,
    businessId: string,
    driverId: Option<string>,
    orderStatus: OrderStatus,
    deliveryAddressText: string,
    orderTotalAmount: real,
    paymentMethod: PaymentMethod,
    deliveryConfirmationCode: string,
    specialInstructions: Option<string>,
    createdDay: int,
    businessName: Option<string>,
    orderItems: seq<OrderItem>)

  datatype LedgerEntry = LedgerEntry(
    id: string,
    orderId: Option<string>,
    businessId: Option<string>,
    transactionType: TransactionType,
    amount: real,
    payoutStatus: PayoutStatus)

  /** The string each enumeration value is stored as. */
  function RoleName(r: Role): string {
    match r
    case Customer => "Customer"
    case Vendor => "Vendor"
    case Driver => "Driver"
    case Admin => "Admin"
  }

  function RoleOf(name: string): (r: Option<Role>)
    ensures r.Some? ==> RoleName(r.value) == name
  {
    if name == "Customer" then Some(Customer)
    else if name == "Vendor" then Some(Vendor)
    else if name == "Driver" then Some(Driver)
    else if name == "Admin" then Some(Admin)
    else None
  }

  /** A stored role string denotes exactly one role, and every role is read back as itself. */
  lemma RoleNamesRoundTrip(r: Role)
    ensures RoleOf(RoleName(r)) == Some(r)
  {}

  function ApprovalName(a: ApprovalStatus): string {
    match a
    case Pending => "Pending"
    case Approved => "Approved"
    case Rejected => "Rejected"
  }

  function ApprovalOf(name: string): (a: Option<ApprovalStatus>)
    ensures a.Some? ==> ApprovalName(a.value) == name
  {
    if name == "Pending" then Some(ApprovalStatus.Pending)
    else if name == "Approved" then Some(Approved)
    else if name == "Rejected" then Some(Rejected)
    else None
  }

  lemma ApprovalNamesRoundTrip(a: ApprovalStatus)
    ensures ApprovalOf(ApprovalName(a)) == Some(a)
  {}

  function StatusName(s: OrderStatus): string {
    match s
    case Pending => "Pending"
    case Confirmed => "Confirmed"
    case Preparing => "Preparing"
    case Ready_for_Pickup => "Ready_for_Pickup"
    case Out_for_Delivery => "Out_for_Delivery"
    case Delivered => "Delivered"
    case Cancelled => "Cancelled"
  }

  function StatusOf(name: string): (s: Option<OrderStatus>)
    ensures s.Some? ==> StatusName(s.value) == name
  {
    if name == "Pending" then Some(OrderStatus.Pending)
    else if name == "Confirmed" then Some(Confirmed)
    else if name == "Preparing" then Some(Preparing)
    else if name == "Ready_for_Pickup" then Some(Ready_for_Pickup)
    else if name == "Out_for_Delivery" then Some(Out_for_Delivery)
    else if name == "Delivered" then Some(Delivered)
    else if name == "Cancelled" then Some(Cancelled)
    else None
  }

  lemma StatusNamesRoundTrip(s: OrderStatus)
    ensures StatusOf(StatusName(s)) == Some(s)
  {}

  function PaymentMethodName(m: PaymentMethod): string {
    match m
    case COD => "COD"
    case Card => "Card"
    case EFT => "EFT"
    case Digital_Wallet => "Digital_Wallet"
  }

  function PaymentMethodOf(name: string): (m: Option<PaymentMethod>)
    ensures m.Some? ==> PaymentMethodName(m.value) == name
  {
    if name == "COD" then Some(COD)
    else if name == "Card" then Some(Card)
    else if name == "EFT" then Some(EFT)
    else if name == "Digital_Wallet" then Some(Digital_Wallet)
    else None
  }

  lemma PaymentMethodNamesRoundTrip(m: PaymentMethod)
    ensures PaymentMethodOf(PaymentMethodName(m)) == Some(m)
  {}

  function TransactionTypeName(t: TransactionType): string {
    match t
    case SaleRevenue => "SaleRevenue"
    case VendorPayout => "VendorPayout"
    case PlatformFee => "PlatformFee"
    case DeliveryFee => "DeliveryFee"
    case Refund => "Refund"
  }

  function TransactionTypeOf(name: string): (t: Option<TransactionType>)
    ensures t.Some? ==> TransactionTypeName(t.value) == name
  {
    if name == "SaleRevenue" then Some(SaleRevenue)
    else if name == "VendorPayout" then Some(VendorPayout)
    else if name == "PlatformFee" then Some(PlatformFee)
    else if name == "DeliveryFee" then Some(DeliveryFee)
    else if name == "Refund" then Some(Refund)
    else None
  }

  lemma TransactionTypeNamesRoundTrip(t: TransactionType)
    ensures TransactionTypeOf(TransactionTypeName(t)) == Some(t)
  {}

  function PayoutStatusName(p: PayoutStatus): string {
    match p
    case Owed => "Owed"
    case Processing => "Processing"
    case Paid => "Paid"
    case Failed => "Failed"
  }

  function PayoutStatusOf(name: string): (p: Option<PayoutStatus>)
    ensures p.Some? ==> PayoutStatusName(p.value) == name
  {
    if name == "Owed" then Some(Owed)
    else if name == "Processing" then Some(Processing)
    else if name == "Paid" then Some(Paid)
    else if name == "Failed" then Some(Failed)
    else None
  }

  lemma PayoutStatusNamesRoundTrip(p: PayoutStatus)
    ensures PayoutStatusOf(PayoutStatusName(p)) == Some(p)
  {}

  /** The two connection parameters the client is created from. */
  datatype ClientConfig = ClientConfig(url: string, anonKey: string)

  /** Module start-up: a missing or empty URL or anon key is a fatal error; otherwise the
      client is configured with exactly the two given values. */
  function CreateClient(url: Option<string>, anonKey: Option<string>): (r: Result<ClientConfig, string>)
    ensures r.Success? <==> url.Some? && url.value != "" && anonKey.Some? && anonKey.value != ""
    ensures r.Success? ==> r.value == ClientConfig(url.value, anonKey.value)
    ensures r.Failure? ==> r.error == "Missing Supabase environment variables"
  {
    if url.None? || url.value == "" || anonKey.None? || anonKey.value == "" then
      Failure("Missing Supabase environment variables")
    else
      Success(ClientConfig(url.value, anonKey.value))
  }
}
