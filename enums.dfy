/** The enumerations the validators accept, with their wire names and the
    membership tests the list handlers apply to query parameters. */
module Enums {
  import opened Common

  datatype Role = Owner | Salesperson | Mechanic | Viewer

  function RoleName(r: Role): string
  {
    match r
    case Owner => "OWNER"
    case Salesperson => "SALESPERSON"
    case Mechanic => "MECHANIC"
    case Viewer => "VIEWER"
  }

  function ParseRole(s: string): (r: Option<Role>)
    ensures r.Some? ==> RoleName(r.value) == s
    ensures r.None? ==> forall x: Role :: RoleName(x) != s
  {
    if s == "OWNER" then Some(Owner)
    else if s == "SALESPERSON" then Some(Salesperson)
    else if s == "MECHANIC" then Some(Mechanic)
    else if s == "VIEWER" then Some(Viewer)
    else None
  }

  datatype CarStatus = Available | Reserved | Sold | InRepair | TestDrive

  function CarStatusName(st: CarStatus): string
  {
    match st
    case Available => "AVAILABLE"
    case Reserved => "RESERVED"
    case Sold => "SOLD"
    case InRepair => "IN_REPAIR"
    case TestDrive => "TEST_DRIVE"
  }

  function ParseCarStatus(s: string): (r: Option<CarStatus>)
    ensures r.Some? ==> CarStatusName(r.value) == s
    ensures r.None? ==> forall x: CarStatus :: CarStatusName(x) != s
  {
    if s == "AVAILABLE" then Some(Available)
    else if s == "RESERVED" then Some(Reserved)
    else if s == "SOLD" then Some(Sold)
    else if s == "IN_REPAIR" then Some(InRepair)
    else if s == "TEST_DRIVE" then Some(TestDrive)
    else None
  }

  datatype CustomerStatus = NewLead | Contacted | TestDriveDone | Negotiating | CustomerSold | Lost

  function CustomerStatusName(st: CustomerStatus): string
  {
    match st
    case NewLead => "NEW_LEAD"
    case Contacted => "CONTACTED"
    case TestDriveDone => "TEST_DRIVE_DONE"
    case Negotiating => "NEGOTIATING"
    case CustomerSold => "SOLD"
    case Lost => "LOST"
  }

  function ParseCustomerStatus(s: string): (r: Option<CustomerStatus>)
    ensures r.Some? ==> CustomerStatusName(r.value) == s
    ensures r.None? ==> forall x: CustomerStatus :: CustomerStatusName(x) != s
  {
    if s == "NEW_LEAD" then Some(NewLead)
    else if s == "CONTACTED" then Some(Contacted)
    else if s == "TEST_DRIVE_DONE" then Some(TestDriveDone)
    else if s == "NEGOTIATING" then Some(Negotiating)
    else if s == "SOLD" then Some(CustomerSold)
    else if s == "LOST" then Some(Lost)
    else None
  }

  datatype LeadSource = WalkIn | Phone | Olx | Standvirtual | Facebook | Referral | OtherSource

  function LeadSourceName(src: LeadSource): string
  {
    match src
    case WalkIn => "WALK_IN"
    case Phone => "PHONE"
    case Olx => "OLX"
    case Standvirtual => "STANDVIRTUAL"
    case Facebook => "FACEBOOK"
    case Referral => "REFERRAL"
    case OtherSource => "OTHER"
  }

  function ParseLeadSource(s: string): (r: Option<LeadSource>)
    ensures r.Some? ==> LeadSourceName(r.value) == s
    ensures r.None? ==> forall x: LeadSource :: LeadSourceName(x) != s
  {
    if s == "WALK_IN" then Some(WalkIn)
    else if s == "PHONE" then Some(Phone)
    else if s == "OLX" then Some(Olx)
    else if s == "STANDVIRTUAL" then Some(Standvirtual)
    else if s == "FACEBOOK" then Some(Facebook)
    else if s == "REFERRAL" then Some(Referral)
    else if s == "OTHER" then Some(OtherSource)
    else None
  }

  datatype PaymentMethod = Cash | BankTransfer | Financing | PaymentPlan

  function PaymentMethodName(m: PaymentMethod): string
  {
    match m
    case Cash => "CASH"
    case BankTransfer => "BANK_TRANSFER"
    case Financing => "FINANCING"
    case PaymentPlan => "PAYMENT_PLAN"
  }

  function ParsePaymentMethod(s: string): (r: Option<PaymentMethod>)
    ensures r.Some? ==> PaymentMethodName(r.value) == s
    ensures r.None? ==> forall x: PaymentMethod :: PaymentMethodName(x) != s
  {
    if s == "CASH" then Some(Cash)
    else if s == "BANK_TRANSFER" then Some(BankTransfer)
    else if s == "FINANCING" then Some(Financing)
    else if s == "PAYMENT_PLAN" then Some(PaymentPlan)
    else None
  }

  datatype PaymentStatus = Pending | DepositPaid | PaidInFull

  function PaymentStatusName(st: PaymentStatus): string
  {
    match st
    case Pending => "PENDING"
    case DepositPaid => "DEPOSIT_PAID"
    case PaidInFull => "PAID_IN_FULL"
  }

  function ParsePaymentStatus(s: string): (r: Option<PaymentStatus>)
    ensures r.Some? ==> PaymentStatusName(r.value) == s
    ensures r.None? ==> forall x: PaymentStatus :: PaymentStatusName(x) != s
  {
    if s == "PENDING" then Some(Pending)
    else if s == "DEPOSIT_PAID" then Some(DepositPaid)
    else if s == "PAID_IN_FULL" then Some(PaidInFull)
    else None
  }

  datatype ExpenseType = Repair | Detailing | Registration | Inspection | Transport | OtherExpense

  function ExpenseTypeName(t: ExpenseType): string
  {
    match t
    case Repair => "REPAIR"
    case Detailing => "DETAILING"
    case Registration => "REGISTRATION"
    case Inspection => "INSPECTION"
    case Transport => "TRANSPORT"
    case OtherExpense => "OTHER"
  }

  function ParseExpenseType(s: string): (r: Option<ExpenseType>)
    ensures r.Some? ==> ExpenseTypeName(r.value) == s
    ensures r.None? ==> forall x: ExpenseType :: ExpenseTypeName(x) != s
  {
    if s == "REPAIR" then Some(Repair)
    else if s == "DETAILING" then Some(Detailing)
    else if s == "REGISTRATION" then Some(Registration)
    else if s == "INSPECTION" then Some(Inspection)
    else if s == "TRANSPORT" then Some(Transport)
    else if s == "OTHER" then Some(OtherExpense)
    else None
  }
}
