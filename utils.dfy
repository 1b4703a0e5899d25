/** The shared helpers of the front end and the handlers: the profit formula, the
    status-to-colour lookups with their grey fallback, and the label tables. */
module Utils {
  import opened Common
  import opened Enums

  /** Profit of a sale: what is left of the sale price once the purchase price and the
      car's expenses are paid. */
  function CalculateProfit(salePrice: real, purchasePrice: real, totalExpenses: real): (profit: real)
    ensures profit + purchasePrice + totalExpenses == salePrice
    ensures totalExpenses >= 0.0 ==> profit <= salePrice - purchasePrice
  {
    salePrice - purchasePrice - totalExpenses
  }

  const DefaultColor: string := "bg-gray-100 text-gray-800"

  const CarStatusColors: map<string, string> := map[
    "AVAILABLE" := "bg-green-100 text-green-800",
    "RESERVED" := "bg-yellow-100 text-yellow-800",
    "SOLD" := "bg-blue-100 text-blue-800",
    "IN_REPAIR" := "bg-orange-100 text-orange-800",
    "TEST_DRIVE" := "bg-purple-100 text-purple-800"]

  const CustomerStatusColors: map<string, string> := map[
    "NEW_LEAD" := "bg-blue-100 text-blue-800",
    "CONTACTED" := "bg-yellow-100 text-yellow-800",
    "TEST_DRIVE_DONE" := "bg-purple-100 text-purple-800",
    "NEGOTIATING" := "bg-orange-100 text-orange-800",
    "SOLD" := "bg-green-100 text-green-800",
    "LOST" := "bg-red-100 text-red-800"]

  const PaymentStatusColors: map<string, string> := map[
    "PENDING" := "bg-yellow-100 text-yellow-800",
    "DEPOSIT_PAID" := "bg-blue-100 text-blue-800",
    "PAID_IN_FULL" := "bg-green-100 text-green-800"]

  const PriorityColors: map<string, string> := map[
    "LOW" := "bg-gray-100 text-gray-800",
    "MEDIUM" := "bg-blue-100 text-blue-800",
    "HIGH" := "bg-orange-100 text-orange-800",
    "URGENT" := "bg-red-100 text-red-800"]

  /** `colors[key] || default`: the mapped class when the key is present with a
      non-empty class, the grey default otherwise. */
  function ColorOr(colors: map<string, string>, key: string): (r: string)
    ensures key in colors && colors[key] != "" ==> r == colors[key]
    ensures key !in colors ==> r == DefaultColor
    ensures r != "" || (key in colors && colors[key] == "" && DefaultColor == "")
  {
    if key in colors && colors[key] != "" then colors[key] else DefaultColor
  }

  function GetCarStatusColor(status: string): (r: string)
    ensures ParseCarStatus(status).Some? ==> r == CarStatusColors[status] && r != DefaultColor
    ensures ParseCarStatus(status).None? ==> r == DefaultColor
  {
    ColorOr(CarStatusColors, status)
  }

  function GetCustomerStatusColor(status: string): (r: string)
    ensures ParseCustomerStatus(status).Some? ==> r == CustomerStatusColors[status] && r != DefaultColor
    ensures ParseCustomerStatus(status).None? ==> r == DefaultColor
  {
    ColorOr(CustomerStatusColors, status)
  }

  function GetPaymentStatusColor(status: string): (r: string)
    ensures ParsePaymentStatus(status).Some? ==> r == PaymentStatusColors[status] && r != DefaultColor
    ensures ParsePaymentStatus(status).None? ==> r == DefaultColor
  {
    ColorOr(PaymentStatusColors, status)
  }

  /** Priorities have no enumeration among the validated models; the table's keys are
      LOW, MEDIUM, HIGH and URGENT. */
  function GetPriorityColor(priority: string): (r: string)
    ensures priority in PriorityColors ==> r == PriorityColors[priority]
    ensures priority !in {"LOW", "MEDIUM", "HIGH", "URGENT"} ==> r == DefaultColor
    ensures priority in {"MEDIUM", "HIGH", "URGENT"} <==> r != DefaultColor
  {
    ColorOr(PriorityColors, priority)
  }

  /** Distinct car statuses get distinct colours, so the badge tells them apart. */
  lemma CarStatusColorsDistinct(a: CarStatus, b: CarStatus)
    requires a != b
    ensures GetCarStatusColor(CarStatusName(a)) != GetCarStatusColor(CarStatusName(b))
  {
  }

  lemma CustomerStatusColorsDistinct(a: CustomerStatus, b: CustomerStatus)
    requires a != b
    ensures GetCustomerStatusColor(CustomerStatusName(a)) != GetCustomerStatusColor(CustomerStatusName(b))
  {
  }

  lemma PaymentStatusColorsDistinct(a: PaymentStatus, b: PaymentStatus)
    requires a != b
    ensures GetPaymentStatusColor(PaymentStatusName(a)) != GetPaymentStatusColor(PaymentStatusName(b))
  {
  }

  const CarStatusLabels: map<string, string> := map[
    "AVAILABLE" := "Available",
    "RESERVED" := "Reserved",
    "SOLD" := "Sold",
    "IN_REPAIR" := "In Repair",
    "TEST_DRIVE" := "Test Drive"]

  const CustomerStatusLabels: map<string, string> := map[
    "NEW_LEAD" := "New Lead",
    "CONTACTED" := "Contacted",
    "TEST_DRIVE_DONE" := "Test Drive Done",
    "NEGOTIATING" := "Negotiating",
    "SOLD" := "Sold",
    "LOST" := "Lost"]

  const LeadSourceLabels: map<string, string> := map[
    "WALK_IN" := "Walk-in",
    "PHONE" := "Phone",
    "OLX" := "OLX",
    "STANDVIRTUAL" := "Standvirtual",
    "FACEBOOK" := "Facebook",
    "REFERRAL" := "Referral",
    "OTHER" := "Other"]

  const PaymentMethodLabels: map<string, string> := map[
    "CASH" := "Cash",
    "BANK_TRANSFER" := "Bank Transfer",
    "FINANCING" := "Financing",
    "PAYMENT_PLAN" := "Payment Plan"]

  const PaymentStatusLabels: map<string, string> := map[
    "PENDING" := "Pending",
    "DEPOSIT_PAID" := "Deposit Paid",
    "PAID_IN_FULL" := "Paid in Full"]

  const ExpenseTypeLabels: map<string, string> := map[
    "REPAIR" := "Repair",
    "DETAILING" := "Detailing",
    "REGISTRATION" := "Registration",
    "INSPECTION" := "Inspection",
    "TRANSPORT" := "Transport",
    "OTHER" := "Other"]

  const PriorityLabels: map<string, string> := map[
    "LOW" := "Low",
    "MEDIUM" := "Medium",
    "HIGH" := "High",
    "URGENT" := "Urgent"]

  /** Every value a validator accepts has a label, and every label belongs to such a value. */
  lemma CarStatusLabelsMatchEnum()
    ensures forall st: CarStatus :: CarStatusName(st) in CarStatusLabels
    ensures forall k :: k in CarStatusLabels ==> ParseCarStatus(k).Some?
  {
  }

  lemma CustomerStatusLabelsMatchEnum()
    ensures forall st: CustomerStatus :: CustomerStatusName(st) in CustomerStatusLabels
    ensures forall k :: k in CustomerStatusLabels ==> ParseCustomerStatus(k).Some?
  {
  }

  lemma LeadSourceLabelsMatchEnum()
    ensures forall src: LeadSource :: LeadSourceName(src) in LeadSourceLabels
    ensures forall k :: k in LeadSourceLabels ==> ParseLeadSource(k).Some?
  {
  }

  lemma PaymentLabelsMatchEnums()
    ensures forall m: PaymentMethod :: PaymentMethodName(m) in PaymentMethodLabels
    ensures forall k :: k in PaymentMethodLabels ==> ParsePaymentMethod(k).Some?
    ensures forall st: PaymentStatus :: PaymentStatusName(st) in PaymentStatusLabels
    ensures forall k :: k in PaymentStatusLabels ==> ParsePaymentStatus(k).Some?
  {
  }

  lemma ExpenseTypeLabelsMatchEnum()
    ensures forall t: ExpenseType :: ExpenseTypeName(t) in ExpenseTypeLabels
    ensures forall k :: k in ExpenseTypeLabels ==> ParseExpenseType(k).Some?
  {
  }

  /** The priority badge and the priority label know the same four priorities. */
  lemma PriorityTablesAgree()
    ensures PriorityLabels.Keys == PriorityColors.Keys
  {
  }
}
