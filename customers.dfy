/** The customers endpoint: the filtered listing and customer creation. */
module CustomersRoute {
  import opened Common
  import opened Enums
  import opened Validations
  import opened ErrorHandler
  import opened Store
  import opened Access

  function IsValidCustomerStatus(status: string): (ok: bool)
    ensures ok <==> exists st :: CustomerStatusName(st) == status
  {
    ParseCustomerStatus(status).Some?
  }

  function IsValidLeadSource(source: string): (ok: bool)
    ensures ok <==> exists src :: LeadSourceName(src) == source
  {
    ParseLeadSource(source).Some?
  }

  // --------------------------------------------------------------- GET

  /** A case-insensitive substring condition on one column. */
  datatype Contains = Contains(column: string, text: string)

  /** A half-open interval of instants, in milliseconds: gte <= t < lt. */
  datatype Window = Window(gte: int, lt: int)

  datatype CustomerWhere = CustomerWhere(status: Option<CustomerStatus>, leadSource: Option<LeadSource>,
                                         anyOf: seq<Contains>, followUpDate: Option<Window>)

  const SearchColumns: seq<string> := ["name", "phone", "email"]

  /** The listing filter. Status and lead source are applied only when they name a member
      of their enumeration; a search becomes one condition per search column; and only the
      exact text "true" adds the follow-up window, which runs from the start of today
      (local midnight, an input here) to the start of tomorrow. */
  method BuildCustomerWhere(status: Option<string>, leadSource: Option<string>, search: Option<string>,
                            followUpToday: Option<string>, todayStart: int)
    returns (w: CustomerWhere)
    ensures w.status.Some? <==> Given(status) && IsValidCustomerStatus(status.value)
    ensures w.status.Some? ==> CustomerStatusName(w.status.value) == status.value
    ensures w.leadSource.Some? <==> Given(leadSource) && IsValidLeadSource(leadSource.value)
    ensures w.leadSource.Some? ==> LeadSourceName(w.leadSource.value) == leadSource.value
    ensures !Given(search) ==> w.anyOf == []
    ensures Given(search) ==> |w.anyOf| == |SearchColumns|
                              && forall i :: 0 <= i < |SearchColumns| ==> w.anyOf[i] == Contains(SearchColumns[i], search.value)
    ensures w.followUpDate.Some? <==> followUpToday == Some("true")
    ensures w.followUpDate.Some? ==> w.followUpDate.value.gte == todayStart
                                     && w.followUpDate.value.lt - w.followUpDate.value.gte == MsPerDay
  {
    w := CustomerWhere(None, None, [], None);
    if Given(status) && IsValidCustomerStatus(status.value) {
      w := w.(status := ParseCustomerStatus(status.value));
    }
    if Given(leadSource) && IsValidLeadSource(leadSource.value) {
      w := w.(leadSource := ParseLeadSource(leadSource.value));
    }
    if Given(search) {
      var text := search.value;
      w := w.(anyOf := [Contains("name", text), Contains("phone", text), Contains("email", text)]);
    }
    if followUpToday == Some("true") {
      var today := todayStart;
      var tomorrow := today + MsPerDay;
      w := w.(followUpDate := Some(Window(today, tomorrow)));
    }
  }

  // --------------------------------------------------------------- POST

  /** The row created from a validated body: a falsy email and a falsy follow-up date
      are stored as null. */
  function NewCustomer(id: string, input: CustomerInput): (c: Customer)
    ensures c.id == id && c.name == input.name && c.phone == input.phone
    ensures c.leadSource == input.leadSource && c.status == input.status
    ensures c.email.None? <==> !Given(input.email)
    ensures c.email.Some? ==> c.email == input.email
    ensures c.followUpDate.None? <==> !Given(input.followUpDate)
    ensures c.followUpDate.Some? ==> c.followUpDate == input.followUpDate
  {
    Customer(id, input.name, input.phone, GivenValue(input.email), input.address, input.leadSource,
             input.status, input.notes, GivenValue(input.followUpDate))
  }

  datatype CustomerCreateOutcome = Unauthorized | Forbidden | Rejected(response: ApiError) | Created(customer: Customer)

  /** Creates a customer: only viewers are refused, then the body is validated and the row
      inserted. A follow-up date that `isDate` says is no valid date becomes an Invalid
      Date, which Prisma refuses before writing; a taken id is a unique violation. Only a
      successful insert changes the store. */
  method CreateCustomer(db: Store, session: Option<Session>, body: Body, isEmail: string -> bool,
                        isDate: string -> bool, newId: string)
    returns (o: CustomerCreateOutcome)
    requires db.Valid()
    modifies db
    ensures db.Valid()
    ensures o == Unauthorized <==> session.None?
    ensures o == Forbidden <==> session.Some? && !MayWrite(session.value.role)
    ensures session.Some? && MayWrite(session.value.role) && ParseCustomer(body, isEmail).Failure? ==>
              o == Rejected(HandleApiError(ZodError(ParseCustomer(body, isEmail).error, "")))
    ensures session.Some? && MayWrite(session.value.role) && ParseCustomer(body, isEmail).Success? ==>
              var input := ParseCustomer(body, isEmail).value;
              if Given(input.followUpDate) && !isDate(input.followUpDate.value)
              then o == Rejected(HandleApiError(InvalidDate))
              else if newId in old(db.customers)
              then o == Rejected(HandleApiError(PrismaKnownRequest("P2002", Some(["id"]), "")))
              else o == Created(NewCustomer(newId, ParseCustomer(body, isEmail).value))
                   && db.customers == old(db.customers)[newId := o.customer]
    ensures !o.Created? ==> unchanged(db)
    ensures db.cars == old(db.cars) && db.expenses == old(db.expenses)
            && db.sales == old(db.sales) && db.users == old(db.users)
  {
    if session.None? {
      return Unauthorized;
    }
    if session.value.role == Viewer {
      return Forbidden;
    }
    var parsed := ParseCustomer(body, isEmail);
    if parsed.Failure? {
      return Rejected(HandleApiError(ZodError(parsed.error, "")));
    }
    if Given(parsed.value.followUpDate) && !isDate(parsed.value.followUpDate.value) {
      return Rejected(HandleApiError(InvalidDate));
    }
    if newId in db.customers {
      return Rejected(HandleApiError(PrismaKnownRequest("P2002", Some(["id"]), "")));
    }
    var customer := NewCustomer(newId, parsed.value);
    CustomerInsertConsistent(db.cars, db.customers, db.expenses, db.sales, db.users, customer);
    db.customers := db.customers[newId := customer];
    o := Created(customer);
  }
}
