/** The expenses endpoint: the filtered listing and expense recording. */
module ExpensesRoute {
  import opened Common
  import opened Enums
  import opened Validations
  import opened ErrorHandler
  import opened Store
  import opened Access

  function IsValidExpenseType(t: string): (ok: bool)
    ensures ok <==> exists et :: ExpenseTypeName(et) == t
  {
    ParseExpenseType(t).Some?
  }

  // --------------------------------------------------------------- GET

  datatype ExpenseWhere = ExpenseWhere(carId: Option<string>, expenseType: Option<ExpenseType>, date: Option<DateRange>)

  /** The listing filter: the car when given, the type only when it names an expense
      type, and inclusive date bounds set independently. */
  method BuildExpenseWhere(carId: Option<string>, typeParam: Option<string>,
                           startDate: Option<string>, endDate: Option<string>)
    returns (w: ExpenseWhere)
    ensures w.carId == GivenValue(carId)
    ensures w.expenseType.Some? <==> Given(typeParam) && IsValidExpenseType(typeParam.value)
    ensures w.expenseType.Some? ==> ExpenseTypeName(w.expenseType.value) == typeParam.value
    ensures w.date.Some? <==> Given(startDate) || Given(endDate)
    ensures w.date.Some? ==> w.date.value == DateRange(GivenValue(startDate), GivenValue(endDate))
  {
    w := ExpenseWhere(None, None, None);
    if Given(carId) {
      w := w.(carId := carId);
    }
    if Given(typeParam) && IsValidExpenseType(typeParam.value) {
      w := w.(expenseType := ParseExpenseType(typeParam.value));
    }
    var range := BuildDateRange(startDate, endDate);
    w := w.(date := range);
  }

  // --------------------------------------------------------------- POST

  /** The author recorded on an expense: the caller when the caller's user row exists,
      otherwise nobody (so the insert cannot fail on that reference). */
  function ResolvedUserId(users: map<string, User>, caller: Session): (u: Option<string>)
    ensures u.Some? <==> caller.userId in users
    ensures u.Some? ==> u.value == caller.userId
  {
    if caller.userId in users then Some(caller.userId) else None
  }

  function NewExpense(id: string, input: ExpenseInput, userId: Option<string>): (e: Expense)
    ensures e.id == id && e.carId == input.carId && e.amount == input.amount && e.userId == userId
    ensures e.expenseType == input.expenseType && e.description == input.description
    ensures e.date == input.date && e.vendor == input.vendor
  {
    Expense(id, input.carId, input.expenseType, input.amount, input.date, input.description, input.vendor, userId)
  }

  datatype ExpenseCreateOutcome = Unauthorized | Forbidden | Rejected(response: ApiError) | Created(expense: Expense)

  /** Records an expense: only viewers are refused; the body is validated; the author is
      resolved; then the insert fails on a date that `isDate` says is no valid date (an
      Invalid Date, refused before writing), a taken id (unique violation) or an unknown
      car (foreign-key violation). Only a successful insert changes the store. */
  method CreateExpense(db: Store, session: Option<Session>, body: Body, isDate: string -> bool, newId: string)
    returns (o: ExpenseCreateOutcome)
    requires db.Valid()
    modifies db
    ensures db.Valid()
    ensures o == Unauthorized <==> session.None?
    ensures o == Forbidden <==> session.Some? && !MayWrite(session.value.role)
    ensures session.Some? && MayWrite(session.value.role) && ParseExpense(body).Failure? ==>
              o == Rejected(HandleApiError(ZodError(ParseExpense(body).error, "")))
    ensures session.Some? && MayWrite(session.value.role) && ParseExpense(body).Success? ==>
              var input := ParseExpense(body).value;
              if !isDate(input.date)
              then o == Rejected(HandleApiError(InvalidDate))
              else if ExpenseIdTaken(old(db.expenses), newId)
              then o == Rejected(HandleApiError(PrismaKnownRequest("P2002", Some(["id"]), "")))
              else if input.carId !in old(db.cars)
              then o == Rejected(HandleApiError(PrismaKnownRequest("P2003", None, "")))
              else o == Created(NewExpense(newId, input, ResolvedUserId(old(db.users), session.value)))
                   && db.expenses == old(db.expenses) + [o.expense]
    ensures !o.Created? ==> unchanged(db)
    ensures db.cars == old(db.cars) && db.customers == old(db.customers)
            && db.sales == old(db.sales) && db.users == old(db.users)
  {
    if session.None? {
      return Unauthorized;
    }
    if session.value.role == Viewer {
      return Forbidden;
    }
    var parsed := ParseExpense(body);
    if parsed.Failure? {
      return Rejected(HandleApiError(ZodError(parsed.error, "")));
    }
    var input := parsed.value;
    var userId := ResolvedUserId(db.users, session.value);
    if !isDate(input.date) {
      return Rejected(HandleApiError(InvalidDate));
    }
    if ExpenseIdTaken(db.expenses, newId) {
      return Rejected(HandleApiError(PrismaKnownRequest("P2002", Some(["id"]), "")));
    }
    if input.carId !in db.cars {
      return Rejected(HandleApiError(PrismaKnownRequest("P2003", None, "")));
    }
    var expense := NewExpense(newId, input, userId);
    ExpenseAppendConsistent(db.cars, db.customers, db.expenses, db.sales, db.users, expense);
    db.expenses := db.expenses + [expense];
    o := Created(expense);
  }
}
