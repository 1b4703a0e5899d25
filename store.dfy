/** The persisted entities and the in-memory store the handlers read and write,
    with the consistency the sale workflow is meant to keep. */
module Store {
  import opened Common
  import opened Enums
  import opened Utils

  /** The descriptive part of a car that every role may see. */
  datatype CarDetails = CarDetails(
    make: string, model: string, year: int, color: string, mileage: real, vin: string,
    licensePlate: Option<string>, purchaseDate: string, boughtFrom: Option<string>,
    targetPrice: real, minimumPrice: Option<real>, location: Option<string>,
    conditionNotes: Option<string>)

  /** A car: its details, its cost basis (a restricted field) and its status. */
  datatype Car = Car(id: string, details: CarDetails, purchasePrice: real, status: CarStatus)

  datatype Expense = Expense(
    id: string, carId: string, expenseType: ExpenseType, amount: real, date: string,
    description: string, vendor: Option<string>, userId: Option<string>)

  datatype Customer = Customer(
    id: string, name: string, phone: string, email: Option<string>, address: Option<string>,
    leadSource: LeadSource, status: CustomerStatus, notes: Option<string>,
    followUpDate: Option<string>)

  datatype Sale = Sale(
    id: string, carId: string, customerId: string, sellerId: string, salePrice: real,
    saleDate: string, paymentMethod: PaymentMethod, paymentStatus: PaymentStatus,
    commission: Option<real>, profit: real)

  datatype User = User(
    id: string, name: string, email: string, password: string, role: Role, phone: Option<string>)

  /** The authenticated caller. */
  datatype Session = Session(userId: string, role: Role)

  /** Amounts of a list of expenses, in order. */
  function Amounts(expenses: seq<Expense>): (xs: seq<real>)
    ensures |xs| == |expenses|
    ensures forall i :: 0 <= i < |expenses| ==> xs[i] == expenses[i].amount
  {
    seq(|expenses|, i requires 0 <= i < |expenses| => expenses[i].amount)
  }

  /** The expenses recorded against one car, in store order. */
  function CarExpenses(expenses: seq<Expense>, carId: string): (es: seq<Expense>)
    ensures forall i :: 0 <= i < |es| ==> es[i].carId == carId && es[i] in expenses
    ensures forall e :: e in expenses && e.carId == carId ==> e in es
  {
    if |expenses| == 0 then []
    else
      var rest := CarExpenses(expenses[..|expenses| - 1], carId);
      var last := expenses[|expenses| - 1];
      if last.carId == carId then rest + [last] else rest
  }

  /** Sum of the amounts of one car's expenses. */
  function CarExpenseTotal(expenses: seq<Expense>, carId: string): real
  {
    Sum(Amounts(CarExpenses(expenses, carId)))
  }

  /** Filtering by car distributes over concatenation of expense lists. */
  lemma {:induction false} CarExpensesAppend(a: seq<Expense>, b: seq<Expense>, carId: string)
    ensures CarExpenses(a + b, carId) == CarExpenses(a, carId) + CarExpenses(b, carId)
    decreases |b|
  {
    if |b| == 0 {
      assert a + b == a;
    } else {
      var b' := b[..|b| - 1];
      assert (a + b)[..|a + b| - 1] == a + b';
      CarExpensesAppend(a, b', carId);
    }
  }

  /** A car's expense total over two batches of expenses is the sum of the batches' totals. */
  lemma CarExpenseTotalAppend(a: seq<Expense>, b: seq<Expense>, carId: string)
    ensures CarExpenseTotal(a + b, carId) == CarExpenseTotal(a, carId) + CarExpenseTotal(b, carId)
  {
    CarExpensesAppend(a, b, carId);
    AmountsAppend(CarExpenses(a, carId), CarExpenses(b, carId));
    SumAppend(Amounts(CarExpenses(a, carId)), Amounts(CarExpenses(b, carId)));
  }

  lemma AmountsAppend(a: seq<Expense>, b: seq<Expense>)
    ensures Amounts(a + b) == Amounts(a) + Amounts(b)
  {
  }

  /** Recording one more expense raises its car's total by the amount and leaves every
      other car's total as it was. */
  lemma ExpenseTotalAfterAppend(expenses: seq<Expense>, e: Expense, carId: string)
    ensures CarExpenseTotal(expenses + [e], carId)
            == CarExpenseTotal(expenses, carId) + (if e.carId == carId then e.amount else 0.0)
  {
    var all := expenses + [e];
    assert all[..|all| - 1] == expenses;
    if e.carId == carId {
      AmountsAppend(CarExpenses(expenses, carId), [e]);
      SumAppend(Amounts(CarExpenses(expenses, carId)), [e.amount]);
      assert Sum([e.amount]) == e.amount by {
        assert [e.amount][..0] == [];
      }
    }
  }

  // --------------------------------------------------------------- redaction

  /** A car as sent to a client: the purchase price is omitted for some roles. */
  datatype RedactedCar = RedactedCar(id: string, details: CarDetails, purchasePrice: Option<real>, status: CarStatus)

  /** Hides the purchase price from salespeople; every other field is passed through. */
  function Redact(car: Car, role: Role): (v: RedactedCar)
    ensures v.purchasePrice.None? <==> role == Salesperson
    ensures v.purchasePrice.Some? ==> v.purchasePrice.value == car.purchasePrice
    ensures v.id == car.id && v.details == car.details && v.status == car.status
  {
    RedactedCar(car.id, car.details, if role == Salesperson then None else Some(car.purchasePrice), car.status)
  }

  /** The car a client can rebuild from what it received, if the price was sent. */
  function Restore(v: RedactedCar): Option<Car>
  {
    if v.purchasePrice.Some? then Some(Car(v.id, v.details, v.purchasePrice.value, v.status)) else None
  }

  /** From the redacted car object every role but the salesperson gets the whole car
      back; the salesperson's car object alone does not give it. (Other keys of the same
      response can: see the sale price, profit and expense total the sales listing sends
      next to it.) */
  lemma RedactRoundTrip(car: Car, role: Role)
    ensures Restore(Redact(car, role)) == if role == Salesperson then None else Some(car)
  {
  }

  /** The redacted car object a salesperson receives does not depend on the purchase
      price. */
  lemma RedactionHidesPurchasePrice(a: Car, b: Car)
    requires a.id == b.id && a.details == b.details && a.status == b.status
    ensures Redact(a, Salesperson) == Redact(b, Salesperson)
  {
  }

  // --------------------------------------------------------------- consistency

  predicate CarHasSale(sales: seq<Sale>, carId: string)
  {
    exists i :: 0 <= i < |sales| && sales[i].carId == carId
  }

  predicate SaleIdTaken(sales: seq<Sale>, id: string)
  {
    exists i :: 0 <= i < |sales| && sales[i].id == id
  }

  predicate ExpenseIdTaken(expenses: seq<Expense>, id: string)
  {
    exists i :: 0 <= i < |expenses| && expenses[i].id == id
  }

  predicate EmailTaken(users: map<string, User>, email: string)
  {
    exists id :: id in users && users[id].email == email
  }

  /** A recorded sale is fully applied: its car and its customer exist and are SOLD. */
  predicate SaleApplied(s: Sale, cars: map<string, Car>, customers: map<string, Customer>)
  {
    && s.carId in cars && cars[s.carId].status == Sold
    && s.customerId in customers && customers[s.customerId].status == CustomerSold
  }

  /** The unique columns of the car table: the VIN, and the plate when there is one. */
  predicate CarKeysUnique(cars: map<string, Car>)
  {
    forall a, b :: a in cars && b in cars && a != b ==>
      cars[a].details.vin != cars[b].details.vin
      && (cars[a].details.licensePlate.Some? ==> cars[a].details.licensePlate != cars[b].details.licensePlate)
  }

  /** The consistency the handlers keep: ids match their keys, the unique columns are
      unique, every reference points at an existing row, every recorded sale is fully
      applied, and a car is sold at most once. */
  predicate Consistent(cars: map<string, Car>, customers: map<string, Customer>, expenses: seq<Expense>,
                       sales: seq<Sale>, users: map<string, User>)
  {
    && (forall id :: id in cars ==> cars[id].id == id)
    && (forall id :: id in customers ==> customers[id].id == id)
    && (forall id :: id in users ==> users[id].id == id)
    && CarKeysUnique(cars)
    && (forall a, b :: a in users && b in users && users[a].email == users[b].email ==> a == b)
    && (forall i :: 0 <= i < |expenses| ==> expenses[i].carId in cars)
    && (forall i :: 0 <= i < |expenses| && expenses[i].userId.Some? ==> expenses[i].userId.value in users)
    && (forall i, j :: 0 <= i < j < |expenses| ==> expenses[i].id != expenses[j].id)
    && (forall i :: 0 <= i < |sales| ==> SaleApplied(sales[i], cars, customers) && sales[i].sellerId in users)
    && (forall i, j :: 0 <= i < j < |sales| ==> sales[i].carId != sales[j].carId && sales[i].id != sales[j].id)
  }

  /** Committing a sale of an unsold car, with a fresh id and existing customer and
      seller, keeps the store consistent. */
  lemma SaleCommitConsistent(cars: map<string, Car>, customers: map<string, Customer>, expenses: seq<Expense>,
                             sales: seq<Sale>, users: map<string, User>, s: Sale)
    requires Consistent(cars, customers, expenses, sales, users)
    requires s.carId in cars && !CarHasSale(sales, s.carId) && !SaleIdTaken(sales, s.id)
    requires s.customerId in customers && s.sellerId in users
    ensures Consistent(cars[s.carId := cars[s.carId].(status := Sold)],
                       customers[s.customerId := customers[s.customerId].(status := CustomerSold)],
                       expenses, sales + [s], users)
  {
    var cars' := cars[s.carId := cars[s.carId].(status := Sold)];
    var customers' := customers[s.customerId := customers[s.customerId].(status := CustomerSold)];
    var sales' := sales + [s];
    forall i | 0 <= i < |sales'|
      ensures SaleApplied(sales'[i], cars', customers') && sales'[i].sellerId in users
    {
      if i < |sales| {
        assert sales'[i] == sales[i];
      }
    }
    forall i, j | 0 <= i < j < |sales'|
      ensures sales'[i].carId != sales'[j].carId && sales'[i].id != sales'[j].id
    {
      if j == |sales| {
        assert sales'[i] == sales[i];
      }
    }
    assert CarKeysUnique(cars') by {
      forall a, b | a in cars' && b in cars' && a != b
        ensures cars'[a].details == cars[a].details && cars'[b].details == cars[b].details
      {
      }
    }
  }

  /** A new car would clash with a stored one on the VIN, or on the plate when it has one. */
  predicate KeyConflict(cars: map<string, Car>, vin: string, plate: Option<string>)
  {
    exists id :: id in cars && (cars[id].details.vin == vin || (plate.Some? && cars[id].details.licensePlate == plate))
  }

  /** Inserting a car under a fresh id without a key clash keeps the store consistent. */
  lemma CarInsertConsistent(cars: map<string, Car>, customers: map<string, Customer>, expenses: seq<Expense>,
                            sales: seq<Sale>, users: map<string, User>, c: Car)
    requires Consistent(cars, customers, expenses, sales, users)
    requires c.id !in cars && !KeyConflict(cars, c.details.vin, c.details.licensePlate)
    ensures Consistent(cars[c.id := c], customers, expenses, sales, users)
  {
    var cars' := cars[c.id := c];
    forall a, b | a in cars' && b in cars' && a != b
      ensures cars'[a].details.vin != cars'[b].details.vin
      ensures cars'[a].details.licensePlate.Some? ==> cars'[a].details.licensePlate != cars'[b].details.licensePlate
    {
      if a == c.id {
        assert b in cars;
      } else if b == c.id {
        assert a in cars;
      }
    }
    forall i | 0 <= i < |sales|
      ensures SaleApplied(sales[i], cars', customers)
    {
      assert SaleApplied(sales[i], cars, customers);
    }
  }

  /** Inserting a customer under a fresh id keeps the store consistent. */
  lemma CustomerInsertConsistent(cars: map<string, Car>, customers: map<string, Customer>, expenses: seq<Expense>,
                                 sales: seq<Sale>, users: map<string, User>, c: Customer)
    requires Consistent(cars, customers, expenses, sales, users)
    requires c.id !in customers
    ensures Consistent(cars, customers[c.id := c], expenses, sales, users)
  {
    forall i | 0 <= i < |sales|
      ensures SaleApplied(sales[i], cars, customers[c.id := c])
    {
      assert SaleApplied(sales[i], cars, customers);
    }
  }

  /** Appending an expense with a fresh id, an existing car and an existing (or no) user
      keeps the store consistent. */
  lemma ExpenseAppendConsistent(cars: map<string, Car>, customers: map<string, Customer>, expenses: seq<Expense>,
                                sales: seq<Sale>, users: map<string, User>, e: Expense)
    requires Consistent(cars, customers, expenses, sales, users)
    requires e.carId in cars && !ExpenseIdTaken(expenses, e.id) && (e.userId.Some? ==> e.userId.value in users)
    ensures Consistent(cars, customers, expenses + [e], sales, users)
  {
    var expenses' := expenses + [e];
    forall i, j | 0 <= i < j < |expenses'|
      ensures expenses'[i].id != expenses'[j].id
    {
      assert expenses'[i] == expenses[i];
    }
  }

  /** Inserting a user under a fresh id with an email no user has keeps the store
      consistent. */
  lemma UserInsertConsistent(cars: map<string, Car>, customers: map<string, Customer>, expenses: seq<Expense>,
                             sales: seq<Sale>, users: map<string, User>, u: User)
    requires Consistent(cars, customers, expenses, sales, users)
    requires u.id !in users && !EmailTaken(users, u.email)
    ensures Consistent(cars, customers, expenses, sales, users[u.id := u])
  {
  }

  class Store {
    var cars: map<string, Car>
    var customers: map<string, Customer>
    var expenses: seq<Expense>
    var sales: seq<Sale>
    var users: map<string, User>

    ghost predicate Valid()
      reads this
    {
      Consistent(cars, customers, expenses, sales, users)
    }

    constructor ()
      ensures Valid()
      ensures cars == map[] && customers == map[] && expenses == [] && sales == [] && users == map[]
    {
      cars, customers, expenses, sales, users := map[], map[], [], [], map[];
    }
  }
}
