/** The request-body schemas: each schema is a function from a decoded JSON object to
    either the validated input or the list of issues zod reports. Field checks follow
    zod's rules: a field of the wrong type (or a missing required one) aborts the object,
    so object-level refinements do not run; a failed range or format check only marks
    the object dirty, so refinements still run and add their issues. */
module Validations {
  import opened Common
  import opened Enums

  /** A decoded JSON value; arrays and objects are one opaque case. */
  datatype Json = JNull | JBool(b: bool) | JNum(n: real) | JStr(s: string) | JComposite

  /** A request body; a key that is absent is `undefined`. */
  type Body = map<string, Json>

  /** One zod issue: the path of the offending field and its message. */
  datatype Issue = Issue(path: seq<string>, message: string)

  /** One field's outcome: `value` is None when the field failed its type check
      (which aborts the object); `issues` lists every failed check of the field. */
  datatype Field<T> = Field(value: Option<T>, issues: seq<Issue>)

  const RequiredMessage: string := "Required"
  const InvalidMessage: string := "Invalid input"
  const NanMessage: string := "Expected number, received nan"

  predicate IsString(body: Body, key: string)
  {
    key in body && body[key].JStr?
  }

  function Text(body: Body, key: string): string
    requires IsString(body, key)
  {
    body[key].s
  }

  predicate IsNumber(body: Body, key: string)
  {
    key in body && body[key].JNum?
  }

  function Num(body: Body, key: string): real
    requires IsNumber(body, key)
  {
    body[key].n
  }

  /** `undefined` or a string. */
  predicate AbsentOrString(body: Body, key: string)
  {
    key !in body || body[key].JStr?
  }

  /** `undefined`, `null` or a string. */
  predicate AbsentNullOrString(body: Body, key: string)
  {
    key !in body || body[key].JNull? || body[key].JStr?
  }

  function TypeIssue(body: Body, key: string): Issue
  {
    Issue([key], if key in body then InvalidMessage else RequiredMessage)
  }

  // ---------------------------------------------------------------- field schemas

  /** `z.string().min(min, message)` */
  function RequiredString(body: Body, key: string, min: nat, message: string): (f: Field<string>)
    ensures f.value.None? ==> f.issues != []
    ensures f.value.Some? <==> IsString(body, key)
    ensures f.issues == [] <==> IsString(body, key) && |Text(body, key)| >= min
    ensures f.value.Some? ==> f.value.value == Text(body, key)
  {
    if !IsString(body, key) then Field(None, [TypeIssue(body, key)])
    else Field(Some(Text(body, key)), if |Text(body, key)| < min then [Issue([key], message)] else [])
  }

  /** `z.string().email(message)`; the address syntax check is a parameter. */
  function EmailString(body: Body, key: string, isEmail: string -> bool, message: string): (f: Field<string>)
    ensures f.value.None? ==> f.issues != []
    ensures f.value.Some? <==> IsString(body, key)
    ensures f.issues == [] <==> IsString(body, key) && isEmail(Text(body, key))
    ensures f.value.Some? ==> f.value.value == Text(body, key)
  {
    if !IsString(body, key) then Field(None, [TypeIssue(body, key)])
    else Field(Some(Text(body, key)), if !isEmail(Text(body, key)) then [Issue([key], message)] else [])
  }

  /** `z.string().optional()`, also with `.or(z.literal(''))`, which adds nothing a
      string does not already satisfy. */
  function OptionalString(body: Body, key: string): (f: Field<Option<string>>)
    ensures f.value.None? ==> f.issues != []
    ensures f.issues == [] <==> AbsentOrString(body, key)
    ensures f.issues == [] ==> f.value == Some(if key in body then Some(Text(body, key)) else None)
  {
    if key !in body then Field(Some(None), [])
    else if body[key].JStr? then Field(Some(Some(body[key].s)), [])
    else Field(None, [Issue([key], InvalidMessage)])
  }

  /** `z.string().optional().nullable()`: null and undefined both give no value. */
  function NullableString(body: Body, key: string): (f: Field<Option<string>>)
    ensures f.value.None? ==> f.issues != []
    ensures f.issues == [] <==> AbsentNullOrString(body, key)
    ensures f.issues == [] ==> f.value == Some(if IsString(body, key) then Some(Text(body, key)) else None)
  {
    if key !in body || body[key].JNull? then Field(Some(None), [])
    else if body[key].JStr? then Field(Some(Some(body[key].s)), [])
    else Field(None, [Issue([key], InvalidMessage)])
  }

  /** `z.enum([...])`: the value must be the wire name of a member. */
  function EnumField<T>(body: Body, key: string, parse: string -> Option<T>): (f: Field<T>)
    ensures f.value.None? ==> f.issues != []
    ensures f.issues == [] <==> IsString(body, key) && parse(Text(body, key)).Some?
    ensures f.issues == [] ==> f.value == parse(Text(body, key))
  {
    if IsString(body, key) && parse(Text(body, key)).Some? then Field(parse(Text(body, key)), [])
    else Field(None, [TypeIssue(body, key)])
  }

  /** `z.enum([...]).default(d)`: `undefined` becomes the default; any other non-member
      (null included) is refused. */
  function EnumDefault<T>(body: Body, key: string, parse: string -> Option<T>, default: T): (f: Field<T>)
    ensures f.value.None? ==> f.issues != []
    ensures f.issues == [] <==> key !in body || (IsString(body, key) && parse(Text(body, key)).Some?)
    ensures f.issues == [] && key !in body ==> f.value == Some(default)
    ensures f.issues == [] && key in body ==> f.value == parse(Text(body, key))
  {
    if key !in body then Field(Some(default), [])
    else EnumField(body, key, parse)
  }

  /** `z.number().min(0, message)` */
  function NonNegativeNumber(body: Body, key: string, message: string): (f: Field<real>)
    ensures f.value.None? ==> f.issues != []
    ensures f.value.Some? <==> IsNumber(body, key)
    ensures f.issues == [] <==> IsNumber(body, key) && Num(body, key) >= 0.0
    ensures f.value.Some? ==> f.value.value == Num(body, key)
  {
    if !IsNumber(body, key) then Field(None, [TypeIssue(body, key)])
    else Field(Some(Num(body, key)), if Num(body, key) < 0.0 then [Issue([key], message)] else [])
  }

  // ---------------------------------------------------------- Number() coercion

  predicate IsDigit(c: char)
  {
    '0' <= c <= '9'
  }

  predicate AllDigits(s: string)
  {
    forall i :: 0 <= i < |s| ==> IsDigit(s[i])
  }

  function DigitsValue(s: string): (v: nat)
    requires AllDigits(s)
  {
    if |s| == 0 then 0 else DigitsValue(s[..|s| - 1]) * 10 + ((s[|s| - 1] as int) - ('0' as int))
  }

  function Pow10(n: nat): (p: nat)
    ensures p >= 1
  {
    if n == 0 then 1 else 10 * Pow10(n - 1)
  }

  /** Index of the first '.', or |s| when there is none. */
  function DotIndex(s: string): (k: nat)
    ensures k <= |s|
    ensures k < |s| ==> s[k] == '.'
    ensures forall i :: 0 <= i < k ==> s[i] != '.'
  {
    if |s| == 0 then 0
    else if s[0] == '.' then 0
    else 1 + DotIndex(s[1..])
  }

  /** An unsigned decimal: digits, optionally a point and more digits, at least one
      digit in all ("5", "5.", ".5", "12.25"). */
  function UnsignedDecimal(s: string): (r: Option<real>)
    ensures r.Some? ==> r.value >= 0.0
  {
    var k := DotIndex(s);
    var whole := s[..k];
    var frac := if k < |s| then s[k + 1..] else "";
    if AllDigits(whole) && AllDigits(frac) && |whole| + |frac| > 0 then
      Some(DigitsValue(whole) as real + (DigitsValue(frac) as real) / (Pow10(|frac|) as real))
    else None
  }

  /** `Number(text)` for the decimal forms the forms send: the empty string is 0, an
      optional sign then an unsigned decimal; anything else is NaN (None). */
  function StringToNumber(s: string): (r: Option<real>)
    ensures s == "" ==> r == Some(0.0)
  {
    if s == "" then Some(0.0)
    else if s[0] == '-' then
      match UnsignedDecimal(s[1..])
      case Some(v) => Some(-v)
      case None => None
    else if s[0] == '+' then UnsignedDecimal(s[1..])
    else UnsignedDecimal(s)
  }

  /** `Number(value)` for a body field; None stands for NaN. */
  function ToNumber(v: Option<Json>): (r: Option<real>)
    ensures v.None? ==> r.None?
    ensures v == Some(JNull) ==> r == Some(0.0)
    ensures forall n :: v == Some(JNum(n)) ==> r == Some(n)
  {
    match v
    case None => None
    case Some(JNull) => Some(0.0)
    case Some(JBool(b)) => Some(if b then 1.0 else 0.0)
    case Some(JNum(n)) => Some(n)
    case Some(JStr(s)) => StringToNumber(s)
    case Some(JComposite) => None
  }

  lemma {:induction false} DigitsValueOfNat(n: nat)
    ensures AllDigits(NatToString(n))
    ensures DigitsValue(NatToString(n)) == n
  {
    var s := NatToString(n);
    if n >= 10 {
      DigitsValueOfNat(n / 10);
      var prefix := NatToString(n / 10);
      assert s == prefix + [DigitChar(n % 10)];
      assert s[..|s| - 1] == prefix;
    }
  }

  /** The digits of a whole number read back, as an unsigned decimal, as that number. */
  lemma NatDigitsRoundTrip(n: nat)
    ensures UnsignedDecimal(NatToString(n)) == Some(n as real)
  {
    var s := NatToString(n);
    DigitsValueOfNat(n);
    assert DotIndex(s) == |s| by {
      DotIndexOfDigits(s);
    }
    assert s[..|s|] == s;
  }

  /** The decimal text of a whole number reads back as that number. */
  lemma {:induction false} NatTextRoundTrip(n: nat)
    ensures StringToNumber(NatToString(n)) == Some(n as real)
  {
    var s := NatToString(n);
    NatDigitsRoundTrip(n);
    assert s[0] != '-' && s[0] != '+' by {
      assert IsDigit(s[0]);
    }
  }

  /** The decimal text of any integer, sign included, reads back as that integer. */
  lemma IntTextRoundTrip(n: int)
    ensures StringToNumber(IntToString(n)) == Some(n as real)
  {
    if n < 0 {
      var s := IntToString(n);
      assert s[1..] == NatToString(-n);
      NatDigitsRoundTrip(-n);
    } else {
      NatTextRoundTrip(n);
    }
  }

  lemma {:induction false} DotIndexOfDigits(s: string)
    requires AllDigits(s)
    ensures DotIndex(s) == |s|
  {
    if |s| > 0 {
      DotIndexOfDigits(s[1..]);
    }
  }

  // ---------------------------------------------------------------- registerSchema

  datatype RegisterInput = RegisterInput(
    name: string, email: string, password: string, confirmPassword: string,
    role: Role, phone: Option<string>)

  const PasswordMismatch: Issue := Issue(["confirmPassword"], "Passwords do not match")

  /** Every field has the type the schema asks for (the object is not aborted). */
  predicate RegisterShape(body: Body)
  {
    && IsString(body, "name") && IsString(body, "email") && IsString(body, "password")
    && IsString(body, "confirmPassword")
    && IsString(body, "role") && ParseRole(Text(body, "role")).Some?
    && AbsentOrString(body, "phone")
  }

  /** What registerSchema accepts, stated field by field. */
  predicate RegisterAccepts(body: Body, isEmail: string -> bool)
  {
    && RegisterShape(body)
    && |Text(body, "name")| >= 2
    && isEmail(Text(body, "email"))
    && |Text(body, "password")| >= 6
    && Text(body, "password") == Text(body, "confirmPassword")
  }

  /** The issues of registerSchema's field checks, in field order; none of them is the
      refinement's password-mismatch issue. */
  function RegisterFieldIssues(body: Body, isEmail: string -> bool): (issues: seq<Issue>)
    ensures issues == [] <==> && RegisterShape(body) && |Text(body, "name")| >= 2
                              && isEmail(Text(body, "email")) && |Text(body, "password")| >= 6
    ensures PasswordMismatch !in issues
  {
    var name := RequiredString(body, "name", 2, "Name must be at least 2 characters");
    var email := EmailString(body, "email", isEmail, "Invalid email address");
    var password := RequiredString(body, "password", 6, "Password must be at least 6 characters");
    var confirm := RequiredString(body, "confirmPassword", 0, "");
    var role := EnumField(body, "role", ParseRole);
    var phone := OptionalString(body, "phone");
    assert confirm.issues == [] || confirm.issues == [TypeIssue(body, "confirmPassword")];
    name.issues + email.issues + password.issues + confirm.issues + role.issues + phone.issues
  }

  /** registerSchema: the field checks, then the password confirmation, which runs only
      when every field has its type. */
  function ParseRegister(body: Body, isEmail: string -> bool): (r: Result<RegisterInput, seq<Issue>>)
    ensures r.Success? <==> RegisterAccepts(body, isEmail)
    ensures r.Success? ==> && r.value.name == Text(body, "name") && r.value.email == Text(body, "email")
                           && r.value.password == Text(body, "password")
                           && r.value.password == r.value.confirmPassword
                           && |r.value.password| >= 6 && |r.value.name| >= 2
                           && Some(r.value.role) == ParseRole(Text(body, "role"))
                           && r.value.phone == (if "phone" in body then Some(Text(body, "phone")) else None)
    ensures r.Failure? ==> |r.error| > 0
    ensures r.Failure? ==> (PasswordMismatch in r.error <==>
                            RegisterShape(body) && Text(body, "password") != Text(body, "confirmPassword"))
  {
    var fieldIssues := RegisterFieldIssues(body, isEmail);
    var refined := if RegisterShape(body) && Text(body, "password") != Text(body, "confirmPassword")
                   then [PasswordMismatch] else [];
    if fieldIssues + refined == [] then
      Success(RegisterInput(Text(body, "name"), Text(body, "email"), Text(body, "password"),
                            Text(body, "confirmPassword"), ParseRole(Text(body, "role")).value,
                            if "phone" in body then Some(Text(body, "phone")) else None))
    else
      Failure(fieldIssues + refined)
  }

  // ---------------------------------------------------------------- carSchema

  datatype CarInput = CarInput(
    make: string, model: string, year: int, color: string, mileage: real, vin: string,
    licensePlate: Option<string>, purchasePrice: real, purchaseDate: string,
    boughtFrom: Option<string>, targetPrice: real, minimumPrice: Option<real>,
    status: CarStatus, location: Option<string>, conditionNotes: Option<string>)

  predicate IsWhole(x: real)
  {
    x.Floor as real == x
  }

  /** `z.number().int().min(1900).max(currentYear + 1)`; the upper bound is fixed when
      the module loads, so the current year is a parameter. */
  function YearField(body: Body, currentYear: int): (f: Field<int>)
    ensures f.value.None? ==> f.issues != []
    ensures f.issues == [] <==> IsNumber(body, "year") && IsWhole(Num(body, "year"))
                                && 1900.0 <= Num(body, "year") <= (currentYear + 1) as real
    ensures f.issues == [] ==> f.value == Some(Num(body, "year").Floor)
  {
    if !IsNumber(body, "year") then Field(None, [TypeIssue(body, "year")])
    else
      var y := Num(body, "year");
      Field(Some(y.Floor),
            (if IsWhole(y) then [] else [Issue(["year"], "Expected integer, received float")])
            + (if y < 1900.0 then [Issue(["year"], "Number must be greater than or equal to 1900")] else [])
            + (if y > (currentYear + 1) as real then [Issue(["year"], "Number must be less than or equal to " + IntToString(currentYear + 1))] else []))
  }

  /** `z.number().min(0).optional().or(z.literal(0))` */
  function MinimumPriceField(body: Body): (f: Field<Option<real>>)
    ensures f.value.None? ==> f.issues != []
    ensures f.issues == [] <==> "minimumPrice" !in body || (IsNumber(body, "minimumPrice") && Num(body, "minimumPrice") >= 0.0)
    ensures f.issues == [] ==> f.value == Some(if "minimumPrice" in body then Some(Num(body, "minimumPrice")) else None)
  {
    if "minimumPrice" !in body then Field(Some(None), [])
    else if !IsNumber(body, "minimumPrice") then Field(None, [Issue(["minimumPrice"], InvalidMessage)])
    else if Num(body, "minimumPrice") < 0.0 then
      Field(Some(Some(Num(body, "minimumPrice"))), [Issue(["minimumPrice"], "Number must be greater than or equal to 0")])
    else Field(Some(Some(Num(body, "minimumPrice"))), [])
  }

  /** What carSchema accepts, stated field by field. */
  predicate CarAccepts(body: Body, currentYear: int)
  {
    && IsString(body, "make") && |Text(body, "make")| >= 1
    && IsString(body, "model") && |Text(body, "model")| >= 1
    && IsNumber(body, "year") && IsWhole(Num(body, "year"))
    && 1900.0 <= Num(body, "year") <= (currentYear + 1) as real
    && IsString(body, "color") && |Text(body, "color")| >= 1
    && IsNumber(body, "mileage") && Num(body, "mileage") >= 0.0
    && IsString(body, "vin") && |Text(body, "vin")| >= 1
    && AbsentOrString(body, "licensePlate")
    && IsNumber(body, "purchasePrice") && Num(body, "purchasePrice") >= 0.0
    && IsString(body, "purchaseDate") && |Text(body, "purchaseDate")| >= 1
    && AbsentOrString(body, "boughtFrom")
    && IsNumber(body, "targetPrice") && Num(body, "targetPrice") >= 0.0
    && ("minimumPrice" !in body || (IsNumber(body, "minimumPrice") && Num(body, "minimumPrice") >= 0.0))
    && ("status" !in body || (IsString(body, "status") && ParseCarStatus(Text(body, "status")).Some?))
    && AbsentOrString(body, "location")
    && AbsentOrString(body, "conditionNotes")
  }

  function ParseCar(body: Body, currentYear: int): (r: Result<CarInput, seq<Issue>>)
    ensures r.Success? <==> CarAccepts(body, currentYear)
    ensures r.Failure? ==> |r.error| > 0
    ensures r.Success? ==> && 1900 <= r.value.year <= currentYear + 1
                           && r.value.year as real == Num(body, "year")
                           && r.value.mileage >= 0.0 && r.value.purchasePrice >= 0.0 && r.value.targetPrice >= 0.0
                           && r.value.purchasePrice == Num(body, "purchasePrice")
                           && r.value.targetPrice == Num(body, "targetPrice")
                           && r.value.vin == Text(body, "vin")
    ensures r.Success? ==> r.value.status == (if "status" in body then ParseCarStatus(Text(body, "status")).value else Available)
    ensures r.Success? ==> r.value.minimumPrice == (if "minimumPrice" in body then Some(Num(body, "minimumPrice")) else None)
  {
    var make := RequiredString(body, "make", 1, "Make is required");
    var model := RequiredString(body, "model", 1, "Model is required");
    var year := YearField(body, currentYear);
    var color := RequiredString(body, "color", 1, "Color is required");
    var mileage := NonNegativeNumber(body, "mileage", "Mileage must be positive");
    var vin := RequiredString(body, "vin", 1, "VIN is required");
    var plate := OptionalString(body, "licensePlate");
    var purchasePrice := NonNegativeNumber(body, "purchasePrice", "Price must be positive");
    var purchaseDate := RequiredString(body, "purchaseDate", 1, "Purchase date is required");
    var boughtFrom := OptionalString(body, "boughtFrom");
    var targetPrice := NonNegativeNumber(body, "targetPrice", "Target price must be positive");
    var minimumPrice := MinimumPriceField(body);
    var status := EnumDefault(body, "status", ParseCarStatus, Available);
    var location := OptionalString(body, "location");
    var notes := OptionalString(body, "conditionNotes");
    var issues := make.issues + model.issues + year.issues + color.issues + mileage.issues + vin.issues
                  + plate.issues + purchasePrice.issues + purchaseDate.issues + boughtFrom.issues
                  + targetPrice.issues + minimumPrice.issues + status.issues + location.issues + notes.issues;
    if issues == [] then
      Success(CarInput(make.value.value, model.value.value, year.value.value, color.value.value,
                       mileage.value.value, vin.value.value, plate.value.value, purchasePrice.value.value,
                       purchaseDate.value.value, boughtFrom.value.value, targetPrice.value.value,
                       minimumPrice.value.value, status.value.value, location.value.value, notes.value.value))
    else
      Failure(issues)
  }

  // ---------------------------------------------------------------- customerSchema

  datatype CustomerInput = CustomerInput(
    name: string, phone: string, email: Option<string>, address: Option<string>,
    leadSource: LeadSource, status: CustomerStatus, notes: Option<string>,
    followUpDate: Option<string>)

  /** `z.string().email().optional().or(z.literal('')).nullable()`: null, undefined, the
      empty string or an address; a malformed address is reported by the email check. */
  function CustomerEmailField(body: Body, isEmail: string -> bool): (f: Field<Option<string>>)
    ensures f.value.None? ==> f.issues != []
    ensures f.issues == [] <==> AbsentNullOrString(body, "email")
                                && (IsString(body, "email") ==> Text(body, "email") == "" || isEmail(Text(body, "email")))
    ensures f.issues == [] ==> f.value == Some(if IsString(body, "email") then Some(Text(body, "email")) else None)
  {
    if "email" !in body || body["email"].JNull? then Field(Some(None), [])
    else if !body["email"].JStr? then Field(None, [Issue(["email"], InvalidMessage)])
    else
      var s := body["email"].s;
      Field(Some(Some(s)), if s == "" || isEmail(s) then [] else [Issue(["email"], "Invalid email")])
  }

  predicate CustomerAccepts(body: Body, isEmail: string -> bool)
  {
    && IsString(body, "name") && |Text(body, "name")| >= 1
    && IsString(body, "phone") && |Text(body, "phone")| >= 1
    && AbsentNullOrString(body, "email")
    && (IsString(body, "email") ==> Text(body, "email") == "" || isEmail(Text(body, "email")))
    && AbsentNullOrString(body, "address")
    && IsString(body, "leadSource") && ParseLeadSource(Text(body, "leadSource")).Some?
    && ("status" !in body || (IsString(body, "status") && ParseCustomerStatus(Text(body, "status")).Some?))
    && AbsentNullOrString(body, "notes")
    && AbsentNullOrString(body, "followUpDate")
  }

  function ParseCustomer(body: Body, isEmail: string -> bool): (r: Result<CustomerInput, seq<Issue>>)
    ensures r.Success? <==> CustomerAccepts(body, isEmail)
    ensures r.Failure? ==> |r.error| > 0
    ensures r.Success? ==> r.value.status == (if "status" in body then ParseCustomerStatus(Text(body, "status")).value else NewLead)
    ensures r.Success? ==> r.value.email == (if IsString(body, "email") then Some(Text(body, "email")) else None)
    ensures r.Success? ==> r.value.followUpDate == (if IsString(body, "followUpDate") then Some(Text(body, "followUpDate")) else None)
  {
    var name := RequiredString(body, "name", 1, "Name is required");
    var phone := RequiredString(body, "phone", 1, "Phone is required");
    var email := CustomerEmailField(body, isEmail);
    var address := NullableString(body, "address");
    var source := EnumField(body, "leadSource", ParseLeadSource);
    var status := EnumDefault(body, "status", ParseCustomerStatus, NewLead);
    var notes := NullableString(body, "notes");
    var followUp := NullableString(body, "followUpDate");
    var issues := name.issues + phone.issues + email.issues + address.issues + source.issues
                  + status.issues + notes.issues + followUp.issues;
    if issues == [] then
      Success(CustomerInput(name.value.value, phone.value.value, email.value.value, address.value.value,
                            source.value.value, status.value.value, notes.value.value, followUp.value.value))
    else
      Failure(issues)
  }

  // ---------------------------------------------------------------- saleSchema

  datatype SaleInput = SaleInput(
    carId: string, customerId: string, sellerId: Option<string>, salePrice: real,
    saleDate: string, paymentMethod: PaymentMethod, paymentStatus: PaymentStatus,
    commission: Option<real>)

  /** The values the preprocessing steps treat as "nothing was entered". */
  predicate Blank(v: Option<Json>)
  {
    v.None? || v == Some(JNull) || v == Some(JStr(""))
  }

  function Lookup(body: Body, key: string): Option<Json>
  {
    if key in body then Some(body[key]) else None
  }

  /** salePrice: blank becomes undefined and is refused as missing; anything else goes
      through Number() and must be a number no smaller than 0. */
  function SalePriceField(body: Body): (f: Field<real>)
    ensures f.value.None? ==> f.issues != []
    ensures Blank(Lookup(body, "salePrice")) ==> f == Field(None, [Issue(["salePrice"], RequiredMessage)])
    ensures f.issues == [] <==> !Blank(Lookup(body, "salePrice")) && ToNumber(Lookup(body, "salePrice")).Some?
                                && ToNumber(Lookup(body, "salePrice")).value >= 0.0
    ensures f.issues == [] ==> f.value == ToNumber(Lookup(body, "salePrice"))
  {
    var v := Lookup(body, "salePrice");
    if Blank(v) then Field(None, [Issue(["salePrice"], RequiredMessage)])
    else match ToNumber(v)
      case None => Field(None, [Issue(["salePrice"], NanMessage)])
      case Some(n) => Field(Some(n), if n < 0.0 then [Issue(["salePrice"], "Sale price must be positive")] else [])
  }

  /** commission: blank becomes null; anything else goes through Number() and may be
      any number (no lower bound), but not NaN. */
  function CommissionField(body: Body): (f: Field<Option<real>>)
    ensures f.value.None? ==> f.issues != []
    ensures Blank(Lookup(body, "commission")) ==> f == Field(Some(None), [])
    ensures f.issues == [] <==> Blank(Lookup(body, "commission")) || ToNumber(Lookup(body, "commission")).Some?
    ensures f.issues == [] && !Blank(Lookup(body, "commission")) ==> f.value == Some(ToNumber(Lookup(body, "commission")))
  {
    var v := Lookup(body, "commission");
    if Blank(v) then Field(Some(None), [])
    else match ToNumber(v)
      case None => Field(None, [Issue(["commission"], NanMessage)])
      case Some(n) => Field(Some(Some(n)), [])
  }

  predicate SaleAccepts(body: Body)
  {
    && IsString(body, "carId") && |Text(body, "carId")| >= 1
    && IsString(body, "customerId") && |Text(body, "customerId")| >= 1
    && AbsentNullOrString(body, "sellerId")
    && !Blank(Lookup(body, "salePrice")) && ToNumber(Lookup(body, "salePrice")).Some?
    && ToNumber(Lookup(body, "salePrice")).value >= 0.0
    && IsString(body, "saleDate") && |Text(body, "saleDate")| >= 1
    && IsString(body, "paymentMethod") && ParsePaymentMethod(Text(body, "paymentMethod")).Some?
    && ("paymentStatus" !in body || (IsString(body, "paymentStatus") && ParsePaymentStatus(Text(body, "paymentStatus")).Some?))
    && (Blank(Lookup(body, "commission")) || ToNumber(Lookup(body, "commission")).Some?)
  }

  function ParseSale(body: Body): (r: Result<SaleInput, seq<Issue>>)
    ensures r.Success? <==> SaleAccepts(body)
    ensures r.Failure? ==> |r.error| > 0
    ensures Blank(Lookup(body, "salePrice")) ==> r.Failure? && Issue(["salePrice"], RequiredMessage) in r.error
    ensures r.Success? ==> && r.value.carId == Text(body, "carId") && r.value.customerId == Text(body, "customerId")
                           && Some(r.value.salePrice) == ToNumber(Lookup(body, "salePrice"))
                           && r.value.salePrice >= 0.0
    ensures r.Success? ==> r.value.paymentStatus == (if "paymentStatus" in body then ParsePaymentStatus(Text(body, "paymentStatus")).value else Pending)
    ensures r.Success? && Blank(Lookup(body, "commission")) ==> r.value.commission.None?
    ensures r.Success? ==> r.value.sellerId == (if IsString(body, "sellerId") then Some(Text(body, "sellerId")) else None)
  {
    var carId := RequiredString(body, "carId", 1, "Car is required");
    var customerId := RequiredString(body, "customerId", 1, "Customer is required");
    var sellerId := NullableString(body, "sellerId");
    var salePrice := SalePriceField(body);
    var saleDate := RequiredString(body, "saleDate", 1, "Sale date is required");
    var payMethod := EnumField(body, "paymentMethod", ParsePaymentMethod);
    var status := EnumDefault(body, "paymentStatus", ParsePaymentStatus, Pending);
    var commission := CommissionField(body);
    var issues := carId.issues + customerId.issues + sellerId.issues + salePrice.issues + saleDate.issues
                  + payMethod.issues + status.issues + commission.issues;
    if issues == [] then
      Success(SaleInput(carId.value.value, customerId.value.value, sellerId.value.value, salePrice.value.value,
                        saleDate.value.value, payMethod.value.value, status.value.value, commission.value.value))
    else
      Failure(issues)
  }

  // ---------------------------------------------------------------- expenseSchema

  datatype ExpenseInput = ExpenseInput(
    carId: string, expenseType: ExpenseType, amount: real, date: string,
    description: string, vendor: Option<string>)

  /** `z.coerce.number().min(0)`: Number() of whatever was sent, so null and the empty
      string become 0 and pass, while a missing amount is NaN and fails. */
  function AmountField(body: Body): (f: Field<real>)
    ensures f.value.None? ==> f.issues != []
    ensures f.issues == [] <==> ToNumber(Lookup(body, "amount")).Some? && ToNumber(Lookup(body, "amount")).value >= 0.0
    ensures f.value.Some? ==> f.value == ToNumber(Lookup(body, "amount"))
  {
    match ToNumber(Lookup(body, "amount"))
    case None => Field(None, [Issue(["amount"], NanMessage)])
    case Some(n) => Field(Some(n), if n < 0.0 then [Issue(["amount"], "Amount must be positive")] else [])
  }

  predicate ExpenseAccepts(body: Body)
  {
    && IsString(body, "carId") && |Text(body, "carId")| >= 1
    && IsString(body, "type") && ParseExpenseType(Text(body, "type")).Some?
    && ToNumber(Lookup(body, "amount")).Some? && ToNumber(Lookup(body, "amount")).value >= 0.0
    && IsString(body, "date") && |Text(body, "date")| >= 1
    && IsString(body, "description") && |Text(body, "description")| >= 1
    && AbsentNullOrString(body, "vendor")
  }

  function ParseExpense(body: Body): (r: Result<ExpenseInput, seq<Issue>>)
    ensures r.Success? <==> ExpenseAccepts(body)
    ensures r.Failure? ==> |r.error| > 0
    ensures r.Success? ==> && r.value.amount >= 0.0 && Some(r.value.amount) == ToNumber(Lookup(body, "amount"))
                           && |r.value.description| >= 1 && r.value.carId == Text(body, "carId")
  {
    var carId := RequiredString(body, "carId", 1, "Car is required");
    var expenseType := EnumField(body, "type", ParseExpenseType);
    var amount := AmountField(body);
    var date := RequiredString(body, "date", 1, "Date is required");
    var description := RequiredString(body, "description", 1, "Description is required");
    var vendor := NullableString(body, "vendor");
    var issues := carId.issues + expenseType.issues + amount.issues + date.issues + description.issues + vendor.issues;
    if issues == [] then
      Success(ExpenseInput(carId.value.value, expenseType.value.value, amount.value.value, date.value.value,
                           description.value.value, vendor.value.value))
    else
      Failure(issues)
  }

  /** An expense amount sent as null or as the empty string is accepted as 0, while a
      missing amount is refused. */
  lemma AmountCoercion(body: Body, blank: Json)
    requires blank == JNull || blank == JStr("")
    requires ExpenseAccepts(body["amount" := JNum(0.0)])
    ensures ParseExpense(body["amount" := blank]).Success?
    ensures ParseExpense(body["amount" := blank]).value.amount == 0.0
    ensures ParseExpense(body - {"amount"}).Failure?
  {
  }
}
