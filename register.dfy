/** Self-registration: validation, the duplicate-email check and the insert of the new
    user with a hashed password. No session is involved. */
module RegisterRoute {
  import opened Common
  import opened Enums
  import opened Validations
  import opened ErrorHandler
  import opened Store

  /** The fields of a user a response may carry: never the password. */
  datatype PublicUser = PublicUser(id: string, name: string, email: string, role: Role)

  const EmailInUse: string := "A user with this email already exists"

  datatype RegisterOutcome = Rejected(response: ApiError) | Created(user: PublicUser)

  /** Registers a user. The body is validated before the store is looked at; an email
      that a user already has is refused; otherwise one user is inserted whose stored
      password is the hash of the one given, and the response is the public view of it.
      Only a successful insert changes the store. */
  method Register(db: Store, body: Body, isEmail: string -> bool, hash: string -> string, newId: string)
    returns (o: RegisterOutcome)
    requires db.Valid()
    modifies db
    ensures db.Valid()
    ensures ParseRegister(body, isEmail).Failure? ==>
              o == Rejected(HandleApiError(ZodError(ParseRegister(body, isEmail).error, "")))
    ensures ParseRegister(body, isEmail).Success? ==>
              var input := ParseRegister(body, isEmail).value;
              if EmailTaken(old(db.users), input.email)
              then o == Rejected(ApiError(400, EmailInUse, []))
              else if newId in old(db.users)
              then o == Rejected(HandleApiError(PrismaKnownRequest("P2002", Some(["id"]), "")))
              else o == Created(PublicUser(newId, input.name, input.email, input.role))
                   && db.users == old(db.users)[newId := User(newId, input.name, input.email, hash(input.password),
                                                              input.role, input.phone)]
    ensures !o.Created? ==> unchanged(db)
    ensures db.cars == old(db.cars) && db.customers == old(db.customers)
            && db.expenses == old(db.expenses) && db.sales == old(db.sales)
  {
    var parsed := ParseRegister(body, isEmail);
    if parsed.Failure? {
      return Rejected(HandleApiError(ZodError(parsed.error, "")));
    }
    var input := parsed.value;
    if EmailTaken(db.users, input.email) {
      return Rejected(ApiError(400, EmailInUse, []));
    }
    var hashed := hash(input.password);
    if newId in db.users {
      return Rejected(HandleApiError(PrismaKnownRequest("P2002", Some(["id"]), "")));
    }
    var user := User(newId, input.name, input.email, hashed, input.role, input.phone);
    UserInsertConsistent(db.cars, db.customers, db.expenses, db.sales, db.users, user);
    db.users := db.users[newId := user];
    o := Created(PublicUser(user.id, user.name, user.email, user.role));
  }
}
