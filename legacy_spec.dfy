/** The older customer service: a four-field customer, no password and no
    image, and an update that counts a supplied name or age as a change even
    when it equals the current value. */
module LegacySpec {
  import opened Wrappers
  import opened Errors
  import opened Customers

  /** The older entity: id, name, email and age. */
  datatype Customer = Customer(id: Option<int>, name: string, email: string, age: int)

  datatype CustomerRegistrationRequest = CustomerRegistrationRequest(name: string, email: string, age: int)

  datatype State = State(rows: map<int, Customer>, nextId: int)

  datatype Step = Step(outcome: Outcome<Error>, after: State)

  /** Rows are stored under their own ids, all below the next id. */
  ghost predicate Valid(s: State) {
    1 <= s.nextId &&
    forall k :: k in s.rows ==> s.rows[k].id == Some(k) && 1 <= k < s.nextId
  }

  predicate EmailTaken(rows: map<int, Customer>, email: string) {
    exists k :: k in rows && rows[k].email == email
  }

  function GetCustomerById(rows: map<int, Customer>, id: int): (r: Result<Customer, Error>)
    ensures r.Success? <==> id in rows
    ensures r.Success? ==> r.value == rows[id] && r.value.id == rows[id].id
    ensures r.Failure? ==> r.error == ResourceNotFound(WithId("Customer with id [", id, "] not found!"))
  {
    if id in rows then Success(rows[id])
    else Failure(ResourceNotFound(WithId("Customer with id [", id, "] not found!")))
  }

  function AddCustomer(s: State, req: CustomerRegistrationRequest): (r: Step)
    ensures r.outcome.Fail? <==> EmailTaken(s.rows, req.email)
    ensures r.outcome.Fail? ==>
      r.outcome.error == DuplicateResource(Text("email already taken")) && r.after == s
    ensures r.outcome.Pass? ==>
      && r.after.rows.Keys == s.rows.Keys + {s.nextId}
      && r.after.rows[s.nextId] == Customer(Some(s.nextId), req.name, req.email, req.age)
      && (forall k :: k in s.rows && k != s.nextId ==> r.after.rows[k] == s.rows[k])
      && r.after.nextId == s.nextId + 1
  {
    if EmailTaken(s.rows, req.email) then
      Step(Fail(DuplicateResource(Text("email already taken"))), s)
    else
      Step(Pass, State(s.rows[s.nextId := Customer(Some(s.nextId), req.name, req.email, req.age)], s.nextId + 1))
  }

  function DeleteCustomerById(s: State, id: int): (r: Step)
    ensures r.outcome.Fail? <==> id !in s.rows
    ensures r.outcome.Fail? ==>
      r.outcome.error == ResourceNotFound(WithId("customer with id [", id, "]")) && r.after == s
    ensures r.outcome.Pass? ==>
      && r.after.rows.Keys == s.rows.Keys - {id}
      && (forall k :: k in r.after.rows ==> r.after.rows[k] == s.rows[k])
      && r.after.nextId == s.nextId
  {
    if id !in s.rows then
      Step(Fail(ResourceNotFound(WithId("customer with id [", id, "]"))), s)
    else
      Step(Pass, s.(rows := s.rows - {id}))
  }

  /** Whether some branch of the update fires: a supplied and different
      email, or any supplied age or name. */
  predicate AnyBranchFires(c: Customer, req: CustomerUpdateRequest) {
    (req.email.Some? && req.email.value != c.email) || req.age.Some? || req.name.Some?
  }

  /** The loaded customer after the setters: every supplied field is set. */
  function MergeUpdate(c: Customer, req: CustomerUpdateRequest): (m: Customer)
    ensures m.name == req.name.GetOr(c.name) && m.age == req.age.GetOr(c.age) && m.email == req.email.GetOr(c.email)
    ensures m.id == c.id
  {
    c.(email := if req.email.Some? && req.email.value != c.email then req.email.value else c.email,
       age := if req.age.Some? then req.age.value else c.age,
       name := if req.name.Some? then req.name.value else c.name)
  }

  function ApplyUpdate(c: Customer, req: CustomerUpdateRequest): (r: Result<Customer, Error>)
    ensures r.Success? <==> AnyBranchFires(c, req)
    ensures r.Success? ==> r.value == MergeUpdate(c, req)
    ensures r.Failure? ==> r.error == RequestValidation(Text("no data changed found!"))
  {
    if AnyBranchFires(c, req) then Success(MergeUpdate(c, req))
    else Failure(RequestValidation(Text("no data changed found!")))
  }

  function UpdateCustomerById(s: State, id: int, req: CustomerUpdateRequest): (r: Step)
    ensures id !in s.rows ==>
      r == Step(Fail(ResourceNotFound(WithId("customer with id [", id, "]"))), s)
    ensures r.outcome.Fail? ==> r.after == s
    ensures r.outcome.Pass? <==> id in s.rows && AnyBranchFires(s.rows[id], req)
    ensures id in s.rows && r.outcome.Fail? ==>
      r.outcome.error == RequestValidation(Text("no data changed found!"))
    ensures r.outcome.Pass? ==>
      r.after.rows == s.rows[id := MergeUpdate(s.rows[id], req)] && r.after.nextId == s.nextId
  {
    if id !in s.rows then
      Step(Fail(ResourceNotFound(WithId("customer with id [", id, "]"))), s)
    else
      match ApplyUpdate(s.rows[id], req)
      case Failure(e) => Step(Fail(e), s)
      case Success(m) => Step(Pass, s.(rows := s.rows[id := m]))
  }
}
