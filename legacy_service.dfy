/** The older customer service over its record store, whose rows and id
    sequence are the fields of the class. */
module LegacyService {
  import opened Wrappers
  import opened Errors
  import opened Customers
  import LegacySpec

  class CustomerService {
    var rows: map<int, LegacySpec.Customer>
    var nextId: int

    ghost function State(): LegacySpec.State
      reads this
    {
      LegacySpec.State(rows, nextId)
    }

    ghost predicate Valid()
      reads this
    {
      LegacySpec.Valid(State())
    }

    constructor ()
      ensures Valid() && rows == map[] && nextId == 1
    {
      rows := map[];
      nextId := 1;
    }

    method GetCustomerById(id: int) returns (r: Result<LegacySpec.Customer, Error>)
      ensures r == LegacySpec.GetCustomerById(rows, id)
    {
      if id !in rows {
        return Failure(ResourceNotFound(WithId("Customer with id [", id, "] not found!")));
      }
      r := Success(rows[id]);
    }

    method AddCustomer(req: LegacySpec.CustomerRegistrationRequest) returns (r: Outcome<Error>)
      requires Valid()
      modifies this
      ensures Valid()
      ensures var step := LegacySpec.AddCustomer(old(State()), req); r == step.outcome && State() == step.after
    {
      if LegacySpec.EmailTaken(rows, req.email) {
        return Fail(DuplicateResource(Text("email already taken")));
      }
      var customer := LegacySpec.Customer(None, req.name, req.email, req.age);
      rows := rows[nextId := customer.(id := Some(nextId))];
      nextId := nextId + 1;
      r := Pass;
    }

    method DeleteCustomerById(id: int) returns (r: Outcome<Error>)
      requires Valid()
      modifies this
      ensures Valid()
      ensures var step := LegacySpec.DeleteCustomerById(old(State()), id); r == step.outcome && State() == step.after
    {
      if id !in rows {
        return Fail(ResourceNotFound(WithId("customer with id [", id, "]")));
      }
      rows := rows - {id};
      r := Pass;
    }

    /** Checks the id, loads the customer, sets each supplied field while
        noting that a branch fired, and writes the record once. */
    method UpdateCustomerById(id: int, req: CustomerUpdateRequest) returns (r: Outcome<Error>)
      requires Valid()
      modifies this
      ensures Valid()
      ensures var step := LegacySpec.UpdateCustomerById(old(State()), id, req); r == step.outcome && State() == step.after
    {
      var status := false;
      if id !in rows {
        return Fail(ResourceNotFound(WithId("customer with id [", id, "]")));
      }
      var customer := rows[id];

      if req.email.Some? && req.email.value != customer.email {
        customer := customer.(email := req.email.value);
        status := true;
      }
      if req.age.Some? {
        customer := customer.(age := req.age.value);
        status := true;
      }
      if req.name.Some? {
        customer := customer.(name := req.name.value);
        status := true;
      }

      if !status {
        return Fail(RequestValidation(Text("no data changed found!")));
      }

      rows := rows[customer.id.value := customer];
      r := Pass;
    }
  }
}
