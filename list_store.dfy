/** The in-memory customer store: one list, changed in place, searched
    front to back. */
module ListStore {
  import opened Wrappers
  import opened Customers

  /** The NullPointerException that `getId().equals(id)` throws when the
      scan reaches a customer whose id is null. */
  datatype Fault = NullPointer

  const ALEX: CustomerData := CustomerData(Some(1), "Alex", "alex@gmail.com", 21, MALE, "password", None)
  const JAMILA: CustomerData := CustomerData(Some(2), "Jamila", "jamila@gmail.com", 33, MALE, "password", None)

  /** The id filter stops at `c`: either `c` matches, or its null id throws. */
  predicate StopsAt(c: CustomerData, id: int) {
    c.id.None? || c.id == Some(id)
  }

  /** Where a front-to-back scan for `id` stops; `|s|` if it runs off the end. */
  function FirstStop(s: seq<CustomerData>, id: int): (k: nat)
    ensures k <= |s|
    ensures k < |s| ==> StopsAt(s[k], id)
    ensures forall j :: 0 <= j < k ==> !StopsAt(s[j], id)
  {
    if s == [] then 0
    else if StopsAt(s[0], id) then 0
    else 1 + FirstStop(s[1..], id)
  }

  /** The position of the first customer with that email; `|s|` if none. */
  function FirstWithEmail(s: seq<CustomerData>, email: string): (k: nat)
    ensures k <= |s|
    ensures k < |s| ==> s[k].email == email
    ensures forall j :: 0 <= j < k ==> s[j].email != email
  {
    if s == [] then 0
    else if s[0].email == email then 0
    else 1 + FirstWithEmail(s[1..], email)
  }

  /** The position of the first element equal to `c` (what `List.remove(Object)`
      removes); `|s|` if none. */
  function IndexOf(s: seq<CustomerData>, c: CustomerData): (k: nat)
    ensures k <= |s|
    ensures k < |s| ==> s[k] == c
    ensures forall j :: 0 <= j < k ==> s[j] != c
  {
    if s == [] then 0
    else if s[0] == c then 0
    else 1 + IndexOf(s[1..], c)
  }

  class CustomerListDataAccessService {
    var customers: seq<CustomerData>

    /** The static initialiser: Alex (id 1) then Jamila (id 2). */
    constructor ()
      ensures customers == [ALEX, JAMILA]
    {
      customers := [ALEX, JAMILA];
    }

    method SelectAllCustomers() returns (r: seq<CustomerData>)
      ensures r == customers
    {
      r := customers;
    }

    /** The first customer with that id; the scan throws if it meets a null
        id first, and never throws on a list without null ids. */
    method SelectCustomerById(id: int) returns (r: Result<Option<CustomerData>, Fault>)
      ensures r.Success? && r.value.Some? ==>
        FirstStop(customers, id) < |customers| &&
        r.value.value.id == Some(id) && r.value.value == customers[FirstStop(customers, id)]
      ensures r.Success? && r.value.None? <==>
        forall i :: 0 <= i < |customers| ==> !StopsAt(customers[i], id)
      ensures r.Failure? <==>
        exists i :: 0 <= i < |customers| && customers[i].id.None? &&
                    forall j :: 0 <= j < i ==> !StopsAt(customers[j], id)
    {
      var k := FirstStop(customers, id);
      if k == |customers| {
        r := Success(None);
      } else if customers[k].id.None? {
        r := Failure(NullPointer);
      } else {
        r := Success(Some(customers[k]));
      }
    }

    /** Appends: the new customer is last, the others are untouched. */
    method InsertCustomer(c: CustomerData)
      modifies this
      ensures customers == old(customers) + [c]
    {
      customers := customers + [c];
    }

    method ExistCustomerWithEmail(email: string) returns (b: bool)
      ensures b <==> exists i :: 0 <= i < |customers| && customers[i].email == email
    {
      b := FirstWithEmail(customers, email) < |customers|;
    }

    /** Whether some customer has that id; the scan throws like
        SelectCustomerById's. */
    method ExistCustomerById(id: int) returns (r: Result<bool, Fault>)
      ensures r == Success(true) <==>
        exists i :: 0 <= i < |customers| && customers[i].id == Some(id) &&
                    forall j :: 0 <= j < i ==> !StopsAt(customers[j], id)
      ensures r == Success(false) <==> forall i :: 0 <= i < |customers| ==> !StopsAt(customers[i], id)
    {
      var k := FirstStop(customers, id);
      if k == |customers| {
        r := Success(false);
      } else if customers[k].id.None? {
        r := Failure(NullPointer);
      } else {
        r := Success(true);
      }
    }

    /** Removes only the first customer with that id, keeping the others in
        order; no match removes nothing. */
    method DeleteCustomerById(id: int) returns (r: Outcome<Fault>)
      modifies this
      ensures var k := FirstStop(old(customers), id);
        if k == |old(customers)| then r == Pass && customers == old(customers)
        else if old(customers)[k].id.None? then r == Fail(NullPointer) && customers == old(customers)
        else r == Pass && customers == old(customers)[..k] + old(customers)[k + 1..]
    {
      var k := FirstStop(customers, id);
      if k == |customers| {
        return Pass;
      }
      if customers[k].id.None? {
        return Fail(NullPointer);
      }
      var found := customers[k];
      var i := IndexOf(customers, found);
      customers := customers[..i] + customers[i + 1..];
      r := Pass;
    }

    /** Appends rather than replacing: the older record stays where it was. */
    method UpdateCustomer(c: CustomerData)
      modifies this
      ensures customers == old(customers) + [c]
    {
      customers := customers + [c];
    }

    /** The update the store evidently intends: the record the lookup by
        `c`'s id finds is replaced in place; without one nothing changes. */
    method ReplaceCustomer(c: CustomerData)
      requires c.id.Some?
      modifies this
      ensures var k := FirstStop(old(customers), c.id.value);
        if k < |old(customers)| && old(customers)[k].id == c.id then customers == old(customers)[k := c]
        else customers == old(customers)
    {
      var k := FirstStop(customers, c.id.value);
      if k < |customers| && customers[k].id == c.id {
        customers := customers[k := c];
      }
    }

    /** The first customer whose username (the email) matches. */
    method SelectUserByEmail(email: string) returns (r: Option<CustomerData>)
      ensures r.None? <==> forall i :: 0 <= i < |customers| ==> customers[i].email != email
      ensures r.Some? ==> r.value.email == email && r.value == customers[FirstWithEmail(customers, email)]
    {
      var k := FirstWithEmail(customers, email);
      r := if k < |customers| then Some(customers[k]) else None;
    }
  }

  /** Once a customer with `id` can be found, appending anything (as
      `updateCustomer` does) leaves the lookup where it was. */
  lemma {:induction false} AppendKeepsFirstStop(s: seq<CustomerData>, c: CustomerData, id: int)
    requires FirstStop(s, id) < |s|
    ensures FirstStop(s + [c], id) == FirstStop(s, id)
  {
    if !StopsAt(s[0], id) {
      assert (s + [c])[1..] == s[1..] + [c];
      AppendKeepsFirstStop(s[1..], c, id);
    }
  }

  /** After an update of a customer that the list already holds, the lookup
      by id still yields the older record, not the new one. */
  lemma UpdateShadowedByOlderRecord(s: seq<CustomerData>, c: CustomerData, id: int)
    requires FirstStop(s, id) < |s| && s[FirstStop(s, id)].id == Some(id)
    requires c.id == Some(id) && c != s[FirstStop(s, id)]
    ensures FirstStop(s + [c], id) < |s|
    ensures (s + [c])[FirstStop(s + [c], id)] == s[FirstStop(s, id)] != c
  {
    AppendKeepsFirstStop(s, c, id);
  }

  /** A customer inserted without an id (as the service's addCustomer builds
      it) makes every later lookup of an id other than 1 and 2 throw. */
  lemma IdlessInsertBreaksLookups(c: CustomerData, id: int)
    requires c.id.None? && id != 1 && id != 2
    ensures var s := [ALEX, JAMILA, c]; FirstStop(s, id) == 2 && s[2].id.None?
  {
    var s := [ALEX, JAMILA, c];
    assert s[1..] == [JAMILA, c] && [JAMILA, c][1..] == [c];
    assert FirstStop([c], id) == 0;
    assert FirstStop([JAMILA, c], id) == 1;
  }

  /** After ReplaceCustomer's write the lookup by id finds the new record,
      at the position of the old one. */
  lemma ReplaceThenLookup(s: seq<CustomerData>, c: CustomerData)
    requires c.id.Some?
    requires FirstStop(s, c.id.value) < |s| && s[FirstStop(s, c.id.value)].id == c.id
    ensures var k := FirstStop(s, c.id.value);
      FirstStop(s[k := c], c.id.value) == k && s[k := c][k] == c
  {
    var id, k := c.id.value, FirstStop(s, c.id.value);
    var t := s[k := c];
    assert forall j :: 0 <= j < k ==> t[j] == s[j];
    assert StopsAt(t[k], id);
  }
}
