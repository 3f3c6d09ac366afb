/** What each operation of the customer service does to the record rows and
    the stored objects, as functions of the state before the call. The
    service class in DirectoryService is proved to do exactly this. */
module DirectorySpec {
  import opened Wrappers
  import opened Errors
  import opened Customers
  import opened Stores

  datatype CustomerRegistrationRequest =
    CustomerRegistrationRequest(name: string, email: string, password: string, age: int, gender: Gender)

  /** The customer as callers see it: no password, plus roles and username. */
  datatype CustomerDTO = CustomerDTO(
    id: Option<int>,
    name: string,
    email: string,
    gender: Gender,
    age: int,
    roles: seq<string>,
    username: string,
    profileImageId: Option<string>)

  /** The record rows, the id sequence of the record store, and the objects
      of the blob store. */
  datatype State = State(rows: map<int, CustomerData>, nextId: int, objects: map<ObjectKey, Bytes>)

  /** What a state-changing call returns or throws, and the state after it. */
  datatype Step = Step(outcome: Outcome<Error>, after: State)

  ghost predicate EmailsUnique(rows: map<int, CustomerData>) {
    forall j, k :: j in rows && k in rows && rows[j].email == rows[k].email ==> j == k
  }

  ghost predicate ImageIdsUnique(rows: map<int, CustomerData>) {
    forall j, k ::
      j in rows && k in rows && rows[j].profileImageId.Some? && rows[j].profileImageId == rows[k].profileImageId
      ==> j == k
  }

  /** No customer holds this image key yet (what a random UUID provides). */
  ghost predicate ImageIdFresh(rows: map<int, CustomerData>, key: string) {
    forall k :: k in rows ==> rows[k].profileImageId != Some(key)
  }

  /** The invariant the service keeps: rows under their own ids below the
      next id, no email twice, no image key twice. */
  ghost predicate Consistent(s: State) {
    && 1 <= s.nextId
    && (forall k :: k in s.rows ==> s.rows[k].id == Some(k) && 1 <= k < s.nextId)
    && EmailsUnique(s.rows)
    && ImageIdsUnique(s.rows)
  }

  /** The view of a customer that every read path returns. */
  function ToDTO(c: CustomerData): (v: CustomerDTO)
    ensures v.id == c.id && v.name == c.name && v.email == c.email && v.gender == c.gender
    ensures v.age == c.age && v.profileImageId == c.profileImageId
    ensures v.username == c.email && v.roles == [ROLE_USER]
  {
    CustomerDTO(c.id, c.name, c.email, c.gender, c.age, [ROLE_USER], c.email, c.profileImageId)
  }

  /** `Character.isWhitespace`: the Unicode space, line and paragraph
      separators except the no-break ones, and nine control characters. */
  predicate IsWhitespace(ch: char) {
    || ('\t' <= ch <= '\r')
    || ('\U{001C}' <= ch <= '\U{001F}')
    || ch == ' '
    || ch == '\U{1680}'
    || ('\U{2000}' <= ch <= '\U{2006}')
    || ('\U{2008}' <= ch <= '\U{200A}')
    || ch == '\U{2028}' || ch == '\U{2029}'
    || ch == '\U{205F}' || ch == '\U{3000}'
  }

  /** `StringUtils.isBlank`: null, empty or whitespace only. */
  predicate IsBlank(s: Option<string>) {
    s.None? || forall i :: 0 <= i < |s.value| ==> IsWhitespace(s.value[i])
  }

  function GetCustomerById(rows: map<int, CustomerData>, id: int): (r: Result<CustomerDTO, Error>)
    ensures r.Success? <==> id in rows
    ensures r.Success? ==> r.value == ToDTO(rows[id]) && r.value.id == rows[id].id
    ensures r.Failure? ==> r.error == ResourceNotFound(WithId("Customer with id [", id, "] not found!"))
  {
    if id in rows then Success(ToDTO(rows[id]))
    else Failure(ResourceNotFound(WithId("Customer with id [", id, "] not found!")))
  }

  /** The customer addCustomer builds: no id, no image, the password hashed. */
  function NewCustomer(req: CustomerRegistrationRequest, encode: string -> string): CustomerData {
    CustomerData(None, req.name, req.email, req.age, req.gender, encode(req.password), None)
  }

  function AddCustomer(s: State, req: CustomerRegistrationRequest, encode: string -> string): (r: Step)
    ensures r.outcome.Fail? <==> EmailTaken(s.rows, req.email)
    ensures r.outcome.Fail? ==>
      r.outcome.error == DuplicateResource(Text("email already taken")) && r.after == s
    ensures r.outcome.Pass? ==>
      && r.after.rows.Keys == s.rows.Keys + {s.nextId}
      && r.after.rows[s.nextId] ==
           CustomerData(Some(s.nextId), req.name, req.email, req.age, req.gender, encode(req.password), None)
      && (forall k :: k in s.rows && k != s.nextId ==> r.after.rows[k] == s.rows[k])
      && r.after.nextId == s.nextId + 1
      && r.after.objects == s.objects
  {
    if EmailTaken(s.rows, req.email) then
      Step(Fail(DuplicateResource(Text("email already taken"))), s)
    else
      var c := NewCustomer(req, encode);
      Step(Pass, s.(rows := s.rows[s.nextId := c.(id := Some(s.nextId))], nextId := s.nextId + 1))
  }

  function DeleteCustomerById(s: State, id: int): (r: Step)
    ensures r.outcome.Fail? <==> id !in s.rows
    ensures r.outcome.Fail? ==>
      r.outcome.error == ResourceNotFound(WithId("customer with id [", id, "] not found.")) && r.after == s
    ensures r.outcome.Pass? ==>
      r.after.rows.Keys == s.rows.Keys - {id} &&
      (forall k :: k in r.after.rows ==> r.after.rows[k] == s.rows[k]) &&
      r.after.nextId == s.nextId && r.after.objects == s.objects
  {
    if id !in s.rows then
      Step(Fail(ResourceNotFound(WithId("customer with id [", id, "] not found."))), s)
    else
      Step(Pass, s.(rows := s.rows - {id}))
  }

  predicate NameChanges(c: CustomerData, req: CustomerUpdateRequest) {
    req.name.Some? && req.name.value != c.name
  }

  predicate AgeChanges(c: CustomerData, req: CustomerUpdateRequest) {
    req.age.Some? && req.age.value != c.age
  }

  predicate EmailChanges(c: CustomerData, req: CustomerUpdateRequest) {
    req.email.Some? && req.email.value != c.email
  }

  predicate HasChanges(c: CustomerData, req: CustomerUpdateRequest) {
    NameChanges(c, req) || AgeChanges(c, req) || EmailChanges(c, req)
  }

  /** The email change the update must refuse: to an email some customer has. */
  predicate EmailClash(rows: map<int, CustomerData>, c: CustomerData, req: CustomerUpdateRequest) {
    EmailChanges(c, req) && EmailTaken(rows, req.email.value)
  }

  /** The loaded customer after the setters of updateCustomerById: each of
      name, age and email is set when supplied and different. */
  function MergeUpdate(c: CustomerData, req: CustomerUpdateRequest): (m: CustomerData)
    ensures m.name == req.name.GetOr(c.name) && m.age == req.age.GetOr(c.age) && m.email == req.email.GetOr(c.email)
    ensures m.id == c.id && m.gender == c.gender && m.password == c.password && m.profileImageId == c.profileImageId
    ensures m != c <==> HasChanges(c, req)
  {
    c.(name := if NameChanges(c, req) then req.name.value else c.name,
       age := if AgeChanges(c, req) then req.age.value else c.age,
       email := if EmailChanges(c, req) then req.email.value else c.email)
  }

  /** The update of a loaded customer `c`: refused on an email clash, refused
      when nothing would change, otherwise the merged record. */
  function ApplyUpdate(rows: map<int, CustomerData>, c: CustomerData, req: CustomerUpdateRequest): (r: Result<CustomerData, Error>)
    ensures r.Success? <==> HasChanges(c, req) && !EmailClash(rows, c, req)
    ensures r.Success? ==> r.value == MergeUpdate(c, req) && r.value != c
    ensures r.Failure? ==>
      (r.error == DuplicateResource(Text("email already was taken.")) <==> EmailClash(rows, c, req))
    ensures r.Failure? ==>
      (r.error == RequestValidation(Text("no data changes found!")) <==> !HasChanges(c, req))
  {
    if EmailClash(rows, c, req) then Failure(DuplicateResource(Text("email already was taken.")))
    else if !HasChanges(c, req) then Failure(RequestValidation(Text("no data changes found!")))
    else Success(MergeUpdate(c, req))
  }

  function UpdateCustomerById(s: State, id: int, req: CustomerUpdateRequest): (r: Step)
    ensures id !in s.rows ==>
      r.outcome == Fail(ResourceNotFound(WithId("Customer with id [", id, "] not found!")))
    ensures r.outcome.Fail? ==> r.after == s
    ensures r.outcome.Pass? <==> id in s.rows && ApplyUpdate(s.rows, s.rows[id], req).Success?
    ensures id in s.rows && r.outcome.Fail? ==> r.outcome.error == ApplyUpdate(s.rows, s.rows[id], req).error
    ensures r.outcome.Pass? ==>
      r.after.rows.Keys == s.rows.Keys &&
      r.after.rows[id] == MergeUpdate(s.rows[id], req) &&
      (forall k :: k in s.rows && k != id ==> r.after.rows[k] == s.rows[k]) &&
      r.after.nextId == s.nextId && r.after.objects == s.objects
  {
    if id !in s.rows then
      Step(Fail(ResourceNotFound(WithId("Customer with id [", id, "] not found!"))), s)
    else
      match ApplyUpdate(s.rows, s.rows[id], req)
      case Failure(e) => Step(Fail(e), s)
      case Success(m) => Step(Pass, s.(rows := s.rows[id := m]))
  }

  /** The three ways an update of a stored customer ends, by the request
      alone: a clash, no change, or the merged record written back. */
  lemma UpdateCases(s: State, id: int, req: CustomerUpdateRequest)
    requires id in s.rows
    ensures var d, step := s.rows[id], UpdateCustomerById(s, id, req);
      && (EmailClash(s.rows, d, req) ==>
            step == Step(Fail(DuplicateResource(Text("email already was taken."))), s))
      && (!EmailClash(s.rows, d, req) && !HasChanges(d, req) ==>
            step == Step(Fail(RequestValidation(Text("no data changes found!"))), s))
      && (!EmailClash(s.rows, d, req) && HasChanges(d, req) ==>
            step == Step(Pass, s.(rows := s.rows[id := MergeUpdate(d, req)])))
  {
  }

  /** Where the image of customer `id` under key `key` is stored. */
  function ImageKey(bucket: string, id: int, key: string): ObjectKey {
    ObjectKey(bucket, ProfileImagePath(id, key))
  }

  /** `file` is the upload's content, `None` when reading it fails;
      `key` is the fresh random image key. */
  function UploadCustomerProfileImage(s: State, bucket: string, id: int, key: string, file: Option<Bytes>): (r: Step)
    ensures id !in s.rows ==>
      r == Step(Fail(ResourceNotFound(WithId("customer with id [", id, "] not found."))), s)
    ensures id in s.rows && file.None? ==>
      r == Step(Fail(UploadFailed(Text("failed to upload profile image"))), s)
    ensures r.outcome.Pass? <==> id in s.rows && file.Some?
    ensures r.outcome.Pass? ==>
      && r.after.objects == s.objects[ImageKey(bucket, id, key) := file.value]
      && r.after.rows.Keys == s.rows.Keys
      && r.after.rows[id] == s.rows[id].(profileImageId := Some(key))
      && (forall k :: k in s.rows && k != id ==> r.after.rows[k] == s.rows[k])
      && r.after.nextId == s.nextId
  {
    if id !in s.rows then
      Step(Fail(ResourceNotFound(WithId("customer with id [", id, "] not found."))), s)
    else if file.None? then
      Step(Fail(UploadFailed(Text("failed to upload profile image"))), s)
    else
      Step(Pass, s.(objects := s.objects[ImageKey(bucket, id, key) := file.value],
                    rows := s.rows[id := s.rows[id].(profileImageId := Some(key))]))
  }

  function GetCustomerProfileImage(s: State, bucket: string, id: int): (r: Result<Bytes, Error>)
    ensures id !in s.rows ==>
      r == Failure(ResourceNotFound(WithId("customer with id [", id, "] not found!")))
    ensures id in s.rows && IsBlank(s.rows[id].profileImageId) ==>
      r == Failure(ResourceNotFound(WithId("customer with id [", id, "] profile image not found!")))
    ensures r.Success? <==>
      id in s.rows && !IsBlank(s.rows[id].profileImageId) &&
      ImageKey(bucket, id, s.rows[id].profileImageId.value) in s.objects
    ensures r.Success? ==> r.value == s.objects[ImageKey(bucket, id, s.rows[id].profileImageId.value)]
    ensures r.Failure? && id in s.rows && !IsBlank(s.rows[id].profileImageId) ==> r.error == NoSuchObject
  {
    if id !in s.rows then
      Failure(ResourceNotFound(WithId("customer with id [", id, "] not found!")))
    else
      var view := ToDTO(s.rows[id]);
      if IsBlank(view.profileImageId) then
        Failure(ResourceNotFound(WithId("customer with id [", id, "] profile image not found!")))
      else
        var key := ImageKey(bucket, id, view.profileImageId.value);
        if key in s.objects then Success(s.objects[key]) else Failure(NoSuchObject)
  }
}
