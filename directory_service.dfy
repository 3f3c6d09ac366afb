/** The customer service: each operation queries and writes the record store
    and the blob store in the order the Java service does, and is proved to have
    exactly the effect its DirectorySpec function describes. */
module DirectoryService {
  import opened Wrappers
  import opened Errors
  import opened Customers
  import opened Stores
  import DirectorySpec

  class CustomerService {
    const dao: RecordStore
    const s3: BlobStore
    /** The customer bucket's name. */
    const bucket: string
    /** The password encoder's one-way hash. */
    const encode: string -> string

    constructor (dao: RecordStore, s3: BlobStore, bucket: string, encode: string -> string)
      ensures this.dao == dao && this.s3 == s3 && this.bucket == bucket && this.encode == encode
    {
      this.dao := dao;
      this.s3 := s3;
      this.bucket := bucket;
      this.encode := encode;
    }

    /** The state the specification functions speak about. */
    ghost function State(): DirectorySpec.State
      reads dao, s3
    {
      DirectorySpec.State(dao.rows, dao.nextId, s3.objects)
    }

    /** The views of the rows the store lists: at most LIMIT, each a stored
        customer's view, no customer twice, all of them when there are no
        more than LIMIT. */
    method GetAllCustomers() returns (r: seq<DirectorySpec.CustomerDTO>)
      requires dao.Valid()
      ensures |r| == if |dao.rows| < LIMIT then |dao.rows| else LIMIT
      ensures forall i :: 0 <= i < |r| ==>
        r[i].id.Some? && r[i].id.value in dao.rows && r[i] == DirectorySpec.ToDTO(dao.rows[r[i].id.value])
      ensures forall i, j :: 0 <= i < j < |r| ==> r[i].id.value < r[j].id.value
      ensures |dao.rows| <= LIMIT ==> forall k :: k in dao.rows ==> DirectorySpec.ToDTO(dao.rows[k]) in r
    {
      var all := dao.SelectAllCustomers();
      r := seq(|all|, i requires 0 <= i < |all| => DirectorySpec.ToDTO(all[i]));
      if |dao.rows| <= LIMIT {
        forall k | k in dao.rows
          ensures DirectorySpec.ToDTO(dao.rows[k]) in r
        {
          var i :| 0 <= i < |all| && all[i] == dao.rows[k];
          assert r[i] == DirectorySpec.ToDTO(dao.rows[k]);
        }
      }
    }

    method GetCustomerById(id: int) returns (r: Result<DirectorySpec.CustomerDTO, Error>)
      ensures r == DirectorySpec.GetCustomerById(dao.rows, id)
    {
      var found := dao.SelectCustomerById(id);
      if found.None? {
        return Failure(ResourceNotFound(WithId("Customer with id [", id, "] not found!")));
      }
      r := Success(DirectorySpec.ToDTO(found.value));
    }

    method AddCustomer(req: DirectorySpec.CustomerRegistrationRequest) returns (r: Outcome<Error>)
      requires dao.Valid()
      modifies dao
      ensures dao.Valid()
      ensures var step := DirectorySpec.AddCustomer(old(State()), req, encode);
        r == step.outcome && State() == step.after
    {
      var taken := dao.ExistCustomerWithEmail(req.email);
      if taken {
        return Fail(DuplicateResource(Text("email already taken")));
      }
      var customer := new Customer.NoId(req.name, req.email, encode(req.password), req.age, req.gender);
      dao.InsertCustomer(customer.Data());
      r := Pass;
    }

    method DeleteCustomerById(id: int) returns (r: Outcome<Error>)
      requires dao.Valid()
      modifies dao
      ensures dao.Valid()
      ensures var step := DirectorySpec.DeleteCustomerById(old(State()), id);
        r == step.outcome && State() == step.after
    {
      r := CheckIfCustomerExistsOrThrow(id);
      if r.Fail? {
        return;
      }
      dao.DeleteCustomerById(id);
    }

    method CheckIfCustomerExistsOrThrow(id: int) returns (r: Outcome<Error>)
      ensures r.Pass? <==> id in dao.rows
      ensures r.Fail? ==> r.error == ResourceNotFound(WithId("customer with id [", id, "] not found."))
    {
      var present := dao.ExistCustomerById(id);
      r := if present then Pass else Fail(ResourceNotFound(WithId("customer with id [", id, "] not found.")));
    }

    /** Loads the customer, applies each supplied and different field through
        its setter while noting that something changed, and writes the
        merged record once. */
    method UpdateCustomerById(id: int, req: CustomerUpdateRequest) returns (r: Outcome<Error>)
      requires dao.Valid()
      modifies dao
      ensures dao.Valid()
      ensures var step := DirectorySpec.UpdateCustomerById(old(State()), id, req);
        r == step.outcome && State() == step.after
    {
      ghost var s0 := State();
      ghost var step := DirectorySpec.UpdateCustomerById(s0, id, req);
      var found := dao.SelectCustomerById(id);
      if found.None? {
        return Fail(ResourceNotFound(WithId("Customer with id [", id, "] not found!")));
      }
      var d := found.value;
      DirectorySpec.UpdateCases(s0, id, req);
      var customer := new Customer.Full(d.id, d.name, d.email, d.age, d.gender, d.password, d.profileImageId);
      var status := false;

      if req.name.Some? && req.name.value != customer.name {
        customer.SetName(req.name.value);
        status := true;
      }

      if req.age.Some? && req.age.value != customer.age {
        customer.SetAge(req.age.value);
        status := true;
      }

      if req.email.Some? && req.email.value != customer.email {
        var taken := dao.ExistCustomerWithEmail(req.email.value);
        if taken {
          assert unchanged(dao, s3);
          return Fail(DuplicateResource(Text("email already was taken.")));
        }
        customer.SetEmail(req.email.value);
        status := true;
      }
      assert unchanged(dao, s3);

      if !status {
        return Fail(RequestValidation(Text("no data changes found!")));
      }

      assert customer.Data() == DirectorySpec.MergeUpdate(d, req);
      dao.UpdateCustomer(customer.Data());
      r := Pass;
    }

    /** Writes the bytes under `profile-images/<customerId>/<profileImageId>`
        first and records the key after; `profileImageId` stands for the
        random UUID, `file` is `None` when reading the upload fails. */
    method UploadCustomerProfileImage(customerId: int, profileImageId: string, file: Option<Bytes>)
      returns (r: Outcome<Error>)
      requires dao.Valid()
      modifies dao, s3
      ensures dao.Valid()
      ensures var step := DirectorySpec.UploadCustomerProfileImage(old(State()), bucket, customerId, profileImageId, file);
        r == step.outcome && State() == step.after
    {
      r := CheckIfCustomerExistsOrThrow(customerId);
      if r.Fail? {
        return;
      }
      if file.None? {
        return Fail(UploadFailed(Text("failed to upload profile image")));
      }
      s3.PutObject(bucket, ProfileImagePath(customerId, profileImageId), file.value);
      dao.UpdateCustomerProfileImageId(profileImageId, customerId);
    }

    method GetCustomerProfileImage(customerId: int) returns (r: Result<Bytes, Error>)
      ensures r == DirectorySpec.GetCustomerProfileImage(State(), bucket, customerId)
    {
      var found := dao.SelectCustomerById(customerId);
      if found.None? {
        return Failure(ResourceNotFound(WithId("customer with id [", customerId, "] not found!")));
      }
      var customer := DirectorySpec.ToDTO(found.value);
      if DirectorySpec.IsBlank(customer.profileImageId) {
        return Failure(ResourceNotFound(WithId("customer with id [", customerId, "] profile image not found!")));
      }
      r := s3.GetObject(bucket, ProfileImagePath(customerId, customer.profileImageId.value));
    }
  }
}
