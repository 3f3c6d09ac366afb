/** Properties of the customer service that relate several calls, or that
    every call keeps. */
module DirectoryProperties {
  import opened Wrappers
  import opened Errors
  import opened Customers
  import opened Stores
  import opened DirectorySpec

  /** The view hides the password and nothing else: two customers have the
      same view exactly when they agree on every other field. */
  lemma ViewForgetsOnlyPassword(a: CustomerData, b: CustomerData)
    ensures ToDTO(a) == ToDTO(b) <==> a.(password := b.password) == b
  {
    if ToDTO(a) == ToDTO(b) {
      assert a.id == ToDTO(a).id == ToDTO(b).id == b.id;
      assert a.profileImageId == ToDTO(a).profileImageId == ToDTO(b).profileImageId == b.profileImageId;
    }
  }

  /** A successful add stores exactly one new record, under a new id. */
  lemma AddInsertsExactlyOne(s: State, req: CustomerRegistrationRequest, encode: string -> string)
    requires Consistent(s)
    requires AddCustomer(s, req, encode).outcome.Pass?
    ensures |AddCustomer(s, req, encode).after.rows| == |s.rows| + 1
    ensures s.nextId !in s.rows
  {
  }

  lemma AddKeepsConsistent(s: State, req: CustomerRegistrationRequest, encode: string -> string)
    requires Consistent(s)
    ensures Consistent(AddCustomer(s, req, encode).after)
  {
    if AddCustomer(s, req, encode).outcome.Pass? {
      assert forall k :: k in s.rows ==> s.rows[k].email != req.email;
    }
  }

  /** Reading back a freshly added customer shows the request's fields, the
      role ROLE_USER, the email as username, and no image. */
  lemma AddThenGet(s: State, req: CustomerRegistrationRequest, encode: string -> string)
    requires Consistent(s) && !EmailTaken(s.rows, req.email)
    ensures var t := AddCustomer(s, req, encode).after;
      GetCustomerById(t.rows, s.nextId) ==
        Success(CustomerDTO(Some(s.nextId), req.name, req.email, req.gender, req.age, [ROLE_USER], req.email, None))
  {
  }

  lemma DeleteKeepsConsistent(s: State, id: int)
    requires Consistent(s)
    ensures Consistent(DeleteCustomerById(s, id).after)
  {
  }

  /** After a delete the customer cannot be read, and its image (if any)
      stays behind in the blob store. */
  lemma DeleteThenGet(s: State, id: int)
    requires id in s.rows
    ensures var t := DeleteCustomerById(s, id).after;
      GetCustomerById(t.rows, id) == Failure(ResourceNotFound(WithId("Customer with id [", id, "] not found!"))) &&
      t.objects == s.objects
  {
  }

  /** Applying the same partial update twice changes nothing the second time. */
  lemma MergeUpdateIdempotent(c: CustomerData, req: CustomerUpdateRequest)
    ensures MergeUpdate(MergeUpdate(c, req), req) == MergeUpdate(c, req)
    ensures !HasChanges(MergeUpdate(c, req), req)
  {
  }

  lemma UpdateKeepsConsistent(s: State, id: int, req: CustomerUpdateRequest)
    requires Consistent(s)
    ensures Consistent(UpdateCustomerById(s, id, req).after)
  {
    var r := UpdateCustomerById(s, id, req);
    if r.outcome.Pass? && EmailChanges(s.rows[id], req) {
      assert forall k :: k in s.rows ==> s.rows[k].email != req.email.value;
    }
  }

  /** Repeating a successful update is refused as a no-op, and writes nothing. */
  lemma RepeatedUpdateRejected(s: State, id: int, req: CustomerUpdateRequest)
    requires UpdateCustomerById(s, id, req).outcome.Pass?
    ensures var t := UpdateCustomerById(s, id, req).after;
      UpdateCustomerById(t, id, req) == Step(Fail(RequestValidation(Text("no data changes found!"))), t)
  {
    MergeUpdateIdempotent(s.rows[id], req);
  }

  /** An upload with a fresh key keeps every image key unique. */
  lemma UploadKeepsConsistent(s: State, bucket: string, id: int, key: string, file: Option<Bytes>)
    requires Consistent(s) && ImageIdFresh(s.rows, key)
    ensures Consistent(UploadCustomerProfileImage(s, bucket, id, key, file).after)
  {
    var r := UploadCustomerProfileImage(s, bucket, id, key, file);
    if r.outcome.Pass? {
      var t := r.after;
      forall j, k | j in t.rows && k in t.rows && t.rows[j].email == t.rows[k].email
        ensures j == k
      {
        assert s.rows[j].email == t.rows[j].email && s.rows[k].email == t.rows[k].email;
      }
      forall j, k | j in t.rows && k in t.rows && t.rows[j].profileImageId.Some? &&
                    t.rows[j].profileImageId == t.rows[k].profileImageId
        ensures j == k
      {
        if j != id && k != id {
          assert s.rows[j].profileImageId == t.rows[j].profileImageId;
          assert s.rows[k].profileImageId == t.rows[k].profileImageId;
        }
      }
    }
  }

  /** Reading the image right after uploading it returns exactly the
      uploaded bytes (a UUID key is never blank). */
  lemma UploadThenDownload(s: State, bucket: string, id: int, key: string, bytes: Bytes)
    requires id in s.rows && !IsBlank(Some(key))
    ensures var t := UploadCustomerProfileImage(s, bucket, id, key, Some(bytes)).after;
      GetCustomerProfileImage(t, bucket, id) == Success(bytes)
  {
  }

  /** A customer without an image gets the "profile image not found" error. */
  lemma DownloadWithoutImage(s: State, bucket: string, id: int)
    requires id in s.rows && s.rows[id].profileImageId.None?
    ensures GetCustomerProfileImage(s, bucket, id) ==
      Failure(ResourceNotFound(WithId("customer with id [", id, "] profile image not found!")))
  {
  }

  /** A second upload replaces the key: the download returns the new bytes,
      while the first object stays in the blob store, orphaned. */
  lemma ReuploadOrphansFirstImage(s: State, bucket: string, id: int, key1: string, key2: string, b1: Bytes, b2: Bytes)
    requires id in s.rows && key1 != key2 && !IsBlank(Some(key2))
    ensures var t1 := UploadCustomerProfileImage(s, bucket, id, key1, Some(b1)).after;
      var t2 := UploadCustomerProfileImage(t1, bucket, id, key2, Some(b2)).after;
      && GetCustomerProfileImage(t2, bucket, id) == Success(b2)
      && t2.objects[ImageKey(bucket, id, key1)] == b1
      && t2.rows[id].profileImageId == Some(key2)
  {
    var t1 := UploadCustomerProfileImage(s, bucket, id, key1, Some(b1)).after;
    assert ImageKey(bucket, id, key1) != ImageKey(bucket, id, key2);
  }
}
