/** The current and the older update of a customer side by side, on the
    fields both versions share (id, name, email and age). */
module VersionComparison {
  import opened Wrappers
  import opened Errors
  import opened Customers
  import DirectorySpec
  import LegacySpec
  import Stores

  /** The older entity's view of a current record. */
  function Project(c: CustomerData): (p: LegacySpec.Customer)
    ensures p.id == c.id && p.name == c.name && p.email == c.email && p.age == c.age
  {
    LegacySpec.Customer(c.id, c.name, c.email, c.age)
  }

  /** Both versions merge a request into the same record: setting a field to
      the value it already has is the same as leaving it alone. */
  lemma MergesAgree(c: CustomerData, req: CustomerUpdateRequest)
    ensures Project(DirectorySpec.MergeUpdate(c, req)) == LegacySpec.MergeUpdate(Project(c), req)
  {
  }

  /** Every update the current version accepts, the older one accepts too,
      writing the same shared fields. */
  lemma CurrentAcceptsOnlyWhatLegacyAccepts(rows: map<int, CustomerData>, c: CustomerData, req: CustomerUpdateRequest)
    requires DirectorySpec.ApplyUpdate(rows, c, req).Success?
    ensures LegacySpec.ApplyUpdate(Project(c), req) == Success(Project(DirectorySpec.ApplyUpdate(rows, c, req).value))
  {
    MergesAgree(c, req);
  }

  /** The older version writes a record the current one refuses as unchanged
      exactly when the request supplies a name or an age and changes
      nothing; the record it writes is then the one already stored. */
  lemma LegacyWritesUnchangedRecords(rows: map<int, CustomerData>, c: CustomerData, req: CustomerUpdateRequest)
    ensures (DirectorySpec.ApplyUpdate(rows, c, req) == Failure(RequestValidation(Text("no data changes found!")))
             && LegacySpec.ApplyUpdate(Project(c), req).Success?)
            <==> (req.name.Some? || req.age.Some?) && !DirectorySpec.HasChanges(c, req)
    ensures (req.name.Some? || req.age.Some?) && !DirectorySpec.HasChanges(c, req) ==>
      LegacySpec.ApplyUpdate(Project(c), req) == Success(Project(c))
  {
    MergesAgree(c, req);
  }

  /** The older version has no uniqueness check on update: an email change
      the current version refuses as taken goes through there. */
  lemma LegacyAllowsTakenEmail(rows: map<int, CustomerData>, c: CustomerData, req: CustomerUpdateRequest)
    requires DirectorySpec.EmailClash(rows, c, req)
    ensures DirectorySpec.ApplyUpdate(rows, c, req) == Failure(DuplicateResource(Text("email already was taken.")))
    ensures var r := LegacySpec.ApplyUpdate(Project(c), req);
      r.Success? && r.value.email == req.email.value && Stores.EmailTaken(rows, r.value.email)
  {
  }

  /** Both versions refuse a request that supplies no name, no age and no
      different email, each with its own message. */
  lemma BothRefuseEmptyChange(rows: map<int, CustomerData>, c: CustomerData, req: CustomerUpdateRequest)
    requires req.name.None? && req.age.None? && !DirectorySpec.EmailChanges(c, req)
    ensures DirectorySpec.ApplyUpdate(rows, c, req) == Failure(RequestValidation(Text("no data changes found!")))
    ensures LegacySpec.ApplyUpdate(Project(c), req) == Failure(RequestValidation(Text("no data changed found!")))
  {
  }
}
