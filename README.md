# Customer directory, modelled in Dafny

This project models the customer directory of spring-full-stack, a Spring Boot
application. Customers register with a name, an email, a password, an age and a
gender. They can be listed, read by id, updated field by field, deleted, and
given a profile image that is kept in an S3 bucket. The model covers:

- the `Customer` entity (`customer.dfy`, module `Customers`): a value
  `CustomerData`, and a class `Customer` for the mutable Java object. The class
  has the three constructors, the setters, the Spring Security `UserDetails`
  answers and `equals`.
- the data-access contract `CustomerDao` and the object store (`stores.dfy`,
  module `Stores`):
  - `RecordStore` holds rows keyed by the database id, with an id sequence.
  - `BlobStore` holds bytes keyed by bucket and object path.
- the current `CustomerService`:
  - `directory_spec.dfy` (module `DirectorySpec`) describes each operation as a
    function from the state before the call to an outcome and the state after.
  - `directory_service.dfy` (module `DirectoryService`) is the service class
    over the two stores. Each of its methods is proved to do exactly what the
    matching function describes.
  - `directory_properties.dfy` (module `DirectoryProperties`) holds the
    properties that relate several calls, or that every call keeps.
- the in-memory store `CustomerListDataAccessService` (`list_store.dfy`, module
  `ListStore`): one list, searched front to back. Looking up an id throws when
  the search reaches a customer whose id is null; the model keeps that as a
  `NullPointer` fault.
- the older `CustomerService` of the first version of the application:
  - `legacy_spec.dfy` (module `LegacySpec`) describes its operations.
  - `legacy_service.dfy` (module `LegacyService`) is its service class.
  - `version_comparison.dfy` (module `VersionComparison`) compares the two
    versions' update rules.

Exceptions become values. `Errors.Error` holds the exception class and its
message. A message that formats an id is kept as `WithId(prefix, id, suffix)`,
so `"customer with id [%s] not found."` becomes
`WithId("customer with id [", id, "] not found.")`.

Nothing random, external or clock-driven is modelled. These become parameters
instead:

- The password encoder is a function `encode` that the service is built with.
- The UUID drawn for a new profile image is an argument.
- The uploaded file's bytes are an `Option`; `None` stands for the
  `IOException` that `getBytes()` can throw.

## Model

| member | source | states |
|---|---|---|
| Customers.Customer.NoId | backend/src/main/java/com/msbeigi/customer/Customer.java:98-104 | the new customer holds the given name, email, password, age and gender, with no id and no profile image |
| Customers.Customer.WithoutImage | backend/src/main/java/com/msbeigi/customer/Customer.java:78-85 | the new customer holds the given id and the five fields, with no profile image |
| Customers.Customer.Full | backend/src/main/java/com/msbeigi/customer/Customer.java:87-96 | the new customer holds all seven given fields |
| Customers.Customer.SetId | backend/src/main/java/com/msbeigi/customer/Customer.java:110-112 | only the id changes, to the given one |
| Customers.Customer.SetGender | backend/src/main/java/com/msbeigi/customer/Customer.java:118-120 | only the gender changes |
| Customers.Customer.SetName | backend/src/main/java/com/msbeigi/customer/Customer.java:126-128 | only the name changes |
| Customers.Customer.SetEmail | backend/src/main/java/com/msbeigi/customer/Customer.java:134-136 | only the email changes |
| Customers.Customer.SetAge | backend/src/main/java/com/msbeigi/customer/Customer.java:142-144 | only the age changes |
| Customers.Customer.SetProfileImageId | backend/src/main/java/com/msbeigi/customer/Customer.java:185-187 | only the profile image id changes |
| Customers.Customer.Authorities | backend/src/main/java/com/msbeigi/customer/Customer.java:146-149 | every customer has exactly one authority, ROLE_USER |
| Customers.Customer.Username | backend/src/main/java/com/msbeigi/customer/Customer.java:156-159 | the username is the customer's email |
| Customers.Customer.IsAccountNonExpired | backend/src/main/java/com/msbeigi/customer/Customer.java:161-164 | no account ever expires |
| Customers.Customer.IsAccountNonLocked | backend/src/main/java/com/msbeigi/customer/Customer.java:166-169 | no account is ever locked |
| Customers.Customer.IsCredentialsNonExpired | backend/src/main/java/com/msbeigi/customer/Customer.java:171-174 | credentials never expire |
| Customers.Customer.IsEnabled | backend/src/main/java/com/msbeigi/customer/Customer.java:176-179 | every account is enabled |
| Customers.Customer.Equals | backend/src/main/java/com/msbeigi/customer/Customer.java:189-195 | two customers are equal exactly when all seven fields agree (identity included) |
| Stores.RecordStore.constructor | backend/src/main/java/com/msbeigi/customer/CustomerDao.java:6-15 | an empty store whose id sequence starts at 1 |
| Stores.RecordStore.SelectAllCustomers | backend/src/main/java/com/msbeigi/customer/CustomerJDBCDataAccessService.java:22-29 | returns min(row count, 1000) stored rows, each under its own id, no row twice; all rows when there are at most 1000 |
| Stores.RowsBelowSound | backend/src/main/java/com/msbeigi/customer/CustomerJDBCDataAccessService.java:22-29 | every row the ascending scan gathers is stored under its own id, below the bound, and the ids strictly ascend |
| Stores.RowsBelowComplete | backend/src/main/java/com/msbeigi/customer/CustomerJDBCDataAccessService.java:22-29 | every stored row whose id lies below the bound is gathered |
| Stores.RowsBelowCount | backend/src/main/java/com/msbeigi/customer/CustomerJDBCDataAccessService.java:22-29 | the scan gathers exactly one row per stored id below the bound |
| Stores.RecordStore.SelectCustomerById | backend/src/main/java/com/msbeigi/customer/CustomerJDBCDataAccessService.java:32-39 | the row with that id if there is one, otherwise empty |
| Stores.RecordStore.InsertCustomer | backend/src/main/java/com/msbeigi/customer/CustomerJDBCDataAccessService.java:42-48 | adds the customer under the next id, with that id; no other row changes and the sequence advances |
| Stores.RecordStore.ExistCustomerWithEmail | backend/src/main/java/com/msbeigi/customer/CustomerJDBCDataAccessService.java:51-58 | true exactly when some row has that email |
| Stores.RecordStore.DeleteCustomerById | backend/src/main/java/com/msbeigi/customer/CustomerJDBCDataAccessService.java:61-67 | removes exactly the row with that id, if any |
| Stores.RecordStore.ExistCustomerById | backend/src/main/java/com/msbeigi/customer/CustomerJDBCDataAccessService.java:70-76 | true exactly when a row has that id |
| Stores.RecordStore.UpdateCustomer | backend/src/main/java/com/msbeigi/customer/CustomerJDBCDataAccessService.java:79-95 | replaces the row under the customer's id; an unknown or missing id changes nothing |
| Stores.RecordStore.SelectUserByEmail | backend/src/main/java/com/msbeigi/customer/CustomerJDBCDataAccessService.java:98-103 | a stored row with that email exactly when one exists |
| Stores.RecordStore.UpdateCustomerProfileImageId | backend/src/main/java/com/msbeigi/customer/CustomerRepository.java:14-19 | sets the profile image id of the row with that id and changes nothing else |
| Stores.BlobStore.PutObject | backend/src/main/java/com/msbeigi/customer/CustomerService.java:119-123 | stores the bytes under the bucket and path, replacing any earlier object |
| Stores.BlobStore.GetObject | backend/src/main/java/com/msbeigi/customer/CustomerService.java:142-145 | the stored bytes, or NoSuchObject when nothing is stored there |
| ListStore.FirstStop | backend/src/main/java/com/msbeigi/customer/CustomerListDataAccessService.java:36-39 | the first position where the id filter matches or meets a null id, or the list's end |
| ListStore.FirstWithEmail | backend/src/main/java/com/msbeigi/customer/CustomerListDataAccessService.java:49-50 | the first position holding that email, or the list's end |
| ListStore.IndexOf | backend/src/main/java/com/msbeigi/customer/CustomerListDataAccessService.java:64 | the first position holding an equal customer, which `List.remove(Object)` removes |
| ListStore.CustomerListDataAccessService.constructor | backend/src/main/java/com/msbeigi/customer/CustomerListDataAccessService.java:15-27 | the list starts as Alex (id 1), then Jamila (id 2) |
| ListStore.CustomerListDataAccessService.SelectAllCustomers | backend/src/main/java/com/msbeigi/customer/CustomerListDataAccessService.java:29-32 | returns the whole list, in order |
| ListStore.CustomerListDataAccessService.SelectCustomerById | backend/src/main/java/com/msbeigi/customer/CustomerListDataAccessService.java:34-40 | the first customer with that id; empty when the search ends without a match; a fault exactly when it meets a null id first |
| ListStore.CustomerListDataAccessService.InsertCustomer | backend/src/main/java/com/msbeigi/customer/CustomerListDataAccessService.java:42-45 | appends the customer as given |
| ListStore.CustomerListDataAccessService.ExistCustomerWithEmail | backend/src/main/java/com/msbeigi/customer/CustomerListDataAccessService.java:47-51 | true exactly when some customer has that email |
| ListStore.CustomerListDataAccessService.ExistCustomerById | backend/src/main/java/com/msbeigi/customer/CustomerListDataAccessService.java:53-57 | true when the id is found before any null id, false when neither is met, a fault otherwise |
| ListStore.CustomerListDataAccessService.DeleteCustomerById | backend/src/main/java/com/msbeigi/customer/CustomerListDataAccessService.java:59-65 | removes only the first match, keeping the order of the rest; no match changes nothing; a null id met first is a fault |
| ListStore.CustomerListDataAccessService.UpdateCustomer | backend/src/main/java/com/msbeigi/customer/CustomerListDataAccessService.java:67-70 | appends the customer, exactly as insert does |
| ListStore.CustomerListDataAccessService.ReplaceCustomer | backend/src/main/java/com/msbeigi/customer/CustomerListDataAccessService.java:67-70 | the corrected update: the record found by the id is replaced in place |
| ListStore.CustomerListDataAccessService.SelectUserByEmail | backend/src/main/java/com/msbeigi/customer/CustomerListDataAccessService.java:72-78 | the first customer whose username (email) matches, empty exactly when none does |
| ListStore.AppendKeepsFirstStop | backend/src/main/java/com/msbeigi/customer/CustomerListDataAccessService.java:67-70 | once an id is found, appending anything leaves the search where it was |
| ListStore.UpdateShadowedByOlderRecord | backend/src/main/java/com/msbeigi/customer/CustomerListDataAccessService.java:67-70 | after an update of a stored customer, the lookup by id still returns the old record, not the new one |
| ListStore.ReplaceThenLookup | backend/src/main/java/com/msbeigi/customer/CustomerListDataAccessService.java:67-70 | after the corrected update, the lookup by id returns the new record |
| ListStore.IdlessInsertBreaksLookups | backend/src/main/java/com/msbeigi/customer/CustomerListDataAccessService.java:42-45 | after inserting a customer without an id into the initial list, every lookup of an id other than 1 and 2 meets the null id |
| DirectorySpec.ToDTO | backend/src/main/java/com/msbeigi/customer/CustomerService.java:46-51 | the view carries the customer's id, name, email, gender, age and profile image id (everything but the password), the email as the username and ROLE_USER as the only role |
| DirectorySpec.GetCustomerById | backend/src/main/java/com/msbeigi/customer/CustomerService.java:46-51 | succeeds exactly for a stored id, with that customer's view; otherwise ResourceNotFound "Customer with id [id] not found!" |
| DirectorySpec.AddCustomer | backend/src/main/java/com/msbeigi/customer/CustomerService.java:53-68 | fails with DuplicateResource "email already taken" exactly when the email is taken, changing nothing; otherwise stores one new customer under the next id with the encoded password, no image, and every other row unchanged |
| DirectorySpec.DeleteCustomerById | backend/src/main/java/com/msbeigi/customer/CustomerService.java:70-79 | fails with ResourceNotFound "customer with id [id] not found." exactly for an unknown id; otherwise removes exactly that row and leaves the objects alone |
| DirectorySpec.MergeUpdate | backend/src/main/java/com/msbeigi/customer/CustomerService.java:87-105 | each supplied name, age and email replaces the stored one; other fields are kept; the record changes exactly when some supplied value differs |
| DirectorySpec.ApplyUpdate | backend/src/main/java/com/msbeigi/customer/CustomerService.java:87-109 | DuplicateResource "email already was taken." exactly on a change to a taken email; RequestValidation "no data changes found!" exactly when nothing differs; otherwise the merged, changed record |
| DirectorySpec.UpdateCustomerById | backend/src/main/java/com/msbeigi/customer/CustomerService.java:81-112 | an unknown id fails with ResourceNotFound; a refused update changes nothing; a successful one rewrites only that row, with the merged record |
| DirectorySpec.UpdateCases | backend/src/main/java/com/msbeigi/customer/CustomerService.java:99-111 | for a stored customer, the update ends in one of three ways decided by the request alone: taken email, no change, or the merged record written back |
| DirectorySpec.UploadCustomerProfileImage | backend/src/main/java/com/msbeigi/customer/CustomerService.java:115-128 | an unknown id fails first; a failed read of the file fails with "failed to upload profile image"; otherwise the bytes go under profile-images/id/key and the row records the key |
| DirectorySpec.GetCustomerProfileImage | backend/src/main/java/com/msbeigi/customer/CustomerService.java:130-146 | an unknown id fails with "customer with id [id] not found!"; a blank or missing key fails with "...profile image not found!"; otherwise the object under profile-images/id/key, or NoSuchObject when nothing is stored there |
| DirectoryService.CustomerService.constructor | backend/src/main/java/com/msbeigi/customer/CustomerService.java:28-37 | the service holds the given record store, object store, bucket and password encoder |
| DirectoryService.CustomerService.GetAllCustomers | backend/src/main/java/com/msbeigi/customer/CustomerService.java:39-44 | one view per selected row, min(row count, 1000) of them, each the view of a stored customer, in strictly ascending id order so no customer twice; every customer's view when there are at most 1000 |
| DirectoryService.CustomerService.GetCustomerById | backend/src/main/java/com/msbeigi/customer/CustomerService.java:46-51 | returns what DirectorySpec.GetCustomerById gives for the stored rows |
| DirectoryService.CustomerService.AddCustomer | backend/src/main/java/com/msbeigi/customer/CustomerService.java:53-68 | outcome and new state are those of DirectorySpec.AddCustomer; the store stays valid |
| DirectoryService.CustomerService.DeleteCustomerById | backend/src/main/java/com/msbeigi/customer/CustomerService.java:70-73 | outcome and new state are those of DirectorySpec.DeleteCustomerById |
| DirectoryService.CustomerService.CheckIfCustomerExistsOrThrow | backend/src/main/java/com/msbeigi/customer/CustomerService.java:75-79 | passes exactly for a stored id; otherwise ResourceNotFound "customer with id [id] not found." |
| DirectoryService.CustomerService.UpdateCustomerById | backend/src/main/java/com/msbeigi/customer/CustomerService.java:81-112 | outcome and new state are those of DirectorySpec.UpdateCustomerById, reached through the entity's setters and the status flag |
| DirectoryService.CustomerService.UploadCustomerProfileImage | backend/src/main/java/com/msbeigi/customer/CustomerService.java:115-128 | outcome and new state are those of DirectorySpec.UploadCustomerProfileImage |
| DirectoryService.CustomerService.GetCustomerProfileImage | backend/src/main/java/com/msbeigi/customer/CustomerService.java:130-146 | returns what DirectorySpec.GetCustomerProfileImage gives for the current state |
| DirectoryProperties.ViewForgetsOnlyPassword | backend/src/main/java/com/msbeigi/customer/CustomerService.java:46-51 | two customers have the same view exactly when they differ at most in the password |
| DirectoryProperties.AddInsertsExactlyOne | backend/src/main/java/com/msbeigi/customer/CustomerService.java:53-68 | a successful add grows the directory by exactly one customer, under an id not used before |
| DirectoryProperties.AddKeepsConsistent | backend/src/main/java/com/msbeigi/customer/CustomerService.java:53-68 | add keeps ids consistent, emails unique and image keys unique |
| DirectoryProperties.AddThenGet | backend/src/main/java/com/msbeigi/customer/CustomerService.java:46-68 | a customer read back right after being added shows the request's fields, ROLE_USER, the email as username and no image |
| DirectoryProperties.DeleteKeepsConsistent | backend/src/main/java/com/msbeigi/customer/CustomerService.java:70-79 | delete keeps the directory consistent |
| DirectoryProperties.DeleteThenGet | backend/src/main/java/com/msbeigi/customer/CustomerService.java:46-79 | a deleted customer reads as not found, and the stored images are left as they were |
| DirectoryProperties.MergeUpdateIdempotent | backend/src/main/java/com/msbeigi/customer/CustomerService.java:87-105 | merging the same request twice equals merging it once, and the merged record has no pending change |
| DirectoryProperties.UpdateKeepsConsistent | backend/src/main/java/com/msbeigi/customer/CustomerService.java:81-112 | update keeps the directory consistent, emails unique included |
| DirectoryProperties.RepeatedUpdateRejected | backend/src/main/java/com/msbeigi/customer/CustomerService.java:81-112 | repeating a successful update fails with "no data changes found!" and changes nothing |
| DirectoryProperties.UploadKeepsConsistent | backend/src/main/java/com/msbeigi/customer/CustomerService.java:115-128 | an upload with a fresh key keeps the directory consistent, image keys unique included |
| DirectoryProperties.UploadThenDownload | backend/src/main/java/com/msbeigi/customer/CustomerService.java:115-146 | downloading right after an upload returns exactly the uploaded bytes |
| DirectoryProperties.DownloadWithoutImage | backend/src/main/java/com/msbeigi/customer/CustomerService.java:137-140 | a customer without an image gets "customer with id [id] profile image not found!" |
| DirectoryProperties.ReuploadOrphansFirstImage | backend/src/main/java/com/msbeigi/customer/CustomerService.java:115-146 | a second upload makes the download return the new bytes, while the first object stays stored |
| LegacySpec.GetCustomerById | src/main/java/com/msbeigi/customer/CustomerService.java:24-28 | succeeds exactly for a stored id; otherwise ResourceNotFound "Customer with id [id] not found!" |
| LegacySpec.AddCustomer | src/main/java/com/msbeigi/customer/CustomerService.java:30-44 | DuplicateResource "email already taken" exactly when the email is taken; otherwise one new customer under the next id, other rows unchanged |
| LegacySpec.DeleteCustomerById | src/main/java/com/msbeigi/customer/CustomerService.java:46-51 | ResourceNotFound "customer with id [id]" exactly for an unknown id; otherwise removes exactly that row and keeps every other row as it was |
| LegacySpec.MergeUpdate | src/main/java/com/msbeigi/customer/CustomerService.java:59-72 | each supplied field replaces the stored one; the id is kept |
| LegacySpec.ApplyUpdate | src/main/java/com/msbeigi/customer/CustomerService.java:59-76 | succeeds, with the merged record, exactly when a different email or any name or age is supplied; otherwise RequestValidation "no data changed found!" |
| LegacySpec.UpdateCustomerById | src/main/java/com/msbeigi/customer/CustomerService.java:53-79 | an unknown id fails with ResourceNotFound "customer with id [id]"; a refused update of a stored customer fails with RequestValidation "no data changed found!" and changes nothing; a successful one rewrites only that row |
| LegacyService.CustomerService.constructor | src/main/java/com/msbeigi/customer/CustomerService.java:16-18 | an empty, valid directory |
| LegacyService.CustomerService.GetCustomerById | src/main/java/com/msbeigi/customer/CustomerService.java:24-28 | returns what LegacySpec.GetCustomerById gives |
| LegacyService.CustomerService.AddCustomer | src/main/java/com/msbeigi/customer/CustomerService.java:30-44 | outcome and new state are those of LegacySpec.AddCustomer; the store stays valid |
| LegacyService.CustomerService.DeleteCustomerById | src/main/java/com/msbeigi/customer/CustomerService.java:46-51 | outcome and new state are those of LegacySpec.DeleteCustomerById |
| LegacyService.CustomerService.UpdateCustomerById | src/main/java/com/msbeigi/customer/CustomerService.java:53-79 | outcome and new state are those of LegacySpec.UpdateCustomerById, reached field by field with the status flag |
| VersionComparison.MergesAgree | src/main/java/com/msbeigi/customer/CustomerService.java:59-72 | on id, name, email and age, both versions merge a request into the same record |
| VersionComparison.CurrentAcceptsOnlyWhatLegacyAccepts | src/main/java/com/msbeigi/customer/CustomerService.java:53-79 | every update the current version accepts, the older one accepts too, writing the same shared fields |
| VersionComparison.LegacyWritesUnchangedRecords | src/main/java/com/msbeigi/customer/CustomerService.java:65-76 | the older version writes where the current one refuses "no data changes found!" exactly when a name or age is supplied but nothing differs; it then writes the stored record back unchanged |
| VersionComparison.LegacyAllowsTakenEmail | src/main/java/com/msbeigi/customer/CustomerService.java:61-64 | a change to a taken email is refused by the current version and accepted by the older one, which then stores a duplicate email |
| VersionComparison.BothRefuseEmptyChange | src/main/java/com/msbeigi/customer/CustomerService.java:74-76 | a request supplying no name, no age and no different email is refused by both versions, each with its own message |

## Findings

| source | as written | input that shows it | evidently intended | confidence | as-written member | corrected member |
|---|---|---|---|---|---|---|
| backend/src/main/java/com/msbeigi/customer/CustomerListDataAccessService.java:67-70 | `updateCustomer` appends the customer to the list, so the older record stays ahead of it | a caller passing a separate object: on [Alex, Jamila], update with a new `Customer(1, …)` of another name; lookup of id 1 still gives the old Alex (a caller that mutates the loaded object, as `updateCustomerById` does, sees the new values) | replace the stored record that has the customer's id | medium, not executed | ListStore.UpdateShadowedByOlderRecord | ListStore.ReplaceThenLookup |

`ListStore.CustomerListDataAccessService.UpdateCustomer` models the code as it
is written. `ListStore.CustomerListDataAccessService.ReplaceCustomer` is the
corrected update that `ListStore.ReplaceThenLookup` is about.

## Left out

- The HTTP controller, the JSON mapping, authentication, JWT and the frontend are not part of this model. Neither are `CustomerDTOMapper`, `S3Service` and `S3Buckets`. Their effect on the core is modelled as `DirectorySpec.ToDTO`, as `Stores.BlobStore`, and as the `bucket` field.
- The JDBC and JPA data-access classes are not modelled one by one. `Stores.RecordStore` models the `CustomerDao` contract as the service relies on it.
- The JDBC selects do not read `profile_image_id`, so under that store a customer read back never shows an image key. The record store here returns the whole row, as the JPA store does.
- The backend `CustomerDao` interface has no `updateCustomerProfileImageId`, although the service calls it. `Stores.RecordStore.UpdateCustomerProfileImageId` follows the JPA repository's `updateProfileImageId`.
- Java `Integer` ids and ages are modelled as unbounded integers, so 32-bit overflow is not modelled.
- Null request fields are `None`. A registration request with null fields, and a stored row with null columns, are not modelled.
- The password encoder, the UUID generator and the bytes of the uploaded file are parameters (see above). A transport failure inside `S3Service.putObject` is not modelled: an upload fails only when the file cannot be read.
- `DirectorySpec.GetCustomerProfileImage` does not model `StringUtils.isBlank` outside Java's `Character.isWhitespace` set.
- The rows are not ordered. `Stores.RecordStore.SelectAllCustomers` returns them by ascending id (the order `Stores.RowsBelow` describes), which is one order a database is free to choose.
- `Customers.Customer`: the no-argument JPA constructor, the getters (plain field reads, modelled by `Data()`), `getPassword`, `hashCode` and `toString` are left out. `Equals` compares with another `Customer` only, because a comparison with another class is always false.
- `ListStore.CustomerListDataAccessService`: in Java the list is a `private static` field, filled once when the class loads and shared by every instance. The model makes it a field of each object, which every construction resets to [Alex, Jamila]; sharing between instances is not modelled.
- `ListStore.CustomerListDataAccessService` works on customer values. Java hands out the list's own objects, so a caller could change a stored customer through them. That aliasing is not modelled.
- The older service's `getAllCustomers` only delegates to its data-access class, and is not modelled. Its `CustomerRegistrationRequest` and four-field `Customer` are modelled as `LegacySpec` datatypes.
- Concurrency is not modelled: every service call runs alone, and a check followed by a write is atomic here.
