/** The two stores the customer service works against: the record store
    behind the `CustomerDao` interface (plus `updateCustomerProfileImageId`),
    and the object store that holds profile images. */
module Stores {
  import opened Wrappers
  import opened Errors
  import opened Customers

  type Bytes = seq<bv8>

  /** The most rows `selectAllCustomers` yields (`limit 1000`). */
  const LIMIT: nat := 1000

  /** The object path `profile-images/<customerId>/<profileImageId>`. */
  datatype ObjectPath = ProfileImagePath(customerId: int, profileImageId: string)

  /** An object's address: its bucket and its path inside it. */
  datatype ObjectKey = ObjectKey(bucket: string, path: ObjectPath)

  predicate EmailTaken(rows: map<int, CustomerData>, email: string) {
    exists k :: k in rows && rows[k].email == email
  }

  lemma SubsetCardinality(a: set<int>, b: set<int>)
    requires a <= b
    ensures |a| <= |b|
    ensures |a| == |b| ==> a == b
  {
    assert b == a + (b - a);
    if |a| == |b| {
      assert |b - a| == 0;
    }
  }

  /** The rows whose ids run from 1 up to (not including) `id`, in
      ascending id order: what `selectAllCustomers` returns before the limit
      cuts it short. */
  function RowsBelow(m: map<int, CustomerData>, id: int): seq<CustomerData>
    decreases id
  {
    if id <= 1 then [] else RowsBelow(m, id - 1) + (if id - 1 in m then [m[id - 1]] else [])
  }

  /** The ids `RowsBelow(m, id)` covers. */
  ghost function KeysBelow(m: map<int, CustomerData>, id: int): set<int> {
    set k | k in m && 1 <= k < id
  }

  /** Every row gathered is stored under its own id, below `id`, and the ids
      ascend (so no row comes twice). */
  lemma {:induction false} RowsBelowSound(m: map<int, CustomerData>, id: int)
    requires forall k :: k in m ==> m[k].id == Some(k)
    ensures forall c :: c in RowsBelow(m, id) ==>
      c.id.Some? && c.id.value in m && m[c.id.value] == c && 1 <= c.id.value < id
    ensures forall i, j :: 0 <= i < j < |RowsBelow(m, id)| ==>
      RowsBelow(m, id)[i].id.value < RowsBelow(m, id)[j].id.value
    decreases id
  {
    if id > 1 {
      RowsBelowSound(m, id - 1);
      var prev := RowsBelow(m, id - 1);
      if id - 1 in m {
        assert RowsBelow(m, id) == prev + [m[id - 1]];
        assert forall i :: 0 <= i < |prev| ==> prev[i] in prev;
      }
    }
  }

  /** Every row stored under an id from 1 up to `id` is gathered. */
  lemma {:induction false} RowsBelowComplete(m: map<int, CustomerData>, id: int)
    ensures forall k :: k in m && 1 <= k < id ==> m[k] in RowsBelow(m, id)
    decreases id
  {
    if id > 1 {
      RowsBelowComplete(m, id - 1);
    }
  }

  /** One row is gathered per stored id in range. */
  lemma {:induction false} RowsBelowCount(m: map<int, CustomerData>, id: int)
    ensures |RowsBelow(m, id)| == |KeysBelow(m, id)|
    decreases id
  {
    if id <= 1 {
      assert KeysBelow(m, id) == {};
    } else {
      RowsBelowCount(m, id - 1);
      if id - 1 in m {
        assert KeysBelow(m, id) == KeysBelow(m, id - 1) + {id - 1};
      } else {
        assert KeysBelow(m, id) == KeysBelow(m, id - 1);
      }
    }
  }

  /** The record store: rows keyed by id; ids come from a sequence that only
      grows, so an id is never handed out twice. */
  class RecordStore {
    var rows: map<int, CustomerData>
    var nextId: int

    /** Every row is stored under its own id, and every id was already handed out. */
    ghost predicate Valid()
      reads this
    {
      1 <= nextId &&
      forall k :: k in rows ==> rows[k].id == Some(k) && 1 <= k < nextId
    }

    constructor ()
      ensures Valid() && rows == map[] && nextId == 1
    {
      rows := map[];
      nextId := 1;
    }

    /** At most LIMIT rows, each a stored row, in ascending id order (so no
        row twice); all of them when there are no more than LIMIT. */
    method SelectAllCustomers() returns (r: seq<CustomerData>)
      requires Valid()
      ensures |r| == if |rows| < LIMIT then |rows| else LIMIT
      ensures forall i :: 0 <= i < |r| ==> r[i].id.Some? && r[i].id.value in rows && rows[r[i].id.value] == r[i]
      ensures forall i, j :: 0 <= i < j < |r| ==> r[i].id.value < r[j].id.value
      ensures |rows| <= LIMIT ==> forall k :: k in rows ==> rows[k] in r
    {
      var id := 1;
      r := [];
      while id < nextId && |r| < LIMIT
        invariant 1 <= id <= nextId
        invariant r == RowsBelow(rows, id) && |r| <= LIMIT
      {
        if id in rows {
          r := r + [rows[id]];
        }
        id := id + 1;
      }
      RowsBelowSound(rows, id);
      RowsBelowComplete(rows, id);
      RowsBelowCount(rows, id);
      assert KeysBelow(rows, id) <= rows.Keys;
      if id == nextId {
        assert KeysBelow(rows, id) == rows.Keys;
      } else {
        SubsetCardinality(KeysBelow(rows, id), rows.Keys);
      }
    }

    method SelectCustomerById(id: int) returns (r: Option<CustomerData>)
      ensures r.Some? <==> id in rows
      ensures r.Some? ==> r.value == rows[id]
    {
      r := if id in rows then Some(rows[id]) else None;
    }

    /** Stores `c` under the next id of the sequence, whatever id `c` carries. */
    method InsertCustomer(c: CustomerData)
      requires Valid()
      modifies this
      ensures Valid()
      ensures rows == old(rows)[old(nextId) := c.(id := Some(old(nextId)))]
      ensures nextId == old(nextId) + 1
    {
      rows := rows[nextId := c.(id := Some(nextId))];
      nextId := nextId + 1;
    }

    method ExistCustomerWithEmail(email: string) returns (b: bool)
      ensures b <==> exists k :: k in rows && rows[k].email == email
    {
      b := EmailTaken(rows, email);
    }

    method ExistCustomerById(id: int) returns (b: bool)
      ensures b <==> id in rows
    {
      b := id in rows;
    }

    /** Removes the row with that id, if any. */
    method DeleteCustomerById(id: int)
      requires Valid()
      modifies this
      ensures Valid()
      ensures rows == old(rows) - {id} && nextId == old(nextId)
    {
      rows := rows - {id};
    }

    /** Replaces the stored row that has `c`'s id; a record whose id is
        absent or unknown changes nothing. */
    method UpdateCustomer(c: CustomerData)
      requires Valid()
      modifies this
      ensures Valid()
      ensures nextId == old(nextId)
      ensures rows == if c.id.Some? && c.id.value in old(rows) then old(rows)[c.id.value := c] else old(rows)
    {
      if c.id.Some? && c.id.value in rows {
        rows := rows[c.id.value := c];
      }
    }

    /** Some row whose username (its email) is `email`, if there is one. */
    method SelectUserByEmail(email: string) returns (r: Option<CustomerData>)
      ensures r.Some? <==> exists k :: k in rows && rows[k].email == email
      ensures r.Some? ==> exists k :: k in rows && rows[k] == r.value && r.value.email == email
    {
      if exists k :: k in rows && rows[k].email == email {
        var k :| k in rows && rows[k].email == email;
        r := Some(rows[k]);
      } else {
        r := None;
      }
    }

    /** Records the image key of customer `id`; an unknown id changes nothing. */
    method UpdateCustomerProfileImageId(profileImageId: string, id: int)
      requires Valid()
      modifies this
      ensures Valid()
      ensures nextId == old(nextId)
      ensures rows == if id in old(rows) then old(rows)[id := old(rows)[id].(profileImageId := Some(profileImageId))] else old(rows)
    {
      if id in rows {
        rows := rows[id := rows[id].(profileImageId := Some(profileImageId))];
      }
    }
  }

  /** The object store: bytes under (bucket, path). */
  class BlobStore {
    var objects: map<ObjectKey, Bytes>

    constructor ()
      ensures objects == map[]
    {
      objects := map[];
    }

    method PutObject(bucket: string, path: ObjectPath, bytes: Bytes)
      modifies this
      ensures objects == old(objects)[ObjectKey(bucket, path) := bytes]
    {
      objects := objects[ObjectKey(bucket, path) := bytes];
    }

    method GetObject(bucket: string, path: ObjectPath) returns (r: Result<Bytes, Error>)
      ensures r.Success? <==> ObjectKey(bucket, path) in objects
      ensures r.Success? ==> r.value == objects[ObjectKey(bucket, path)]
      ensures r.Failure? ==> r.error == NoSuchObject
    {
      var key := ObjectKey(bucket, path);
      r := if key in objects then Success(objects[key]) else Failure(NoSuchObject);
    }
  }
}
