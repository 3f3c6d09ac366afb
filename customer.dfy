/** The `Customer` entity: its seven persisted fields as a value, and the
    mutable Java object with its constructors, setters and the identity it
    presents to the security layer. */
module Customers {
  import opened Wrappers

  datatype Gender = MALE | FEMALE

  /** The one authority every customer is granted. */
  const ROLE_USER: string := "ROLE_USER"

  /** The seven fields of a customer, in declaration order. `id` and
      `profileImageId` are the two that may be null. */
  datatype CustomerData = CustomerData(
    id: Option<int>,
    name: string,
    email: string,
    age: int,
    gender: Gender,
    password: string,
    profileImageId: Option<string>)

  /** A partial update of a customer: `None` is a field the caller left null. */
  datatype CustomerUpdateRequest =
    CustomerUpdateRequest(name: Option<string>, email: Option<string>, age: Option<int>)

  class Customer {
    var id: Option<int>
    var name: string
    var email: string
    var age: int
    var gender: Gender
    var password: string
    var profileImageId: Option<string>

    /** The current field values of this object. */
    function Data(): CustomerData
      reads this
    {
      CustomerData(id, name, email, age, gender, password, profileImageId)
    }

    /** `Customer(name, email, password, age, gender)`: no id yet, no image. */
    constructor NoId(name: string, email: string, password: string, age: int, gender: Gender)
      ensures Data() == CustomerData(None, name, email, age, gender, password, None)
    {
      this.id := None;
      this.name := name;
      this.email := email;
      this.password := password;
      this.age := age;
      this.gender := gender;
      this.profileImageId := None;
    }

    /** `Customer(id, name, email, password, age, gender)`: no image. */
    constructor WithoutImage(id: Option<int>, name: string, email: string, password: string, age: int, gender: Gender)
      ensures Data() == CustomerData(id, name, email, age, gender, password, None)
    {
      this.id := id;
      this.name := name;
      this.email := email;
      this.password := password;
      this.age := age;
      this.gender := gender;
      this.profileImageId := None;
    }

    /** `Customer(id, name, email, age, gender, password, profileImageId)`. */
    constructor Full(id: Option<int>, name: string, email: string, age: int, gender: Gender,
                     password: string, profileImageId: Option<string>)
      ensures Data() == CustomerData(id, name, email, age, gender, password, profileImageId)
    {
      this.id := id;
      this.name := name;
      this.email := email;
      this.password := password;
      this.age := age;
      this.gender := gender;
      this.profileImageId := profileImageId;
    }

    method SetId(id: Option<int>)
      modifies this
      ensures Data() == old(Data()).(id := id)
    {
      this.id := id;
    }

    method SetGender(gender: Gender)
      modifies this
      ensures Data() == old(Data()).(gender := gender)
    {
      this.gender := gender;
    }

    method SetName(name: string)
      modifies this
      ensures Data() == old(Data()).(name := name)
    {
      this.name := name;
    }

    method SetEmail(email: string)
      modifies this
      ensures Data() == old(Data()).(email := email)
    {
      this.email := email;
    }

    method SetAge(age: int)
      modifies this
      ensures Data() == old(Data()).(age := age)
    {
      this.age := age;
    }

    method SetProfileImageId(profileImageId: Option<string>)
      modifies this
      ensures Data() == old(Data()).(profileImageId := profileImageId)
    {
      this.profileImageId := profileImageId;
    }

    /** The login name is always the email. */
    function Username(): (username: string)
      reads this
      ensures username == Data().email
    {
      email
    }

    /** Every customer holds exactly the single authority ROLE_USER. */
    function Authorities(): (roles: seq<string>)
      ensures |roles| == 1 && roles[0] == ROLE_USER
    {
      [ROLE_USER]
    }

    /** Accounts never expire, are never locked, their credentials never
        expire and they are always enabled. */
    predicate IsAccountNonExpired()
      ensures IsAccountNonExpired()
    {
      true
    }

    predicate IsAccountNonLocked()
      ensures IsAccountNonLocked()
    {
      true
    }

    predicate IsCredentialsNonExpired()
      ensures IsCredentialsNonExpired()
    {
      true
    }

    predicate IsEnabled()
      ensures IsEnabled()
    {
      true
    }

    /** Structural equality: the same object, or all seven fields equal. */
    predicate Equals(o: Customer)
      reads this, o
      ensures Equals(o) <==> Data() == o.Data()
    {
      this == o ||
      (id == o.id && name == o.name && email == o.email && age == o.age &&
       gender == o.gender && password == o.password && profileImageId == o.profileImageId)
    }
  }
}
