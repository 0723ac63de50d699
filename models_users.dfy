// `models/users.rs`: the user row (which holds the password hash), the
// response model (which does not), and the validated create input.

module ModelsUsers {
  import opened Ints
  import opened Json

  /** `entity::users::Model`. */
  datatype UserEntity = UserEntity(id: I32, email: string, passHash: string, firstName: string, lastName: string)

  /** `UserModel`: no password field. */
  datatype UserModel = UserModel(id: I32, email: string, firstName: string, lastName: string)

  /** `UserModel::from`: id, email and both names as stored; the hash is dropped. */
  function FromEntity(e: UserEntity): (m: UserModel)
    ensures m.id == e.id && m.email == e.email
    ensures m.firstName == e.firstName && m.lastName == e.lastName
  {
    UserModel(e.id, e.email, e.firstName, e.lastName)
  }

  /** Serialising a `UserModel`; the fields carry no serde rename. */
  function ToJson(m: UserModel): (j: Value)
    ensures j.Object? && j.fields.Keys == {"id", "email", "first_name", "last_name"}
    ensures j.fields["id"] == Number(m.id) && j.fields["email"] == String(m.email)
    ensures j.fields["first_name"] == String(m.firstName) && j.fields["last_name"] == String(m.lastName)
  {
    Object(map["id" := Number(m.id), "email" := String(m.email),
               "first_name" := String(m.firstName), "last_name" := String(m.lastName)])
  }

  /** The response to a user never depends on the stored hash, and the JSON
      has no key for it. */
  lemma ResponseIgnoresHash(e: UserEntity, otherHash: string)
    ensures FromEntity(e) == FromEntity(e.(passHash := otherHash))
    ensures "pass_hash" !in ToJson(FromEntity(e)).fields && "password" !in ToJson(FromEntity(e)).fields
  {
  }

  /** `CreateUserInput`. */
  datatype CreateUserInput = CreateUserInput(email: string, password: string, firstName: string, lastName: string)

  /** The fields `validate()` reports. The email check of the validator
      crate is not modelled and is passed in as `isEmail`. */
  function Violations(i: CreateUserInput, isEmail: string -> bool): (v: set<string>)
    ensures "email" in v <==> !(1 <= |i.email| <= 64 && isEmail(i.email))
    ensures "password" in v <==> !(1 <= |i.password| <= 64)
    ensures "first_name" in v <==> !(1 <= |i.firstName| <= 64)
    ensures "last_name" in v <==> !(1 <= |i.lastName| <= 64)
    ensures v <= {"email", "password", "first_name", "last_name"}
  {
    (if 1 <= |i.email| <= 64 && isEmail(i.email) then {} else {"email"})
    + (if 1 <= |i.password| <= 64 then {} else {"password"})
    + (if 1 <= |i.firstName| <= 64 then {} else {"first_name"})
    + (if 1 <= |i.lastName| <= 64 then {} else {"last_name"})
  }
}
