/** The User document schema (models/user.ts): a required `email`, five text
    paths with literal defaults, and timestamps. `type` has no value set, so
    any text is stored. Uniqueness of `email` is a property of the user
    collection, stated in the registration module. */
module UserModel {
  import opened Base
  import opened Schema

  datatype User = User(
    id: Id,
    email: string,
    name: string,
    phone: string,
    gender: string,
    password: string,
    kind: string,
    createdAt: Time,
    updatedAt: Time)

  datatype UserInput = UserInput(
    email: Option<string>,
    name: Option<string>,
    phone: Option<string>,
    gender: Option<string>,
    password: Option<string>,
    kind: Option<string>)

  /** `User.save()`'s document validation: only `email` can fail; every other
      path takes the sent text, or `""` (`"user"` for `type`) when absent. */
  function ValidateUser(input: UserInput, id: Id, now: Time): (r: Result<User, seq<Issue>>)
    ensures r.Ok? <==> Truthy(input.email)
    ensures r.Err? ==> r.error == [Required("email")]
    ensures r.Ok? ==> StoresPayload(input, r.value, id, now)
  {
    if Truthy(input.email) then
      Ok(User(id, input.email.value, input.name.GetOr(""), input.phone.GetOr(""),
              input.gender.GetOr(""), input.password.GetOr(""), input.kind.GetOr("user"), now, now))
    else
      Err(RequiredIssues("email", input.email))
  }

  /** How a stored User relates to its payload. */
  predicate StoresPayload(input: UserInput, u: User, id: Id, now: Time)
    requires input.email.Some?
  {
    && u.id == id && u.createdAt == now && u.updatedAt == now
    && u.email == input.email.value
    && TextOrEmpty(input.name, u.name)
    && TextOrEmpty(input.phone, u.phone)
    && TextOrEmpty(input.gender, u.gender)
    && TextOrEmpty(input.password, u.password)
    && NameOrDefault(input.kind, u.kind, "user")
  }

  /** The payload that sends every path of a stored User back. */
  function ToInput(u: User): UserInput {
    UserInput(Some(u.email), Some(u.name), Some(u.phone), Some(u.gender), Some(u.password), Some(u.kind))
  }

  /** Re-validating a stored User at its own id and creation time gives it back. */
  lemma Revalidate(u: User)
    requires u.email != "" && u.updatedAt == u.createdAt
    ensures ValidateUser(ToInput(u), u.id, u.createdAt) == Ok(u)
  {
  }

  /** A payload with only an email gets the schema defaults. */
  lemma MinimalPayloadDefaults(email: string, id: Id, now: Time)
    requires email != ""
    ensures
      var r := ValidateUser(UserInput(Some(email), None, None, None, None, None), id, now);
      r.Ok? && r.value.name == "" && r.value.phone == "" && r.value.gender == ""
      && r.value.password == "" && r.value.kind == "user"
  {
  }
}
