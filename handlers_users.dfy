// `handlers/users.rs`. Creating a user checks both names and the password
// before the database is consulted, refuses an email that is taken, and
// stores the bcrypt hash of the password, never the password itself.
// `utils::name::valid_name` and bcrypt's `hash` are not part of this model:
// the first is the parameter `validName`, the outcome of the second the
// parameter `hashed`; the email check of the validator crate is `isEmail`.

module UsersHandlers {
  import opened Wrappers
  import opened Ints
  import opened Http
  import opened Repositories
  import Pagination
  import Page
  import Password
  import opened ModelsUsers

  /** The three checks of the handler body, in order. */
  predicate PassesChecks(i: CreateUserInput, validName: string -> bool)
  {
    validName(i.firstName) && validName(i.lastName) && Password.IsSecurePassword(i.password)
  }

  /** `POST /api/users`. */
  function Create(payload: Extracted<CreateUserInput>, isEmail: string -> bool, validName: string -> bool,
                  existing: Result<Option<UserEntity>>, hashed: Result<string>, created: Result<UserEntity>)
    : (h: Handled<UserModel>)
    ensures (payload.Malformed? || Violations(payload.value, isEmail) != {}) ==> h == RejectedRequest()
    ensures payload.Parsed? && Violations(payload.value, isEmail) == {} ==>
      var i := payload.value;
      // a bad name or a weak password: 400, and the database is never asked
      && (!PassesChecks(i, validName) ==> h.response == Finish(BAD_REQUEST) && h.calls == [])
      && (PassesChecks(i, validName) ==>
            && |h.calls| >= 1 && h.calls[0] == UsersGetByEmail(i.email)
            // a failed lookup or a taken email: nothing is created
            && (existing.Err? ==> h.response == Finish(INTERNAL_SERVER_ERROR) && |h.calls| == 1)
            && (existing.Ok? && existing.value.Some? ==> h.response == Finish(CONFLICT) && |h.calls| == 1)
            && (existing == Ok(None) ==>
                  // a failed hash: nothing is created
                  && (hashed.Err? ==> h.response == Finish(INTERNAL_SERVER_ERROR) && |h.calls| == 1)
                  // the hash, not the password, is stored with email and names unchanged
                  && (hashed.Ok? ==>
                        && h.calls == [UsersGetByEmail(i.email), UsersCreate(i.email, hashed.value, i.firstName, i.lastName)]
                        && (created.Err? ==> h.response == Finish(INTERNAL_SERVER_ERROR))
                        && (created.Ok? ==> h.response == Response(OK, Model(FromEntity(created.value)))))))
  {
    match payload
    case Malformed => RejectedRequest()
    case Parsed(i) =>
      if Violations(i, isEmail) != {} then RejectedRequest()
      else if !validName(i.firstName) then Handled(Finish(BAD_REQUEST), [])
      else if !validName(i.lastName) then Handled(Finish(BAD_REQUEST), [])
      else if !Password.IsSecurePassword(i.password) then Handled(Finish(BAD_REQUEST), [])
      else
        var lookup := [UsersGetByEmail(i.email)];
        match existing
        case Err => Handled(Finish(INTERNAL_SERVER_ERROR), lookup)
        case Ok(Some(_)) => Handled(Finish(CONFLICT), lookup)
        case Ok(None) =>
          match hashed
          case Err => Handled(Finish(INTERNAL_SERVER_ERROR), lookup)
          case Ok(hash) =>
            var calls := lookup + [UsersCreate(i.email, hash, i.firstName, i.lastName)];
            match created
            case Err => Handled(Finish(INTERNAL_SERVER_ERROR), calls)
            case Ok(e) => Handled(Response(OK, Model(FromEntity(e))), calls)
  }

  /** Only a created user is answered 200, and then only after the lookup
      found the email free; a 200 never carries the stored hash. */
  lemma SuccessMeansFreshEmail(payload: Extracted<CreateUserInput>, isEmail: string -> bool, validName: string -> bool,
                               existing: Result<Option<UserEntity>>, hashed: Result<string>, created: Result<UserEntity>)
    requires Create(payload, isEmail, validName, existing, hashed, created).response.status == OK
    ensures existing == Ok(None) && hashed.Ok? && created.Ok?
    ensures Create(payload, isEmail, validName, existing, hashed, created).calls[1].passHash == hashed.value
    ensures "pass_hash" !in ToJson(FromEntity(created.value)).fields
  {
    ResponseIgnoresHash(created.value, "");
  }

  /** The password "a" of an otherwise valid request is refused before the
      email is looked up. */
  lemma WeakPasswordIsRefusedEarly(email: string, first: string, last: string, isEmail: string -> bool,
                                   validName: string -> bool, existing: Result<Option<UserEntity>>,
                                   hashed: Result<string>, created: Result<UserEntity>)
    requires 1 <= |email| <= 64 && isEmail(email) && 1 <= |first| <= 64 && 1 <= |last| <= 64
    ensures var h := Create(Parsed(CreateUserInput(email, "a", first, last)), isEmail, validName, existing, hashed, created);
      h.response == Finish(BAD_REQUEST) && h.calls == []
  {
    Password.RejectsSingleLetter();
  }

  /** `GET /api/users`. */
  function List(query: Extracted<Pagination.ListQuery>, rows: Result<Page.Page<UserEntity>>)
    : (h: Handled<Page.Page<UserModel>>)
    ensures (query.Malformed? || !Pagination.ValidListQuery(query.value)) ==> h == RejectedRequest()
    ensures query.Parsed? && Pagination.ValidListQuery(query.value) ==>
      var (limit, offset) := Pagination.Window(query.value);
      && h.calls == [UsersList(limit, offset)]
      && (rows.Err? ==> h.response == Finish(INTERNAL_SERVER_ERROR))
      && (rows.Ok? ==> h.response == Response(OK, Model(Page.Echo(limit, offset, rows.value, FromEntity))))
  {
    if query.Malformed? || !Pagination.ValidListQuery(query.value) then RejectedRequest()
    else
      var (limit, offset) := Pagination.Window(query.value);
      var calls := [UsersList(limit, offset)];
      match rows
      case Err => Handled(Finish(INTERNAL_SERVER_ERROR), calls)
      case Ok(p) => Handled(Response(OK, Model(Page.Echo(limit, offset, p, FromEntity))), calls)
  }

  /** `GET /api/users/{id}`. */
  function Get(id: I32, found: Result<Option<UserEntity>>): (h: Handled<UserModel>)
    ensures h.calls == [UsersGet(id)]
    ensures found == Ok(None) ==> h.response == Finish(NOT_FOUND)
    ensures found.Err? ==> h.response == Finish(INTERNAL_SERVER_ERROR)
    ensures found.Ok? && found.value.Some? ==> h.response == Response(OK, Model(FromEntity(found.value.value)))
  {
    var calls := [UsersGet(id)];
    match found
    case Ok(Some(e)) => Handled(Response(OK, Model(FromEntity(e))), calls)
    case Ok(None) => Handled(Finish(NOT_FOUND), calls)
    case Err => Handled(Finish(INTERNAL_SERVER_ERROR), calls)
  }

  /** `DELETE /api/users/{id}`. */
  function Delete(id: I32, deleted: Result<bool>): (h: Handled<UserModel>)
    ensures h.calls == [UsersDelete(id)] && h.response.body.Empty?
    ensures h.response.status == NO_CONTENT <==> deleted == Ok(true)
    ensures h.response.status == NOT_FOUND <==> deleted == Ok(false)
    ensures h.response.status == INTERNAL_SERVER_ERROR <==> deleted.Err?
  {
    var calls := [UsersDelete(id)];
    match deleted
    case Err => Handled(Finish(INTERNAL_SERVER_ERROR), calls)
    case Ok(false) => Handled(Finish(NOT_FOUND), calls)
    case Ok(true) => Handled(Finish(NO_CONTENT), calls)
  }
}
