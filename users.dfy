/** `UserService`: user creation with a hashed password, lookup by id, and the
    username/password check. The database repository is replaced by in-memory
    maps held by the service; bcrypt's `hash` and `compare` are left
    uninterpreted and passed in as function values. */
module Users {
  import opened Wrappers
  import opened Acl

  /** The cost factor `createUser` passes to `hash`. */
  const SaltRounds: nat := 10

  /** A stored user record. `rest` holds the entity's remaining columns, which
      this model carries along without interpreting. */
  datatype User = User(
    id: int,
    username: string,
    password: string,
    roles: seq<Role>,
    isAccountDisabled: bool,
    rest: map<string, string>)

  /** The fields a caller supplies to create a user (the id is assigned on save). */
  datatype CreateUserInput = CreateUserInput(
    username: string,
    password: string,
    roles: seq<Role>,
    isAccountDisabled: bool,
    rest: map<string, string>)

  /** What the service hands back: a record without its password. */
  datatype UserOutput = UserOutput(id: int, username: string, roles: seq<Role>)

  /** The errors the service surfaces. `UsernameTaken` stands for the store
      refusing a second record with an already stored username. */
  datatype Error = Unauthorized | UsernameTaken

  /** The output projection of a record: id, username and roles, never the password. */
  function ToUserOutput(user: User): UserOutput
  {
    UserOutput(user.id, user.username, user.roles)
  }

  /** The record `createUser` saves for `input`: the caller's fields with the
      plaintext password replaced by its hash, under the id the store assigns. */
  function NewRecord(id: int, input: CreateUserInput, hash: (string, nat) -> string): User
  {
    User(id, input.username, hash(input.password, SaltRounds), input.roles, input.isAccountDisabled, input.rest)
  }

  class UserService {
    /** The stored records, by id. */
    var users: map<int, User>
    /** The username index of the store: username -> id. */
    var ids: map<string, int>
    /** The id the store assigns to the next saved record. */
    var nextId: int

    /** Each record sits under its own id, below `nextId`, and the username
        index lists exactly the stored records. */
    ghost predicate Valid()
      reads this
    {
      && (forall id | id in users :: users[id].id == id && id < nextId)
      && (forall id | id in users :: users[id].username in ids && ids[users[id].username] == id)
      && (forall name | name in ids :: ids[name] in users && users[ids[name]].username == name)
    }

    /** Whether some stored record has this username. */
    ghost predicate HasUsername(username: string)
      reads this
    {
      exists id :: id in users && users[id].username == username
    }

    constructor ()
      ensures Valid() && users == map[] && ids == map[] && nextId == 1
    {
      users, ids, nextId := map[], map[], 1;
    }

    /** The repository's `findOne({ username })`. */
    function FindByUsername(username: string): (r: Option<User>)
      reads this
      requires Valid()
      ensures r.None? <==> !HasUsername(username)
      ensures r.Some? ==> r.value.id in users && users[r.value.id] == r.value && r.value.username == username
    {
      if username in ids then
        var id := ids[username];
        assert id in users && users[id].username == username;
        Some(users[id])
      else None
    }

    /** `validateUsernamePassword`: look the username up, then compare the
        password with the stored hash; both failures are the same `Unauthorized`. */
    function ValidateUsernamePassword(username: string, pass: string, compare: (string, string) -> bool): (r: Result<UserOutput, Error>)
      reads this
      requires Valid()
      ensures r.Failure? ==> r.error == Unauthorized
      ensures !HasUsername(username) ==> r == Failure(Unauthorized)
      ensures r.Success? <==> exists id :: id in users && users[id].username == username && compare(pass, users[id].password)
      ensures r.Success? ==> exists id :: id in users && users[id].username == username && r.value == ToUserOutput(users[id])
    {
      match FindByUsername(username)
      case None => Failure(Unauthorized)
      case Some(user) =>
        if !compare(pass, user.password) then Failure(Unauthorized)
        else Success(ToUserOutput(user))
    }

    /** `getUserById`: the projection of the record stored under `id`. */
    function GetUserById(id: int): (r: Option<UserOutput>)
      reads this
      requires Valid()
      ensures r.Some? <==> id in users
      ensures r.Some? ==> r.value.id == id && r.value == ToUserOutput(users[id])
    {
      if id in users then Some(ToUserOutput(users[id])) else None
    }

    /** `createUser`: save the input with its password hashed and return the
        projection of the saved record. */
    method CreateUser(input: CreateUserInput, hash: (string, nat) -> string) returns (r: Result<UserOutput, Error>)
      requires Valid()
      modifies this
      ensures Valid()
      ensures r.Failure? <==> old(HasUsername(input.username))
      ensures r.Failure? ==> r.error == UsernameTaken && unchanged(this)
      ensures r.Success? ==>
        && r.value.id == old(nextId) && r.value.id !in old(users)
        && nextId == old(nextId) + 1
        && ids == old(ids)[input.username := r.value.id]
        && users == old(users)[r.value.id := NewRecord(r.value.id, input, hash)]
        && users[r.value.id].password == hash(input.password, SaltRounds)
        && users[r.value.id].username == input.username && users[r.value.id].roles == input.roles
        && users[r.value.id].isAccountDisabled == input.isAccountDisabled && users[r.value.id].rest == input.rest
        && r.value == ToUserOutput(users[r.value.id])
        && GetUserById(r.value.id) == Some(r.value)
    {
      if input.username in ids {
        var id := ids[input.username];
        assert id in users && users[id].username == input.username;
        return Failure(UsernameTaken);
      }
      var user := NewRecord(nextId, input, hash);
      users := users[nextId := user];
      ids := ids[input.username := nextId];
      nextId := nextId + 1;
      r := Success(ToUserOutput(user));
    }
  }

  /** A successful credential check returns what `getUserById` returns for the same id. */
  lemma ValidatedUserIsStored(service: UserService, username: string, pass: string, compare: (string, string) -> bool)
    requires service.Valid()
    requires service.ValidateUsernamePassword(username, pass, compare).Success?
    ensures var out := service.ValidateUsernamePassword(username, pass, compare).value;
            out.username == username && service.GetUserById(out.id) == Some(out)
  {
  }

  /** When no record has the username, the password comparison is never
      consulted: the outcome is the same whatever `compare` does. */
  lemma MissingUserIgnoresCompare(service: UserService, username: string, pass: string,
                                  compare: (string, string) -> bool, other: (string, string) -> bool)
    requires service.Valid() && !service.HasUsername(username)
    ensures service.ValidateUsernamePassword(username, pass, compare)
         == service.ValidateUsernamePassword(username, pass, other)
  {
  }

  /** A missing username and a wrong password give the identical outcome. */
  lemma MissingUserLooksLikeWrongPassword(service: UserService, missing: string, known: string, pass: string,
                                          compare: (string, string) -> bool)
    requires service.Valid()
    requires !service.HasUsername(missing)
    requires service.HasUsername(known)
    requires forall id | id in service.users && service.users[id].username == known :: !compare(pass, service.users[id].password)
    ensures service.ValidateUsernamePassword(missing, pass, compare)
         == service.ValidateUsernamePassword(known, pass, compare)
  {
  }
}
