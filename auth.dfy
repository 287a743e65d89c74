/** `AuthService`: registration, and the issuing of the refresh and access
    tokens. A token is modelled as its claim set together with the
    configuration key that names its lifetime; signing, encoding and expiry
    arithmetic are not modelled. */
module Auth {
  import opened Wrappers
  import opened Acl
  import opened Users

  /** The configuration key read for the refresh token's lifetime, spelled as the code spells it. */
  const RefreshTokenTtlKey: string := "jwt.refreshTokenExpiresInsec"
  /** The configuration key read for the access token's lifetime. */
  const AccessTokenTtlKey: string := "jwt.accessTokenExpiresInSec"

  /** A claim's value. */
  datatype ClaimValue = Num(n: int) | Text(s: string) | RoleList(roles: seq<Role>)

  /** A claim set: claim name to value. */
  type Claims = map<string, ClaimValue>

  /** A signed token: what it carries, and which configuration key sets its lifetime. */
  datatype Token = Token(claims: Claims, expiresInKey: string)

  datatype AuthTokenOutput = AuthTokenOutput(refreshToken: Token, accessToken: Token)

  /** The request context; `user` carries the id, username and roles of the
      already authenticated caller. */
  datatype RequestContext = RequestContext(user: UserOutput)

  /** `jwtService.sign(claims, { expiresIn: config.get(key) })`, left abstract. */
  function Sign(claims: Claims, expiresInKey: string): Token
  {
    Token(claims, expiresInKey)
  }

  /** `getAuthToken`: a refresh token carrying only the subject, and an access
      token carrying username, subject and roles. The access claims are the
      payload with the subject spread over it, so `sub` is the subject's. */
  function GetAuthToken(user: UserOutput): (r: AuthTokenOutput)
    ensures r.refreshToken.claims.Keys == {"sub"}
    ensures r.refreshToken.claims["sub"] == Num(user.id)
    ensures r.accessToken.claims.Keys == {"username", "sub", "roles"}
    ensures r.accessToken.claims["username"] == Text(user.username)
    ensures r.accessToken.claims["sub"] == Num(user.id)
    ensures r.accessToken.claims["roles"] == RoleList(user.roles)
    ensures r.refreshToken.expiresInKey == RefreshTokenTtlKey
    ensures r.accessToken.expiresInKey == AccessTokenTtlKey
    ensures r.refreshToken.expiresInKey != r.accessToken.expiresInKey
  {
    var subject := map["sub" := Num(user.id)];
    var payload := map["username" := Text(user.username), "sub" := Num(user.id), "roles" := RoleList(user.roles)];
    AuthTokenOutput(
      refreshToken := Sign(subject, RefreshTokenTtlKey),
      accessToken := Sign(payload + subject, AccessTokenTtlKey))
  }

  /** `login`: no credential check of its own; tokens for the context's user. */
  function Login(ctx: RequestContext): (r: AuthTokenOutput)
    ensures r == GetAuthToken(ctx.user)
    ensures r.accessToken.claims["sub"] == r.refreshToken.claims["sub"] == Num(ctx.user.id)
  {
    GetAuthToken(ctx.user)
  }

  /** Reading a user back from a claim set: it needs all of `sub`, `username` and `roles`. */
  function UserFromClaims(claims: Claims): (r: Option<UserOutput>)
    ensures r.Some? ==> "sub" in claims && "username" in claims && "roles" in claims
  {
    if && "sub" in claims && claims["sub"].Num?
       && "username" in claims && claims["username"].Text?
       && "roles" in claims && claims["roles"].RoleList?
    then Some(UserOutput(claims["sub"].n, claims["username"].s, claims["roles"].roles))
    else None
  }

  /** The access token carries the whole user output, and the refresh token
      carries too little to rebuild it. */
  lemma TokensRebuildUser(user: UserOutput)
    ensures UserFromClaims(GetAuthToken(user).accessToken.claims) == Some(user)
    ensures UserFromClaims(GetAuthToken(user).refreshToken.claims) == None
  {
    var tokens := GetAuthToken(user);
    assert "username" !in tokens.refreshToken.claims;
  }

  /** The registration input, which `register` updates in place. */
  class RegisterInput {
    var username: string
    var password: string
    var roles: seq<Role>
    var isAccountDisabled: bool
    var rest: map<string, string>

    constructor (username: string, password: string, roles: seq<Role>, isAccountDisabled: bool, rest: map<string, string>)
      ensures Fields() == CreateUserInput(username, password, roles, isAccountDisabled, rest)
    {
      this.username, this.password, this.roles := username, password, roles;
      this.isAccountDisabled, this.rest := isAccountDisabled, rest;
    }

    /** The object's fields as the value `createUser` copies. */
    function Fields(): CreateUserInput
      reads this
    {
      CreateUserInput(username, password, roles, isAccountDisabled, rest)
    }
  }

  class AuthService {
    const userService: UserService

    constructor (userService: UserService)
      ensures this.userService == userService
    {
      this.userService := userService;
    }

    /** `register`: force the default role and the enabled state on the input,
        then create the user from it. */
    method Register(input: RegisterInput, hash: (string, nat) -> string) returns (r: Result<UserOutput, Error>)
      requires userService.Valid()
      modifies input, userService
      ensures userService.Valid()
      ensures input.Fields() == old(input.Fields()).(roles := [USER], isAccountDisabled := false)
      ensures r.Failure? <==> old(userService.HasUsername(input.username))
      ensures r.Failure? ==> r.error == UsernameTaken && unchanged(userService)
      ensures r.Success? ==>
        && r.value.id == old(userService.nextId) && r.value.id !in old(userService.users)
        && userService.nextId == old(userService.nextId) + 1
        && userService.users == old(userService.users)[r.value.id := NewRecord(r.value.id, input.Fields(), hash)]
        && r.value == ToUserOutput(userService.users[r.value.id])
        && r.value.roles == [USER]
        && !userService.users[r.value.id].isAccountDisabled
    {
      input.roles := [USER];
      input.isAccountDisabled := false;
      r := userService.CreateUser(input.Fields(), hash);
    }
  }

  /** Registering "alice" as a would-be disabled ADMIN yields an enabled USER
      under the first id; her password then validates and a wrong one does not.
      The only thing assumed of the hash is that `compare` accepts the password
      it hashed and rejects "wrong". */
  method RegisterThenValidate(hash: (string, nat) -> string, compare: (string, string) -> bool)
    returns (users: UserService, registered: Result<UserOutput, Error>, validated: Result<UserOutput, Error>,
             rejected: Result<UserOutput, Error>, tokens: AuthTokenOutput)
    requires compare("pw123!", hash("pw123!", SaltRounds))
    requires !compare("wrong", hash("pw123!", SaltRounds))
    ensures users.Valid()
    ensures registered.Success? && registered.value.id == 1
    ensures registered.value.username == "alice" && registered.value.roles == [USER]
    ensures registered.value.id in users.users && !users.users[registered.value.id].isAccountDisabled
    ensures validated == registered
    ensures rejected == Failure(Unauthorized)
    ensures tokens == Login(RequestContext(registered.value))
    ensures tokens.accessToken.claims["roles"] == RoleList([USER])
    ensures tokens.accessToken.claims["sub"] == tokens.refreshToken.claims["sub"] == Num(registered.value.id)
  {
    users := new UserService();
    var auth := new AuthService(users);
    var input := new RegisterInput("alice", "pw123!", [ADMIN], true, map[]);
    registered := auth.Register(input, hash);
    assert users.users[registered.value.id].username == "alice";
    validated := users.ValidateUsernamePassword("alice", "pw123!", compare);
    rejected := users.ValidateUsernamePassword("alice", "wrong", compare);
    tokens := Login(RequestContext(validated.value));
  }
}
