# Authentication and user access control, modelled in Dafny

A Dafny model of the authentication and authorization core of a NestJS REST
API starter. It covers three services:

- `UserAclService` is the access-control table for user resources. An ADMIN
  may `Manage` (that is, do anything). A USER may `Read` any user, and may
  `Update` a user only when that user is itself (the `isUserItself` ownership
  callback).
- `UserService` creates users with a hashed password, looks them up by id,
  and checks a username and password pair.
- `AuthService` registers users and issues the token pair: a refresh token
  carrying only the subject, and an access token carrying username, subject
  and roles.

Files and modules:

- `wrappers.dfy`, module `Wrappers`: `Option` and `Result`.
- `acl.dfy`, module `Acl`: roles, actions and actors, plus the generic rule
  engine that `UserAclService` extends. The engine's source file
  (`src/shared/acl/acl.service.ts`) is not part of this model. It is modelled
  minimally: a rule `(role, actions, optional callback)` grants when the actor
  holds the role, the rule lists the action or `Manage`, and the callback (if
  any) holds. The decision is the OR over all rules.
- `user_acl.dfy`, module `UserAcl`: the class `UserAclService`. Its
  constructor appends the three grants one at a time, as the source does. The
  module also has lemmas stating the three comments of the source table.
- `users.dfy`, module `Users`: the class `UserService`. The database
  repository is replaced by in-memory maps held by the service:
  - `users`, from id to record;
  - `ids`, a username index from username to id;
  - `nextId`, the next id to assign.
  bcrypt's `hash` and `compare` are uninterpreted and are passed in as
  function values.
- `auth.dfy`, module `Auth`: token construction, `login`, and the class
  `AuthService` with `register`. `register` updates a mutable `RegisterInput`
  object in place. The module ends with an end-to-end client:
  register, validate, reject a wrong password, issue tokens.

Assumptions, made because the files that would settle them are not part of
this model:

- `UserOutput` and `RegisterOutput` are taken to expose exactly id, username
  and roles. `plainToClass(..., { excludeExtraneousValues: true })` is
  therefore the projection `ToUserOutput`, which drops the password.
- Usernames are unique in the store. Saving a second record with a stored
  username is rejected as `UsernameTaken` and leaves the store unchanged; this
  stands for a database uniqueness constraint.
- The store assigns ids `1, 2, 3, …`: each saved record gets the next unused id, so a
  save never overwrites a stored record. `getById` on an absent id yields `None`.
- The only property of bcrypt used anywhere is an explicit precondition of
  the end-to-end client: `compare` accepts the password that `hash`
  produced, and rejects `"wrong"`. Nothing proves it.

Two behaviours of the code that the model keeps as they are:

- `validateUsernamePassword` (src/user/user.service.ts:53-70) reads no
  disabled flag, so the model has no disabled-account check: a disabled
  account with the right password validates.
- The callback's resource is always a user record; a decision without a
  resource is not modelled.

The refresh token's lifetime key is kept exactly as the code spells it,
`jwt.refreshTokenExpiresInsec` (lower-case `sec`). The access token's key is
`jwt.accessTokenExpiresInSec`.

## Model

| member | source | states |
|---|---|---|
| `Acl.CanDoAction` | src/user/user-acl.service.ts:13-17 | the engine grants exactly when some registered rule whose role the actor holds lists the action or `Manage` and whose callback, if any, holds (default deny) |
| `Acl.CanDoActionAppend` | src/user/user-acl.service.ts:13-17 | rules are additive: the decision over two registries put together is the OR of the two decisions, so a later grant never revokes an earlier one |
| `UserAcl.UserAclService.constructor` | src/user/user-acl.service.ts:10-18 | after construction, the registry is exactly the three grants ADMIN→Manage, USER→Read, USER→Update guarded by `isUserItself`, in that order |
| `UserAcl.UserAclService.CanDo` | src/user/user-acl.service.ts:13-17 | registering appends one rule and nothing else; afterwards every decision is the old decision OR what the new rule grants |
| `UserAcl.UserAclService.CanDoAction` | src/user/user-acl.service.ts:12-17 | on the constructed table: granted iff the actor is ADMIN, or is USER and the action is Read, or is USER and the action is Update on its own record |
| `UserAcl.UserAclDecision` | src/user/user-acl.service.ts:12-22 | the full characterisation of the table's decision for every actor, action and resource, in both directions |
| `UserAcl.UserAclRulesShape` | src/user/user-acl.service.ts:13-17 | the table has exactly three grants; none lists Create or Delete; only ADMIN's lists Manage |
| `UserAcl.AdminCanDoAll` | src/user/user-acl.service.ts:12-13 | an actor holding ADMIN is granted every action on every resource |
| `UserAcl.UserCanReadAny` | src/user/user-acl.service.ts:14-15 | an actor holding USER may Read any user resource, whatever its id |
| `UserAcl.UserUpdatesOnlyItself` | src/user/user-acl.service.ts:16-17 | an actor holding USER but not ADMIN may Update a resource iff the resource's id is the actor's id |
| `UserAcl.UserNeverCreatesOrDeletes` | src/user/user-acl.service.ts:13-17 | without ADMIN, Create and Delete are never granted |
| `UserAcl.NoRoleNoGrant` | src/user/user-acl.service.ts:13-17 | an actor holding neither ADMIN nor USER is denied every action |
| `UserAcl.IsUserItselfOnlyReadsIds` | src/user/user-acl.service.ts:20-22 | the ownership callback holds iff the two ids are equal, and gives equal answers for inputs with equal ids |
| `Users.UserService.FindByUsername` | src/user/user.service.ts:61 | the username lookup finds nothing iff no stored record has that username; otherwise it finds the stored record with that username |
| `Users.UserService.ValidateUsernamePassword` | src/user/user.service.ts:53-70 | every failure is `Unauthorized`; an unknown username fails; success iff some stored record has the username and `compare(pass, stored hash)` holds; on success, the projection of that record |
| `Users.MissingUserIgnoresCompare` | src/user/user.service.ts:61-64 | when the username is absent, the outcome does not depend on `compare` at all: the lookup comes before the password comparison |
| `Users.MissingUserLooksLikeWrongPassword` | src/user/user.service.ts:62-65 | an absent username and a wrong password for a present one give the identical outcome, so a caller cannot tell them apart |
| `Users.ValidatedUserIsStored` | src/user/user.service.ts:61-69 | a successful check returns the record's projection for the given username, the same value `getUserById` gives for its id |
| `Users.UserService.GetUserById` | src/user/user.service.ts:42-51 | a result exactly when a record is stored under `id`; that result carries `id` and is the record's projection (it is a function, so the store is unchanged) |
| `Users.UserService.CreateUser` | src/user/user.service.ts:20-40 | saves exactly one new record under the next id, which no stored record has, and advances that id; its password is `hash(input.password, 10)`, and every other field is the input's; returns that record's projection; a duplicate username changes nothing |
| `Auth.GetAuthToken` | src/auth/auth.service.ts:44-68 | refresh claims are exactly `{sub: id}`; access claims are exactly `{username, sub: id, roles}`, with `sub` still the id after the subject is spread last; the two tokens use the two distinct lifetime keys |
| `Auth.Login` | src/auth/auth.service.ts:28-31 | no credential check: the tokens `getAuthToken` issues for the context's user, both with subject equal to that user's id |
| `Auth.TokensRebuildUser` | src/auth/auth.service.ts:50-55 | the access claims determine the user output completely; the refresh claims are too few to rebuild it |
| `Auth.AuthService.Register` | src/auth/auth.service.ts:33-42 | the input ends with roles `[USER]` and not disabled, and no other field changes; exactly one new record is saved under a fresh id, and it and the returned output carry those values whatever the caller supplied |
| `Auth.RegisterThenValidate` | src/auth/auth.service.ts:33-42 | registering "alice" with roles `[ADMIN]` and disabled, in an empty store, gives a USER under id 1 whose stored record is not disabled; her password validates to the same output; a wrong one fails `Unauthorized`; her tokens carry roles `[USER]` and her id |

## Left out

- HTTP routing, guards and the Passport local strategy (`src/auth/auth.controller.ts`, `src/auth/strategies/local.strategy.ts`) are transport glue. The strategy calls `authService.validateUser`, which is not defined in `src/auth/auth.service.ts`, so it has no model.
- Module wiring (`src/shared/shared.module.ts`, `src/user/user.module.ts`) and the request type declaration (`src/type/UserAuthRequestInterface.ts`) contain no logic.
- bcrypt is foreign cryptography. `hash` and `compare` are parameters with no properties, and the random salt is not modelled: each call's hash is whatever function the caller passes.
- JWT signing, encoding, the clock and expiry arithmetic are left out. A token is its claims plus the name of its lifetime configuration key. The configured lifetimes themselves, and any comparison between them, are not modelled.
- Class-transformer projections whose field lists are not shown: see the assumptions above. The input DTOs' validation (malformed registration input) is not modelled.
- Logging, the request context apart from `ctx.user`, and the async/Promise plumbing are left out.
- The database repository is replaced by in-memory maps. Storage errors other than the duplicate username are not modelled.
- Username matching and uniqueness are exact string equality in the model. The MySQL store configured in src/shared/shared.module.ts:14 usually compares case-insensitively, so there `Alice` and `alice` would collide; the model does not capture collations.
- Callback exceptions inside the engine, and resources omitted for actions that are not resource-scoped, are not modelled.
- `UserAcl.UserAclService.CanDo`: Dafny has no `protected`, so this registration method is callable from outside the class. The model calls it only from the constructor, as the source does; `Valid()` holds from construction on only under that discipline.
