/** `UserAclService`: the access-control table for user resources. Its
    constructor registers three grants with the engine, the last one guarded
    by the ownership callback `IsUserItself`. */
module UserAcl {
  import opened Wrappers
  import opened Acl
  import Users

  /** The ownership callback: the resource is the actor's own user record. */
  function IsUserItself(resource: Users.User, actor: Actor): bool
  {
    resource.id == actor.id
  }

  /** The table the constructor builds, in registration order. */
  function UserAclRules(): seq<Rule<Users.User>>
  {
    [ Rule(ADMIN, [Manage], None),
      Rule(USER, [Read], None),
      Rule(USER, [Update], Some(IsUserItself)) ]
  }

  /** The table's decision in closed form: ADMIN may do anything; otherwise
      USER may read any user and update only itself; nothing else is granted. */
  predicate UserAclAllows(actor: Actor, action: Action, resource: Users.User)
  {
    || ADMIN in actor.roles
    || (USER in actor.roles && (action == Read || (action == Update && resource.id == actor.id)))
  }

  class UserAclService {
    /** The registry inherited from the engine. */
    var aclRules: seq<Rule<Users.User>>

    /** After construction the registry is exactly the user table. */
    ghost predicate Valid()
      reads this
    {
      aclRules == UserAclRules()
    }

    constructor ()
      ensures Valid()
    {
      aclRules := [];
      new;
      // Admin can do every action
      CanDo(ADMIN, [Manage], None);
      // a user can read any user
      CanDo(USER, [Read], None);
      // a user can update only itself
      CanDo(USER, [Update], Some(IsUserItself));
    }

    /** The engine's registration: append one grant. Decisions afterwards are
        the earlier ones, plus whatever the new grant allows. */
    method CanDo(role: Role, actions: seq<Action>, ruleCallback: Option<(Users.User, Actor) -> bool>)
      modifies this
      ensures aclRules == old(aclRules) + [Rule(role, actions, ruleCallback)]
      ensures forall actor, action, resource ::
        Acl.CanDoAction(aclRules, actor, action, resource)
        == (Acl.CanDoAction(old(aclRules), actor, action, resource)
            || Grants(Rule(role, actions, ruleCallback), actor, action, resource))
    {
      var rule := Rule(role, actions, ruleCallback);
      aclRules := aclRules + [rule];
      forall actor, action, resource
        ensures Acl.CanDoAction(aclRules, actor, action, resource)
             == (Acl.CanDoAction(old(aclRules), actor, action, resource) || Grants(rule, actor, action, resource))
      {
        CanDoActionAppend(old(aclRules), [rule], actor, action, resource);
        assert [rule][0] == rule;
      }
    }

    /** The engine's `canDoAction` for this table. */
    function CanDoAction(actor: Actor, action: Action, resource: Users.User): (r: bool)
      reads this
      requires Valid()
      ensures r <==> UserAclAllows(actor, action, resource)
    {
      UserAclDecision(actor, action, resource);
      Acl.CanDoAction(aclRules, actor, action, resource)
    }
  }

  /** The whole table in one statement: the engine's decision over it is the closed form. */
  lemma UserAclDecision(actor: Actor, action: Action, resource: Users.User)
    ensures Acl.CanDoAction(UserAclRules(), actor, action, resource) <==> UserAclAllows(actor, action, resource)
  {
    var rules := UserAclRules();
    assert Grants(rules[0], actor, action, resource) <==> ADMIN in actor.roles;
    assert Grants(rules[1], actor, action, resource) <==> USER in actor.roles && action == Read;
    assert Grants(rules[2], actor, action, resource)
       <==> USER in actor.roles && action == Update && resource.id == actor.id;
  }

  /** The table holds exactly three grants; only ADMIN's lists `Manage`, and none lists `Create` or `Delete`. */
  lemma UserAclRulesShape()
    ensures |UserAclRules()| == 3
    ensures forall i :: 0 <= i < |UserAclRules()| ==>
      Create !in UserAclRules()[i].actions && Delete !in UserAclRules()[i].actions
      && (Manage in UserAclRules()[i].actions <==> UserAclRules()[i].role == ADMIN)
  {
  }

  /** An ADMIN is granted every action on every resource. */
  lemma AdminCanDoAll(actor: Actor, action: Action, resource: Users.User)
    requires ADMIN in actor.roles
    ensures Acl.CanDoAction(UserAclRules(), actor, action, resource)
  {
    UserAclDecision(actor, action, resource);
  }

  /** A USER may read any user, whatever its id. */
  lemma UserCanReadAny(actor: Actor, resource: Users.User)
    requires USER in actor.roles
    ensures Acl.CanDoAction(UserAclRules(), actor, Read, resource)
  {
    UserAclDecision(actor, Read, resource);
  }

  /** A USER who is not ADMIN may update a user exactly when it is itself. */
  lemma UserUpdatesOnlyItself(actor: Actor, resource: Users.User)
    requires USER in actor.roles && ADMIN !in actor.roles
    ensures Acl.CanDoAction(UserAclRules(), actor, Update, resource) <==> resource.id == actor.id
  {
    UserAclDecision(actor, Update, resource);
  }

  /** Without ADMIN, nothing grants `Create` or `Delete`. */
  lemma UserNeverCreatesOrDeletes(actor: Actor, resource: Users.User)
    requires ADMIN !in actor.roles
    ensures !Acl.CanDoAction(UserAclRules(), actor, Create, resource)
    ensures !Acl.CanDoAction(UserAclRules(), actor, Delete, resource)
  {
    UserAclDecision(actor, Create, resource);
    UserAclDecision(actor, Delete, resource);
  }

  /** An actor with neither role matches no rule and is denied every action. */
  lemma NoRoleNoGrant(actor: Actor, action: Action, resource: Users.User)
    requires ADMIN !in actor.roles && USER !in actor.roles
    ensures !Acl.CanDoAction(UserAclRules(), actor, action, resource)
  {
    UserAclDecision(actor, action, resource);
  }

  /** The ownership callback looks at the two ids and at nothing else. */
  lemma IsUserItselfOnlyReadsIds(resource: Users.User, actor: Actor, resource': Users.User, actor': Actor)
    requires resource.id == resource'.id && actor.id == actor'.id
    ensures IsUserItself(resource, actor) == IsUserItself(resource', actor')
    ensures IsUserItself(resource, actor) <==> resource.id == actor.id
  {
  }
}
