/** The policy vocabulary (roles, actions, actors) and the generic access-control
    engine that `UserAclService` inherits from. The engine's own source is not
    part of this model; it is modelled minimally: a rule grants when the actor
    holds the rule's role, the rule lists the action or `Manage`, and the rule's
    callback, if it has one, holds; the decision is the OR of all rules. */
module Acl {
  import opened Wrappers

  /** The roles an account can hold. */
  datatype Role = ADMIN | USER

  /** The actions a rule can grant; `Manage` stands for all of them. */
  datatype Action = Create | Read | Update | Delete | Manage

  /** The caller as seen by the engine: an id and the roles it holds. */
  datatype Actor = Actor(id: int, roles: seq<Role>)

  /** One registered grant over resources of type R. */
  datatype Rule<!R> = Rule(role: Role, actions: seq<Action>, ruleCallback: Option<(R, Actor) -> bool>)

  /** Whether one rule grants `action` on `resource` to `actor`. */
  predicate Grants<R>(rule: Rule<R>, actor: Actor, action: Action, resource: R)
  {
    && rule.role in actor.roles
    && (action in rule.actions || Manage in rule.actions)
    && (rule.ruleCallback.Some? ==> rule.ruleCallback.value(resource, actor))
  }

  /** The decision of the engine over a rule registry, rule by rule. */
  function CanDoAction<R>(rules: seq<Rule<R>>, actor: Actor, action: Action, resource: R): (r: bool)
    ensures r <==> exists i :: 0 <= i < |rules| && Grants(rules[i], actor, action, resource)
  {
    if rules == [] then false
    else
      var rest := CanDoAction(rules[1..], actor, action, resource);
      assert forall i :: 0 < i < |rules| ==> rules[i] == rules[1..][i - 1];
      assert rest ==> exists i :: 0 < i < |rules| && Grants(rules[i], actor, action, resource) by {
        if rest {
          var j :| 0 <= j < |rules[1..]| && Grants(rules[1..][j], actor, action, resource);
          assert Grants(rules[j + 1], actor, action, resource);
        }
      }
      Grants(rules[0], actor, action, resource) || rest
  }

  /** Rules are additive: the decision over two registries put together is the
      OR of the decisions over each, so no rule ever revokes another's grant. */
  lemma {:induction false} CanDoActionAppend<R>(rules: seq<Rule<R>>, more: seq<Rule<R>>, actor: Actor, action: Action, resource: R)
    ensures CanDoAction(rules + more, actor, action, resource)
            == (CanDoAction(rules, actor, action, resource) || CanDoAction(more, actor, action, resource))
  {
    var all := rules + more;
    if CanDoAction(all, actor, action, resource) {
      var i :| 0 <= i < |all| && Grants(all[i], actor, action, resource);
      if i < |rules| {
        assert Grants(rules[i], actor, action, resource);
      } else {
        assert Grants(more[i - |rules|], actor, action, resource);
      }
    }
    if CanDoAction(rules, actor, action, resource) {
      var i :| 0 <= i < |rules| && Grants(rules[i], actor, action, resource);
      assert Grants(all[i], actor, action, resource);
    }
    if CanDoAction(more, actor, action, resource) {
      var i :| 0 <= i < |more| && Grants(more[i], actor, action, resource);
      assert Grants(all[|rules| + i], actor, action, resource);
    }
  }
}
