/**
 * Role permissions (services/roleService.js): a role's `permissions` array
 * of permission ids, changed by `findByIdAndUpdate` with `$addToSet` or
 * `$pull`, which answers the updated role (`new: true`), or null when no
 * role has the id.
 */
module RoleService {
  import opened Wrappers

  datatype Role = Role(id: string, name: string, permissions: seq<string>, description: Option<string>)

  predicate NoDuplicates(ps: seq<string>) {
    forall i, j :: 0 <= i < j < |ps| ==> ps[i] != ps[j]
  }

  /** `$addToSet`: appends the value unless it is already an element. */
  function AddToSet(ps: seq<string>, x: string): (r: seq<string>)
    ensures x in r
    ensures forall y :: y in r <==> y in ps || y == x
    ensures |ps| <= |r| <= |ps| + 1 && r[..|ps|] == ps
    ensures NoDuplicates(ps) ==> NoDuplicates(r)
  {
    if x in ps then ps
    else
      var r := ps + [x];
      assert forall i :: 0 <= i < |ps| ==> r[i] == ps[i];
      r
  }

  /** `$pull`: removes every element equal to the value. */
  function Pull(ps: seq<string>, x: string): (r: seq<string>)
    ensures x !in r
    ensures forall y :: y in r <==> y in ps && y != x
    ensures |r| <= |ps|
    decreases |ps|
  {
    if |ps| == 0 then []
    else (if ps[0] == x then [] else [ps[0]]) + Pull(ps[1..], x)
  }

  /** Adding a permission that is already there changes nothing, so adding twice is adding once. */
  lemma AddToSetIdempotent(ps: seq<string>, x: string)
    ensures AddToSet(AddToSet(ps, x), x) == AddToSet(ps, x)
    ensures x in ps ==> AddToSet(ps, x) == ps
  {
  }

  /** `$pull` keeps the other elements in their order: it distributes over concatenation. */
  lemma {:induction false} PullDistributes(a: seq<string>, b: seq<string>, x: string)
    ensures Pull(a + b, x) == Pull(a, x) + Pull(b, x)
    decreases |a|
  {
    if |a| > 0 {
      assert (a + b)[0] == a[0];
      assert (a + b)[1..] == a[1..] + b;
      PullDistributes(a[1..], b, x);
      var h := if a[0] == x then [] else [a[0]];
      assert Pull(a + b, x) == h + Pull(a[1..] + b, x);
      assert Pull(a, x) == h + Pull(a[1..], x);
      assert h + (Pull(a[1..], x) + Pull(b, x)) == (h + Pull(a[1..], x)) + Pull(b, x);
    } else {
      assert a + b == b;
    }
  }

  /** Pulling a value that is absent changes nothing. */
  lemma {:induction false} PullAbsent(ps: seq<string>, x: string)
    requires x !in ps
    ensures Pull(ps, x) == ps
    decreases |ps|
  {
    if |ps| > 0 {
      assert x !in ps[1..];
      PullAbsent(ps[1..], x);
      assert [ps[0]] + ps[1..] == ps;
    }
  }

  /** Removing a permission just assigned to a role that lacked it restores the original list. */
  lemma AssignThenRemoveRestores(ps: seq<string>, x: string)
    requires x !in ps
    ensures Pull(AddToSet(ps, x), x) == ps
  {
    PullDistributes(ps, [x], x);
    PullAbsent(ps, x);
    assert Pull([x], x) == [] + Pull([], x);
  }

  /** The updated role, None (null) when no role has the id. */
  function AssignOutcome(roles: map<string, Role>, roleId: string, permissionId: string): (map<string, Role>, Option<Role>) {
    if roleId in roles then
      var updated := roles[roleId].(permissions := AddToSet(roles[roleId].permissions, permissionId));
      (roles[roleId := updated], Some(updated))
    else (roles, None)
  }

  function RemoveOutcome(roles: map<string, Role>, roleId: string, permissionId: string): (map<string, Role>, Option<Role>) {
    if roleId in roles then
      var updated := roles[roleId].(permissions := Pull(roles[roleId].permissions, permissionId));
      (roles[roleId := updated], Some(updated))
    else (roles, None)
  }

  /**
   * Assigning makes the permission an element of the role's list, at most
   * once, and is idempotent; only that role changes, and only its list.
   */
  lemma AssignEffect(roles: map<string, Role>, roleId: string, permissionId: string)
    ensures var (roles', r) := AssignOutcome(roles, roleId, permissionId);
      && roles'.Keys == roles.Keys
      && (forall id :: id in roles && id != roleId ==> roles'[id] == roles[id])
      && (roleId in roles ==>
            && r == Some(roles'[roleId])
            && permissionId in roles'[roleId].permissions
            && roles'[roleId].(permissions := roles[roleId].permissions) == roles[roleId]
            && (NoDuplicates(roles[roleId].permissions) ==> NoDuplicates(roles'[roleId].permissions)))
      && (roleId !in roles ==> roles' == roles && r == None)
      && AssignOutcome(roles', roleId, permissionId) == (roles', r)
  {
    if roleId in roles {
      var roles' := AssignOutcome(roles, roleId, permissionId).0;
      AddToSetIdempotent(roles[roleId].permissions, permissionId);
      assert roles'[roleId].(permissions := AddToSet(roles'[roleId].permissions, permissionId)) == roles'[roleId];
      assert roles'[roleId := roles'[roleId]] == roles';
    }
  }

  /**
   * Removing leaves no occurrence of the permission, keeps every other one
   * (in order, as Pull does), and touches only that role's list.
   */
  lemma RemoveEffect(roles: map<string, Role>, roleId: string, permissionId: string)
    ensures var (roles', r) := RemoveOutcome(roles, roleId, permissionId);
      && roles'.Keys == roles.Keys
      && (forall id :: id in roles && id != roleId ==> roles'[id] == roles[id])
      && (roleId in roles ==>
            && r == Some(roles'[roleId])
            && permissionId !in roles'[roleId].permissions
            && (forall p :: p in roles[roleId].permissions && p != permissionId ==> p in roles'[roleId].permissions)
            && roles'[roleId].(permissions := roles[roleId].permissions) == roles[roleId])
      && (roleId !in roles ==> roles' == roles && r == None)
  {
  }

  /** The roles collection and its `findByIdAndUpdate` operations. */
  class RoleStore {
    var roles: map<string, Role>

    constructor (roles: map<string, Role>)
      ensures this.roles == roles
    {
      this.roles := roles;
    }

    /** `Role.findByIdAndUpdate(roleId, { $addToSet: { permissions: permissionId } }, { new: true })` */
    method FindByIdAndAddToSet(roleId: string, permissionId: string) returns (r: Option<Role>)
      modifies this
      ensures (roles, r) == AssignOutcome(old(roles), roleId, permissionId)
    {
      if roleId !in roles {
        return None;
      }
      var role := roles[roleId];
      role := role.(permissions := AddToSet(role.permissions, permissionId));
      roles := roles[roleId := role];
      return Some(role);
    }

    /** `Role.findByIdAndUpdate(roleId, { $pull: { permissions: permissionId } }, { new: true })` */
    method FindByIdAndPull(roleId: string, permissionId: string) returns (r: Option<Role>)
      modifies this
      ensures (roles, r) == RemoveOutcome(old(roles), roleId, permissionId)
    {
      if roleId !in roles {
        return None;
      }
      var role := roles[roleId];
      role := role.(permissions := Pull(role.permissions, permissionId));
      roles := roles[roleId := role];
      return Some(role);
    }
  }

  /** `roleService.assignPermissionToRole(roleId, permissionId)` */
  method AssignPermissionToRole(store: RoleStore, roleId: string, permissionId: string) returns (r: Option<Role>)
    modifies store
    ensures (store.roles, r) == AssignOutcome(old(store.roles), roleId, permissionId)
  {
    r := store.FindByIdAndAddToSet(roleId, permissionId);
  }

  /** `roleService.removePermissionFromRole(roleId, permissionId)` */
  method RemovePermissionFromRole(store: RoleStore, roleId: string, permissionId: string) returns (r: Option<Role>)
    modifies store
    ensures (store.roles, r) == RemoveOutcome(old(store.roles), roleId, permissionId)
  {
    r := store.FindByIdAndPull(roleId, permissionId);
  }
}
