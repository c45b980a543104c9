/**
 * The role permission handlers (controllers/roleController.js): each runs
 * the same update as the service and answers 200 with `status: 'success'`
 * and the updated role, which is null when no role has the id.
 */
module RoleController {
  import opened Wrappers
  import opened RoleService

  datatype RoleReply = RoleReply(statusCode: int, status: string, role: Option<Role>)

  function Success(role: Option<Role>): RoleReply {
    RoleReply(200, "success", role)
  }

  /** `assignPermissionToRole(req, res, next)` with `req.params` = { roleId, permissionId }. */
  method AssignPermissionToRole(store: RoleStore, roleId: string, permissionId: string) returns (reply: RoleReply)
    modifies store
    ensures var (roles', role) := AssignOutcome(old(store.roles), roleId, permissionId);
      store.roles == roles' && reply == Success(role)
  {
    var role := store.FindByIdAndAddToSet(roleId, permissionId);
    reply := Success(role);
  }

  /** `removePermissionFromRole(req, res, next)` */
  method RemovePermissionFromRole(store: RoleStore, roleId: string, permissionId: string) returns (reply: RoleReply)
    modifies store
    ensures var (roles', role) := RemoveOutcome(old(store.roles), roleId, permissionId);
      store.roles == roles' && reply == Success(role)
  {
    var role := store.FindByIdAndPull(roleId, permissionId);
    reply := Success(role);
  }

  /** Both handlers answer 200 whatever the outcome, also for an unknown role id. */
  lemma HandlersAlwaysSucceed(roles: map<string, Role>, roleId: string, permissionId: string)
    ensures Success(AssignOutcome(roles, roleId, permissionId).1).statusCode == 200
    ensures Success(RemoveOutcome(roles, roleId, permissionId).1).statusCode == 200
    ensures roleId !in roles ==> Success(AssignOutcome(roles, roleId, permissionId).1) == RoleReply(200, "success", None)
  {
  }
}
