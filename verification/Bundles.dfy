/** Role bundles: the constant table of capability templates each role is granted. */
module Bundles {

  datatype Operation =
    | OpRead | OpWrite | OpDelete | OpRun | OpAdmin | OpShare | OpGrant | OpScrub | OpPlatformAdmin

  datatype ResourceType =
    | RtOrganisation | RtProject | RtScenario | RtAuditLog | RtAgent | RtService | RtWildcard | RtPlatform

  datatype Scope = ScopeSelf | ScopeAllInOrg | ScopeResource

  datatype Role = RoleOwner | RoleAdmin | RoleMember | RoleViewer | RoleComplianceOfficer | RoleDpo

  /** A bundle name: `role:<role>` for the six primary bundles, or `role:guest_viewer`. */
  datatype BundleName = Primary(role: Role) | GuestViewer

  datatype Template = Template(operation: Operation, resourceType: ResourceType, scope: Scope)

  function Bundle(name: BundleName): seq<Template> {
    match name
    case GuestViewer => [
      Template(OpRead, RtProject, ScopeResource)]
    case Primary(RoleOwner) => [
      Template(OpRead, RtOrganisation, ScopeSelf),
      Template(OpAdmin, RtOrganisation, ScopeSelf),
      Template(OpShare, RtOrganisation, ScopeSelf),
      Template(OpAdmin, RtProject, ScopeAllInOrg),
      Template(OpShare, RtProject, ScopeAllInOrg),
      Template(OpWrite, RtProject, ScopeAllInOrg),
      Template(OpRun, RtProject, ScopeAllInOrg),
      Template(OpRead, RtProject, ScopeAllInOrg),
      Template(OpRead, RtAuditLog, ScopeSelf),
      Template(OpGrant, RtAgent, ScopeSelf),
      Template(OpGrant, RtService, ScopeSelf)]
    case Primary(RoleAdmin) => [
      Template(OpRead, RtOrganisation, ScopeSelf),
      Template(OpAdmin, RtOrganisation, ScopeSelf),
      Template(OpAdmin, RtProject, ScopeAllInOrg),
      Template(OpShare, RtProject, ScopeAllInOrg),
      Template(OpWrite, RtProject, ScopeAllInOrg),
      Template(OpRun, RtProject, ScopeAllInOrg),
      Template(OpRead, RtProject, ScopeAllInOrg),
      Template(OpRead, RtAuditLog, ScopeSelf)]
    case Primary(RoleMember) => [
      Template(OpRead, RtOrganisation, ScopeSelf),
      Template(OpWrite, RtProject, ScopeAllInOrg),
      Template(OpRun, RtProject, ScopeAllInOrg),
      Template(OpRead, RtProject, ScopeAllInOrg)]
    case Primary(RoleViewer) => [
      Template(OpRead, RtOrganisation, ScopeSelf),
      Template(OpRead, RtProject, ScopeAllInOrg)]
    case Primary(RoleComplianceOfficer) => [
      Template(OpRead, RtAuditLog, ScopeSelf)]
    case Primary(RoleDpo) => [
      Template(OpRead, RtAuditLog, ScopeSelf),
      Template(OpScrub, RtAuditLog, ScopeSelf)]
  }

  /** In the primary bundles the scope is a function of the resource type. */
  function ScopeFor(rt: ResourceType): Scope {
    if rt == RtProject then ScopeAllInOrg else ScopeSelf
  }

  /** `role` carries a template for `op` on resources of type `rt`. */
  predicate Granted(role: Role, op: Operation, rt: ResourceType) {
    Template(op, rt, ScopeFor(rt)) in Bundle(Primary(role))
  }

  /** The order in which the primary bundles list their templates. */
  function Rank(t: Template): nat {
    match t.resourceType
    case RtOrganisation => if t.operation == OpRead then 0 else if t.operation == OpAdmin then 1 else 2
    case RtProject =>
      if t.operation == OpAdmin then 3 else if t.operation == OpShare then 4 else if t.operation == OpWrite then 5
      else if t.operation == OpRun then 6 else 7
    case RtAuditLog => if t.operation == OpRead then 8 else 9
    case RtAgent => 10
    case _ => 11
  }

  predicate Increasing(ts: seq<Template>) {
    forall i :: 0 <= i < |ts| - 1 ==> Rank(ts[i]) < Rank(ts[i + 1])
  }

  lemma {:induction false} IncreasingPairs(ts: seq<Template>, i: nat, j: nat)
    requires Increasing(ts) && i < j < |ts|
    ensures Rank(ts[i]) < Rank(ts[j])
  {
    if j > i + 1 {
      IncreasingPairs(ts, i, j - 1);
    }
    assert Rank(ts[j - 1]) < Rank(ts[j - 1 + 1]);
  }

  lemma ScopesFollowTypes(role: Role, t: Template)
    requires t in Bundle(Primary(role))
    ensures t.scope == ScopeFor(t.resourceType)
  {
    match role
    case RoleOwner =>
    case RoleAdmin =>
    case RoleMember =>
    case RoleViewer =>
    case RoleComplianceOfficer =>
    case RoleDpo =>
  }

  /** No primary bundle lists a template twice. */
  lemma BundlesIncrease(role: Role)
    ensures Increasing(Bundle(Primary(role)))
  {
    match role
    case RoleOwner =>
    case RoleAdmin =>
    case RoleMember =>
    case RoleViewer =>
    case RoleComplianceOfficer =>
    case RoleDpo =>
  }

  // ---- the table, column by column ----

  /** Which roles may do what; every other pair is granted to nobody. */
  function Holders(op: Operation, rt: ResourceType): set<Role> {
    match (op, rt)
    case (OpRead, RtOrganisation) => {RoleOwner, RoleAdmin, RoleMember, RoleViewer}
    case (OpAdmin, RtOrganisation) => {RoleOwner, RoleAdmin}
    case (OpShare, RtOrganisation) => {RoleOwner}
    case (OpRead, RtProject) => {RoleOwner, RoleAdmin, RoleMember, RoleViewer}
    case (OpWrite, RtProject) => {RoleOwner, RoleAdmin, RoleMember}
    case (OpRun, RtProject) => {RoleOwner, RoleAdmin, RoleMember}
    case (OpAdmin, RtProject) => {RoleOwner, RoleAdmin}
    case (OpShare, RtProject) => {RoleOwner, RoleAdmin}
    case (OpRead, RtAuditLog) => {RoleOwner, RoleAdmin, RoleComplianceOfficer, RoleDpo}
    case (OpScrub, RtAuditLog) => {RoleDpo}
    case (OpGrant, RtAgent) => {RoleOwner}
    case (OpGrant, RtService) => {RoleOwner}
    case _ => {}
  }

  lemma GrantedIffHolder(role: Role, op: Operation, rt: ResourceType)
    ensures Granted(role, op, rt) <==> role in Holders(op, rt)
  {
    var ts := Bundle(Primary(role));
    var t := Template(op, rt, ScopeFor(rt));
    if role in Holders(op, rt) {
      assert exists i :: 0 <= i < |ts| && ts[i] == t by {
        HolderHasRow(role, op, rt);
      }
    }
    if t in ts {
      var i :| 0 <= i < |ts| && ts[i] == t;
      RowHasHolder(role, i);
    }
  }

  lemma RowHasHolder(role: Role, i: nat)
    requires i < |Bundle(Primary(role))|
    ensures role in Holders(Bundle(Primary(role))[i].operation, Bundle(Primary(role))[i].resourceType)
  {
  }

  lemma HolderHasRow(role: Role, op: Operation, rt: ResourceType)
    requires role in Holders(op, rt)
    ensures exists i :: 0 <= i < |Bundle(Primary(role))| && Bundle(Primary(role))[i] == Template(op, rt, ScopeFor(rt))
  {
    var ts, t := Bundle(Primary(role)), Template(op, rt, ScopeFor(rt));
    assert t == ts[0] || t == ts[1] || t == ts[2] || t == ts[3] || t == ts[4] || t == ts[5] || t == ts[6] || t == ts[7]
      || t == ts[8] || t == ts[9] || t == ts[10];
  }

  /** On organisations and projects an owner can do all an admin can, an admin all a member can, a member all a viewer can. */
  lemma RolesAreNested(op: Operation, rt: ResourceType)
    requires rt == RtOrganisation || rt == RtProject
    ensures Granted(RoleViewer, op, rt) ==> Granted(RoleMember, op, rt)
    ensures Granted(RoleMember, op, rt) ==> Granted(RoleAdmin, op, rt)
    ensures Granted(RoleAdmin, op, rt) ==> Granted(RoleOwner, op, rt)
    ensures !Granted(RoleComplianceOfficer, op, rt) && !Granted(RoleDpo, op, rt)
  {
    GrantedIffHolder(RoleViewer, op, rt);
    GrantedIffHolder(RoleMember, op, rt);
    GrantedIffHolder(RoleAdmin, op, rt);
    GrantedIffHolder(RoleOwner, op, rt);
    GrantedIffHolder(RoleComplianceOfficer, op, rt);
    GrantedIffHolder(RoleDpo, op, rt);
  }
}
