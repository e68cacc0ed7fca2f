/**
 The rows of the tenancy store. Tables that are never deleted from are sequences, and a row's
 primary key is its index; memberships are deleted, so their key is the pair of columns.
 Raw invitation and share tokens are represented by the key of the row holding their hash.
 */
module Tables {
  import opened Prelude
  import opened Bundles

  type ActorId = nat
  type OrgId = nat
  type ProjectId = nat
  type ShareId = nat
  type CapId = nat

  datatype Org = Org(slug: string, deletedAt: Option<Time>)

  datatype Project = Project(org: OrgId, slug: string, deletedAt: Option<Time>)

  datatype Member = Member(org: OrgId, actor: ActorId, role: Role)

  datatype Invitation = Invitation(
    org: OrgId, role: Role, invitedBy: ActorId, expiresAt: Time,
    consumedAt: Option<Time>, consumedBy: Option<ActorId>)

  datatype Share = Share(
    project: ProjectId, org: OrgId, sharedBy: ActorId, expiresAt: Time,
    consumedAt: Option<Time>, consumedBy: Option<ActorId>, consumedCapability: Option<CapId>)

  /** Keys of the JSON metadata column of a capability. */
  datatype MetaKey = MetaOrg | MetaShare | MetaProject | MetaRevokedBy | MetaRevokedAt

  datatype Capability = Capability(
    actor: ActorId, operation: Operation, resourceType: ResourceType, resourceId: Option<nat>,
    bundle: BundleName, grantedBy: ActorId, expiresAt: Option<Time>, revokedAt: Option<Time>,
    policyBlocked: bool, meta: map<MetaKey, nat>)

  datatype Action = ActCreate | ActUpdate | ActDelete

  datatype Entity = EntOrganisation | EntMember | EntInvitation | EntProject | EntShare | EntCapability

  /** The part of an audit row's `diff` column that speaks about capabilities. */
  datatype Diff =
    | OtherDiff
    | CapCreated(actor: ActorId, operation: Operation, resourceType: ResourceType, resourceId: Option<nat>,
                 bundle: BundleName, grantedBy: ActorId, expiresAt: Option<Time>)
    | CapRevoked(at: Time, revokedBy: ActorId)

  datatype AuditRow = AuditRow(action: Action, entity: Entity, entityId: nat, org: OrgId, diff: Diff)

  datatype State = State(
    orgs: seq<Org>, projects: seq<Project>, members: seq<Member>,
    invitations: seq<Invitation>, shares: seq<Share>,
    caps: seq<Capability>, audit: seq<AuditRow>)

  const EMPTY := State([], [], [], [], [], [], [])

  // ---- capabilities ----

  predicate Active(c: Capability) {
    c.revokedAt.None?
  }

  /** `metadata ->> 'org_id'`. */
  function TagOrg(c: Capability): Option<nat> {
    if MetaOrg in c.meta then Some(c.meta[MetaOrg]) else None
  }

  /** `metadata ->> 'share_id'`. */
  function TagShare(c: Capability): Option<nat> {
    if MetaShare in c.meta then Some(c.meta[MetaShare]) else None
  }

  // ---- directory queries ----

  predicate LiveOrg(orgs: seq<Org>, o: OrgId) {
    o < |orgs| && orgs[o].deletedAt.None?
  }

  predicate LiveProject(projects: seq<Project>, p: ProjectId) {
    p < |projects| && projects[p].deletedAt.None?
  }

  /** `SELECT id FROM projects WHERE organisation_id = o AND deleted_at IS NULL`, in creation order. */
  function LiveProjects(projects: seq<Project>, o: OrgId): (r: seq<ProjectId>)
    ensures forall p: ProjectId :: p in r <==> LiveProject(projects, p) && projects[p].org == o
    ensures forall i, j :: 0 <= i < j < |r| ==> r[i] < r[j]
  {
    if projects == [] then [] else
      var n := |projects| - 1;
      var rest := LiveProjects(projects[..n], o);
      assert forall i | 0 <= i < |rest| :: rest[i] in rest;
      if projects[n].deletedAt.None? && projects[n].org == o then rest + [n] else rest
  }

  /** Primary-key lookup in `organisation_members`. */
  function FindMember(members: seq<Member>, o: OrgId, a: ActorId): (r: Option<Role>)
    ensures r.Some? ==> Member(o, a, r.value) in members
    ensures r.None? ==> forall m :: m in members ==> !(m.org == o && m.actor == a)
  {
    if members == [] then None else
      var n := |members| - 1;
      if members[n].org == o && members[n].actor == a then Some(members[n].role)
      else FindMember(members[..n], o, a)
  }

  /** The primary key of `organisation_members`: one row per (organisation, actor). */
  predicate UniqueMembers(members: seq<Member>) {
    forall i, j :: 0 <= i < j < |members| ==> !(members[i].org == members[j].org && members[i].actor == members[j].actor)
  }

  /** `SELECT * FROM organisation_members WHERE organisation_id = o`. */
  function MembersOf(members: seq<Member>, o: OrgId): (r: seq<Member>)
    ensures forall m :: m in r <==> m in members && m.org == o
    ensures UniqueMembers(members) ==> UniqueMembers(r)
  {
    if members == [] then [] else
      var n := |members| - 1;
      var rest := MembersOf(members[..n], o);
      if members[n].org == o then rest + [members[n]] else rest
  }

  function CountOwners(members: seq<Member>, o: OrgId): nat {
    if members == [] then 0 else
      var n := |members| - 1;
      CountOwners(members[..n], o) + if members[n].org == o && members[n].role == RoleOwner then 1 else 0
  }

  /** `DELETE FROM organisation_members WHERE organisation_id = o AND actor_id = a`. */
  function WithoutMember(members: seq<Member>, o: OrgId, a: ActorId): (r: seq<Member>)
    ensures forall m :: m in r <==> m in members && !(m.org == o && m.actor == a)
    ensures UniqueMembers(members) ==> UniqueMembers(r)
  {
    if members == [] then [] else
      var n := |members| - 1;
      var rest := WithoutMember(members[..n], o, a);
      if members[n].org == o && members[n].actor == a then rest else rest + [members[n]]
  }

  /** `UPDATE organisation_members SET role = r WHERE organisation_id = o AND actor_id = a`. */
  function WithRole(members: seq<Member>, o: OrgId, a: ActorId, r: Role): seq<Member> {
    seq(|members|, i requires 0 <= i < |members| =>
      if members[i].org == o && members[i].actor == a then members[i].(role := r) else members[i])
  }

  /** `SELECT * FROM organisations WHERE slug = ? AND deleted_at IS NULL`; slugs are unique. */
  function OrgBySlug(orgs: seq<Org>, slug: string): (r: Option<OrgId>)
    ensures r.Some? ==> LiveOrg(orgs, r.value) && orgs[r.value].slug == slug
    ensures r.None? ==> forall o: OrgId :: LiveOrg(orgs, o) ==> orgs[o].slug != slug
  {
    if orgs == [] then None else
      var n := |orgs| - 1;
      if orgs[n].slug == slug && orgs[n].deletedAt.None? then Some(n) else OrgBySlug(orgs[..n], slug)
  }

  /** The live project of `o` with this slug; slugs are unique inside an organisation. */
  function ProjectBySlug(projects: seq<Project>, o: OrgId, slug: string): (r: Option<ProjectId>)
    ensures r.Some? ==> LiveProject(projects, r.value) && projects[r.value].org == o && projects[r.value].slug == slug
    ensures r.None? ==> forall p: ProjectId :: LiveProject(projects, p) && projects[p].org == o ==> projects[p].slug != slug
  {
    if projects == [] then None else
      var n := |projects| - 1;
      if projects[n].org == o && projects[n].slug == slug && projects[n].deletedAt.None? then Some(n)
      else ProjectBySlug(projects[..n], o, slug)
  }
}
