/**
 Capabilities: how rows are minted and revoked (with the audit row written for each), and the
 `can` predicate that every route consults.
 */
module Authz {
  import opened Prelude
  import opened Bundles
  import opened Tables

  // ---- minting ----

  /** The columns shared by every row of one mint. */
  datatype Grantee = Grantee(
    actor: ActorId, bundle: BundleName, grantedBy: ActorId, expiresAt: Option<Time>, meta: map<MetaKey, nat>)

  function Row(g: Grantee, t: Template, resource: Option<nat>): Capability {
    Capability(g.actor, t.operation, t.resourceType, resource, g.bundle, g.grantedBy, g.expiresAt, None, false, g.meta)
  }

  /** The concrete resource ids a template scope stands for. */
  function Targets(t: Template, org: OrgId, projects: seq<ProjectId>, resource: Option<nat>): seq<Option<nat>> {
    match t.scope
    case ScopeSelf => [if t.resourceType == RtOrganisation then Some(org) else None]
    case ScopeAllInOrg => seq(|projects|, i requires 0 <= i < |projects| => Some(projects[i]))
    case ScopeResource => [resource]
  }

  function TemplateRows(g: Grantee, t: Template, targets: seq<Option<nat>>): seq<Capability> {
    seq(|targets|, i requires 0 <= i < |targets| => Row(g, t, targets[i]))
  }

  function BundleRows(g: Grantee, ts: seq<Template>, org: OrgId, projects: seq<ProjectId>, resource: Option<nat>)
    : seq<Capability>
  {
    if ts == [] then [] else
      var n := |ts| - 1;
      BundleRows(g, ts[..n], org, projects, resource) + TemplateRows(g, ts[n], Targets(ts[n], org, projects, resource))
  }

  /** The audit diff of a freshly minted row. */
  function CapAfter(c: Capability): Diff {
    CapCreated(c.actor, c.operation, c.resourceType, c.resourceId, c.bundle, c.grantedBy, c.expiresAt)
  }

  /** One `create capability` audit row per minted row; `first` is the key of the first one. */
  function CreateRows(first: CapId, rows: seq<Capability>, org: OrgId): seq<AuditRow> {
    seq(|rows|, i requires 0 <= i < |rows| =>
      AuditRow(ActCreate, EntCapability, first + i, org, CapAfter(rows[i])))
  }

  /** The state after minting `rows` in `org`. */
  function Mint(s: State, org: OrgId, rows: seq<Capability>): State {
    s.(caps := s.caps + rows, audit := s.audit + CreateRows(|s.caps|, rows, org))
  }

  /** Whether a bundle's templates are covered by the arguments of the mint. */
  predicate ScopesCovered(ts: seq<Template>, projects: Option<seq<ProjectId>>, resource: Option<nat>) {
    && (resource.None? ==> forall t :: t in ts ==> t.scope != ScopeResource)
    && (projects.None? ==> forall t :: t in ts ==> t.scope != ScopeAllInOrg)
  }

  function MintBundle(s: State, a: ActorId, bundle: BundleName, org: OrgId, grantedBy: ActorId,
                      projects: seq<ProjectId>, resource: Option<nat>): State
  {
    Mint(s, org, BundleRows(Grantee(a, bundle, grantedBy, None, map[MetaOrg := org]), Bundle(bundle), org, projects, resource))
  }

  // ---- revoking ----

  /** Rows that `revoke_bundle` updates. */
  predicate InBundle(c: Capability, a: ActorId, bundle: BundleName, org: OrgId) {
    c.actor == a && c.bundle == bundle && Active(c) && TagOrg(c) == Some(org)
  }

  function RevokeBundleRows(caps: seq<Capability>, a: ActorId, bundle: BundleName, org: OrgId, now: Time): seq<Capability> {
    seq(|caps|, i requires 0 <= i < |caps| =>
      if InBundle(caps[i], a, bundle, org) then caps[i].(revokedAt := Some(now)) else caps[i])
  }

  /** Keys of the rows `revoke_bundle` updates, ascending. */
  function BundleIds(caps: seq<Capability>, a: ActorId, bundle: BundleName, org: OrgId): (r: seq<CapId>)
    ensures forall i: CapId :: i in r <==> i < |caps| && InBundle(caps[i], a, bundle, org)
  {
    if caps == [] then [] else
      var n := |caps| - 1;
      var rest := BundleIds(caps[..n], a, bundle, org);
      if InBundle(caps[n], a, bundle, org) then rest + [n] else rest
  }

  /** One `update capability` audit row per revoked row. */
  function RevokeRows(ids: seq<CapId>, org: OrgId, now: Time, revokedBy: ActorId): seq<AuditRow> {
    seq(|ids|, i requires 0 <= i < |ids| =>
      AuditRow(ActUpdate, EntCapability, ids[i], org, CapRevoked(now, revokedBy)))
  }

  function RevokeBundle(s: State, a: ActorId, bundle: BundleName, org: OrgId, revokedBy: ActorId, now: Time): State {
    s.(caps := RevokeBundleRows(s.caps, a, bundle, org, now),
       audit := s.audit + RevokeRows(BundleIds(s.caps, a, bundle, org), org, now, revokedBy))
  }

  /** A row revoked with the revoker stamped into its metadata; `granted_by` is left alone. */
  function Stamped(c: Capability, now: Time, revokedBy: ActorId): Capability {
    c.(revokedAt := Some(now), meta := c.meta + map[MetaRevokedBy := revokedBy, MetaRevokedAt := now])
  }

  /** `UPDATE capabilities ... WHERE org_id = org [AND actor_id = a] AND revoked_at IS NULL`. */
  function RevokeTagged(caps: seq<Capability>, org: OrgId, a: Option<ActorId>, now: Time, revokedBy: ActorId): seq<Capability> {
    seq(|caps|, i requires 0 <= i < |caps| =>
      if Active(caps[i]) && TagOrg(caps[i]) == Some(org) && (a.Some? ==> caps[i].actor == a.value)
      then Stamped(caps[i], now, revokedBy) else caps[i])
  }

  /** `UPDATE capabilities ... WHERE id = cap AND revoked_at IS NULL`. */
  function RevokeOne(caps: seq<Capability>, cap: CapId, now: Time, revokedBy: ActorId): seq<Capability> {
    if cap < |caps| && Active(caps[cap]) then caps[cap := Stamped(caps[cap], now, revokedBy)] else caps
  }

  // ---- checking ----

  /** Rows loaded for a check: the actor's own, neither revoked nor blocked. */
  predicate Loadable(c: Capability, a: ActorId) {
    c.actor == a && c.revokedAt.None? && !c.policyBlocked
  }

  function LoadActive(caps: seq<Capability>, a: ActorId): (r: seq<Capability>)
    ensures forall c :: c in r <==> c in caps && Loadable(c, a)
  {
    if caps == [] then [] else
      var n := |caps| - 1;
      var rest := LoadActive(caps[..n], a);
      if Loadable(caps[n], a) then rest + [caps[n]] else rest
  }

  /** Another actor's rows, revoked rows and blocked rows are never loaded. */
  lemma LoadedIff(caps: seq<Capability>, a: ActorId, c: Capability)
    ensures c in LoadActive(caps, a) <==> c in caps && c.actor == a && c.revokedAt == None && !c.policyBlocked
  {
  }

  predicate Matches(c: Capability, op: Operation, rt: ResourceType, resource: Option<nat>, now: Time) {
    if c.operation != op || c.resourceType != rt then false
    else if c.policyBlocked then false
    else if c.revokedAt.Some? && c.revokedAt.value <= now then false
    else if c.expiresAt.Some? && c.expiresAt.value <= now then false
    else if c.resourceId.Some? && resource.Some? && c.resourceId != resource then false
    else if c.resourceId.Some? && resource.None? then false
    else true
  }

  /** The authorisation predicate, for every resource type but `platform`. */
  predicate Can(caps: seq<Capability>, a: ActorId, op: Operation, rt: ResourceType, resource: Option<nat>, now: Time) {
    exists c :: c in LoadActive(caps, a) && Matches(c, op, rt, resource, now)
  }

  /** A row that lets `a` through, column by column. */
  predicate Lets(c: Capability, a: ActorId, op: Operation, rt: ResourceType, resource: Option<nat>, now: Time) {
    && c.actor == a && c.operation == op && c.resourceType == rt
    && c.revokedAt == None && !c.policyBlocked
    && (c.expiresAt == None || c.expiresAt.value > now)
    && (c.resourceId == None || c.resourceId == resource)
  }

  lemma LetsIffMatches(c: Capability, a: ActorId, op: Operation, rt: ResourceType, resource: Option<nat>, now: Time)
    ensures Lets(c, a, op, rt, resource, now) <==> Loadable(c, a) && Matches(c, op, rt, resource, now)
  {
  }

  /** On any table: `can` is that some row lets the actor through. A row that names no resource covers them all. */
  lemma CanIffLet(caps: seq<Capability>, a: ActorId, op: Operation, rt: ResourceType, resource: Option<nat>, now: Time)
    ensures Can(caps, a, op, rt, resource, now) <==> exists c :: c in caps && Lets(c, a, op, rt, resource, now)
  {
    hide LoadActive, Lets, Matches, Loadable;
    if exists c :: c in caps && Lets(c, a, op, rt, resource, now) {
      var c :| c in caps && Lets(c, a, op, rt, resource, now);
      LetsIffMatches(c, a, op, rt, resource, now);
      assert c in LoadActive(caps, a);
    }
    if Can(caps, a, op, rt, resource, now) {
      var c :| c in LoadActive(caps, a) && Matches(c, op, rt, resource, now);
      LetsIffMatches(c, a, op, rt, resource, now);
    }
  }

  // ---- what a mint needs, and the guest bundle ----

  /** A guest mint needs a resource; a primary one needs the project list if its role has project templates at all. */
  lemma ScopesCoveredIff(bundle: BundleName, projects: Option<seq<ProjectId>>, resource: Option<nat>)
    ensures ScopesCovered(Bundle(bundle), projects, resource) <==>
      match bundle
      case GuestViewer => resource != None
      case Primary(role) => projects != None || role == RoleComplianceOfficer || role == RoleDpo
  {
    assert Bundle(GuestViewer)[0].scope == ScopeResource;
    match bundle
    case GuestViewer =>
    case Primary(RoleOwner) => assert Bundle(bundle)[3].scope == ScopeAllInOrg;
    case Primary(RoleAdmin) => assert Bundle(bundle)[2].scope == ScopeAllInOrg;
    case Primary(RoleMember) => assert Bundle(bundle)[1].scope == ScopeAllInOrg;
    case Primary(RoleViewer) => assert Bundle(bundle)[1].scope == ScopeAllInOrg;
    case Primary(RoleComplianceOfficer) =>
    case Primary(RoleDpo) =>
  }

  /** The guest bundle is one read of the one project it is minted for. */
  lemma GuestBundleIsOneRead(a: ActorId, grantedBy: ActorId, expires: Option<Time>, meta: map<MetaKey, nat>,
                             o: OrgId, ps: seq<ProjectId>, p: ProjectId)
    ensures BundleRows(Grantee(a, GuestViewer, grantedBy, expires, meta), Bundle(GuestViewer), o, ps, Some(p)) ==
      [Capability(a, OpRead, RtProject, Some(p), GuestViewer, grantedBy, expires, None, false, meta)]
  {
    var g, ts := Grantee(a, GuestViewer, grantedBy, expires, meta), Bundle(GuestViewer);
    assert |ts| == 1 && ts[..0] == [];
    assert BundleRows(g, ts[..0], o, ps, Some(p)) == [];
  }
}
