/** Who gets through the gates, what a guest can reach, and the project listing a guest sees. */
module Guests {
  import opened Prelude
  import opened Bundles
  import opened Tables
  import opened Authz
  import opened Routes
  import opened Minting
  import opened Invariants
  import opened FanOutSteps
  import opened Refinement

  /** A check on an organisation reads the caller's role, whatever the clock says. */
  lemma OrganisationChecksReadRoles(s: State, a: ActorId, op: Operation, o: OrgId, now: Time)
    requires Inv(s)
    ensures Can(s.caps, a, op, RtOrganisation, Some(o), now) <==>
      && LiveOrg(s.orgs, o) && FindMember(s.members, o, a).Some?
      && Granted(FindMember(s.members, o, a).value, op, RtOrganisation)
  {
    hide Bundle, Granted, LoadActive, RowsSane, DeadOrgsRevoked, Complete, Unique, FindMember;
    var f := FindMember(s.members, o, a);
    if Can(s.caps, a, op, RtOrganisation, Some(o), now) {
      var c :| c in LoadActive(s.caps, a) && Matches(c, op, RtOrganisation, Some(o), now);
      var i :| 0 <= i < |s.caps| && s.caps[i] == c;
      assert CapSane(s, c, i);
      var k := Key(o, a, c.bundle.role, op, RtOrganisation, Some(o));
      assert Holds(c, k) && HasActive(s.caps, k) && Tolerated(s, k);
      MemberRoleUnique(s, o, a, c.bundle.role);
    }
    if LiveOrg(s.orgs, o) && f.Some? && Granted(f.value, op, RtOrganisation) {
      MemberRoleUnique(s, o, a, f.value);
      var k := Key(o, a, f.value, op, RtOrganisation, Some(o));
      assert Wanted(s, k);
      WantedIsLoaded(s, k, now);
    }
  }

  /** The admin gate lets through exactly owners and admins; refusing guests first changes nothing. */
  lemma AdminGateIsByRole(s: State, slug: string, a: ActorId, now: Time, guestsRefused: bool, o: OrgId)
    requires Inv(s)
    ensures AdminGate(s, slug, a, now, guestsRefused) == Some(o) <==>
      && OrgBySlug(s.orgs, slug) == Some(o)
      && (FindMember(s.members, o, a) == Some(RoleOwner) || FindMember(s.members, o, a) == Some(RoleAdmin))
  {
    hide Inv, Can, FindMember, GuestCap;
    if OrgBySlug(s.orgs, slug) == Some(o) {
      OrganisationChecksReadRoles(s, a, OpAdmin, o, now);
      if FindMember(s.members, o, a).Some? {
        AdminRoles(FindMember(s.members, o, a).value);
      }
    }
  }

  lemma AdminRoles(role: Role)
    ensures Granted(role, OpAdmin, RtOrganisation) <==> role == RoleOwner || role == RoleAdmin
  {
    match role
    case RoleOwner => assert Bundle(Primary(role))[1] == Template(OpAdmin, RtOrganisation, ScopeSelf);
    case RoleAdmin => assert Bundle(Primary(role))[1] == Template(OpAdmin, RtOrganisation, ScopeSelf);
    case RoleMember =>
    case RoleViewer =>
    case RoleComplianceOfficer =>
    case RoleDpo =>
  }

  /** Any operation on a live project but reading it is a matter of the caller's role. */
  lemma ProjectChecksReadRoles(s: State, a: ActorId, op: Operation, p: ProjectId, now: Time)
    requires Inv(s) && LiveProject(s.projects, p) && op != OpRead
    ensures var o := s.projects[p].org;
      Can(s.caps, a, op, RtProject, Some(p), now) <==>
      && LiveOrg(s.orgs, o) && FindMember(s.members, o, a).Some?
      && Granted(FindMember(s.members, o, a).value, op, RtProject)
  {
    hide Bundle, Granted, LoadActive, RowsSane, DeadOrgsRevoked, Complete, Unique, FindMember;
    var o := s.projects[p].org;
    var f := FindMember(s.members, o, a);
    if Can(s.caps, a, op, RtProject, Some(p), now) {
      var c :| c in LoadActive(s.caps, a) && Matches(c, op, RtProject, Some(p), now);
      var i :| 0 <= i < |s.caps| && s.caps[i] == c;
      assert CapSane(s, c, i);
      var k := Key(o, a, c.bundle.role, op, RtProject, Some(p));
      assert Holds(c, k) && HasActive(s.caps, k) && Tolerated(s, k);
      MemberRoleUnique(s, o, a, c.bundle.role);
    }
    if LiveOrg(s.orgs, o) && f.Some? && Granted(f.value, op, RtProject) {
      MemberRoleUnique(s, o, a, f.value);
      var k := Key(o, a, f.value, op, RtProject, Some(p));
      assert Wanted(s, k);
      WantedIsLoaded(s, k, now);
    }
  }

  /** The gates of project deletion and sharing let through exactly owners and admins, too. */
  lemma ProjectGateIsByRole(s: State, slug: string, projectSlug: string, op: Operation, a: ActorId, now: Time, o: OrgId, p: ProjectId)
    requires Inv(s) && (op == OpAdmin || op == OpShare)
    ensures ProjectGate(s, slug, projectSlug, op, a, now) == Some((o, p)) <==>
      && OrgBySlug(s.orgs, slug) == Some(o) && ProjectBySlug(s.projects, o, projectSlug) == Some(p)
      && (FindMember(s.members, o, a) == Some(RoleOwner) || FindMember(s.members, o, a) == Some(RoleAdmin))
  {
    hide Inv, Can, FindMember, GuestCap;
    if OrgBySlug(s.orgs, slug) == Some(o) && ProjectBySlug(s.projects, o, projectSlug) == Some(p) {
      ProjectChecksReadRoles(s, a, op, p, now);
      if FindMember(s.members, o, a).Some? {
        ProjectRoles(FindMember(s.members, o, a).value, op);
      }
    }
  }

  lemma ProjectRoles(role: Role, op: Operation)
    requires op == OpAdmin || op == OpShare
    ensures Granted(role, op, RtProject) <==> role == RoleOwner || role == RoleAdmin
  {
    var t := Template(op, RtProject, ScopeAllInOrg);
    match role
    case RoleOwner => assert t == Bundle(Primary(role))[if op == OpAdmin then 3 else 4];
    case RoleAdmin => assert t == Bundle(Primary(role))[if op == OpAdmin then 2 else 3];
    case RoleMember =>
    case RoleViewer =>
    case RoleComplianceOfficer =>
    case RoleDpo =>
  }

  /** An active row of a primary bundle belongs to a member carrying that role. */
  lemma PrimaryRowsAreMembers(s: State, i: nat, o: OrgId)
    requires Inv(s) && i < |s.caps| && Active(s.caps[i]) && s.caps[i].bundle.Primary? && TagOrg(s.caps[i]) == Some(o)
    ensures FindMember(s.members, o, s.caps[i].actor).Some?
  {
    hide Bundle, Granted, RowsSane, DeadOrgsRevoked, Complete, Unique;
    var c := s.caps[i];
    assert CapSane(s, c, i);
    var k := Key(o, c.actor, c.bundle.role, c.operation, c.resourceType, c.resourceId);
    assert Holds(c, k) && HasActive(s.caps, k);
    MemberRoleUnique(s, o, c.actor, c.bundle.role);
  }

  /** An active, unexpired guest row of `a` for the project. */
  predicate GuestReads(c: Capability, a: ActorId, p: ProjectId, t: Time) {
    c.actor == a && Active(c) && c.bundle == GuestViewer && c.resourceId == Some(p) && (c.expiresAt.Some? ==> t < c.expiresAt.value)
  }

  /**
   A caller resolved as a guest holds guest reads only, reads exactly the projects they name, and fails
   every other check in that organisation.
   */
  lemma GuestsAreConfined(s: State, slug: string, a: ActorId, now: Time, o: OrgId)
    requires Inv(s) && ResolveMembership(s, slug, a, now) == Some(TenantContext(o, true))
    ensures forall c :: c in s.caps && c.actor == a && Active(c) && TagOrg(c) == Some(o) ==>
      c.bundle == GuestViewer && c.operation == OpRead && c.resourceType == RtProject
    ensures forall op, t: Time :: !Can(s.caps, a, op, RtOrganisation, Some(o), t)
    ensures forall op, p: ProjectId, t: Time :: ProjectIn(s.projects, p, o) && op != OpRead ==> !Can(s.caps, a, op, RtProject, Some(p), t)
    ensures forall p: ProjectId, t: Time :: ProjectIn(s.projects, p, o) ==>
      (Can(s.caps, a, OpRead, RtProject, Some(p), t) <==> exists c :: c in s.caps && GuestReads(c, a, p, t))
  {
    hide Bundle, Granted, LoadActive, GuestReads, RowsSane, MembersSane, DeadOrgsRevoked, Complete, Unique, OrgBySlug;
    forall c | c in s.caps && c.actor == a && Active(c) && TagOrg(c) == Some(o)
      ensures c.bundle == GuestViewer && c.operation == OpRead && c.resourceType == RtProject
    {
      var i :| 0 <= i < |s.caps| && s.caps[i] == c;
      assert CapSane(s, c, i);
      if c.bundle.Primary? {
        PrimaryRowsAreMembers(s, i, o);
      }
    }
    forall op, t: Time ensures !Can(s.caps, a, op, RtOrganisation, Some(o), t) {
      OrganisationChecksReadRoles(s, a, op, o, t);
    }
    forall op, p: ProjectId, t: Time | ProjectIn(s.projects, p, o) && op != OpRead
      ensures !Can(s.caps, a, op, RtProject, Some(p), t)
    {
      GuestProjectChecks(s, a, op, p, t);
    }
    forall p: ProjectId, t: Time | ProjectIn(s.projects, p, o)
      ensures Can(s.caps, a, OpRead, RtProject, Some(p), t) <==> exists c :: c in s.caps && GuestReads(c, a, p, t)
    {
      GuestProjectReads(s, a, p, t);
    }
  }

  /** Where all of a caller's active rows are guest rows, a read passes exactly on one of them. */
  lemma GuestProjectReads(s: State, a: ActorId, p: ProjectId, t: Time)
    requires CapsSane(s) && p < |s.projects|
    requires forall c :: c in s.caps && c.actor == a && Active(c) && TagOrg(c) == Some(s.projects[p].org) ==> c.bundle == GuestViewer
    ensures Can(s.caps, a, OpRead, RtProject, Some(p), t) <==> exists c :: c in s.caps && GuestReads(c, a, p, t)
  {
    hide LoadActive;
    if Can(s.caps, a, OpRead, RtProject, Some(p), t) {
      var c :| c in LoadActive(s.caps, a) && Matches(c, OpRead, RtProject, Some(p), t);
      var i :| 0 <= i < |s.caps| && s.caps[i] == c;
      assert CapSane(s, c, i);
      assert GuestReads(c, a, p, t);
    }
    if exists c :: c in s.caps && GuestReads(c, a, p, t) {
      var c :| c in s.caps && GuestReads(c, a, p, t);
      var i :| 0 <= i < |s.caps| && s.caps[i] == c;
      assert CapSane(s, c, i);
      assert c in LoadActive(s.caps, a) && Matches(c, OpRead, RtProject, Some(p), t);
    }
  }

  /** Whatever matches a project check is a row of that project's own organisation. */
  lemma GuestProjectChecks(s: State, a: ActorId, op: Operation, p: ProjectId, t: Time)
    requires CapsSane(s) && p < |s.projects|
    requires forall c :: c in s.caps && c.actor == a && Active(c) && TagOrg(c) == Some(s.projects[p].org) ==> c.operation != op
    ensures !Can(s.caps, a, op, RtProject, Some(p), t)
  {
    hide LoadActive;
    forall c | c in LoadActive(s.caps, a) ensures !Matches(c, op, RtProject, Some(p), t) {
      var i :| 0 <= i < |s.caps| && s.caps[i] == c;
      assert CapSane(s, c, i);
    }
  }

  // ---- the listing ----

  /** The listing route's own reading of the rows, a second implementation of `can`. */
  method CanRead(caps: seq<Capability>, p: ProjectId, now: Time) returns (ok: bool)
    ensures ok <==> exists c :: c in caps && Matches(c, OpRead, RtProject, Some(p), now)
  {
    for i := 0 to |caps|
      invariant forall j :: 0 <= j < i ==> !Matches(caps[j], OpRead, RtProject, Some(p), now)
    {
      var c := caps[i];
      if c.operation != OpRead || c.resourceType != RtProject {
        continue;
      }
      if c.resourceId.Some? && c.resourceId.value != p {
        continue;
      }
      if c.policyBlocked || (c.revokedAt.Some? && c.revokedAt.value <= now) {
        continue;
      }
      if c.expiresAt.Some? && c.expiresAt.value <= now {
        continue;
      }
      assert Matches(caps[i], OpRead, RtProject, Some(p), now);
      return true;
    }
    return false;
  }

  /** Members see every live project; guests exactly the ones `can` lets them read, in the same order. */
  method ListProjects(s: State, ctx: TenantContext, a: ActorId, now: Time) returns (listed: seq<ProjectId>)
    ensures !ctx.isGuest ==> listed == LiveProjects(s.projects, ctx.org)
    ensures ctx.isGuest ==> forall p: ProjectId :: p in listed <==>
      LiveProject(s.projects, p) && s.projects[p].org == ctx.org && Can(s.caps, a, OpRead, RtProject, Some(p), now)
    ensures forall i, j :: 0 <= i < j < |listed| ==> listed[i] < listed[j]
  {
    var projects := LiveProjects(s.projects, ctx.org);
    if !ctx.isGuest {
      return projects;
    }
    var caps := LoadActive(s.caps, a);
    listed := [];
    for i := 0 to |projects|
      invariant forall p: ProjectId :: p in listed <==> p in projects[..i] && Can(s.caps, a, OpRead, RtProject, Some(p), now)
      invariant forall j, k :: 0 <= j < k < |listed| ==> listed[j] < listed[k]
    {
      var readable := CanRead(caps, projects[i], now);
      if readable {
        assert forall j :: 0 <= j < |listed| ==> listed[j] in listed;
        listed := listed + [projects[i]];
      }
    }
    assert projects[..|projects|] == projects;
  }

  // ---- types without resources ----

  /** Rows for these types name no resource. */
  predicate TypeWide(rt: ResourceType) {
    rt != RtOrganisation && rt != RtProject
  }

  /**
   A check on an audit log, an agent or a service passes for whoever holds the role that carries it in some
   live organisation, whichever resource is asked about and whoever owns it.
   */
  lemma TypeWideChecksReadAnyRole(s: State, a: ActorId, op: Operation, rt: ResourceType, resource: Option<nat>, now: Time)
    requires Inv(s) && TypeWide(rt)
    ensures Can(s.caps, a, op, rt, resource, now) <==>
      exists o: OrgId, r :: LiveOrg(s.orgs, o) && Member(o, a, r) in s.members && r in Holders(op, rt)
  {
    hide Inv, Can, Holders, Wanted;
    if Can(s.caps, a, op, rt, resource, now) {
      TypeWideIsRole(s, a, op, rt, resource, now);
    }
    if exists o: OrgId, r :: LiveOrg(s.orgs, o) && Member(o, a, r) in s.members && r in Holders(op, rt) {
      var o: OrgId, r :| LiveOrg(s.orgs, o) && Member(o, a, r) in s.members && r in Holders(op, rt);
      RoleIsTypeWide(s, a, op, rt, resource, now, o, r);
    }
  }

  lemma TypeWideIsRole(s: State, a: ActorId, op: Operation, rt: ResourceType, resource: Option<nat>, now: Time)
    requires Inv(s) && TypeWide(rt) && Can(s.caps, a, op, rt, resource, now)
    ensures exists o: OrgId, r :: LiveOrg(s.orgs, o) && Member(o, a, r) in s.members && r in Holders(op, rt)
  {
    hide Bundle, Granted, Holders, LoadActive, RowsSane, MembersSane, DeadOrgsRevoked, Complete, Unique;
    var c :| c in LoadActive(s.caps, a) && Matches(c, op, rt, resource, now);
    var i: nat :| i < |s.caps| && s.caps[i] == c;
    assert CapSane(s, c, i);
    var k := Key(TagOrg(c).value, a, c.bundle.role, op, rt, c.resourceId);
    assert Holds(c, k) && HasActive(s.caps, k) && Tolerated(s, k);
    GrantedIffHolder(c.bundle.role, op, rt);
  }

  lemma RoleIsTypeWide(s: State, a: ActorId, op: Operation, rt: ResourceType, resource: Option<nat>, now: Time, o: OrgId, r: Role)
    requires Inv(s) && TypeWide(rt) && LiveOrg(s.orgs, o) && Member(o, a, r) in s.members && r in Holders(op, rt)
    ensures Can(s.caps, a, op, rt, resource, now)
  {
    hide Granted, Holders, LoadActive, RowsSane, MembersSane, DeadOrgsRevoked, Unique;
    GrantedIffHolder(r, op, rt);
    var k := Key(o, a, r, op, rt, None);
    assert Wanted(s, k);
    var c :| c in s.caps && Holds(c, k);
    var i: nat :| i < |s.caps| && s.caps[i] == c;
    assert CapSane(s, c, i);
    assert c in LoadActive(s.caps, a) && Matches(c, op, rt, resource, now);
  }
}
