/**
 The tenancy services as transactions on `State`: each returns the committed state and its result.
 An error leaves the state as it was (the transaction rolls back).
 */
module Services {
  import opened Prelude
  import opened Bundles
  import opened Tables
  import opened Authz

  datatype Error =
    | OrgSlugTaken | OrgNotFound | InviteRole | InviteAlreadyMember | InviteNotFound | MemberNotFound
    | LastOwner | ProjectSlugTaken | ProjectNotFound | ShareTtl | ShareNotFound | BundleScope

  const INVITE_TTL: Time := 7 * DAY
  const SHARE_DEFAULT_TTL: Time := 14 * DAY
  const SHARE_MAX_TTL: Time := 30 * DAY

  // ---- organisations ----

  function CreateOrg(s: State, slug: string, owner: ActorId): (State, Result<OrgId, Error>) {
    if exists o :: o in s.orgs && o.slug == slug then (s, Err(OrgSlugTaken)) else
      var o := |s.orgs|;
      var s1 := s.(orgs := s.orgs + [Org(slug, None)], members := s.members + [Member(o, owner, RoleOwner)]);
      var s2 := MintBundle(s1, owner, Primary(RoleOwner), o, owner, [], None);
      (s2.(audit := s2.audit + [AuditRow(ActCreate, EntOrganisation, o, o, OtherDiff)]), Ok(o))
  }

  function DeleteOrg(s: State, o: OrgId, a: ActorId, now: Time): (State, Result<(), Error>) {
    if !LiveOrg(s.orgs, o) then (s, Err(OrgNotFound)) else
      (s.(orgs := s.orgs[o := s.orgs[o].(deletedAt := Some(now))],
          caps := RevokeTagged(s.caps, o, None, now, a),
          audit := s.audit + [AuditRow(ActDelete, EntOrganisation, o, o, OtherDiff)]), Ok(()))
  }

  // ---- memberships ----

  /** `invitee` is the actor whose account has the invited address, if there is one. */
  function Invite(s: State, o: OrgId, invitee: Option<ActorId>, role: Role, invitedBy: ActorId, now: Time)
    : (State, Result<nat, Error>)
  {
    if role == RoleOwner then (s, Err(InviteRole))
    else if invitee.Some? && FindMember(s.members, o, invitee.value).Some? then (s, Err(InviteAlreadyMember))
    else
      var inv := |s.invitations|;
      (s.(invitations := s.invitations + [Invitation(o, role, invitedBy, now + INVITE_TTL, None, None)],
          audit := s.audit + [AuditRow(ActCreate, EntInvitation, inv, o, OtherDiff)]), Ok(inv))
  }

  /** The token names an invitation that is neither consumed nor expired. */
  predicate Redeemable(s: State, token: nat, now: Time) {
    token < |s.invitations| && s.invitations[token].consumedAt.None? && now < s.invitations[token].expiresAt
  }

  /** Everything an accept writes once it has won the token. */
  function Join(s: State, token: nat, a: ActorId, now: Time): State
    requires token < |s.invitations|
  {
    var inv := s.invitations[token];
    var s1 := s.(invitations := s.invitations[token := inv.(consumedAt := Some(now), consumedBy := Some(a))],
                 members := s.members + [Member(inv.org, a, inv.role)]);
    var s2 := MintBundle(s1, a, Primary(inv.role), inv.org, inv.invitedBy, LiveProjects(s.projects, inv.org), None);
    s2.(audit := s2.audit + [AuditRow(ActUpdate, EntInvitation, token, inv.org, OtherDiff),
                             AuditRow(ActCreate, EntMember, a, inv.org, OtherDiff)])
  }

  function AcceptInvite(s: State, token: nat, a: ActorId, now: Time): (State, Result<(OrgId, Role), Error>) {
    if !Redeemable(s, token, now) then (s, Err(InviteNotFound)) else
      var inv := s.invitations[token];
      if !LiveOrg(s.orgs, inv.org) then (s, Err(InviteNotFound)) else
        match FindMember(s.members, inv.org, a)
        case Some(role) => (s, Ok((inv.org, role)))
        case None => (Join(s, token, a, now), Ok((inv.org, inv.role)))
  }

  function ChangeRole(s: State, o: OrgId, target: ActorId, role: Role, a: ActorId, now: Time): (State, Result<(), Error>) {
    match FindMember(s.members, o, target)
    case None => (s, Err(MemberNotFound))
    case Some(oldRole) =>
      if oldRole == role then (s, Ok(()))
      else if oldRole == RoleOwner && CountOwners(s.members, o) <= 1 then (s, Err(LastOwner))
      else
        var s1 := RevokeBundle(s, target, Primary(oldRole), o, a, now);
        var s2 := MintBundle(s1, target, Primary(role), o, a, LiveProjects(s.projects, o), None);
        (s2.(members := WithRole(s.members, o, target, role),
             audit := s2.audit + [AuditRow(ActUpdate, EntMember, target, o, OtherDiff)]), Ok(()))
  }

  function RemoveMember(s: State, o: OrgId, target: ActorId, a: ActorId, now: Time): (State, Result<(), Error>) {
    match FindMember(s.members, o, target)
    case None => (s, Err(MemberNotFound))
    case Some(oldRole) =>
      if oldRole == RoleOwner && CountOwners(s.members, o) <= 1 then (s, Err(LastOwner))
      else
        (s.(members := WithoutMember(s.members, o, target),
            caps := RevokeTagged(s.caps, o, Some(target), now, a),
            audit := s.audit + [AuditRow(ActDelete, EntMember, target, o, OtherDiff)]), Ok(()))
  }

  // ---- projects ----

  /** The rows one member gets for a new project: its bundle's `all_in_org` project templates. */
  function ProjectTemplateRows(g: Grantee, ts: seq<Template>, p: ProjectId): seq<Capability> {
    if ts == [] then [] else
      var n := |ts| - 1;
      var rest := ProjectTemplateRows(g, ts[..n], p);
      if ts[n].scope == ScopeAllInOrg && ts[n].resourceType == RtProject then rest + [Row(g, ts[n], Some(p))] else rest
  }

  function MemberGrantee(m: Member, org: OrgId, grantedBy: ActorId): Grantee {
    Grantee(m.actor, Primary(m.role), grantedBy, None, map[MetaOrg := org])
  }

  function ProjectRows(members: seq<Member>, org: OrgId, p: ProjectId, grantedBy: ActorId): seq<Capability> {
    if members == [] then [] else
      var n := |members| - 1;
      ProjectRows(members[..n], org, p, grantedBy)
        + ProjectTemplateRows(MemberGrantee(members[n], org, grantedBy), Bundle(Primary(members[n].role)), p)
  }

  function CreateProject(s: State, o: OrgId, slug: string, a: ActorId): (State, Result<ProjectId, Error>) {
    if exists p :: p in s.projects && p.org == o && p.slug == slug then (s, Err(ProjectSlugTaken)) else
      var p := |s.projects|;
      var s1 := s.(projects := s.projects + [Project(o, slug, None)]);
      var s2 := Mint(s1, o, ProjectRows(MembersOf(s.members, o), o, p, a));
      (s2.(audit := s2.audit + [AuditRow(ActCreate, EntProject, p, o, OtherDiff)]), Ok(p))
  }

  function DeleteProject(s: State, p: ProjectId, a: ActorId, now: Time): (State, Result<(), Error>) {
    if !LiveProject(s.projects, p) then (s, Err(ProjectNotFound)) else
      (s.(projects := s.projects[p := s.projects[p].(deletedAt := Some(now))],
          audit := s.audit + [AuditRow(ActDelete, EntProject, p, s.projects[p].org, OtherDiff)]), Ok(()))
  }

  // ---- shares ----

  /** A missing or zero ttl means the default one. */
  function EffectiveTtl(ttl: Option<Time>): Time {
    if ttl.None? || ttl.value == 0 then SHARE_DEFAULT_TTL else ttl.value
  }

  function ShareProject(s: State, o: OrgId, p: ProjectId, sharedBy: ActorId, ttl: Option<Time>, now: Time)
    : (State, Result<ShareId, Error>)
  {
    if EffectiveTtl(ttl) > SHARE_MAX_TTL then (s, Err(ShareTtl)) else
      var sid := |s.shares|;
      (s.(shares := s.shares + [Share(p, o, sharedBy, now + EffectiveTtl(ttl), None, None, None)],
          audit := s.audit + [AuditRow(ActCreate, EntShare, sid, o, OtherDiff)]), Ok(sid))
  }

  function GuestRow(sh: Share, sid: ShareId, a: ActorId): Capability {
    Row(Grantee(a, GuestViewer, sh.sharedBy, Some(sh.expiresAt),
                map[MetaOrg := sh.org, MetaShare := sid, MetaProject := sh.project]),
        Template(OpRead, RtProject, ScopeResource), Some(sh.project))
  }

  function AcceptShare(s: State, token: ShareId, a: ActorId, now: Time): (State, Result<(OrgId, ProjectId), Error>) {
    if !(token < |s.shares| && s.shares[token].consumedAt.None? && now < s.shares[token].expiresAt)
    then (s, Err(ShareNotFound))
    else
      var sh := s.shares[token];
      var used := sh.(consumedAt := Some(now), consumedBy := Some(a));
      var logged := AuditRow(ActUpdate, EntShare, token, sh.org, OtherDiff);
      if !LiveProject(s.projects, sh.project) then (s, Err(ShareNotFound))
      else if !LiveOrg(s.orgs, sh.org) then (s, Err(ShareNotFound))
      else if FindMember(s.members, sh.org, a).Some? then
        (s.(shares := s.shares[token := used], audit := s.audit + [logged]), Ok((sh.org, sh.project)))
      else
        var row := GuestRow(sh, token, a);
        var s1 := Mint(s, sh.org, [row]);
        // The mint has already logged the new row; the service logs it a second time.
        (s1.(shares := s.shares[token := used.(consumedCapability := Some(|s.caps|))],
             audit := s1.audit + [logged, AuditRow(ActCreate, EntCapability, |s.caps|, sh.org, CapAfter(row))]),
         Ok((sh.org, sh.project)))
  }

  function RevokeShare(s: State, sid: ShareId, revokedBy: ActorId, now: Time): (State, Result<(), Error>) {
    if sid >= |s.shares| then (s, Err(ShareNotFound)) else
      var sh := s.shares[sid];
      var logged := AuditRow(ActDelete, EntShare, sid, sh.org, OtherDiff);
      if sh.consumedAt.None? then
        (s.(shares := s.shares[sid := sh.(consumedAt := Some(now), consumedBy := Some(revokedBy))],
            audit := s.audit + [logged]), Ok(()))
      else if sh.consumedCapability.None? then (s, Ok(()))
      else
        var cap := sh.consumedCapability.value;
        (s.(caps := RevokeOne(s.caps, cap, now, revokedBy),
            audit := s.audit + [logged, AuditRow(ActUpdate, EntCapability, cap, sh.org, CapRevoked(now, revokedBy))]),
         Ok(()))
  }
}
