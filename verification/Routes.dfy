/**
 The routes in front of the services: who is let through, and runs of the whole system.
 A request that is refused, or whose service fails, leaves the state as it was.
 */
module Routes {
  import opened Prelude
  import opened Bundles
  import opened Tables
  import opened Authz
  import opened Services

  datatype TenantContext = TenantContext(org: OrgId, isGuest: bool)

  /** A capability that lets a non-member through as a guest of `o`. */
  predicate GuestCap(c: Capability, a: ActorId, o: OrgId, now: Time) {
    c.actor == a && Active(c) && !c.policyBlocked && (c.expiresAt.None? || now < c.expiresAt.value) && TagOrg(c) == Some(o)
  }

  function ResolveMembership(s: State, slug: string, a: ActorId, now: Time): Option<TenantContext> {
    match OrgBySlug(s.orgs, slug)
    case None => None
    case Some(o) =>
      if FindMember(s.members, o, a).Some? then Some(TenantContext(o, false))
      else if exists c :: c in s.caps && GuestCap(c, a, o, now) then Some(TenantContext(o, true))
      else None
  }

  datatype Step =
    | PostOrg(slug: string, a: ActorId)
    | DeleteOrgRoute(slug: string, a: ActorId, now: Time)
    | PostInvite(slug: string, invitee: Option<ActorId>, role: Role, a: ActorId, now: Time)
    | PostAcceptInvite(token: nat, a: ActorId, now: Time)
    | PatchMember(slug: string, target: ActorId, role: Role, a: ActorId, now: Time)
    | DeleteMember(slug: string, target: ActorId, a: ActorId, now: Time)
    | PostProject(slug: string, projectSlug: string, a: ActorId, now: Time)
    | DeleteProjectRoute(slug: string, projectSlug: string, a: ActorId, now: Time)
    | PostShare(slug: string, projectSlug: string, ttl: Option<Time>, a: ActorId, now: Time)
    | PostAcceptShare(token: ShareId, a: ActorId, now: Time)
    | DeleteShare(slug: string, projectSlug: string, sid: ShareId, a: ActorId, now: Time)

  /** The service call a request is let through to, with its resolved arguments. */
  datatype Call =
    | Refused
    | CallCreateOrg(slug: string, a: ActorId)
    | CallDeleteOrg(o: OrgId, a: ActorId, now: Time)
    | CallInvite(o: OrgId, invitee: Option<ActorId>, role: Role, a: ActorId, now: Time)
    | CallAcceptInvite(token: nat, a: ActorId, now: Time)
    | CallChangeRole(o: OrgId, target: ActorId, role: Role, a: ActorId, now: Time)
    | CallRemoveMember(o: OrgId, target: ActorId, a: ActorId, now: Time)
    | CallCreateProject(o: OrgId, projectSlug: string, a: ActorId)
    | CallDeleteProject(p: ProjectId, a: ActorId, now: Time)
    | CallShareProject(o: OrgId, p: ProjectId, ttl: Option<Time>, a: ActorId, now: Time)
    | CallAcceptShare(token: ShareId, a: ActorId, now: Time)
    | CallRevokeShare(sid: ShareId, a: ActorId, now: Time)

  /** `admin` on the resolved organisation; some routes also turn guests away first. */
  function AdminGate(s: State, slug: string, a: ActorId, now: Time, guestsRefused: bool): (r: Option<OrgId>)
    ensures r.Some? ==> LiveOrg(s.orgs, r.value)
  {
    match ResolveMembership(s, slug, a, now)
    case None => None
    case Some(ctx) =>
      if guestsRefused && ctx.isGuest then None
      else if Can(s.caps, a, OpAdmin, RtOrganisation, Some(ctx.org), now) then Some(ctx.org)
      else None
  }

  /** The live project of the resolved organisation, if the caller can do `op` on it. */
  function ProjectGate(s: State, slug: string, projectSlug: string, op: Operation, a: ActorId, now: Time)
    : (r: Option<(OrgId, ProjectId)>)
    ensures r.Some? ==> LiveOrg(s.orgs, r.value.0) && LiveProject(s.projects, r.value.1) && s.projects[r.value.1].org == r.value.0
  {
    match ResolveMembership(s, slug, a, now)
    case None => None
    case Some(ctx) =>
      match ProjectBySlug(s.projects, ctx.org, projectSlug)
      case None => None
      case Some(p) => if Can(s.caps, a, op, RtProject, Some(p), now) then Some((ctx.org, p)) else None
  }

  function Route(s: State, step: Step): Call {
    match step
    case PostOrg(slug, a) => CallCreateOrg(slug, a)
    case DeleteOrgRoute(slug, a, now) =>
      var g := AdminGate(s, slug, a, now, true);
      if g.None? then Refused else CallDeleteOrg(g.value, a, now)
    case PostInvite(slug, invitee, role, a, now) =>
      var g := AdminGate(s, slug, a, now, false);
      if g.None? then Refused else CallInvite(g.value, invitee, role, a, now)
    case PostAcceptInvite(token, a, now) => CallAcceptInvite(token, a, now)
    case PatchMember(slug, target, role, a, now) =>
      var g := AdminGate(s, slug, a, now, false);
      if g.None? then Refused else CallChangeRole(g.value, target, role, a, now)
    case DeleteMember(slug, target, a, now) =>
      var g := AdminGate(s, slug, a, now, false);
      if g.None? then Refused else CallRemoveMember(g.value, target, a, now)
    case PostProject(slug, projectSlug, a, now) =>
      var g := AdminGate(s, slug, a, now, true);
      if g.None? then Refused else CallCreateProject(g.value, projectSlug, a)
    case DeleteProjectRoute(slug, projectSlug, a, now) =>
      var g := ProjectGate(s, slug, projectSlug, OpAdmin, a, now);
      if g.None? then Refused else CallDeleteProject(g.value.1, a, now)
    case PostShare(slug, projectSlug, ttl, a, now) =>
      var g := ProjectGate(s, slug, projectSlug, OpShare, a, now);
      if g.None? then Refused else CallShareProject(g.value.0, g.value.1, ttl, a, now)
    case PostAcceptShare(token, a, now) => CallAcceptShare(token, a, now)
    case DeleteShare(slug, projectSlug, sid, a, now) =>
      // The share named in the path is not compared with the project that passed the gate.
      var g := ProjectGate(s, slug, projectSlug, OpShare, a, now);
      if g.None? then Refused else CallRevokeShare(sid, a, now)
  }

  function Serve(s: State, call: Call): State {
    match call
    case Refused => s
    case CallCreateOrg(slug, a) => CreateOrg(s, slug, a).0
    case CallDeleteOrg(o, a, now) => DeleteOrg(s, o, a, now).0
    case CallInvite(o, invitee, role, a, now) => Invite(s, o, invitee, role, a, now).0
    case CallAcceptInvite(token, a, now) => AcceptInvite(s, token, a, now).0
    case CallChangeRole(o, target, role, a, now) => ChangeRole(s, o, target, role, a, now).0
    case CallRemoveMember(o, target, a, now) => RemoveMember(s, o, target, a, now).0
    case CallCreateProject(o, projectSlug, a) => CreateProject(s, o, projectSlug, a).0
    case CallDeleteProject(p, a, now) => DeleteProject(s, p, a, now).0
    case CallShareProject(o, p, ttl, a, now) => ShareProject(s, o, p, a, ttl, now).0
    case CallAcceptShare(token, a, now) => AcceptShare(s, token, a, now).0
    case CallRevokeShare(sid, a, now) => RevokeShare(s, sid, a, now).0
  }

  /** What the gates guarantee to the service behind them. */
  predicate Gated(s: State, call: Call) {
    match call
    case CallDeleteOrg(o, _, _) => LiveOrg(s.orgs, o)
    case CallInvite(o, _, _, _, _) => LiveOrg(s.orgs, o)
    case CallChangeRole(o, _, _, _, _) => LiveOrg(s.orgs, o)
    case CallRemoveMember(o, _, _, _) => LiveOrg(s.orgs, o)
    case CallCreateProject(o, _, _) => LiveOrg(s.orgs, o)
    case CallShareProject(o, p, _, _, _) => LiveOrg(s.orgs, o) && LiveProject(s.projects, p) && s.projects[p].org == o
    case _ => true
  }

  lemma RoutesAreGated(s: State, step: Step)
    ensures Gated(s, Route(s, step))
  {
  }

  function Next(s: State, step: Step): State {
    Serve(s, Route(s, step))
  }

  /** A run: each request takes the state before it to the state after it. */
  ghost predicate Trace(states: seq<State>, steps: seq<Step>) {
    && |states| == |steps| + 1
    && forall i {:trigger steps[i]} :: 0 <= i < |steps| ==> states[i + 1] == Next(states[i], steps[i])
  }
}
