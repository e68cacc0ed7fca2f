/** Whose log a call writes: every audit row carries the organisation the call is about. */
module AuditScope {
  import opened Prelude
  import opened Bundles
  import opened Tables
  import opened Authz
  import opened Services
  import opened Routes

  /** The organisation a call is about, read off its arguments. */
  function Concerns(s: State, call: Call): Option<OrgId> {
    match call
    case Refused => None
    case CallCreateOrg(_, _) => Some(|s.orgs|)
    case CallDeleteOrg(o, _, _) => Some(o)
    case CallInvite(o, _, _, _, _) => Some(o)
    case CallAcceptInvite(token, _, _) => if token < |s.invitations| then Some(s.invitations[token].org) else None
    case CallChangeRole(o, _, _, _, _) => Some(o)
    case CallRemoveMember(o, _, _, _) => Some(o)
    case CallCreateProject(o, _, _) => Some(o)
    case CallDeleteProject(p, _, _) => if p < |s.projects| then Some(s.projects[p].org) else None
    case CallShareProject(o, _, _, _, _) => Some(o)
    case CallAcceptShare(token, _, _) => if token < |s.shares| then Some(s.shares[token].org) else None
    case CallRevokeShare(sid, _, _) => if sid < |s.shares| then Some(s.shares[sid].org) else None
  }

  /** The log only grew, and every new row is of organisation `o`. */
  predicate WritesFor(log: seq<AuditRow>, after: seq<AuditRow>, o: Option<OrgId>) {
    log <= after && forall i :: |log| <= i < |after| ==> o == Some(after[i].org)
  }

  lemma OrgCallsWrite(s: State, slug: string, o: OrgId, a: ActorId, now: Time)
    ensures WritesFor(s.audit, CreateOrg(s, slug, a).0.audit, Some(|s.orgs|))
    ensures WritesFor(s.audit, DeleteOrg(s, o, a, now).0.audit, Some(o))
  {
    hide Bundle, BundleRows, RevokeTagged;
  }

  lemma AcceptInviteWrites(s: State, token: nat, a: ActorId, now: Time)
    ensures WritesFor(s.audit, AcceptInvite(s, token, a, now).0.audit, Concerns(s, CallAcceptInvite(token, a, now)))
  {
    hide Bundle, BundleRows, LiveProjects, FindMember;
  }

  lemma ChangeRoleWrites(s: State, o: OrgId, target: ActorId, role: Role, a: ActorId, now: Time)
    ensures WritesFor(s.audit, ChangeRole(s, o, target, role, a, now).0.audit, Some(o))
  {
    hide Bundle, BundleRows, RevokeBundleRows, BundleIds, LiveProjects, FindMember, CountOwners, WithRole;
  }

  lemma MemberAndProjectCallsWrite(s: State, o: OrgId, target: ActorId, slug: string, a: ActorId, now: Time)
    ensures WritesFor(s.audit, RemoveMember(s, o, target, a, now).0.audit, Some(o))
    ensures WritesFor(s.audit, CreateProject(s, o, slug, a).0.audit, Some(o))
  {
    hide RevokeTagged, FindMember, CountOwners, WithoutMember, ProjectRows, MembersOf;
  }

  lemma DirectoryCallsWrite(s: State, o: OrgId, p: ProjectId, who: Option<ActorId>, role: Role, ttl: Option<Time>, a: ActorId, now: Time)
    ensures WritesFor(s.audit, Invite(s, o, who, role, a, now).0.audit, Some(o))
    ensures WritesFor(s.audit, DeleteProject(s, p, a, now).0.audit, Concerns(s, CallDeleteProject(p, a, now)))
    ensures WritesFor(s.audit, ShareProject(s, o, p, a, ttl, now).0.audit, Some(o))
  {
    hide FindMember, EffectiveTtl;
  }

  lemma ShareCallsWrite(s: State, sid: ShareId, a: ActorId, now: Time)
    ensures WritesFor(s.audit, AcceptShare(s, sid, a, now).0.audit, Concerns(s, CallAcceptShare(sid, a, now)))
    ensures WritesFor(s.audit, RevokeShare(s, sid, a, now).0.audit, Concerns(s, CallRevokeShare(sid, a, now)))
  {
    hide FindMember, RevokeOne, LiveProject, LiveOrg;
  }

  /** Whatever the state, a call writes no audit row but of the organisation it is about. */
  lemma ServeWritesFor(s: State, call: Call)
    ensures WritesFor(s.audit, Serve(s, call).audit, Concerns(s, call))
  {
    hide CreateOrg, DeleteOrg, Invite, AcceptInvite, ChangeRole, RemoveMember, CreateProject, DeleteProject,
      ShareProject, AcceptShare, RevokeShare;
    match call
    case Refused =>
    case CallCreateOrg(slug, a) => OrgCallsWrite(s, slug, 0, a, 0);
    case CallDeleteOrg(o, a, now) => OrgCallsWrite(s, "", o, a, now);
    case CallInvite(o, who, role, a, now) => DirectoryCallsWrite(s, o, 0, who, role, None, a, now);
    case CallAcceptInvite(token, a, now) => AcceptInviteWrites(s, token, a, now);
    case CallChangeRole(o, target, role, a, now) => ChangeRoleWrites(s, o, target, role, a, now);
    case CallRemoveMember(o, target, a, now) => MemberAndProjectCallsWrite(s, o, target, "", a, now);
    case CallCreateProject(o, slug, a) => MemberAndProjectCallsWrite(s, o, 0, slug, a, 0);
    case CallDeleteProject(p, a, now) => DirectoryCallsWrite(s, 0, p, None, RoleViewer, None, a, now);
    case CallShareProject(o, p, ttl, a, now) => DirectoryCallsWrite(s, o, p, None, RoleViewer, ttl, a, now);
    case CallAcceptShare(token, a, now) => ShareCallsWrite(s, token, a, now);
    case CallRevokeShare(sid, a, now) => ShareCallsWrite(s, sid, a, now);
  }

  /** A revoke is logged for any share that is pending or was consumed with a capability, revoked already or not. */
  lemma RevokeIsLoggedIff(s: State, sid: ShareId, a: ActorId, now: Time)
    ensures var t := RevokeShare(s, sid, a, now).0;
      |t.audit| > |s.audit| <==>
        sid < |s.shares| && (s.shares[sid].consumedAt.None? || s.shares[sid].consumedCapability.Some?)
  {
    hide RevokeOne;
  }
}
