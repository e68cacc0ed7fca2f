/**
 What each service answers, and what it records: every success and every error with its exact condition, in
 terms of rows; the times, actors and grantors that end up in the rows it writes.
 */
module Outcomes {
  import opened Prelude
  import opened Bundles
  import opened Tables
  import opened Authz
  import opened Services
  import opened Routes
  import opened Invariants
  import opened FanOutSteps
  import opened Provenance

  // ---- answers ----

  lemma CreateOrgOutcome(s: State, slug: string, a: ActorId)
    ensures var r := CreateOrg(s, slug, a);
      && (r.1.Ok? <==> forall o :: o in s.orgs ==> o.slug != slug)
      && (r.1.Err? ==> r == (s, Err(OrgSlugTaken)))
      && (r.1.Ok? ==>
        && r.1 == Ok(|s.orgs|) && r.0.orgs == s.orgs + [Org(slug, None)]
        && r.0.members == s.members + [Member(|s.orgs|, a, RoleOwner)])
  {
    hide Bundle, BundleRows, CreateRows;
  }

  lemma DeleteOrgOutcome(s: State, o: OrgId, a: ActorId, now: Time)
    ensures var r := DeleteOrg(s, o, a, now);
      && (r.1.Ok? <==> o < |s.orgs| && s.orgs[o].deletedAt == None)
      && (r.1.Err? ==> r == (s, Err(OrgNotFound)))
      && (r.1.Ok? ==> r.0.orgs == s.orgs[o := Org(s.orgs[o].slug, Some(now))])
  {
    hide RevokeTagged;
  }

  lemma ChangeRoleOutcome(s: State, o: OrgId, target: ActorId, role: Role, a: ActorId, now: Time)
    requires MembersSane(s)
    ensures var r := ChangeRole(s, o, target, role, a, now);
      && (r.1 == Err(MemberNotFound) <==> forall x :: Member(o, target, x) !in s.members)
      && (r.1 == Err(LastOwner) <==> Member(o, target, RoleOwner) in s.members && role != RoleOwner && !Spare(s, o, target))
      && (r.1.Err? ==> r.0 == s && (r.1 == Err(MemberNotFound) || r.1 == Err(LastOwner)))
      && (Member(o, target, role) in s.members ==> r == (s, Ok(())))
      && (r.1.Ok? ==> Member(o, target, role) in r.0.members)
  {
    hide MintBundle, RevokeBundle, FindMember, CountOwners, WithRole, Spare, MembersSane, LiveProjects;
    var f := FindMember(s.members, o, target);
    if f.Some? {
      GuardIsSpare(s, o, target, f.value);
      RolesAreUnique(s, o, target, f.value);
      ChangeRoleMembers(s, o, target, role, a, now);
      WithRoleMembers(s.members, o, target, role, f.value);
    }
  }

  lemma RolesAreUnique(s: State, o: OrgId, a: ActorId, role: Role)
    requires MembersSane(s) && FindMember(s.members, o, a) == Some(role)
    ensures forall x :: Member(o, a, x) in s.members <==> x == role
  {
    forall x | Member(o, a, x) in s.members ensures x == role {
      MemberRoleUnique(s, o, a, x);
    }
  }

  lemma RemoveMemberOutcome(s: State, o: OrgId, target: ActorId, a: ActorId, now: Time)
    requires MembersSane(s)
    ensures var r := RemoveMember(s, o, target, a, now);
      && (r.1 == Err(MemberNotFound) <==> forall x :: Member(o, target, x) !in s.members)
      && (r.1 == Err(LastOwner) <==> Member(o, target, RoleOwner) in s.members && !Spare(s, o, target))
      && (r.1.Err? ==> r.0 == s && (r.1 == Err(MemberNotFound) || r.1 == Err(LastOwner)))
      && (r.1.Ok? ==> forall x :: Member(o, target, x) !in r.0.members)
  {
    hide RevokeTagged, FindMember, CountOwners, WithoutMember, Spare, MembersSane;
    var f := FindMember(s.members, o, target);
    if f.Some? {
      GuardIsSpare(s, o, target, f.value);
      RolesAreUnique(s, o, target, f.value);
    }
  }

  lemma CreateProjectOutcome(s: State, o: OrgId, slug: string, a: ActorId)
    ensures var r := CreateProject(s, o, slug, a);
      && (r.1.Ok? <==> forall p :: p in s.projects && p.org == o ==> p.slug != slug)
      && (r.1.Err? ==> r == (s, Err(ProjectSlugTaken)))
      && (r.1.Ok? ==> r.1 == Ok(|s.projects|) && r.0.projects == s.projects + [Project(o, slug, None)])
  {
    hide ProjectRows, MembersOf, CreateRows;
  }

  lemma DeleteProjectOutcome(s: State, p: ProjectId, a: ActorId, now: Time)
    ensures var r := DeleteProject(s, p, a, now);
      && (r.1.Ok? <==> p < |s.projects| && s.projects[p].deletedAt == None)
      && (r.1.Err? ==> r == (s, Err(ProjectNotFound)))
      && (r.1.Ok? ==> r.0.projects == s.projects[p := Project(s.projects[p].org, s.projects[p].slug, Some(now))] && r.0.caps == s.caps)
  {
  }

  lemma RevokeShareOutcome(s: State, sid: ShareId, a: ActorId, now: Time)
    ensures var r := RevokeShare(s, sid, a, now);
      && (r.1.Ok? <==> sid < |s.shares|)
      && (r.1.Err? ==> r == (s, Err(ShareNotFound)))
      && (r.1.Ok? && s.shares[sid].consumedAt == None ==>
        r.0.shares == s.shares[sid := s.shares[sid].(consumedAt := Some(now), consumedBy := Some(a))] && r.0.caps == s.caps)
      && (r.1.Ok? && s.shares[sid].consumedAt != None ==> r.0.shares == s.shares)
      && (r.1.Ok? && s.shares[sid].consumedAt != None && s.shares[sid].consumedCapability == None ==> r.0 == s)
  {
    hide RevokeOne;
  }

  // ---- what a revoked row records ----

  /** The actor and the time of a request that can revoke. */
  predicate RecordsEnd(c: Capability, d: Capability, who: ActorId, now: Time, stamped: bool) {
    && d == c.(revokedAt := Some(now), meta := d.meta)
    && (if stamped then d.meta == c.meta + map[MetaRevokedBy := who, MetaRevokedAt := now] else d.meta == c.meta)
  }

  lemma TaggedRecords(caps: seq<Capability>, org: OrgId, who: Option<ActorId>, now: Time, a: ActorId, i: nat)
    requires i < |caps| && Active(caps[i])
    ensures var d := RevokeTagged(caps, org, who, now, a)[i]; d == caps[i] || RecordsEnd(caps[i], d, a, now, true)
  {
  }

  lemma OrgEndRecords(s: State, o: OrgId, target: ActorId, a: ActorId, now: Time, i: CapId)
    requires i < |s.caps| && Active(s.caps[i])
    ensures var d := DeleteOrg(s, o, a, now).0.caps[i]; d == s.caps[i] || RecordsEnd(s.caps[i], d, a, now, true)
    ensures var d := RemoveMember(s, o, target, a, now).0.caps[i]; d == s.caps[i] || RecordsEnd(s.caps[i], d, a, now, true)
  {
    hide RevokeTagged, FindMember, CountOwners, WithoutMember, RecordsEnd;
    TaggedRecords(s.caps, o, None, now, a, i);
    TaggedRecords(s.caps, o, Some(target), now, a, i);
  }

  lemma RoleChangeRecords(s: State, o: OrgId, target: ActorId, role: Role, a: ActorId, now: Time, i: CapId)
    requires i < |s.caps| && Active(s.caps[i])
    ensures var t := ChangeRole(s, o, target, role, a, now).0;
      i < |t.caps| && (t.caps[i] == s.caps[i] || RecordsEnd(s.caps[i], t.caps[i], a, now, false))
  {
    hide Bundle, BundleRows, CreateRows, RevokeRows, BundleIds, LiveProjects, FindMember, CountOwners, WithRole;
  }

  lemma ShareEndRecords(s: State, sid: ShareId, a: ActorId, now: Time, i: CapId)
    requires i < |s.caps| && Active(s.caps[i])
    ensures var d := RevokeShare(s, sid, a, now).0.caps[i]; d == s.caps[i] || RecordsEnd(s.caps[i], d, a, now, true)
  {
  }

  lemma OthersEndNothing(s: State, call: Call, i: CapId)
    requires i < |s.caps|
    requires !call.CallDeleteOrg? && !call.CallRemoveMember? && !call.CallChangeRole? && !call.CallRevokeShare?
    ensures i < |Serve(s, call).caps| && Serve(s, call).caps[i] == s.caps[i]
  {
    hide Bundle, BundleRows, CreateRows, ProjectRows, MembersOf, LiveProjects, FindMember;
  }

  /** A capability that ends carries the time of the request; unless a role changed, also who asked for it. */
  lemma EndsAreRecorded(s: State, step: Step, i: CapId)
    requires i < |s.caps| && Active(s.caps[i])
    ensures i < |Next(s, step).caps|
    ensures !Active(Next(s, step).caps[i]) ==>
      && (step.DeleteOrgRoute? || step.DeleteMember? || step.DeleteShare? || step.PatchMember?)
      && RecordsEnd(s.caps[i], Next(s, step).caps[i], step.a, step.now, !step.PatchMember?)
  {
    hide AdminGate, ProjectGate, DeleteOrg, RemoveMember, ChangeRole, RevokeShare, CreateOrg, AcceptInvite, CreateProject, Invite,
      DeleteProject, ShareProject, AcceptShare, RecordsEnd;
    CapsStay(s, Route(s, step));
    match Route(s, step)
    case CallDeleteOrg(o, a, now) => OrgEndRecords(s, o, 0, a, now, i);
    case CallRemoveMember(o, target, a, now) => OrgEndRecords(s, o, target, a, now, i);
    case CallChangeRole(o, target, role, a, now) => RoleChangeRecords(s, o, target, role, a, now, i);
    case CallRevokeShare(sid, a, now) => ShareEndRecords(s, sid, a, now, i);
    case _ => OthersEndNothing(s, Route(s, step), i);
  }

  lemma CapsStay(s: State, call: Call)
    ensures call.CallDeleteOrg? || call.CallRemoveMember? || call.CallRevokeShare? ==> |Serve(s, call).caps| == |s.caps|
  {
    hide FindMember, CountOwners, WithoutMember;
  }

  // ---- who grants a new row ----

  lemma {:induction false} BundleRowsNameGrantor(g: Grantee, ts: seq<Template>, o: OrgId, ps: seq<ProjectId>)
    ensures forall c :: c in BundleRows(g, ts, o, ps, None) ==> c.grantedBy == g.grantedBy && c.actor == g.actor
  {
    if ts != [] {
      BundleRowsNameGrantor(g, ts[..|ts| - 1], o, ps);
    }
  }

  lemma {:induction false} ProjectTemplateRowsNameGrantor(g: Grantee, ts: seq<Template>, p: ProjectId)
    ensures forall c :: c in ProjectTemplateRows(g, ts, p) ==> c.grantedBy == g.grantedBy
  {
    if ts != [] {
      ProjectTemplateRowsNameGrantor(g, ts[..|ts| - 1], p);
    }
  }

  lemma {:induction false} ProjectRowsNameGrantor(ms: seq<Member>, o: OrgId, p: ProjectId, a: ActorId)
    ensures forall c :: c in ProjectRows(ms, o, p, a) ==> c.grantedBy == a
  {
    hide Bundle, ProjectTemplateRows;
    if ms != [] {
      var m := ms[|ms| - 1];
      ProjectRowsNameGrantor(ms[..|ms| - 1], o, p, a);
      ProjectTemplateRowsNameGrantor(MemberGrantee(m, o, a), Bundle(Primary(m.role)), p);
    }
  }

  /** Everything past the old rows was granted by `by`. */
  predicate GrantedAfter(before: seq<Capability>, after: seq<Capability>, grantor: ActorId) {
    forall i :: |before| <= i < |after| ==> after[i].grantedBy == grantor
  }

  lemma AppendedGranted(caps: seq<Capability>, rows: seq<Capability>, after: seq<Capability>, grantor: ActorId)
    requires |after| == |caps| + |rows| && after[|caps|..] == rows && forall c :: c in rows ==> c.grantedBy == grantor
    ensures GrantedAfter(caps, after, grantor)
  {
    forall i | |caps| <= i < |after| ensures after[i].grantedBy == grantor {
      assert after[i] == rows[i - |caps|] && rows[i - |caps|] in rows;
    }
  }

  lemma CreateOrgNames(s: State, slug: string, a: ActorId)
    ensures GrantedAfter(s.caps, CreateOrg(s, slug, a).0.caps, a)
  {
    hide Bundle, BundleRows, CreateRows;
    var g := Grantee(a, Primary(RoleOwner), a, None, map[MetaOrg := |s.orgs|]);
    BundleRowsNameGrantor(g, Bundle(Primary(RoleOwner)), |s.orgs|, []);
    if CreateOrg(s, slug, a).1.Ok? {
      AppendedGranted(s.caps, BundleRows(g, Bundle(Primary(RoleOwner)), |s.orgs|, [], None), CreateOrg(s, slug, a).0.caps, a);
    }
  }

  lemma CreateProjectNames(s: State, o: OrgId, slug: string, a: ActorId)
    ensures GrantedAfter(s.caps, CreateProject(s, o, slug, a).0.caps, a)
  {
    hide ProjectRows, MembersOf, CreateRows;
    var rows := ProjectRows(MembersOf(s.members, o), o, |s.projects|, a);
    ProjectRowsNameGrantor(MembersOf(s.members, o), o, |s.projects|, a);
    if CreateProject(s, o, slug, a).1.Ok? {
      AppendedGranted(s.caps, rows, CreateProject(s, o, slug, a).0.caps, a);
    }
  }

  lemma ChangeRoleNames(s: State, o: OrgId, target: ActorId, role: Role, a: ActorId, now: Time)
    ensures GrantedAfter(s.caps, ChangeRole(s, o, target, role, a, now).0.caps, a)
  {
    hide Bundle, BundleRows, CreateRows, RevokeRows, BundleIds, LiveProjects, FindMember, CountOwners, WithRole;
    var g := Grantee(target, Primary(role), a, None, map[MetaOrg := o]);
    var ps := LiveProjects(s.projects, o);
    BundleRowsNameGrantor(g, Bundle(Primary(role)), o, ps);
    var t := ChangeRole(s, o, target, role, a, now).0;
    if t.caps != s.caps && |t.caps| > |s.caps| {
      AppendedGranted(s.caps, BundleRows(g, Bundle(Primary(role)), o, ps, None), t.caps, a);
    }
  }

  lemma JoinNames(s: State, token: nat, a: ActorId, now: Time)
    ensures token < |s.invitations| ==> GrantedAfter(s.caps, AcceptInvite(s, token, a, now).0.caps, s.invitations[token].invitedBy)
  {
    hide Bundle, BundleRows, CreateRows, LiveProjects, FindMember;
    if Redeemable(s, token, now) {
      var inv := s.invitations[token];
      var g := Grantee(a, Primary(inv.role), inv.invitedBy, None, map[MetaOrg := inv.org]);
      var ps := LiveProjects(s.projects, inv.org);
      BundleRowsNameGrantor(g, Bundle(Primary(inv.role)), inv.org, ps);
      var t := AcceptInvite(s, token, a, now).0;
      if |t.caps| > |s.caps| {
        AppendedGranted(s.caps, BundleRows(g, Bundle(Primary(inv.role)), inv.org, ps, None), t.caps, inv.invitedBy);
      }
    }
  }

  lemma AcceptShareNames(s: State, token: ShareId, a: ActorId, now: Time)
    ensures token < |s.shares| ==> GrantedAfter(s.caps, AcceptShare(s, token, a, now).0.caps, s.shares[token].sharedBy)
  {
    hide CreateRows, FindMember;
  }

  lemma OthersGrantNothing(s: State, call: Call)
    requires !call.CallCreateOrg? && !call.CallAcceptInvite? && !call.CallChangeRole? && !call.CallCreateProject? && !call.CallAcceptShare?
    ensures |Serve(s, call).caps| == |s.caps|
  {
  }

  /** A new capability names as grantor who asked for it: the caller, or whoever wrote the invitation or the share. */
  lemma GrantorsAreRecorded(s: State, step: Step, i: CapId)
    requires |s.caps| <= i < |Next(s, step).caps|
    ensures match step
      case PostOrg(_, a) => Next(s, step).caps[i].grantedBy == a
      case PatchMember(_, _, _, a, _) => Next(s, step).caps[i].grantedBy == a
      case PostProject(_, _, a, _) => Next(s, step).caps[i].grantedBy == a
      case PostAcceptInvite(token, _, _) =>
        token < |s.invitations| && Next(s, step).caps[i].grantedBy == s.invitations[token].invitedBy
      case PostAcceptShare(token, _, _) => token < |s.shares| && Next(s, step).caps[i].grantedBy == s.shares[token].sharedBy
      case _ => false
  {
    hide AdminGate, ProjectGate, DeleteOrg, RemoveMember, ChangeRole, RevokeShare, CreateOrg, CreateProject, Invite,
      DeleteProject, ShareProject;
    hide Mint, Join, FindMember, LiveProject, LiveOrg;
    var call := Route(s, step);
    match call
    case CallCreateOrg(slug, a) => CreateOrgNames(s, slug, a);
    case CallCreateProject(o, slug, a) => CreateProjectNames(s, o, slug, a);
    case CallAcceptInvite(token, a, now) => JoinNames(s, token, a, now);
    case CallChangeRole(o, target, role, a, now) => ChangeRoleNames(s, o, target, role, a, now);
    case CallAcceptShare(token, a, now) => AcceptShareNames(s, token, a, now);
    case _ => OthersGrantNothing(s, call);
  }

  // ---- slugs ----

  /** No two organisations ever share a slug, nor two projects of one organisation; deleted ones count. */
  predicate SlugsUnique(s: State) {
    && (forall i, j :: 0 <= i < j < |s.orgs| ==> s.orgs[i].slug != s.orgs[j].slug)
    && (forall i, j :: 0 <= i < j < |s.projects| && s.projects[i].org == s.projects[j].org ==> s.projects[i].slug != s.projects[j].slug)
  }

  lemma ServeKeepsSlugs(s: State, call: Call)
    requires SlugsUnique(s)
    ensures SlugsUnique(Serve(s, call))
  {
    hide Bundle, BundleRows, CreateRows, ProjectRows, MembersOf, RevokeTagged, RevokeOne, RevokeBundleRows, RevokeRows, BundleIds,
      LiveProjects, FindMember, CountOwners, WithRole, WithoutMember, EffectiveTtl;
  }

  lemma {:induction false} RunsKeepSlugs(states: seq<State>, steps: seq<Step>, i: nat)
    requires Trace(states, steps) && states[0] == EMPTY && i < |states|
    ensures SlugsUnique(states[i])
  {
    hide Serve, Route;
    if i > 0 {
      RunsKeepSlugs(states, steps, i - 1);
      assert states[i] == Next(states[i - 1], steps[i - 1]);
      ServeKeepsSlugs(states[i - 1], Route(states[i - 1], steps[i - 1]));
    }
  }

  /** So a slug in a path names the live organisation, or the live project of it, that carries the slug. */
  lemma SlugsResolve(states: seq<State>, steps: seq<Step>, i: nat, slug: string, o: OrgId, p: ProjectId)
    requires Trace(states, steps) && states[0] == EMPTY && i < |states|
    ensures var s := states[i];
      && (OrgBySlug(s.orgs, slug) == Some(o) <==> LiveOrg(s.orgs, o) && s.orgs[o].slug == slug)
      && (ProjectBySlug(s.projects, o, slug) == Some(p) <==>
        LiveProject(s.projects, p) && s.projects[p].org == o && s.projects[p].slug == slug)
  {
    hide Next, OrgBySlug, ProjectBySlug;
    RunsKeepSlugs(states, steps, i);
  }
}
