/**
 When organisations, projects, invitations, shares and guest rows come and go, in terms of roles and
 rows alone. Each condition is exact; with `Provenance` they leave nothing for the capability table
 to decide.
 */
module Directory {
  import opened Prelude
  import opened Bundles
  import opened Tables
  import opened Authz
  import opened Services
  import opened Routes
  import opened Invariants
  import opened Guests
  import opened Provenance

  /** An owner or admin asks, and the slug names the organisation. */
  predicate Commands(s: State, slug: string, o: OrgId, a: ActorId) {
    OrgBySlug(s.orgs, slug) == Some(o) && Rules(s, o, a)
  }

  lemma AdminGateCommands(s: State, slug: string, a: ActorId, now: Time, guestsRefused: bool)
    requires Inv(s)
    ensures forall o: OrgId :: AdminGate(s, slug, a, now, guestsRefused) == Some(o) <==> Commands(s, slug, o, a)
  {
    hide Inv, AdminGate, OrgBySlug, FindMember;
    forall o: OrgId ensures AdminGate(s, slug, a, now, guestsRefused) == Some(o) <==> Commands(s, slug, o, a) {
      GateIsRules(s, slug, a, now, guestsRefused, o);
    }
  }

  predicate CommandsProject(s: State, slug: string, projectSlug: string, o: OrgId, p: ProjectId, a: ActorId) {
    Commands(s, slug, o, a) && ProjectBySlug(s.projects, o, projectSlug) == Some(p)
  }

  lemma ProjectGateCommands(s: State, slug: string, projectSlug: string, op: Operation, a: ActorId, now: Time)
    requires Inv(s) && (op == OpAdmin || op == OpShare)
    ensures forall o: OrgId, p: ProjectId ::
      ProjectGate(s, slug, projectSlug, op, a, now) == Some((o, p)) <==> CommandsProject(s, slug, projectSlug, o, p, a)
  {
    hide Inv, ProjectGate, OrgBySlug, ProjectBySlug, FindMember;
    forall o: OrgId, p: ProjectId
      ensures ProjectGate(s, slug, projectSlug, op, a, now) == Some((o, p)) <==> CommandsProject(s, slug, projectSlug, o, p, a)
    {
      ProjectGateIsByRole(s, slug, projectSlug, op, a, now, o, p);
      RulesIs(s, o, a);
    }
  }

  lemma OrgEndsIff(s: State, step: Step, o: OrgId)
    requires Inv(s) && LiveOrg(s.orgs, o)
    ensures !LiveOrg(Next(s, step).orgs, o) <==> step.DeleteOrgRoute? && Commands(s, step.slug, o, step.a)
  {
    hide Inv, Commands, AdminGate, ProjectGate, Bundle, BundleRows, RevokeBundleRows, RevokeRows, BundleIds,
      RevokeTagged, RevokeOne, FindMember, CountOwners, CreateRows;
    if step.DeleteOrgRoute? {
      AdminGateCommands(s, step.slug, step.a, step.now, true);
    }
  }

  lemma ProjectEndsIff(s: State, step: Step, p: ProjectId)
    requires Inv(s) && LiveProject(s.projects, p)
    ensures !LiveProject(Next(s, step).projects, p) <==>
      step.DeleteProjectRoute? && CommandsProject(s, step.slug, step.projectSlug, s.projects[p].org, p, step.a)
  {
    hide Inv, CommandsProject, AdminGate, ProjectGate, Bundle, BundleRows, RevokeBundleRows, RevokeRows, BundleIds,
      RevokeTagged, RevokeOne, FindMember, CountOwners, CreateRows;
    if step.DeleteProjectRoute? {
      ProjectGateCommands(s, step.slug, step.projectSlug, OpAdmin, step.a, step.now);
    }
  }

  /** Project slugs stay taken after a project is deleted. */
  lemma ProjectStartsIff(s: State, step: Step, project: Project)
    requires Inv(s)
    ensures Next(s, step).projects == s.projects + [project] <==>
      && step.PostProject? && project == Project(project.org, step.projectSlug, None) && Commands(s, step.slug, project.org, step.a)
      && forall x :: x in s.projects && x.org == project.org ==> x.slug != step.projectSlug
    ensures |Next(s, step).projects| <= |s.projects| + 1
  {
    hide Inv, Commands, AdminGate, ProjectGate, Bundle, BundleRows, RevokeBundleRows, RevokeRows, BundleIds,
      RevokeTagged, RevokeOne, FindMember, CountOwners, CreateRows, ProjectRows, MembersOf;
    if step.PostProject? {
      AdminGateCommands(s, step.slug, step.a, step.now, true);
      var g := AdminGate(s, step.slug, step.a, step.now, true);
      if g.Some? {
        assert (s.projects + [project])[|s.projects|] == project;
      }
    }
  }

  lemma InvitationStartsIff(s: State, step: Step, inv: Invitation)
    requires Inv(s)
    ensures Next(s, step).invitations == s.invitations + [inv] <==>
      && step.PostInvite? && Commands(s, step.slug, inv.org, step.a)
      && step.role != RoleOwner && (step.invitee.Some? ==> FindMember(s.members, inv.org, step.invitee.value).None?)
      && inv == Invitation(inv.org, step.role, step.a, step.now + INVITE_TTL, None, None)
  {
    hide Inv, Commands, AdminGate, ProjectGate, Bundle, BundleRows, RevokeBundleRows, RevokeRows, BundleIds,
      RevokeTagged, RevokeOne, FindMember, CountOwners, CreateRows, LiveProjects;
    if step.PostInvite? {
      AdminGateCommands(s, step.slug, step.a, step.now, false);
      var g := AdminGate(s, step.slug, step.a, step.now, false);
      if g.Some? {
        assert (s.invitations + [inv])[|s.invitations|] == inv;
      }
    }
  }

  lemma ShareStartsIff(s: State, step: Step, sh: Share)
    requires Inv(s)
    ensures Next(s, step).shares == s.shares + [sh] <==>
      && step.PostShare? && CommandsProject(s, step.slug, step.projectSlug, sh.org, sh.project, step.a)
      && EffectiveTtl(step.ttl) <= SHARE_MAX_TTL
      && sh == Share(sh.project, sh.org, step.a, step.now + EffectiveTtl(step.ttl), None, None, None)
  {
    hide Inv, CommandsProject, AdminGate, ProjectGate, Bundle, BundleRows, RevokeBundleRows, RevokeRows, BundleIds,
      RevokeTagged, RevokeOne, FindMember, CountOwners, CreateRows, EffectiveTtl;
    if step.PostShare? {
      ProjectGateCommands(s, step.slug, step.projectSlug, OpShare, step.a, step.now);
      var g := ProjectGate(s, step.slug, step.projectSlug, OpShare, step.a, step.now);
      if g.Some? {
        assert (s.shares + [sh])[|s.shares|] == sh;
      }
    }
  }

  /** The request consumes the share: an accept in time, or a revoke by whoever may share some project. */
  ghost predicate Spends(s: State, step: Step, sid: ShareId)
    requires sid < |s.shares|
  {
    match step
    case PostAcceptShare(token, _, now) =>
      && token == sid && now < s.shares[sid].expiresAt
      && LiveProject(s.projects, s.shares[sid].project) && LiveOrg(s.orgs, s.shares[sid].org)
    case DeleteShare(slug, projectSlug, named, a, _) =>
      named == sid && exists o: OrgId, p: ProjectId :: CommandsProject(s, slug, projectSlug, o, p, a)
    case _ => false
  }

  lemma ShareSpentIff(s: State, step: Step, sid: ShareId)
    requires Inv(s) && sid < |s.shares| && s.shares[sid].consumedAt.None?
    ensures sid < |Next(s, step).shares|
    ensures Next(s, step).shares[sid].consumedAt.Some? <==> Spends(s, step, sid)
  {
    hide Inv, CommandsProject, AdminGate, ProjectGate, Bundle, BundleRows, RevokeBundleRows, RevokeRows, BundleIds,
      RevokeTagged, RevokeOne, FindMember, CountOwners, CreateRows;
    if step.DeleteShare? {
      ProjectGateCommands(s, step.slug, step.projectSlug, OpShare, step.a, step.now);
      var g := ProjectGate(s, step.slug, step.projectSlug, OpShare, step.a, step.now);
      if g.Some? {
        assert CommandsProject(s, step.slug, step.projectSlug, g.value.0, g.value.1, step.a);
      }
    }
  }

  /** An accept writes a guest row exactly when it spends the share and the caller is no member. */
  lemma GuestStartsIff(s: State, sid: ShareId, a: ActorId, now: Time)
    requires Inv(s) && sid < |s.shares| && s.shares[sid].consumedAt.None?
    ensures var step := PostAcceptShare(sid, a, now);
      Next(s, step).caps == s.caps + [GuestRow(s.shares[sid], sid, a)] <==>
      Spends(s, step, sid) && FindMember(s.members, s.shares[sid].org, a).None?
  {
    hide Inv, Bundle, CreateRows, FindMember;
    assert Next(s, PostAcceptShare(sid, a, now)) == AcceptShare(s, sid, a, now).0;
    assert |s.caps + [GuestRow(s.shares[sid], sid, a)]| == |s.caps| + 1;
  }

  /** The request ends the guest row: its share is revoked, its actor is removed, or its organisation is deleted. */
  ghost predicate EndsGuest(s: State, step: Step, o: OrgId, a: ActorId, sid: ShareId) {
    match step
    case DeleteOrgRoute(slug, who, _) => Commands(s, slug, o, who)
    case DeleteMember(slug, target, who, _) =>
      target == a && Commands(s, slug, o, who) && FindMember(s.members, o, a).Some? && Spare(s, o, a)
    case DeleteShare(slug, projectSlug, named, who, _) =>
      named == sid && exists x: OrgId, p: ProjectId :: CommandsProject(s, slug, projectSlug, x, p, who)
    case _ => false
  }

  /** A role change only touches rows of the old role's bundle. */
  lemma RoleChangeKeepsGuests(s: State, o: OrgId, target: ActorId, role: Role, a: ActorId, now: Time, i: CapId)
    requires i < |s.caps| && s.caps[i].bundle == GuestViewer
    ensures var t := ChangeRole(s, o, target, role, a, now).0; i < |t.caps| && t.caps[i] == s.caps[i]
  {
    hide Bundle, BundleRows, CreateRows, RevokeRows, BundleIds, LiveProjects, FindMember, CountOwners, WithRole;
  }

  /** No other request touches a guest row. */
  lemma OthersKeepGuests(s: State, step: Step, i: CapId)
    requires i < |s.caps| && s.caps[i].bundle == GuestViewer
    requires !step.DeleteOrgRoute? && !step.DeleteMember? && !step.DeleteShare?
    ensures var t := Next(s, step); i < |t.caps| && t.caps[i] == s.caps[i]
  {
    hide AdminGate, ProjectGate, ChangeRole, Bundle, BundleRows, CreateRows, ProjectRows, MembersOf, LiveProjects, FindMember;
    if step.PatchMember? {
      var g := AdminGate(s, step.slug, step.a, step.now, false);
      if g.Some? {
        RoleChangeKeepsGuests(s, g.value, step.target, step.role, step.a, step.now, i);
      }
    }
  }

  lemma DeletionEndsGuestIff(s: State, step: Step, i: CapId)
    requires Inv(s) && step.DeleteOrgRoute? && i < |s.caps| && Active(s.caps[i]) && TagOrg(s.caps[i]).Some?
    ensures i < |Next(s, step).caps|
    ensures !Active(Next(s, step).caps[i]) <==> Commands(s, step.slug, TagOrg(s.caps[i]).value, step.a)
  {
    hide Inv, AdminGate, Commands;
    AdminGateCommands(s, step.slug, step.a, step.now, true);
  }

  lemma RemovalEndsGuestIff(s: State, step: Step, i: CapId)
    requires Inv(s) && step.DeleteMember? && i < |s.caps| && Active(s.caps[i]) && TagOrg(s.caps[i]).Some?
    ensures i < |Next(s, step).caps|
    ensures !Active(Next(s, step).caps[i]) <==>
      && step.target == s.caps[i].actor && Commands(s, step.slug, TagOrg(s.caps[i]).value, step.a)
      && FindMember(s.members, TagOrg(s.caps[i]).value, step.target).Some? && Spare(s, TagOrg(s.caps[i]).value, step.target)
  {
    hide Inv, AdminGate, Commands, FindMember, CountOwners, Spare;
    AdminGateCommands(s, step.slug, step.a, step.now, false);
    InvMembers(s);
    var g := AdminGate(s, step.slug, step.a, step.now, false);
    if g.Some? {
      var f := FindMember(s.members, g.value, step.target);
      if f.Some? {
        GuardIsSpare(s, g.value, step.target, f.value);
      }
    }
  }

  lemma RevokeEndsGuestIff(s: State, step: Step, i: CapId)
    requires Inv(s) && step.DeleteShare? && i < |s.caps| && Active(s.caps[i]) && s.caps[i].bundle == GuestViewer
    ensures i < |Next(s, step).caps|
    ensures !Active(Next(s, step).caps[i]) <==>
      && Some(step.sid) == TagShare(s.caps[i])
      && exists x: OrgId, p: ProjectId :: CommandsProject(s, step.slug, step.projectSlug, x, p, step.a)
  {
    hide Inv, ProjectGate, CommandsProject;
    GuestTags(s, i);
    ProjectGateCommands(s, step.slug, step.projectSlug, OpShare, step.a, step.now);
    var g := ProjectGate(s, step.slug, step.projectSlug, OpShare, step.a, step.now);
    if g.Some? {
      assert CommandsProject(s, step.slug, step.projectSlug, g.value.0, g.value.1, step.a);
    }
  }

  lemma GuestEndsIff(s: State, step: Step, i: CapId)
    requires Inv(s) && i < |s.caps| && Active(s.caps[i]) && s.caps[i].bundle == GuestViewer
    ensures i < |Next(s, step).caps| && TagOrg(s.caps[i]).Some? && TagShare(s.caps[i]).Some?
    ensures !Active(Next(s, step).caps[i]) <==>
      EndsGuest(s, step, TagOrg(s.caps[i]).value, s.caps[i].actor, TagShare(s.caps[i]).value)
  {
    hide Inv, Next, Commands, CommandsProject, FindMember, Spare;
    GuestTags(s, i);
    if step.DeleteOrgRoute? {
      DeletionEndsGuestIff(s, step, i);
    } else if step.DeleteMember? {
      RemovalEndsGuestIff(s, step, i);
    } else if step.DeleteShare? {
      RevokeEndsGuestIff(s, step, i);
    } else {
      OthersKeepGuests(s, step, i);
    }
  }

  /** The share of a guest row remembers the row. */
  lemma GuestTags(s: State, i: CapId)
    requires Inv(s) && i < |s.caps| && s.caps[i].bundle == GuestViewer
    ensures TagOrg(s.caps[i]).Some? && TagShare(s.caps[i]).Some? && TagShare(s.caps[i]).value < |s.shares|
    ensures var sh := s.shares[TagShare(s.caps[i]).value]; sh.consumedAt.Some? && sh.consumedCapability == Some(i)
    ensures forall sid: ShareId :: sid < |s.shares| && s.shares[sid].consumedCapability == Some(i) ==> sid == TagShare(s.caps[i]).value
  {
    assert CapSane(s, s.caps[i], i);
    forall sid: ShareId | sid < |s.shares| && s.shares[sid].consumedCapability == Some(i)
      ensures sid == TagShare(s.caps[i]).value
    {
      assert ShareSane(s, s.shares[sid], sid);
    }
  }
}
