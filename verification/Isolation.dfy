/**
 Tenant isolation: what a request that does not name an organisation can do to it, to its tables and to
 its part of the audit log. Nothing, but for one route: revoking a share gates the caller on the
 project in the path and then ends whatever share is named beside it. An open share is ended; a share
 that was ended before still has the revoke written into its organisation's log, each time.
 */
module Isolation {
  import opened Prelude
  import opened Bundles
  import opened Tables
  import opened Authz
  import opened Services
  import opened Routes
  import opened AuditScope
  import opened Invariants
  import opened SaneSteps
  import opened Guests
  import opened Provenance
  import opened Directory

  // ---- everything that belongs to one organisation ----

  predicate SameRoles(s: State, t: State, o: OrgId) {
    && (forall m :: m in s.members && m.org == o ==> m in t.members)
    && (forall m :: m in t.members && m.org == o ==> m in s.members)
  }

  predicate SameProjects(s: State, t: State, o: OrgId) {
    && |s.projects| <= |t.projects|
    && (forall p: ProjectId :: p < |s.projects| && s.projects[p].org == o ==> t.projects[p] == s.projects[p])
    && (forall p: ProjectId :: p < |t.projects| && t.projects[p].org == o ==> p < |s.projects| && s.projects[p].org == o)
  }

  predicate SameOffers(s: State, t: State, o: OrgId) {
    && |s.invitations| <= |t.invitations| && |s.shares| <= |t.shares|
    && (forall i: nat :: i < |s.invitations| && s.invitations[i].org == o ==> t.invitations[i] == s.invitations[i])
    && (forall i: nat :: i < |t.invitations| && t.invitations[i].org == o ==> i < |s.invitations| && s.invitations[i].org == o)
    && (forall i: ShareId :: i < |s.shares| && s.shares[i].org == o ==> t.shares[i] == s.shares[i])
    && (forall i: ShareId :: i < |t.shares| && t.shares[i].org == o ==> i < |s.shares| && s.shares[i].org == o)
  }

  predicate SameCaps(caps: seq<Capability>, after: seq<Capability>, o: OrgId) {
    && |caps| <= |after|
    && (forall i: CapId :: i < |caps| && TagOrg(caps[i]) == Some(o) ==> after[i] == caps[i])
    && (forall i: CapId :: i < |after| && TagOrg(after[i]) == Some(o) ==> i < |caps| && TagOrg(caps[i]) == Some(o))
  }

  /** The organisation, its roles, projects, invitations, shares and capabilities are what they were. */
  predicate SameHoldings(s: State, t: State, o: OrgId) {
    && o < |s.orgs| <= |t.orgs| && t.orgs[o] == s.orgs[o]
    && SameRoles(s, t, o) && SameProjects(s, t, o) && SameOffers(s, t, o) && SameCaps(s.caps, t.caps, o)
  }

  /** The log only grew, and not by rows of `o`. */
  predicate SameLog(s: State, t: State, o: OrgId) {
    s.audit <= t.audit && forall i :: |s.audit| <= i < |t.audit| ==> t.audit[i].org != o
  }

  /** Nothing of the organisation changed, its part of the log included. */
  predicate Untouched(s: State, t: State, o: OrgId) {
    SameHoldings(s, t, o) && SameLog(s, t, o)
  }

  lemma SameLogTransitive(s: State, t: State, u: State, o: OrgId)
    requires SameLog(s, t, o) && SameLog(t, u, o)
    ensures SameLog(s, u, o)
  {
  }

  lemma HoldingsTransitive(s: State, t: State, u: State, o: OrgId)
    requires SameHoldings(s, t, o) && SameHoldings(t, u, o)
    ensures SameHoldings(s, u, o)
  {
  }

  // ---- one call ----

  lemma AppendedApart(caps: seq<Capability>, rows: seq<Capability>, o: OrgId)
    requires forall c :: c in rows ==> TagOrg(c) != Some(o)
    ensures SameCaps(caps, caps + rows, o)
  {
  }

  lemma CreateOrgApart(s: State, slug: string, a: ActorId, o: OrgId)
    requires o < |s.orgs|
    ensures SameHoldings(s, CreateOrg(s, slug, a).0, o)
  {
    hide Bundle, BundleRows, CreateRows;
    var g := Grantee(a, Primary(RoleOwner), a, None, map[MetaOrg := |s.orgs|]);
    BundleRowsPlain(g, Bundle(Primary(RoleOwner)), |s.orgs|, []);
    AppendedApart(s.caps, BundleRows(g, Bundle(Primary(RoleOwner)), |s.orgs|, [], None), o);
  }

  lemma RevokeTaggedApart(caps: seq<Capability>, x: OrgId, who: Option<ActorId>, now: Time, a: ActorId, o: OrgId)
    requires x != o
    ensures SameCaps(caps, RevokeTagged(caps, x, who, now, a), o)
  {
  }

  lemma SameCapsRefl(caps: seq<Capability>, o: OrgId)
    ensures SameCaps(caps, caps, o)
  {
  }

  lemma DeleteOrgApart(s: State, x: OrgId, a: ActorId, now: Time, o: OrgId)
    requires x != o && o < |s.orgs|
    ensures SameHoldings(s, DeleteOrg(s, x, a, now).0, o)
  {
    hide RevokeTagged, SameCaps;
    RevokeTaggedApart(s.caps, x, None, now, a, o);
    SameCapsRefl(s.caps, o);
  }

  lemma RemoveMemberApart(s: State, x: OrgId, target: ActorId, a: ActorId, now: Time, o: OrgId)
    requires x != o && o < |s.orgs|
    ensures SameHoldings(s, RemoveMember(s, x, target, a, now).0, o)
  {
    hide RevokeTagged, FindMember, CountOwners, SameCaps;
    RevokeTaggedApart(s.caps, x, Some(target), now, a, o);
    SameCapsRefl(s.caps, o);
  }

  lemma AcceptInviteApart(s: State, token: nat, a: ActorId, now: Time, o: OrgId)
    requires o < |s.orgs| && (token < |s.invitations| ==> s.invitations[token].org != o)
    ensures SameHoldings(s, AcceptInvite(s, token, a, now).0, o)
  {
    hide Bundle, BundleRows, CreateRows, LiveProjects, FindMember, JoinRows;
    if Redeemable(s, token, now) {
      JoinDelta(s, token, a, now);
      AppendedApart(s.caps, JoinRows(s, s.invitations[token], a), o);
    }
  }

  lemma ChangeRoleApart(s: State, x: OrgId, target: ActorId, role: Role, a: ActorId, now: Time, o: OrgId)
    requires x != o && o < |s.orgs|
    ensures SameHoldings(s, ChangeRole(s, x, target, role, a, now).0, o)
  {
    hide Bundle, BundleRows, CreateRows, RevokeRows, BundleIds, LiveProjects, FindMember, CountOwners, WithRole, SameCaps;
    SameCapsRefl(s.caps, o);
    var f := FindMember(s.members, x, target);
    if f.Some? {
      WithRoleApart(s.members, x, target, role, o);
      var g := Grantee(target, Primary(role), a, None, map[MetaOrg := x]);
      var ps := LiveProjects(s.projects, x);
      BundleRowsPlain(g, Bundle(Primary(role)), x, ps);
      RevokeThenAppendApart(s.caps, target, Primary(f.value), x, now, BundleRows(g, Bundle(Primary(role)), x, ps, None), o);
    }
  }

  lemma WithRoleApart(members: seq<Member>, x: OrgId, target: ActorId, role: Role, o: OrgId)
    requires x != o
    ensures forall m: Member :: m.org == o ==> (m in members <==> m in WithRole(members, x, target, role))
  {
    var changed := WithRole(members, x, target, role);
    forall m: Member | m.org == o ensures m in members <==> m in changed {
      if m in members {
        var i :| 0 <= i < |members| && members[i] == m;
        assert changed[i] == m;
      }
    }
  }

  lemma RevokeThenAppendApart(caps: seq<Capability>, a: ActorId, b: BundleName, x: OrgId, now: Time, rows: seq<Capability>, o: OrgId)
    requires x != o && forall c :: c in rows ==> TagOrg(c) == Some(x)
    ensures SameCaps(caps, RevokeBundleRows(caps, a, b, x, now) + rows, o)
  {
  }

  lemma CreateProjectApart(s: State, x: OrgId, slug: string, a: ActorId, o: OrgId)
    requires x != o && o < |s.orgs|
    ensures SameHoldings(s, CreateProject(s, x, slug, a).0, o)
  {
    hide ProjectRows, MembersOf, CreateRows, SameCaps;
    var ms := MembersOf(s.members, x);
    SameCapsRefl(s.caps, o);
    ProjectRowsPlain(ms, x, |s.projects|, a);
    AppendedApart(s.caps, ProjectRows(ms, x, |s.projects|, a), o);
  }

  lemma InviteApart(s: State, x: OrgId, who: Option<ActorId>, role: Role, a: ActorId, now: Time, o: OrgId)
    requires x != o && o < |s.orgs|
    ensures SameHoldings(s, Invite(s, x, who, role, a, now).0, o)
  {
    hide FindMember;
  }

  lemma DeleteProjectApart(s: State, p: ProjectId, a: ActorId, now: Time, o: OrgId)
    requires o < |s.orgs| && (p < |s.projects| ==> s.projects[p].org != o)
    ensures SameHoldings(s, DeleteProject(s, p, a, now).0, o)
  {
  }

  lemma ShareProjectApart(s: State, x: OrgId, p: ProjectId, ttl: Option<Time>, a: ActorId, now: Time, o: OrgId)
    requires x != o && o < |s.orgs|
    ensures SameHoldings(s, ShareProject(s, x, p, a, ttl, now).0, o)
  {
    hide EffectiveTtl;
  }

  lemma AcceptShareApart(s: State, token: ShareId, a: ActorId, now: Time, o: OrgId)
    requires o < |s.orgs| && (token < |s.shares| ==> s.shares[token].org != o)
    ensures SameHoldings(s, AcceptShare(s, token, a, now).0, o)
  {
    hide CreateRows, FindMember, LiveProject;
    if token < |s.shares| {
      AppendedApart(s.caps, [GuestRow(s.shares[token], token, a)], o);
    }
  }

  /** A revoke has work to do: the share is pending, or its capability is still active. */
  predicate Revocable(s: State, sid: ShareId) {
    && sid < |s.shares|
    && var sh := s.shares[sid];
    && (sh.consumedAt.None?
        || (sh.consumedCapability.Some? && sh.consumedCapability.value < |s.caps| && Active(s.caps[sh.consumedCapability.value])))
  }

  /** A revoke rewrites the row of its share and the row of that share's capability, if anything. */
  lemma RevokeShareWrites(s: State, sid: ShareId, a: ActorId, now: Time)
    requires sid < |s.shares|
    ensures var t, sh := RevokeShare(s, sid, a, now).0, s.shares[sid];
      && t.orgs == s.orgs && t.members == s.members && t.projects == s.projects && t.invitations == s.invitations
      && t.shares == (if sh.consumedAt.None? then s.shares[sid := t.shares[sid]] else s.shares)
      && (sh.consumedAt.None? ==> t.shares[sid] != sh && t.shares[sid].org == sh.org)
      && |t.caps| == |s.caps|
      && forall i: CapId :: i < |s.caps| ==>
        if sh.consumedAt.Some? && sh.consumedCapability == Some(i) && Active(s.caps[i])
        then t.caps[i] != s.caps[i] && TagOrg(t.caps[i]) == TagOrg(s.caps[i]) else t.caps[i] == s.caps[i]
  {
    if s.shares[sid].consumedCapability.Some? {
      var cap := s.shares[sid].consumedCapability.value;
      if cap < |s.caps| {
        assert !Active(Stamped(s.caps[cap], now, a));
      }
    }
  }

  lemma RevokeShareApart(s: State, sid: ShareId, a: ActorId, now: Time, o: OrgId)
    requires RowsSane(s) && CapsSane(s) && o < |s.orgs|
    requires !(Revocable(s, sid) && s.shares[sid].org == o)
    ensures SameHoldings(s, RevokeShare(s, sid, a, now).0, o)
  {
    hide RevokeShare, CapSane, ShareSane, TagOrg;
    if sid < |s.shares| {
      var sh := s.shares[sid];
      RevokeShareWrites(s, sid, a, now);
      ShareRowTagged(s, sid);
    } else {
      NoSuchShare(s, sid, a, now);
    }
  }

  lemma NoSuchShare(s: State, sid: ShareId, a: ActorId, now: Time)
    requires sid >= |s.shares|
    ensures RevokeShare(s, sid, a, now).0 == s
  {
  }

  /** The capability of a share is a row of the share's organisation. */
  lemma ShareRowTagged(s: State, sid: ShareId)
    requires RowsSane(s) && CapsSane(s) && sid < |s.shares|
    ensures var sh := s.shares[sid]; sh.consumedCapability.Some? ==>
      sh.consumedAt.Some? && sh.consumedCapability.value < |s.caps| && TagOrg(s.caps[sh.consumedCapability.value]) == Some(sh.org)
  {
    var sh := s.shares[sid];
    assert ShareSane(s, sh, sid);
    if sh.consumedCapability.Some? {
      assert CapSane(s, s.caps[sh.consumedCapability.value], sh.consumedCapability.value);
    }
  }

  lemma RevokeShareApartIff(s: State, sid: ShareId, a: ActorId, now: Time, o: OrgId)
    requires RowsSane(s) && CapsSane(s) && o < |s.orgs|
    ensures SameHoldings(s, RevokeShare(s, sid, a, now).0, o) <==> !(Revocable(s, sid) && s.shares[sid].org == o)
  {
    hide RevokeShare, RowsSane, CapsSane, TagOrg;
    if Revocable(s, sid) && s.shares[sid].org == o {
      RevokeShareWrites(s, sid, a, now);
      ShareRowTagged(s, sid);
    } else {
      RevokeShareApart(s, sid, a, now, o);
    }
  }

  // ---- one request ----

  /** The request names `o`: by its slug, or by a token that `o` issued. */
  predicate Names(s: State, step: Step, o: OrgId) {
    match step
    case PostOrg(_, _) => false
    case PostAcceptInvite(token, _, _) => token < |s.invitations| && s.invitations[token].org == o
    case PostAcceptShare(token, _, _) => token < |s.shares| && s.shares[token].org == o
    case _ => OrgBySlug(s.orgs, step.slug) == Some(o)
  }

  /** A revoke asked through some project the caller may share, of a share of `o` that is still open. */
  ghost predicate RevokesFrom(s: State, step: Step, o: OrgId) {
    && step.DeleteShare? && Revocable(s, step.sid) && s.shares[step.sid].org == o
    && exists x: OrgId, p: ProjectId :: CommandsProject(s, step.slug, step.projectSlug, x, p, step.a)
  }

  lemma GatesResolveSlugs(s: State, slug: string, projectSlug: string, op: Operation, a: ActorId, now: Time, guestsRefused: bool)
    ensures AdminGate(s, slug, a, now, guestsRefused).Some? ==> AdminGate(s, slug, a, now, guestsRefused) == OrgBySlug(s.orgs, slug)
    ensures ProjectGate(s, slug, projectSlug, op, a, now).Some? ==>
      OrgBySlug(s.orgs, slug) == Some(ProjectGate(s, slug, projectSlug, op, a, now).value.0)
  {
    hide Can, FindMember, GuestCap;
  }

  /**
   Isolation of the tables, exactly: a request that does not name an organisation leaves its roles, projects,
   invitations, shares and capabilities as they were, unless it revokes one of its open shares through
   another organisation's project.
   */
  lemma SameHoldingsIff(s: State, step: Step, o: OrgId)
    requires Inv(s) && o < |s.orgs| && !Names(s, step, o)
    ensures SameHoldings(s, Next(s, step), o) <==> !RevokesFrom(s, step, o)
  {
    hide Inv, AdminGate, ProjectGate, OrgBySlug, SameHoldings, Revocable, CommandsProject, CreateOrg, DeleteOrg, Invite, AcceptInvite,
      ChangeRole, RemoveMember, CreateProject, DeleteProject, ShareProject, AcceptShare, RevokeShare;
    HoldingsStay(s, o);
    match step
    case PostOrg(slug, a) => CreateOrgApart(s, slug, a, o);
    case DeleteOrgRoute(slug, a, now) =>
      GatesResolveSlugs(s, slug, "", OpAdmin, a, now, true);
      var g := AdminGate(s, slug, a, now, true);
      if g.Some? { DeleteOrgApart(s, g.value, a, now, o); }
    case PostInvite(slug, who, role, a, now) =>
      GatesResolveSlugs(s, slug, "", OpAdmin, a, now, false);
      var g := AdminGate(s, slug, a, now, false);
      if g.Some? { InviteApart(s, g.value, who, role, a, now, o); }
    case PostAcceptInvite(token, a, now) => AcceptInviteApart(s, token, a, now, o);
    case PatchMember(slug, target, role, a, now) =>
      GatesResolveSlugs(s, slug, "", OpAdmin, a, now, false);
      var g := AdminGate(s, slug, a, now, false);
      if g.Some? { ChangeRoleApart(s, g.value, target, role, a, now, o); }
    case DeleteMember(slug, target, a, now) =>
      GatesResolveSlugs(s, slug, "", OpAdmin, a, now, false);
      var g := AdminGate(s, slug, a, now, false);
      if g.Some? { RemoveMemberApart(s, g.value, target, a, now, o); }
    case PostProject(slug, projectSlug, a, now) =>
      GatesResolveSlugs(s, slug, "", OpAdmin, a, now, true);
      var g := AdminGate(s, slug, a, now, true);
      if g.Some? { CreateProjectApart(s, g.value, projectSlug, a, o); }
    case DeleteProjectRoute(slug, projectSlug, a, now) =>
      GatesResolveSlugs(s, slug, projectSlug, OpAdmin, a, now, true);
      var g := ProjectGate(s, slug, projectSlug, OpAdmin, a, now);
      if g.Some? { DeleteProjectApart(s, g.value.1, a, now, o); }
    case PostShare(slug, projectSlug, ttl, a, now) =>
      GatesResolveSlugs(s, slug, projectSlug, OpShare, a, now, true);
      var g := ProjectGate(s, slug, projectSlug, OpShare, a, now);
      if g.Some? { ShareProjectApart(s, g.value.0, g.value.1, ttl, a, now, o); }
    case PostAcceptShare(token, a, now) => AcceptShareApart(s, token, a, now, o);
    case DeleteShare(_, _, _, _, _) => RevokeRouteApartIff(s, step, o);
  }

  lemma HoldingsStay(s: State, o: OrgId)
    requires o < |s.orgs|
    ensures SameHoldings(s, s, o)
  {
  }

  lemma RevokeRouteApartIff(s: State, step: Step, o: OrgId)
    requires Inv(s) && o < |s.orgs| && step.DeleteShare?
    ensures SameHoldings(s, Next(s, step), o) <==> !RevokesFrom(s, step, o)
  {
    hide ProjectGate, SameHoldings, Revocable, CommandsProject, RevokeShare, RowsSane, CapsSane, MembersSane, DeadOrgsRevoked, FanOut;
    HoldingsStay(s, o);
    ProjectGateCommands(s, step.slug, step.projectSlug, OpShare, step.a, step.now);
    var g := ProjectGate(s, step.slug, step.projectSlug, OpShare, step.a, step.now);
    if g.Some? {
      assert CommandsProject(s, step.slug, step.projectSlug, g.value.0, g.value.1, step.a);
    }
    RevokeShareApartIff(s, step.sid, step.a, step.now, o);
  }

  // ---- the log ----

  /** As `RevokesFrom`, but the share may have been ended before: the service logs the revoke all the same. */
  ghost predicate RevokesShareOf(s: State, step: Step, o: OrgId) {
    && step.DeleteShare? && step.sid < |s.shares| && s.shares[step.sid].org == o
    && (s.shares[step.sid].consumedAt.None? || s.shares[step.sid].consumedCapability.Some?)
    && exists x: OrgId, p: ProjectId :: CommandsProject(s, step.slug, step.projectSlug, x, p, step.a)
  }

  /** A request that does not name an organisation is let through only to calls about others, a revoke aside. */
  lemma ConcernsOthers(s: State, step: Step, o: OrgId)
    requires o < |s.orgs| && !Names(s, step, o) && !step.DeleteShare?
    ensures Concerns(s, Route(s, step)) != Some(o)
  {
    hide AdminGate, ProjectGate, OrgBySlug;
    match step
    case PostOrg(_, _) =>
    case PostAcceptInvite(_, _, _) =>
    case PostAcceptShare(_, _, _) =>
    case DeleteProjectRoute(slug, projectSlug, a, now) => GatesResolveSlugs(s, slug, projectSlug, OpAdmin, a, now, true);
    case PostShare(slug, projectSlug, _, a, now) => GatesResolveSlugs(s, slug, projectSlug, OpShare, a, now, true);
    case DeleteOrgRoute(slug, a, now) => GatesResolveSlugs(s, slug, "", OpAdmin, a, now, true);
    case PostInvite(slug, _, _, a, now) => GatesResolveSlugs(s, slug, "", OpAdmin, a, now, false);
    case PatchMember(slug, _, _, a, now) => GatesResolveSlugs(s, slug, "", OpAdmin, a, now, false);
    case DeleteMember(slug, _, a, now) => GatesResolveSlugs(s, slug, "", OpAdmin, a, now, false);
    case PostProject(slug, _, a, now) => GatesResolveSlugs(s, slug, "", OpAdmin, a, now, true);
  }

  lemma RevokeRouteLogsIff(s: State, step: Step, o: OrgId)
    requires Inv(s) && step.DeleteShare?
    ensures SameLog(s, Next(s, step), o) <==> !RevokesShareOf(s, step, o)
  {
    hide Inv, ProjectGate, CommandsProject, RevokeShare;
    ProjectGateCommands(s, step.slug, step.projectSlug, OpShare, step.a, step.now);
    var g := ProjectGate(s, step.slug, step.projectSlug, OpShare, step.a, step.now);
    if g.Some? {
      assert CommandsProject(s, step.slug, step.projectSlug, g.value.0, g.value.1, step.a);
      ShareCallsWrite(s, step.sid, step.a, step.now);
      RevokeIsLoggedIff(s, step.sid, step.a, step.now);
      var t := Next(s, step);
      if |t.audit| > |s.audit| {
        assert t.audit[|s.audit|].org == s.shares[step.sid].org;
      }
    }
  }

  /** Isolation of the log, exactly: no row is written for an organisation the request does not name, but by such a revoke. */
  lemma SameLogIff(s: State, step: Step, o: OrgId)
    requires Inv(s) && o < |s.orgs| && !Names(s, step, o)
    ensures SameLog(s, Next(s, step), o) <==> !RevokesShareOf(s, step, o)
  {
    hide Inv, Route, Serve, Concerns, Names, CommandsProject;
    if step.DeleteShare? {
      RevokeRouteLogsIff(s, step, o);
    } else {
      ConcernsOthers(s, step, o);
      ServeWritesFor(s, Route(s, step));
    }
  }

  /** A revoke that changes the tables is also logged. */
  lemma RevokesFromIsLogged(s: State, step: Step, o: OrgId)
    requires RevokesFrom(s, step, o)
    ensures RevokesShareOf(s, step, o)
  {
  }

  /**
   Isolation, exactly: a request that does not name an organisation leaves everything of it as it was, its log
   included, unless it revokes one of its shares, open or ended before, through another organisation's project.
   */
  lemma UntouchedIff(s: State, step: Step, o: OrgId)
    requires Inv(s) && o < |s.orgs| && !Names(s, step, o)
    ensures Untouched(s, Next(s, step), o) <==> !RevokesShareOf(s, step, o)
  {
    hide Inv, Next, Names, SameHoldings, SameLog, RevokesFrom, RevokesShareOf;
    SameHoldingsIff(s, step, o);
    SameLogIff(s, step, o);
    if RevokesFrom(s, step, o) {
      RevokesFromIsLogged(s, step, o);
    }
  }

  /** Revoking a share that was ended before does nothing but write its organisation's log, and so it can be repeated. */
  lemma EndedShareIsLoggedAgain(s: State, step: Step, o: OrgId)
    requires Inv(s) && RevokesShareOf(s, step, o) && !Revocable(s, step.sid)
    ensures var t, cap := Next(s, step), s.shares[step.sid].consumedCapability.value;
      && t == s.(audit := s.audit + [AuditRow(ActDelete, EntShare, step.sid, o, OtherDiff),
                                     AuditRow(ActUpdate, EntCapability, cap, o, CapRevoked(step.now, step.a))])
      && RevokesShareOf(t, step, o) && !Revocable(t, step.sid)
  {
    hide Inv, ProjectGate, OrgBySlug, ProjectBySlug, FindMember;
    ProjectGateCommands(s, step.slug, step.projectSlug, OpShare, step.a, step.now);
    var x: OrgId, p: ProjectId :| CommandsProject(s, step.slug, step.projectSlug, x, p, step.a);
    assert ProjectGate(s, step.slug, step.projectSlug, OpShare, step.a, step.now) == Some((x, p));
    assert CommandsProject(Next(s, step), step.slug, step.projectSlug, x, p, step.a);
  }

  // ---- whole runs ----

  /** Over any stretch of a run that neither names an organisation nor revokes a share of it, nothing of it changes. */
  lemma {:induction false} TenantsAreIsolated(states: seq<State>, steps: seq<Step>, i: nat, j: nat, o: OrgId)
    requires Trace(states, steps) && states[0] == EMPTY && i <= j < |states| && o < |states[i].orgs|
    requires forall k {:trigger steps[k]} :: i <= k < j ==> !Names(states[k], steps[k], o) && !RevokesShareOf(states[k], steps[k], o)
    ensures Untouched(states[i], states[j], o)
    decreases j
  {
    hide Next, Names, RevokesShareOf, Inv, SameRoles, SameProjects, SameOffers, SameCaps, SameLog;
    HoldingsStay(states[i], o);
    LogStays(states[i], o);
    if i < j {
      TenantsAreIsolated(states, steps, i, j - 1, o);
      RunsKeepInv(states, steps, j - 1);
      assert states[j] == Next(states[j - 1], steps[j - 1]);
      UntouchedIff(states[j - 1], steps[j - 1], o);
      HoldingsTransitive(states[i], states[j - 1], states[j], o);
      SameLogTransitive(states[i], states[j - 1], states[j], o);
    }
  }

  lemma LogStays(s: State, o: OrgId)
    ensures SameLog(s, s, o)
  {
  }

  /** Its tables do not change even while ended shares of it are revoked again and again. */
  lemma {:induction false} HoldingsAreIsolated(states: seq<State>, steps: seq<Step>, i: nat, j: nat, o: OrgId)
    requires Trace(states, steps) && states[0] == EMPTY && i <= j < |states| && o < |states[i].orgs|
    requires forall k {:trigger steps[k]} :: i <= k < j ==> !Names(states[k], steps[k], o) && !RevokesFrom(states[k], steps[k], o)
    ensures SameHoldings(states[i], states[j], o)
    decreases j
  {
    hide Next, Names, RevokesFrom, Inv, SameRoles, SameProjects, SameOffers, SameCaps;
    HoldingsStay(states[i], o);
    if i < j {
      HoldingsAreIsolated(states, steps, i, j - 1, o);
      RunsKeepInv(states, steps, j - 1);
      assert states[j] == Next(states[j - 1], steps[j - 1]);
      SameHoldingsIff(states[j - 1], steps[j - 1], o);
      HoldingsTransitive(states[i], states[j - 1], states[j], o);
    }
  }

  /** Whatever matches a check on a resource of `o` is a row of `o`. */
  lemma MatchesAreTagged(s: State, i: CapId, op: Operation, rt: ResourceType, resource: nat, now: Time, o: OrgId)
    requires CapsSane(s) && i < |s.caps| && Matches(s.caps[i], op, rt, Some(resource), now)
    requires rt == RtOrganisation || rt == RtProject
    requires TargetOf(s.projects, rt, Some(resource), o)
    ensures TagOrg(s.caps[i]) == Some(o)
  {
    assert CapSane(s, s.caps[i], i);
  }

  /** And nobody's rights on it or on its projects change, deleted projects included. */
  lemma SameHoldingsKeepRights(s: State, t: State, a: ActorId, op: Operation, rt: ResourceType, resource: nat, now: Time, o: OrgId)
    requires CapsSane(s) && CapsSane(t) && SameHoldings(s, t, o)
    requires rt == RtOrganisation || rt == RtProject
    requires TargetOf(s.projects, rt, Some(resource), o)
    ensures Can(t.caps, a, op, rt, Some(resource), now) <==> Can(s.caps, a, op, rt, Some(resource), now)
  {
    hide CapSane, LoadActive, Matches, SameRoles, SameOffers;
    if Can(s.caps, a, op, rt, Some(resource), now) {
      var c :| c in LoadActive(s.caps, a) && Matches(c, op, rt, Some(resource), now);
      var i: nat :| i < |s.caps| && s.caps[i] == c;
      MatchesAreTagged(s, i, op, rt, resource, now, o);
      assert t.caps[i] in t.caps;
      assert c in LoadActive(t.caps, a);
    }
    if Can(t.caps, a, op, rt, Some(resource), now) {
      var c :| c in LoadActive(t.caps, a) && Matches(c, op, rt, Some(resource), now);
      var i: nat :| i < |t.caps| && t.caps[i] == c;
      MatchesAreTagged(t, i, op, rt, resource, now, o);
      assert s.caps[i] in s.caps;
      assert c in LoadActive(s.caps, a);
    }
  }

  // ---- who revokes ----

  /** The caller passes the check that the share's own project would put: `share` on a live project. */
  predicate MayShareIt(s: State, sid: ShareId, a: ActorId, now: Time)
    requires sid < |s.shares|
  {
    LiveProject(s.projects, s.shares[sid].project) && Can(s.caps, a, OpShare, RtProject, Some(s.shares[sid].project), now)
  }

  /**
   When a revoke that got through was asked by someone who may share the share's own project: that project
   is live, and it belongs to the organisation of the gate or to another live one the caller also rules.
   */
  lemma RevokerMayShareIff(states: seq<State>, steps: seq<Step>, i: nat, o: OrgId, p: ProjectId)
    requires Trace(states, steps) && states[0] == EMPTY && i < |steps|
    requires steps[i].DeleteShare? && steps[i].sid < |states[i].shares|
    requires ProjectGate(states[i], steps[i].slug, steps[i].projectSlug, OpShare, steps[i].a, steps[i].now) == Some((o, p))
    ensures var s, sh := states[i], states[i].shares[steps[i].sid];
      MayShareIt(s, steps[i].sid, steps[i].a, steps[i].now) <==>
        && LiveProject(s.projects, sh.project)
        && (sh.org == o || (LiveOrg(s.orgs, sh.org) && Rules(s, sh.org, steps[i].a)))
  {
    hide Next, Inv, Can, LiveProject, LiveOrg, ProjectBySlug, OrgBySlug, FindMember, Rules;
    RunsKeepInv(states, steps, i);
    RevokerMayShare(states[i], steps[i], o, p);
  }

  lemma RevokerMayShare(s: State, step: Step, o: OrgId, p: ProjectId)
    requires Inv(s) && step.DeleteShare? && step.sid < |s.shares|
    requires ProjectGate(s, step.slug, step.projectSlug, OpShare, step.a, step.now) == Some((o, p))
    ensures var sh := s.shares[step.sid];
      MayShareIt(s, step.sid, step.a, step.now) <==>
        && LiveProject(s.projects, sh.project)
        && (sh.org == o || (LiveOrg(s.orgs, sh.org) && Rules(s, sh.org, step.a)))
  {
    hide Can, FindMember, ProjectGate, ProjectBySlug, OrgBySlug, CapsSane, MembersSane, DeadOrgsRevoked, FanOut, Rules;
    var sh := s.shares[step.sid];
    assert ShareSane(s, sh, step.sid);
    ProjectGateCommands(s, step.slug, step.projectSlug, OpShare, step.a, step.now);
    assert CommandsProject(s, step.slug, step.projectSlug, o, p, step.a);
    RulesIs(s, o, step.a);
    RulesIs(s, sh.org, step.a);
    if LiveProject(s.projects, sh.project) {
      ProjectChecksReadRoles(s, step.a, OpShare, sh.project, step.now);
      if FindMember(s.members, sh.org, step.a).Some? {
        ProjectRoles(FindMember(s.members, sh.org, step.a).value, OpShare);
      }
    }
  }
}
