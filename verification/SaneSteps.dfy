/** Every service call behind its gate keeps the rows well-formed. */
module SaneSteps {
  import opened Prelude
  import opened Bundles
  import opened Tables
  import opened Authz
  import opened Services
  import opened Routes
  import opened History
  import opened Minting
  import opened Invariants
  import opened FanOutSteps

  /** A row of a primary bundle as the mint loops write it, before looking at what it grants. */
  predicate Plain(c: Capability, o: OrgId) {
    Active(c) && c.bundle.Primary? && !c.policyBlocked && c.expiresAt.None? && c.meta == map[MetaOrg := o]
  }

  lemma BundleRowsPlain(g: Grantee, ts: seq<Template>, o: OrgId, ps: seq<ProjectId>)
    requires g.bundle.Primary? && g.expiresAt.None? && g.meta == map[MetaOrg := o]
    ensures forall c :: c in BundleRows(g, ts, o, ps, None) ==> Plain(c, o)
  {
    forall c | c in BundleRows(g, ts, o, ps, None) ensures Plain(c, o) {
      BundleRowsMinted(g, ts, o, ps, c);
    }
  }

  lemma ProjectTemplateRowsPlain(g: Grantee, ts: seq<Template>, o: OrgId, p: ProjectId)
    requires g.bundle.Primary? && g.expiresAt.None? && g.meta == map[MetaOrg := o]
    ensures forall c :: c in ProjectTemplateRows(g, ts, p) ==> Plain(c, o)
  {
    forall c | c in ProjectTemplateRows(g, ts, p) ensures Plain(c, o) {
      ProjectTemplateRowsMinted(g, ts, p, c);
    }
  }

  lemma {:induction false} ProjectRowsPlain(ms: seq<Member>, o: OrgId, p: ProjectId, grantedBy: ActorId)
    ensures forall c :: c in ProjectRows(ms, o, p, grantedBy) ==> Plain(c, o)
  {
    hide Bundle, ProjectTemplateRows;
    if ms != [] {
      var m := ms[|ms| - 1];
      ProjectRowsPlain(ms[..|ms| - 1], o, p, grantedBy);
      ProjectTemplateRowsPlain(MemberGrantee(m, o, grantedBy), Bundle(Primary(m.role)), o, p);
    }
  }

  /** A freshly minted primary row is sane when what it grants is tolerated. */
  lemma MintedRowsSane(t: State, o: OrgId, first: CapId, rows: seq<Capability>)
    requires FanOut(t) && o < |t.orgs| && first + |rows| <= |t.caps|
    requires forall i :: 0 <= i < |rows| ==> t.caps[first + i] == rows[i]
    requires forall c :: c in rows ==> Plain(c, o)
    ensures forall i :: first <= i < first + |rows| ==> CapSane(t, t.caps[i], i)
    ensures forall i :: first <= i < first + |rows| ==> TagOrg(t.caps[i]) == Some(o)
  {
    hide Granted;
    forall i | first <= i < first + |rows|
      ensures CapSane(t, t.caps[i], i) && TagOrg(t.caps[i]) == Some(o)
    {
      var c := t.caps[i];
      assert c == rows[i - first] && c in rows && c in t.caps;
      var k := Key(o, c.actor, c.bundle.role, c.operation, c.resourceType, c.resourceId);
      assert Holds(c, k);
      assert HasActive(t.caps, k);
      assert Tolerated(t, k);
    }
  }

  /** The parts of sanity that follow from the store only growing. */
  lemma GrownSane(s: State, t: State)
    requires Sane(s) && Grows(s, t) && MembersSane(t)
    requires forall i :: |s.caps| <= i < |t.caps| ==> CapSane(t, t.caps[i], i)
    requires forall p :: |s.projects| <= p < |t.projects| ==> t.projects[p].org < |t.orgs|
    requires forall i :: |s.invitations| <= i < |t.invitations| ==> t.invitations[i].org < |t.orgs| && t.invitations[i].role != RoleOwner
    requires forall sid :: 0 <= sid < |t.shares| ==>
      (sid < |s.shares| && t.shares[sid].consumedCapability == s.shares[sid].consumedCapability) || ShareSane(t, t.shares[sid], sid)
    ensures RowsSane(t) && CapsSane(t)
  {
    hide CapSane, ShareSane, Evolves;
    RowsStaySane(s, t);
  }

  /** Revoked rows aside, activity is inherited: no row of a dead organisation comes back. */
  lemma GrownDeadOrgs(s: State, t: State)
    requires Sane(s) && Grows(s, t)
    requires forall i :: |s.caps| <= i < |t.caps| && TagOrg(t.caps[i]).Some? ==> LiveOrg(t.orgs, TagOrg(t.caps[i]).value)
    requires forall i :: 0 <= i < |s.caps| && Active(t.caps[i]) && TagOrg(t.caps[i]).Some? ==>
      LiveOrg(s.orgs, TagOrg(t.caps[i]).value) ==> LiveOrg(t.orgs, TagOrg(t.caps[i]).value)
    ensures DeadOrgsRevoked(t)
  {
    forall c | c in t.caps && Active(c) && TagOrg(c).Some? ensures LiveOrg(t.orgs, TagOrg(c).value) {
      var i :| 0 <= i < |t.caps| && t.caps[i] == c;
      if i < |s.caps| {
        assert Evolves(s.caps[i], t.caps[i]);
        assert s.caps[i] in s.caps;
      }
    }
  }

  lemma MemberAdded(s: State, t: State, m: Member)
    requires MembersSane(s) && t.members == s.members + [m] && |s.orgs| <= |t.orgs| && m.org < |t.orgs|
    requires forall x :: x in s.members ==> !(x.org == m.org && x.actor == m.actor)
    ensures MembersSane(t)
  {
    var n := |s.members|;
    forall i, j | 0 <= i < j < |t.members|
      ensures !(t.members[i].org == t.members[j].org && t.members[i].actor == t.members[j].actor)
    {
      if j == n {
        assert s.members[i] in s.members;
      }
    }
  }

  function FounderRows(o: OrgId, a: ActorId): seq<Capability> {
    BundleRows(Grantee(a, Primary(RoleOwner), a, None, map[MetaOrg := o]), Bundle(Primary(RoleOwner)), o, [], None)
  }

  lemma CreateOrgDelta(s: State, slug: string, a: ActorId)
    requires CreateOrg(s, slug, a).1.Ok?
    ensures var t, o := CreateOrg(s, slug, a).0, |s.orgs|;
      && t.caps == s.caps + FounderRows(o, a) && t.members == s.members + [Member(o, a, RoleOwner)]
      && t.orgs == s.orgs + [Org(slug, None)]
      && t.projects == s.projects && t.invitations == s.invitations && t.shares == s.shares
    ensures forall c :: c in FounderRows(|s.orgs|, a) ==> Plain(c, |s.orgs|)
  {
    hide Bundle, BundleRows, CreateRows;
    var g := Grantee(a, Primary(RoleOwner), a, None, map[MetaOrg := |s.orgs|]);
    BundleRowsPlain(g, Bundle(Primary(RoleOwner)), |s.orgs|, []);
  }

  lemma RefusedOrg(s: State, slug: string, a: ActorId)
    requires CreateOrg(s, slug, a).1.Err?
    ensures CreateOrg(s, slug, a).0 == s
  {
  }

  lemma CreateOrgSane(s: State, slug: string, a: ActorId)
    requires Inv(s)
    ensures Sane(CreateOrg(s, slug, a).0)
  {
    hide CreateOrg, RowsSane, CapsSane, MembersSane, DeadOrgsRevoked, FanOut;
    if CreateOrg(s, slug, a).1.Err? {
      RefusedOrg(s, slug, a);
    } else {
      NewOrgRowsSane(s, slug, a);
      NewOrgIsLive(s, slug, a);
    }
  }

  lemma NewOrgIsLive(s: State, slug: string, a: ActorId)
    requires Inv(s) && CreateOrg(s, slug, a).1.Ok?
    ensures DeadOrgsRevoked(CreateOrg(s, slug, a).0)
  {
    hide CreateOrg, FounderRows, CapSane, RowsSane, MembersSane, FanOut;
    CreationsGrow(s, 0, slug, a);
    CreateOrgDelta(s, slug, a);
    var t := CreateOrg(s, slug, a).0;
    forall i | |s.caps| <= i < |t.caps| ensures TagOrg(t.caps[i]) == Some(|s.orgs|) {
      assert t.caps[i] in FounderRows(|s.orgs|, a);
    }
    GrownDeadOrgs(s, t);
  }

  lemma NewOrgMembersSane(s: State, slug: string, a: ActorId)
    requires MembersSane(s) && CreateOrg(s, slug, a).1.Ok?
    ensures MembersSane(CreateOrg(s, slug, a).0)
  {
    hide CreateOrg, FounderRows, UniqueMembers;
    CreateOrgDelta(s, slug, a);
    MemberAdded(s, CreateOrg(s, slug, a).0, Member(|s.orgs|, a, RoleOwner));
  }

  lemma NewOrgCapsSane(s: State, slug: string, a: ActorId)
    requires Inv(s) && CreateOrg(s, slug, a).1.Ok?
    ensures var t := CreateOrg(s, slug, a).0; forall i :: |s.caps| <= i < |t.caps| ==> CapSane(t, t.caps[i], i)
  {
    hide CreateOrg, FounderRows, CapSane, FanOut, Plain, Sane;
    CreateOrgFanOut(s, slug, a);
    CreateOrgDelta(s, slug, a);
    MintedRowsSane(CreateOrg(s, slug, a).0, |s.orgs|, |s.caps|, FounderRows(|s.orgs|, a));
  }

  lemma NewOrgRowsSane(s: State, slug: string, a: ActorId)
    requires Inv(s) && CreateOrg(s, slug, a).1.Ok?
    ensures var t := CreateOrg(s, slug, a).0; MembersSane(t) && RowsSane(t) && CapsSane(t)
  {
    hide CreateOrg, FounderRows, CapSane, FanOut, Grows, ShareSane, MembersSane, Plain, DeadOrgsRevoked;
    CreationsGrow(s, 0, slug, a);
    CreateOrgDelta(s, slug, a);
    NewOrgMembersSane(s, slug, a);
    NewOrgCapsSane(s, slug, a);
    GrownSane(s, CreateOrg(s, slug, a).0);
  }

  lemma DeleteOrgSane(s: State, o: OrgId, a: ActorId, now: Time)
    requires Inv(s)
    ensures Sane(DeleteOrg(s, o, a, now).0)
  {
    hide Bundle, CapSane, FanOut, Evolves;
    RevocationsGrow(s, o, a, a, now);
    var t := DeleteOrg(s, o, a, now).0;
    if LiveOrg(s.orgs, o) {
      GrownSane(s, t);
      GrownDeadOrgs(s, t);
    }
  }

  function JoinRows(s: State, inv: Invitation, a: ActorId): seq<Capability> {
    BundleRows(Grantee(a, Primary(inv.role), inv.invitedBy, None, map[MetaOrg := inv.org]),
               Bundle(Primary(inv.role)), inv.org, LiveProjects(s.projects, inv.org), None)
  }

  lemma JoinDelta(s: State, token: nat, a: ActorId, now: Time)
    requires token < |s.invitations|
    ensures var t, inv := Join(s, token, a, now), s.invitations[token];
      && t.caps == s.caps + JoinRows(s, inv, a) && t.members == s.members + [Member(inv.org, a, inv.role)]
      && t.orgs == s.orgs && t.projects == s.projects && t.shares == s.shares && |t.invitations| == |s.invitations|
    ensures forall c :: c in JoinRows(s, s.invitations[token], a) ==> Plain(c, s.invitations[token].org)
  {
    hide Bundle, BundleRows;
    var inv := s.invitations[token];
    BundleRowsPlain(Grantee(a, Primary(inv.role), inv.invitedBy, None, map[MetaOrg := inv.org]),
                    Bundle(Primary(inv.role)), inv.org, LiveProjects(s.projects, inv.org));
  }

  lemma JoinSane(s: State, token: nat, a: ActorId, now: Time)
    requires Inv(s) && token < |s.invitations| && LiveOrg(s.orgs, s.invitations[token].org)
    requires FindMember(s.members, s.invitations[token].org, a).None? && s.invitations[token].consumedAt.None?
    ensures Sane(Join(s, token, a, now))
  {
    hide Join, JoinRows, CapSane, FanOut, Evolves, ShareSane, UniqueMembers, Plain;
    JoinFanOut(s, token, a, now);
    JoinGrows(s, token, a, now);
    JoinDelta(s, token, a, now);
    var t, inv := Join(s, token, a, now), s.invitations[token];
    MemberAdded(s, t, Member(inv.org, a, inv.role));
    MintedRowsSane(t, inv.org, |s.caps|, JoinRows(s, inv, a));
    GrownSane(s, t);
    GrownDeadOrgs(s, t);
  }

  lemma ChangeRoleSane(s: State, o: OrgId, target: ActorId, role: Role, a: ActorId, now: Time)
    requires Inv(s) && LiveOrg(s.orgs, o)
    ensures Sane(ChangeRole(s, o, target, role, a, now).0)
  {
    hide Bundle, BundleRows, CapSane, FanOut, Evolves, WithRole, RevokeBundleRows;
    ChangeRoleFanOut(s, o, target, role, a, now);
    ChangeRoleGrows(s, o, target, role, a, now);
    var t := ChangeRole(s, o, target, role, a, now).0;
    var f := FindMember(s.members, o, target);
    if f.Some? && t != s {
      WithRoleMembers(s.members, o, target, role, f.value);
      var ps := LiveProjects(s.projects, o);
      var g := Grantee(target, Primary(role), a, None, map[MetaOrg := o]);
      var rows := BundleRows(g, Bundle(Primary(role)), o, ps, None);
      BundleRowsPlain(g, Bundle(Primary(role)), o, ps);
      RevokeBundleLength(s.caps, target, Primary(f.value), o, now);
      MintedRowsSane(t, o, |s.caps|, rows);
      GrownSane(s, t);
      GrownDeadOrgs(s, t);
    }
  }

  lemma RevokeBundleLength(caps: seq<Capability>, a: ActorId, b: BundleName, o: OrgId, now: Time)
    ensures |RevokeBundleRows(caps, a, b, o, now)| == |caps|
  {
  }

  lemma RemoveMemberSane(s: State, o: OrgId, target: ActorId, a: ActorId, now: Time)
    requires Inv(s)
    ensures Sane(RemoveMember(s, o, target, a, now).0)
  {
    hide Bundle, CapSane, FanOut, Evolves;
    RevocationsGrow(s, o, target, a, now);
    var r := RemoveMember(s, o, target, a, now);
    if r.1.Ok? {
      GrownSane(s, r.0);
      GrownDeadOrgs(s, r.0);
    }
  }

  lemma CreateProjectSane(s: State, o: OrgId, slug: string, a: ActorId)
    requires Inv(s) && LiveOrg(s.orgs, o)
    ensures Sane(CreateProject(s, o, slug, a).0)
  {
    hide Bundle, ProjectRows, CapSane, FanOut, Evolves;
    CreateProjectFanOut(s, o, slug, a);
    CreationsGrow(s, o, slug, a);
    var r := CreateProject(s, o, slug, a);
    if r.1.Ok? {
      var ms := MembersOf(s.members, o);
      ProjectRowsPlain(ms, o, |s.projects|, a);
      MintedRowsSane(r.0, o, |s.caps|, ProjectRows(ms, o, |s.projects|, a));
      GrownSane(s, r.0);
      GrownDeadOrgs(s, r.0);
    }
  }

  /** Invitations, shares and project deletions: no capability changes. */
  lemma DirectoryCallsSane(s: State, o: OrgId, p: ProjectId, who: Option<ActorId>, role: Role, ttl: Option<Time>, a: ActorId, now: Time)
    requires Inv(s)
    ensures LiveOrg(s.orgs, o) ==> Sane(Invite(s, o, who, role, a, now).0)
    ensures Sane(DeleteProject(s, p, a, now).0)
    ensures LiveOrg(s.orgs, o) && ProjectIn(s.projects, p, o) ==> Sane(ShareProject(s, o, p, a, ttl, now).0)
  {
    hide CapSane, FanOut, Evolves;
    DirectoryCallsGrow(s, o, p, who, role, ttl, a, now);
    if LiveOrg(s.orgs, o) {
      GrownSane(s, Invite(s, o, who, role, a, now).0);
      if ProjectIn(s.projects, p, o) {
        GrownSane(s, ShareProject(s, o, p, a, ttl, now).0);
      }
    }
    GrownSane(s, DeleteProject(s, p, a, now).0);
  }

  lemma AcceptShareSane(s: State, token: ShareId, a: ActorId, now: Time)
    requires Inv(s)
    ensures Sane(AcceptShare(s, token, a, now).0)
  {
    hide Bundle, FanOut, Evolves;
    AcceptShareGrows(s, token, a, now);
    var r := AcceptShare(s, token, a, now);
    if r.1.Ok? {
      assert ShareSane(s, s.shares[token], token);
      GrownSane(s, r.0);
      GrownDeadOrgs(s, r.0);
    }
  }

  lemma RevokeShareSane(s: State, sid: ShareId, revokedBy: ActorId, now: Time)
    requires Inv(s)
    ensures Sane(RevokeShare(s, sid, revokedBy, now).0)
  {
    hide Bundle, FanOut, Evolves, CapSane;
    RevokeShareGrows(s, sid, revokedBy, now);
    var t := RevokeShare(s, sid, revokedBy, now).0;
    GrownSane(s, t);
    GrownDeadOrgs(s, t);
  }

  // ---- one step, and whole runs ----

  lemma AcceptInviteInv(s: State, token: nat, a: ActorId, now: Time)
    requires Inv(s)
    ensures Inv(AcceptInvite(s, token, a, now).0)
  {
    hide Join, Sane, FanOut;
    if AcceptInvite(s, token, a, now).0 != s {
      JoinFanOut(s, token, a, now);
      JoinSane(s, token, a, now);
    }
  }

  lemma DirectoryCallsFanOut(s: State, o: OrgId, p: ProjectId, who: Option<ActorId>, role: Role, ttl: Option<Time>, a: ActorId, now: Time)
    requires Inv(s)
    ensures FanOut(Invite(s, o, who, role, a, now).0)
    ensures FanOut(ShareProject(s, o, p, a, ttl, now).0)
  {
    hide Granted, Holds;
    DirectoryKeepsFanOut(s, Invite(s, o, who, role, a, now).0);
    DirectoryKeepsFanOut(s, ShareProject(s, o, p, a, ttl, now).0);
  }

  lemma ServeKeepsInv(s: State, call: Call)
    requires Inv(s) && Gated(s, call)
    ensures Inv(Serve(s, call))
  {
    hide CreateOrg, DeleteOrg, Invite, AcceptInvite, ChangeRole, RemoveMember, CreateProject, DeleteProject,
      ShareProject, AcceptShare, RevokeShare, Sane, FanOut;
    match call
    case Refused =>
    case CallCreateOrg(slug, a) =>
      CreateOrgFanOut(s, slug, a);
      CreateOrgSane(s, slug, a);
    case CallDeleteOrg(o, a, now) =>
      DeleteOrgFanOut(s, o, a, now);
      DeleteOrgSane(s, o, a, now);
    case CallInvite(o, who, role, a, now) =>
      DirectoryCallsFanOut(s, o, 0, who, role, None, a, now);
      DirectoryCallsSane(s, o, 0, who, role, None, a, now);
    case CallAcceptInvite(token, a, now) => AcceptInviteInv(s, token, a, now);
    case CallChangeRole(o, target, role, a, now) =>
      ChangeRoleFanOut(s, o, target, role, a, now);
      ChangeRoleSane(s, o, target, role, a, now);
    case CallRemoveMember(o, target, a, now) =>
      RemoveMemberFanOut(s, o, target, a, now);
      RemoveMemberSane(s, o, target, a, now);
    case CallCreateProject(o, slug, a) =>
      CreateProjectFanOut(s, o, slug, a);
      CreateProjectSane(s, o, slug, a);
    case CallDeleteProject(p, a, now) =>
      DeleteProjectFanOut(s, p, a, now);
      DirectoryCallsSane(s, 0, p, None, RoleViewer, None, a, now);
    case CallShareProject(o, p, ttl, a, now) =>
      DirectoryCallsFanOut(s, o, p, None, RoleViewer, ttl, a, now);
      DirectoryCallsSane(s, o, p, None, RoleViewer, ttl, a, now);
    case CallAcceptShare(token, a, now) =>
      AcceptShareFanOut(s, token, a, now);
      AcceptShareSane(s, token, a, now);
    case CallRevokeShare(sid, a, now) =>
      RevokeShareFanOut(s, sid, a, now);
      RevokeShareSane(s, sid, a, now);
  }

  lemma NextKeepsInv(s: State, step: Step)
    requires Inv(s)
    ensures Inv(Next(s, step))
  {
    hide Serve, Route, Inv, Gated;
    RoutesAreGated(s, step);
    ServeKeepsInv(s, Route(s, step));
  }

  /** In every reachable state the rows are well-formed and the fan-out is exact. */
  lemma {:induction false} RunsKeepInv(states: seq<State>, steps: seq<Step>, i: nat)
    requires Trace(states, steps) && states[0] == EMPTY && i < |states|
    ensures Inv(states[i])
  {
    hide Next;
    if i > 0 {
      RunsKeepInv(states, steps, i - 1);
      assert states[i] == Next(states[i - 1], steps[i - 1]);
      NextKeepsInv(states[i - 1], steps[i - 1]);
    }
  }
}
