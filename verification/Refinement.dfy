/** The capability table refines the access specification. */
module Refinement {
  import opened Prelude
  import opened Bundles
  import opened Tables
  import opened Authz
  import opened Services
  import opened Routes
  import opened Minting
  import opened Invariants
  import opened FanOutSteps
  import opened SaneSteps
  import opened AccessSpec

  predicate GuestRowFor(c: Capability, sid: ShareId, g: Grant) {
    && Active(c) && c.bundle == GuestViewer && TagShare(c) == Some(sid)
    && c.actor == g.actor && TagOrg(c) == Some(g.org) && c.resourceId == Some(g.project) && c.expiresAt == Some(g.expiresAt)
  }

  ghost predicate SameGrants(s: State, x: Access) {
    && (forall sid :: sid in x.grants ==> exists c :: c in s.caps && GuestRowFor(c, sid, x.grants[sid]))
    && (forall c :: c in s.caps && Active(c) && c.bundle == GuestViewer ==>
          TagShare(c).Some? && TagShare(c).value in x.grants && GuestRowFor(c, TagShare(c).value, x.grants[TagShare(c).value]))
  }

  ghost predicate SameDirectory(s: State, x: Access) {
    && (forall o: OrgId :: o in x.live <==> LiveOrg(s.orgs, o))
    && (forall o: OrgId, a: ActorId, r :: Member(o, a, r) in s.members <==> (o, a) in x.roles && x.roles[(o, a)] == r)
    && (forall p: ProjectId :: p in x.projects <==> LiveProject(s.projects, p))
    && (forall p: ProjectId :: p in x.projects ==> x.projects[p] == s.projects[p].org)
  }

  ghost predicate Simulates(s: State, x: Access) {
    SameDirectory(s, x) && SameGrants(s, x)
  }

  // ---- related states agree on every check ----

  lemma CanProjectAllowed(s: State, x: Access, a: ActorId, op: Operation, p: ProjectId, now: Time)
    requires Inv(s) && Simulates(s, x) && LiveProject(s.projects, p) && Can(s.caps, a, op, RtProject, Some(p), now)
    ensures MayProject(x, a, op, p, now)
  {
    hide Inv, Simulates, LoadActive, MayProject, Matches;
    var c :| c in LoadActive(s.caps, a) && Matches(c, op, RtProject, Some(p), now);
    var i: nat :| i < |s.caps| && s.caps[i] == c;
    if c.bundle.Primary? {
      PrimaryRowAllowed(s, x, i, op, p, now);
    } else {
      GuestRowAllowed(s, x, i, op, p, now);
    }
  }

  lemma PrimaryRowAllowed(s: State, x: Access, i: CapId, op: Operation, p: ProjectId, now: Time)
    requires Inv(s) && Simulates(s, x) && LiveProject(s.projects, p)
    requires i < |s.caps| && Active(s.caps[i]) && s.caps[i].bundle.Primary? && Matches(s.caps[i], op, RtProject, Some(p), now)
    ensures MayProject(x, s.caps[i].actor, op, p, now)
  {
    hide Bundle, Granted, SameGrants, MembersSane, RowsSane, DeadOrgsRevoked, Complete, Unique;
    var c := s.caps[i];
    assert CapSane(s, c, i);
    var k := Key(s.projects[p].org, c.actor, c.bundle.role, op, RtProject, Some(p));
    assert Holds(c, k) && HasActive(s.caps, k) && Tolerated(s, k);
  }

  lemma GuestRowAllowed(s: State, x: Access, i: CapId, op: Operation, p: ProjectId, now: Time)
    requires Inv(s) && Simulates(s, x) && LiveProject(s.projects, p)
    requires i < |s.caps| && Active(s.caps[i]) && s.caps[i].bundle == GuestViewer && Matches(s.caps[i], op, RtProject, Some(p), now)
    ensures MayProject(x, s.caps[i].actor, op, p, now)
  {
    hide Granted, FanOut, MembersSane, RowsSane;
    var c := s.caps[i];
    assert CapSane(s, c, i) && c in s.caps;
    assert TagShare(c).value in x.grants && GuestRowFor(c, TagShare(c).value, x.grants[TagShare(c).value]);
  }

  lemma AllowedCanProject(s: State, x: Access, a: ActorId, op: Operation, p: ProjectId, now: Time)
    requires Inv(s) && Simulates(s, x) && MayProject(x, a, op, p, now)
    ensures Can(s.caps, a, op, RtProject, Some(p), now)
  {
    hide Bundle, Granted, MembersSane, RowsSane, CapsSane, DeadOrgsRevoked, FanOut, SameGrants, SameDirectory, Can;
    var o := x.projects[p];
    if (o, a) in x.roles && Granted(x.roles[(o, a)], op, RtProject) {
      RoleCanProject(s, x, a, op, p, now);
    } else {
      var sid :| sid in x.grants && x.grants[sid].actor == a && x.grants[sid].project == p && now < x.grants[sid].expiresAt;
      GrantCanRead(s, x, sid, now);
    }
  }

  lemma RoleCanProject(s: State, x: Access, a: ActorId, op: Operation, p: ProjectId, now: Time)
    requires Inv(s) && SameDirectory(s, x) && p in x.projects && x.projects[p] in x.live
    requires (x.projects[p], a) in x.roles && Granted(x.roles[(x.projects[p], a)], op, RtProject)
    ensures Can(s.caps, a, op, RtProject, Some(p), now)
  {
    hide Bundle, Granted, Sane, FanOut, Can;
    var o := x.projects[p];
    var k := Key(o, a, x.roles[(o, a)], op, RtProject, Some(p));
    assert Wanted(s, k);
    WantedIsLoaded(s, k, now);
  }

  lemma GrantCanRead(s: State, x: Access, sid: ShareId, now: Time)
    requires CapsSane(s) && SameGrants(s, x) && sid in x.grants && now < x.grants[sid].expiresAt
    ensures Can(s.caps, x.grants[sid].actor, OpRead, RtProject, Some(x.grants[sid].project), now)
  {
    hide LoadActive, Matches, Loadable, CapSane, GuestRowFor;
    var g := x.grants[sid];
    var c :| c in s.caps && GuestRowFor(c, sid, g);
    var i: nat :| i < |s.caps| && s.caps[i] == c;
    assert CapSane(s, c, i);
    GuestRowMatches(s, c, i, sid, g, now);
    assert c in LoadActive(s.caps, g.actor);
  }

  lemma GuestRowMatches(s: State, c: Capability, i: CapId, sid: ShareId, g: Grant, now: Time)
    requires CapSane(s, c, i) && GuestRowFor(c, sid, g) && now < g.expiresAt
    ensures Loadable(c, g.actor) && Matches(c, OpRead, RtProject, Some(g.project), now)
  {
  }

  lemma CanOrganisationAgrees(s: State, x: Access, a: ActorId, op: Operation, o: OrgId, now: Time)
    requires Inv(s) && Simulates(s, x)
    ensures Can(s.caps, a, op, RtOrganisation, Some(o), now) <==> MayOrganisation(x, a, op, o)
  {
    hide Bundle, Granted, LoadActive;
    if Can(s.caps, a, op, RtOrganisation, Some(o), now) {
      var c :| c in LoadActive(s.caps, a) && Matches(c, op, RtOrganisation, Some(o), now);
      var i :| 0 <= i < |s.caps| && s.caps[i] == c;
      assert CapSane(s, c, i);
      var k := Key(o, a, c.bundle.role, op, RtOrganisation, Some(o));
      assert Holds(c, k) && HasActive(s.caps, k) && Tolerated(s, k);
    }
    if MayOrganisation(x, a, op, o) {
      var k := Key(o, a, x.roles[(o, a)], op, RtOrganisation, Some(o));
      assert Wanted(s, k);
      WantedIsLoaded(s, k, now);
    }
  }

  lemma WantedIsLoaded(s: State, k: Key, now: Time)
    requires Inv(s) && Wanted(s, k) && k.resource.Some?
    ensures Can(s.caps, k.actor, k.operation, k.resourceType, k.resource, now)
  {
    hide Granted, LoadActive;
    assert HasActive(s.caps, k);
    var c :| c in s.caps && Holds(c, k);
    var i :| 0 <= i < |s.caps| && s.caps[i] == c;
    assert CapSane(s, c, i);
    assert c in LoadActive(s.caps, k.actor) && Matches(c, k.operation, k.resourceType, k.resource, now);
  }

  // ---- the directory half of the simulation ----

  lemma OrgCallsDirectory(s: State, x: Access, slug: string, o: OrgId, a: ActorId, now: Time)
    requires MembersSane(s) && SameDirectory(s, x)
    ensures SameDirectory(CreateOrg(s, slug, a).0, After(x, EventOf(s, CallCreateOrg(slug, a))))
    ensures SameDirectory(DeleteOrg(s, o, a, now).0, After(x, EventOf(s, CallDeleteOrg(o, a, now))))
  {
    hide Bundle, BundleRows, RevokeTagged, CreateRows, UniqueMembers;
  }

  lemma AcceptInviteDirectory(s: State, x: Access, token: nat, a: ActorId, now: Time)
    requires MembersSane(s) && SameDirectory(s, x)
    ensures SameDirectory(AcceptInvite(s, token, a, now).0, After(x, EventOf(s, CallAcceptInvite(token, a, now))))
  {
    hide Bundle, BundleRows, CreateRows, UniqueMembers, LiveProjects;
    if Redeemable(s, token, now) {
      var o := s.invitations[token].org;
      var f := FindMember(s.members, o, a);
      if (o, a) in x.roles {
        assert Member(o, a, x.roles[(o, a)]) in s.members;
      }
    }
  }

  lemma ChangeRoleDirectory(s: State, x: Access, o: OrgId, target: ActorId, role: Role, a: ActorId, now: Time)
    requires MembersSane(s) && SameDirectory(s, x)
    ensures SameDirectory(ChangeRole(s, o, target, role, a, now).0, After(x, EventOf(s, CallChangeRole(o, target, role, a, now))))
  {
    hide Bundle, BundleRows, CreateRows, RevokeBundleRows, RevokeRows, BundleIds, LiveProjects, WithRole, UniqueMembers,
      FindMember, CountOwners;
    var f := FindMember(s.members, o, target);
    if f.Some? {
      WithRoleMembers(s.members, o, target, role, f.value);
      MemberRoleUnique(s, o, target, f.value);
    }
  }

  lemma RemoveMemberDirectory(s: State, x: Access, o: OrgId, target: ActorId, a: ActorId, now: Time)
    requires MembersSane(s) && SameDirectory(s, x)
    ensures SameDirectory(RemoveMember(s, o, target, a, now).0, After(x, EventOf(s, CallRemoveMember(o, target, a, now))))
  {
    hide RevokeTagged, UniqueMembers;
  }

  lemma CreateProjectDirectory(s: State, x: Access, o: OrgId, slug: string, a: ActorId)
    requires SameDirectory(s, x)
    ensures SameDirectory(CreateProject(s, o, slug, a).0, After(x, EventOf(s, CallCreateProject(o, slug, a))))
  {
    hide Bundle, ProjectRows, CreateRows, MembersOf;
  }

  lemma DeleteProjectDirectory(s: State, x: Access, p: ProjectId, a: ActorId, now: Time)
    requires SameDirectory(s, x)
    ensures SameDirectory(DeleteProject(s, p, a, now).0, After(x, EventOf(s, CallDeleteProject(p, a, now))))
  {
  }

  /** Grants are no part of the directory. */
  lemma DirectoryIgnoresGrants(s: State, t: State, x: Access, y: Access)
    requires SameDirectory(s, x) && t.orgs == s.orgs && t.members == s.members && t.projects == s.projects
    requires y == x.(grants := y.grants)
    ensures SameDirectory(t, y)
  {
  }

  lemma ShareCallsDirectory(s: State, x: Access, sid: ShareId, a: ActorId, now: Time)
    requires SameDirectory(s, x)
    ensures SameDirectory(AcceptShare(s, sid, a, now).0, After(x, EventOf(s, CallAcceptShare(sid, a, now))))
    ensures SameDirectory(RevokeShare(s, sid, a, now).0, After(x, EventOf(s, CallRevokeShare(sid, a, now))))
  {
    hide CreateRows, RevokeOne, GuestRow, FindMember, SameDirectory;
    DirectoryIgnoresGrants(s, AcceptShare(s, sid, a, now).0, x, After(x, EventOf(s, CallAcceptShare(sid, a, now))));
    DirectoryIgnoresGrants(s, RevokeShare(s, sid, a, now).0, x, After(x, EventOf(s, CallRevokeShare(sid, a, now))));
  }

  lemma ServeSimulatesDirectory(s: State, x: Access, call: Call)
    requires MembersSane(s) && SameDirectory(s, x)
    ensures SameDirectory(Serve(s, call), After(x, EventOf(s, call)))
  {
    hide CreateOrg, DeleteOrg, AcceptInvite, ChangeRole, RemoveMember, CreateProject, DeleteProject,
      AcceptShare, RevokeShare;
    match call
    case Refused =>
    case CallInvite(_, _, _, _, _) =>
    case CallShareProject(_, _, _, _, _) =>
    case CallCreateOrg(slug, a) => OrgCallsDirectory(s, x, slug, 0, a, 0);
    case CallDeleteOrg(o, a, now) => OrgCallsDirectory(s, x, "", o, a, now);
    case CallAcceptInvite(token, a, now) => AcceptInviteDirectory(s, x, token, a, now);
    case CallChangeRole(o, target, role, a, now) => ChangeRoleDirectory(s, x, o, target, role, a, now);
    case CallRemoveMember(o, target, a, now) => RemoveMemberDirectory(s, x, o, target, a, now);
    case CallCreateProject(o, slug, a) => CreateProjectDirectory(s, x, o, slug, a);
    case CallDeleteProject(p, a, now) => DeleteProjectDirectory(s, x, p, a, now);
    case CallAcceptShare(token, a, now) => ShareCallsDirectory(s, x, token, a, now);
    case CallRevokeShare(sid, a, now) => ShareCallsDirectory(s, x, sid, a, now);
  }

  // ---- the grants half ----

  predicate SameGuestRow(c: Capability, d: Capability) {
    d == c || (c.bundle.Primary? && d.bundle.Primary?)
  }

  lemma GuestRowIsGuest(c: Capability, sid: ShareId, g: Grant)
    requires GuestRowFor(c, sid, g)
    ensures c.bundle == GuestViewer
  {
  }

  /** Primary rows coming and going leave the grants alone. */
  lemma PrimaryChurnKeepsGrants(s: State, t: State, x: Access, rows: seq<Capability>)
    requires SameGrants(s, x) && |s.caps| <= |t.caps| && t.caps[|s.caps|..] == rows
    requires forall i :: 0 <= i < |s.caps| ==> SameGuestRow(s.caps[i], t.caps[i])
    requires forall c :: c in rows ==> c.bundle.Primary?
    ensures SameGrants(t, x)
  {
    hide GuestRowFor;
    forall sid | sid in x.grants ensures exists c :: c in t.caps && GuestRowFor(c, sid, x.grants[sid]) {
      var c :| c in s.caps && GuestRowFor(c, sid, x.grants[sid]);
      var i :| 0 <= i < |s.caps| && s.caps[i] == c;
      GuestRowIsGuest(c, sid, x.grants[sid]);
      assert t.caps[i] == c;
    }
    forall j | |s.caps| <= j < |t.caps| ensures t.caps[j].bundle.Primary? {
      assert rows[j - |s.caps|] in rows;
    }
    forall c | c in t.caps && Active(c) && c.bundle == GuestViewer ensures c in s.caps {
      var i :| 0 <= i < |t.caps| && t.caps[i] == c;
      assert s.caps[i] == c;
    }
  }

  /** Guest rows revoked together with their grants. */
  lemma RevokedWithGrants(s: State, t: State, x: Access, y: Access)
    requires SameGrants(s, x) && |t.caps| == |s.caps|
    requires forall sid :: sid in y.grants ==> sid in x.grants && y.grants[sid] == x.grants[sid]
    requires forall i :: 0 <= i < |s.caps| ==> t.caps[i] == s.caps[i] || !Active(t.caps[i])
    requires forall i, sid :: 0 <= i < |s.caps| && sid in x.grants && GuestRowFor(s.caps[i], sid, x.grants[sid]) ==>
      if sid in y.grants then t.caps[i] == s.caps[i] else !Active(t.caps[i])
    ensures SameGrants(t, y)
  {
    hide GuestRowFor;
    forall sid | sid in y.grants ensures exists c :: c in t.caps && GuestRowFor(c, sid, y.grants[sid]) {
      var c :| c in s.caps && GuestRowFor(c, sid, x.grants[sid]);
      var i :| 0 <= i < |s.caps| && s.caps[i] == c;
      assert t.caps[i] == c;
    }
    forall c | c in t.caps && Active(c) && c.bundle == GuestViewer
      ensures TagShare(c).Some? && TagShare(c).value in y.grants && GuestRowFor(c, TagShare(c).value, y.grants[TagShare(c).value])
    {
      var i :| 0 <= i < |t.caps| && t.caps[i] == c;
      assert s.caps[i] == c && c in s.caps;
      assert GuestRowFor(s.caps[i], TagShare(c).value, x.grants[TagShare(c).value]);
    }
  }

  lemma CreateOrgGrants(s: State, x: Access, slug: string, a: ActorId)
    requires SameGrants(s, x)
    ensures SameGrants(CreateOrg(s, slug, a).0, x)
  {
    hide Bundle, BundleRows, CreateRows, SameGrants;
    var o, t := |s.orgs|, CreateOrg(s, slug, a).0;
    BundleRowsPlain(Grantee(a, Primary(RoleOwner), a, None, map[MetaOrg := o]), Bundle(Primary(RoleOwner)), o, []);
    PrimaryChurnKeepsGrants(s, t, x, t.caps[|s.caps|..]);
  }

  lemma AcceptInviteGrants(s: State, x: Access, token: nat, a: ActorId, now: Time)
    requires SameGrants(s, x)
    ensures SameGrants(AcceptInvite(s, token, a, now).0, x)
  {
    hide Join, JoinRows, SameGrants;
    if Redeemable(s, token, now) {
      JoinDelta(s, token, a, now);
      PrimaryChurnKeepsGrants(s, Join(s, token, a, now), x, JoinRows(s, s.invitations[token], a));
    }
  }

  lemma ChangeRoleGrants(s: State, x: Access, o: OrgId, target: ActorId, role: Role, a: ActorId, now: Time)
    requires SameGrants(s, x)
    ensures SameGrants(ChangeRole(s, o, target, role, a, now).0, x)
  {
    hide Bundle, BundleRows, CreateRows, RevokeRows, WithRole, SameGrants;
    var ps := LiveProjects(s.projects, o);
    BundleRowsPlain(Grantee(target, Primary(role), a, None, map[MetaOrg := o]), Bundle(Primary(role)), o, ps);
    var t := ChangeRole(s, o, target, role, a, now).0;
    PrimaryChurnKeepsGrants(s, t, x, t.caps[|s.caps|..]);
  }

  lemma CreateProjectGrants(s: State, x: Access, o: OrgId, slug: string, a: ActorId)
    requires SameGrants(s, x)
    ensures SameGrants(CreateProject(s, o, slug, a).0, x)
  {
    hide Bundle, ProjectRows, CreateRows, SameGrants;
    ProjectRowsPlain(MembersOf(s.members, o), o, |s.projects|, a);
    var t := CreateProject(s, o, slug, a).0;
    PrimaryChurnKeepsGrants(s, t, x, t.caps[|s.caps|..]);
  }

  lemma RevokeTaggedGrants(s: State, t: State, x: Access, y: Access, o: OrgId, who: Option<ActorId>, now: Time, a: ActorId)
    requires SameGrants(s, x) && t.caps == RevokeTagged(s.caps, o, who, now, a)
    requires y.grants == map sid | sid in x.grants && !(x.grants[sid].org == o && (who.Some? ==> x.grants[sid].actor == who.value)) :: x.grants[sid]
    ensures SameGrants(t, y)
  {
    RevokedWithGrants(s, t, x, y);
  }

  lemma DeleteOrgGrants(s: State, x: Access, o: OrgId, a: ActorId, now: Time)
    requires SameGrants(s, x)
    ensures SameGrants(DeleteOrg(s, o, a, now).0, After(x, EventOf(s, CallDeleteOrg(o, a, now))))
  {
    hide SameGrants, RevokeTagged;
    if LiveOrg(s.orgs, o) {
      RevokeTaggedGrants(s, DeleteOrg(s, o, a, now).0, x, After(x, OrgDeleted(o)), o, None, now, a);
    }
  }

  lemma RemoveMemberGrants(s: State, x: Access, o: OrgId, target: ActorId, a: ActorId, now: Time)
    requires SameGrants(s, x)
    ensures SameGrants(RemoveMember(s, o, target, a, now).0, After(x, EventOf(s, CallRemoveMember(o, target, a, now))))
  {
    hide SameGrants, RevokeTagged;
    var r := RemoveMember(s, o, target, a, now);
    if r.1.Ok? {
      RevokeTaggedGrants(s, r.0, x, After(x, Left(o, target)), o, Some(target), now, a);
    }
  }

  lemma AcceptShareGrants(s: State, x: Access, token: ShareId, a: ActorId, now: Time)
    requires Sane(s) && Simulates(s, x)
    ensures SameGrants(AcceptShare(s, token, a, now).0, After(x, EventOf(s, CallAcceptShare(token, a, now))))
  {
    hide CreateRows, MembersSane, DeadOrgsRevoked, RowsSane, CapSane, SameDirectory, GuestRowFor, GuestRow;
    var r := AcceptShare(s, token, a, now);
    if r.1.Ok? {
      var sh := s.shares[token];
      var g := Grant(a, sh.org, sh.project, sh.expiresAt);
      var f := FindMember(s.members, sh.org, a);
      if f.Some? {
        RoleOfRow(s, x, sh.org, a, f.value);
      } else {
        NoRoleWithoutRow(s, x, sh.org, a);
        ShareUnspent(s, token);
        GuestRowIsFor(sh, token, a);
        GrantAdded(s, r.0, x, token, g, GuestRow(sh, token, a));
      }
    }
  }

  lemma GuestRowIsFor(sh: Share, sid: ShareId, a: ActorId)
    ensures GuestRowFor(GuestRow(sh, sid, a), sid, Grant(a, sh.org, sh.project, sh.expiresAt))
  {
  }

  lemma RoleOfRow(s: State, x: Access, o: OrgId, a: ActorId, r: Role)
    requires SameDirectory(s, x) && Member(o, a, r) in s.members
    ensures (o, a) in x.roles && x.roles[(o, a)] == r
  {
  }

  lemma NoRoleWithoutRow(s: State, x: Access, o: OrgId, a: ActorId)
    requires SameDirectory(s, x) && FindMember(s.members, o, a).None?
    ensures (o, a) !in x.roles
  {
    RolesHaveRows(s, x, o, a);
  }

  lemma RolesHaveRows(s: State, x: Access, o: OrgId, a: ActorId)
    requires SameDirectory(s, x)
    ensures (o, a) in x.roles ==> Member(o, a, x.roles[(o, a)]) in s.members
  {
  }

  /** A share that was never consumed has no row. */
  lemma ShareUnspent(s: State, sid: ShareId)
    requires CapsSane(s) && sid < |s.shares| && s.shares[sid].consumedAt.None?
    ensures forall c :: c in s.caps && c.bundle == GuestViewer ==> TagShare(c).Some? && TagShare(c) != Some(sid)
  {
    forall c | c in s.caps && c.bundle == GuestViewer ensures TagShare(c).Some? && TagShare(c) != Some(sid) {
      var i :| 0 <= i < |s.caps| && s.caps[i] == c;
      assert CapSane(s, c, i);
    }
  }

  lemma GrantAdded(s: State, t: State, x: Access, sid: ShareId, g: Grant, row: Capability)
    requires SameGrants(s, x) && t.caps == s.caps + [row] && GuestRowFor(row, sid, g)
    requires forall c :: c in s.caps && c.bundle == GuestViewer ==> TagShare(c) != Some(sid)
    ensures SameGrants(t, x.(grants := x.grants[sid := g]))
  {
    var y := x.(grants := x.grants[sid := g]);
    forall k | k in y.grants ensures exists c :: c in t.caps && GuestRowFor(c, k, y.grants[k]) {
      if k == sid {
        assert t.caps[|s.caps|] == row;
      } else {
        var c :| c in s.caps && GuestRowFor(c, k, x.grants[k]);
        assert c in t.caps;
      }
    }
  }

  lemma RevokeShareGrants(s: State, x: Access, sid: ShareId, a: ActorId, now: Time)
    requires Sane(s) && SameGrants(s, x)
    ensures SameGrants(RevokeShare(s, sid, a, now).0, After(x, EventOf(s, CallRevokeShare(sid, a, now))))
  {
    hide MembersSane, DeadOrgsRevoked, RowsSane, CapsSane, SameGrants, RevokeOne;
    if sid < |s.shares| {
      ShareRowsRevoked(s, sid, a, now);
      DropsGrant(s, RevokeShare(s, sid, a, now).0, x, sid);
    }
  }

  predicate ShareRowsGone(s: State, t: State, sid: ShareId) {
    && |t.caps| == |s.caps|
    && forall i :: 0 <= i < |s.caps| ==>
      if s.caps[i].bundle == GuestViewer && TagShare(s.caps[i]) == Some(sid) then !Active(t.caps[i]) else t.caps[i] == s.caps[i]
  }

  lemma DropsGrant(s: State, t: State, x: Access, sid: ShareId)
    requires SameGrants(s, x) && ShareRowsGone(s, t, sid)
    ensures SameGrants(t, x.(grants := x.grants - {sid}))
  {
    hide SameGrants;
    RevokedWithGrants(s, t, x, x.(grants := x.grants - {sid}));
  }

  /** After a revoke no active row stems from the share, and no other active row is touched. */
  lemma ShareRowsRevoked(s: State, sid: ShareId, a: ActorId, now: Time)
    requires CapsSane(s) && RowsSane(s) && sid < |s.shares|
    ensures ShareRowsGone(s, RevokeShare(s, sid, a, now).0, sid)
  {
    var t := RevokeShare(s, sid, a, now).0;
    assert ShareSane(s, s.shares[sid], sid);
    forall i | 0 <= i < |s.caps|
      ensures if s.caps[i].bundle == GuestViewer && TagShare(s.caps[i]) == Some(sid) then !Active(t.caps[i]) else t.caps[i] == s.caps[i]
    {
      assert CapSane(s, s.caps[i], i);
    }
  }

  lemma ServeSimulatesGrants(s: State, x: Access, call: Call)
    requires Sane(s) && Simulates(s, x)
    ensures SameGrants(Serve(s, call), After(x, EventOf(s, call)))
  {
    hide CreateOrg, DeleteOrg, AcceptInvite, ChangeRole, RemoveMember, CreateProject, DeleteProject,
      AcceptShare, RevokeShare, Sane, SameDirectory, GuestRowFor;
    match call
    case Refused =>
    case CallInvite(_, _, _, _, _) =>
    case CallShareProject(_, _, _, _, _) =>
    case CallCreateOrg(slug, a) => CreateOrgGrants(s, x, slug, a);
    case CallDeleteOrg(o, a, now) => DeleteOrgGrants(s, x, o, a, now);
    case CallAcceptInvite(token, a, now) => AcceptInviteGrants(s, x, token, a, now);
    case CallChangeRole(o, target, role, a, now) => ChangeRoleGrants(s, x, o, target, role, a, now);
    case CallRemoveMember(o, target, a, now) => RemoveMemberGrants(s, x, o, target, a, now);
    case CallCreateProject(o, slug, a) => CreateProjectGrants(s, x, o, slug, a);
    case CallDeleteProject(p, a, now) => DeleteProjectKeepsCaps(s, p, a, now);
    case CallAcceptShare(token, a, now) => AcceptShareGrants(s, x, token, a, now);
    case CallRevokeShare(sid, a, now) => RevokeShareGrants(s, x, sid, a, now);
  }

  lemma DeleteProjectKeepsCaps(s: State, p: ProjectId, a: ActorId, now: Time)
    ensures DeleteProject(s, p, a, now).0.caps == s.caps
  {
  }

  // ---- whole runs ----

  lemma EmptySimulates()
    ensures Simulates(EMPTY, NOBODY)
  {
  }

  lemma {:induction false} RunsSimulate(states: seq<State>, steps: seq<Step>, accesses: seq<Access>, i: nat)
    requires Trace(states, steps) && states[0] == EMPTY
    requires Shadows(accesses, states, steps) && accesses[0] == NOBODY && i < |states|
    ensures Inv(states[i]) && Simulates(states[i], accesses[i])
  {
    hide Next, Inv, Simulates, After, EventOf, Route;
    RunsKeepInv(states, steps, i);
    if i == 0 {
      EmptySimulates();
    } else {
      var s, x, call := states[i - 1], accesses[i - 1], Route(states[i - 1], steps[i - 1]);
      RunsSimulate(states, steps, accesses, i - 1);
      assert states[i] == Next(s, steps[i - 1]);
      ServeSimulates(s, x, steps[i - 1]);
    }
  }

  lemma ServeSimulates(s: State, x: Access, step: Step)
    requires Inv(s) && Simulates(s, x)
    ensures Simulates(Next(s, step), After(x, EventOf(s, Route(s, step))))
  {
    hide Serve, Route, After, EventOf, MembersSane, RowsSane, CapsSane, DeadOrgsRevoked, FanOut, SameDirectory, SameGrants;
    ServeSimulatesDirectory(s, x, Route(s, step));
    ServeSimulatesGrants(s, x, Route(s, step));
  }

  /**
   The refinement theorem. At every point of every run, at every time, the capability table answers
   exactly as the access specification does: for every organisation whatever its state, and for
   every project that is not soft-deleted.
   */
  lemma CapabilitiesRefineAccess(states: seq<State>, steps: seq<Step>, accesses: seq<Access>, i: nat)
    requires Trace(states, steps) && states[0] == EMPTY
    requires Shadows(accesses, states, steps) && accesses[0] == NOBODY && i < |states|
    ensures forall a: ActorId, op, o: OrgId, now: Time ::
      Can(states[i].caps, a, op, RtOrganisation, Some(o), now) <==> MayOrganisation(accesses[i], a, op, o)
    ensures forall a: ActorId, op, p: ProjectId, now: Time :: LiveProject(states[i].projects, p) ==>
      (Can(states[i].caps, a, op, RtProject, Some(p), now) <==> MayProject(accesses[i], a, op, p, now))
  {
    hide Can, MayOrganisation, MayProject, Inv, Simulates, LiveProject, Next, After, EventOf;
    RunsSimulate(states, steps, accesses, i);
    var s, x := states[i], accesses[i];
    forall a: ActorId, op, o: OrgId, now: Time
      ensures Can(s.caps, a, op, RtOrganisation, Some(o), now) <==> MayOrganisation(x, a, op, o)
    {
      CanOrganisationAgrees(s, x, a, op, o, now);
    }
    forall a: ActorId, op, p: ProjectId, now: Time | LiveProject(s.projects, p)
      ensures Can(s.caps, a, op, RtProject, Some(p), now) <==> MayProject(x, a, op, p, now)
    {
      CanProjectAgrees(s, x, a, op, p, now);
    }
  }

  lemma CanProjectAgrees(s: State, x: Access, a: ActorId, op: Operation, p: ProjectId, now: Time)
    requires Inv(s) && Simulates(s, x) && LiveProject(s.projects, p)
    ensures Can(s.caps, a, op, RtProject, Some(p), now) <==> MayProject(x, a, op, p, now)
  {
    hide Can, MayProject, Inv, Simulates, LiveProject;
    if Can(s.caps, a, op, RtProject, Some(p), now) {
      CanProjectAllowed(s, x, a, op, p, now);
    }
    if MayProject(x, a, op, p, now) {
      AllowedCanProject(s, x, a, op, p, now);
    }
  }
}
