/**
 The tenancy services as they run: methods that update the tables step by step, row by row.
 Each is one transaction; where the source raises after writing, the writes are undone.
 */
module TenantStore {
  import opened Prelude
  import opened Bundles
  import opened Tables
  import opened Authz
  import opened Services

  class Store {
    var orgs: seq<Org>
    var projects: seq<Project>
    var members: seq<Member>
    var invitations: seq<Invitation>
    var shares: seq<Share>
    var caps: seq<Capability>
    var audit: seq<AuditRow>

    function Snapshot(): State
      reads this
    {
      State(orgs, projects, members, invitations, shares, caps, audit)
    }

    constructor ()
      ensures Snapshot() == EMPTY
    {
      orgs, projects, members, invitations, shares, caps, audit := [], [], [], [], [], [], [];
    }

    // ---- authz/service.py ----

    /** Mints every capability of a bundle: check the scopes, insert the rows, log them. */
    method MintBundle(a: ActorId, bundle: BundleName, org: OrgId, grantedBy: ActorId,
                      projectIds: Option<seq<ProjectId>>, resource: Option<nat>)
      returns (r: Result<seq<CapId>, Error>)
      modifies this`caps, this`audit
      ensures r.Ok? <==> ScopesCovered(Bundle(bundle), projectIds, resource)
      ensures r.Err? ==> Snapshot() == old(Snapshot())
      ensures r.Ok? ==>
        && Snapshot() == Authz.MintBundle(old(Snapshot()), a, bundle, org, grantedBy, if projectIds.Some? then projectIds.value else [], resource)
        && Consecutive(r.value, |old(caps)|, |caps| - |old(caps)|)
    {
      hide Bundle, BundleRows;
      var templates := Bundle(bundle);
      if resource.None? && exists t :: t in templates && t.scope == ScopeResource {
        return Err(BundleScope);
      }
      if projectIds.None? && exists t :: t in templates && t.scope == ScopeAllInOrg {
        return Err(BundleScope);
      }
      var ps := if projectIds.Some? then projectIds.value else [];
      var g := Grantee(a, bundle, grantedBy, None, map[MetaOrg := org]);
      ghost var caps0 := caps;
      var created := InsertBundle(g, templates, org, ps, resource);
      ghost var rows := BundleRows(g, templates, org, ps, resource);
      LogCreated(created, org);
      assert CreateRows(|caps0|, rows, org) == LoggedCreates(caps, created, org);
      r := Ok(created);
    }

    static predicate Consecutive(ids: seq<CapId>, first: CapId, n: int) {
      |ids| == n && forall k :: 0 <= k < |ids| ==> ids[k] == first + k
    }

    static lemma NoneYet(first: CapId)
      ensures Consecutive([], first, 0)
    {
    }

    static lemma NoRows(g: Grantee, t: Template)
      ensures TemplateRows(g, t, []) == []
    {
    }

    static lemma OneMore(ids: seq<CapId>, first: CapId, n: nat)
      requires Consecutive(ids, first, n)
      ensures Consecutive(ids + [first + n], first, n + 1)
    {
    }

    static lemma OneMoreRow(g: Grantee, t: Template, targets: seq<Option<nat>>, j: nat)
      requires j < |targets|
      ensures TemplateRows(g, t, targets[..j + 1]) == TemplateRows(g, t, targets[..j]) + [Row(g, t, targets[j])]
    {
    }

    /** The two nested loops: templates outside, their targets inside. */
    method InsertBundle(g: Grantee, templates: seq<Template>, org: OrgId, projectIds: seq<ProjectId>, resource: Option<nat>)
      returns (created: seq<CapId>)
      modifies this`caps
      ensures caps == old(caps) + BundleRows(g, templates, org, projectIds, resource)
      ensures Consecutive(created, |old(caps)|, |caps| - |old(caps)|)
    {
      hide Targets, Row, TemplateRows, Consecutive;
      created := [];
      assert Consecutive([], |caps|, 0) by {
        NoneYet(|caps|);
      }
      for i := 0 to |templates|
        invariant caps == old(caps) + BundleRows(g, templates[..i], org, projectIds, resource)
        invariant Consecutive(created, |old(caps)|, |caps| - |old(caps)|)
      {
        var t := templates[i];
        var targets := Targets(t, org, projectIds, resource);
        ghost var caps0 := caps;
        assert TemplateRows(g, t, targets[..0]) == [] by {
          NoRows(g, t);
        }
        for j := 0 to |targets|
          invariant caps == caps0 + TemplateRows(g, t, targets[..j])
          invariant Consecutive(created, |old(caps)|, |caps| - |old(caps)|)
        {
          OneMore(created, |old(caps)|, |caps| - |old(caps)|);
          OneMoreRow(g, t, targets, j);
          created := created + [|caps|];
          caps := caps + [Row(g, t, targets[j])];
        }
        assert targets[..|targets|] == targets;
        assert templates[..i + 1][..i] == templates[..i];
      }
      assert templates[..|templates|] == templates;
    }

    /** The audit rows `LogCreated` appends. */
    static function LoggedCreates(table: seq<Capability>, ids: seq<CapId>, org: OrgId): seq<AuditRow>
      requires forall id :: id in ids ==> id < |table|
    {
      seq(|ids|, i requires 0 <= i < |ids| => assert ids[i] in ids; AuditRow(ActCreate, EntCapability, ids[i], org, CapAfter(table[ids[i]])))
    }

    method LogCreated(ids: seq<CapId>, org: OrgId)
      requires forall id :: id in ids ==> id < |caps|
      modifies this`audit
      ensures audit == old(audit) + LoggedCreates(caps, ids, org)
    {
      for i := 0 to |ids|
        invariant audit == old(audit) + LoggedCreates(caps, ids, org)[..i]
      {
        assert ids[i] in ids;
        audit := audit + [AuditRow(ActCreate, EntCapability, ids[i], org, CapAfter(caps[ids[i]]))];
      }
    }

    method RevokeBundle(a: ActorId, bundle: BundleName, org: OrgId, revokedBy: ActorId, now: Time) returns (n: nat)
      modifies this`caps, this`audit
      ensures Snapshot() == Authz.RevokeBundle(old(Snapshot()), a, bundle, org, revokedBy, now)
      ensures n == |BundleIds(old(caps), a, bundle, org)|
    {
      var revokedIds := BundleIds(caps, a, bundle, org);
      caps := RevokeBundleRows(caps, a, bundle, org, now);
      for i := 0 to |revokedIds|
        invariant audit == old(audit) + RevokeRows(revokedIds, org, now, revokedBy)[..i]
        invariant caps == RevokeBundleRows(old(caps), a, bundle, org, now)
      {
        audit := audit + [AuditRow(ActUpdate, EntCapability, revokedIds[i], org, CapRevoked(now, revokedBy))];
      }
      n := |revokedIds|;
    }

    method MintCapability(row: Capability, org: OrgId) returns (id: CapId)
      modifies this`caps, this`audit
      ensures Snapshot() == Mint(old(Snapshot()), org, [row])
      ensures id == |old(caps)|
    {
      id := |caps|;
      caps := caps + [row];
      audit := audit + [AuditRow(ActCreate, EntCapability, id, org, CapAfter(row))];
    }

    /** Two `audit.record` calls in a row. */
    method Log(first: AuditRow, second: AuditRow)
      modifies this`audit
      ensures audit == old(audit) + [first, second]
    {
      audit := audit + [first];
      audit := audit + [second];
    }

    // ---- OrganisationService ----

    method CreateOrg(slug: string, owner: ActorId) returns (r: Result<OrgId, Error>)
      modifies this
      ensures (Snapshot(), r) == Services.CreateOrg(old(Snapshot()), slug, owner)
    {
      hide Bundle, BundleRows, RevokeBundleRows, RevokeRows, CreateRows, LiveProjects, WithRole, RevokeOne;
      if exists o :: o in orgs && o.slug == slug {
        return Err(OrgSlugTaken);
      }
      var o := |orgs|;
      orgs := orgs + [Org(slug, None)];
      members := members + [Member(o, owner, RoleOwner)];
      PrimaryNeedsNoResource(RoleOwner);
      var _ := MintBundle(owner, Primary(RoleOwner), o, owner, Some([]), None);
      audit := audit + [AuditRow(ActCreate, EntOrganisation, o, o, OtherDiff)];
      r := Ok(o);
    }

    static lemma PrimaryNeedsNoResource(role: Role)
      ensures forall t :: t in Bundle(Primary(role)) ==> t.scope != ScopeResource
    {
      hide Bundle;
      forall t | t in Bundle(Primary(role)) ensures t.scope != ScopeResource {
        ScopesFollowTypes(role, t);
      }
    }

    method SoftDeleteOrg(o: OrgId, a: ActorId, now: Time) returns (r: Result<(), Error>)
      modifies this
      ensures (Snapshot(), r) == Services.DeleteOrg(old(Snapshot()), o, a, now)
    {
      if !LiveOrg(orgs, o) {
        return Err(OrgNotFound);
      }
      orgs := orgs[o := orgs[o].(deletedAt := Some(now))];
      caps := RevokeTagged(caps, o, None, now, a);
      audit := audit + [AuditRow(ActDelete, EntOrganisation, o, o, OtherDiff)];
      r := Ok(());
    }

    // ---- MembershipService ----

    method Invite(o: OrgId, invitee: Option<ActorId>, role: Role, invitedBy: ActorId, now: Time) returns (r: Result<nat, Error>)
      modifies this
      ensures (Snapshot(), r) == Services.Invite(old(Snapshot()), o, invitee, role, invitedBy, now)
    {
      if role == RoleOwner {
        return Err(InviteRole);
      }
      if invitee.Some? && FindMember(members, o, invitee.value).Some? {
        return Err(InviteAlreadyMember);
      }
      var inv := |invitations|;
      invitations := invitations + [Invitation(o, role, invitedBy, now + INVITE_TTL, None, None)];
      audit := audit + [AuditRow(ActCreate, EntInvitation, inv, o, OtherDiff)];
      r := Ok(inv);
    }

    method AcceptInvite(token: nat, a: ActorId, now: Time) returns (r: Result<(OrgId, Role), Error>)
      modifies this
      ensures (Snapshot(), r) == Services.AcceptInvite(old(Snapshot()), token, a, now)
    {
      hide Bundle, BundleRows, RevokeBundleRows, RevokeRows, CreateRows, LiveProjects, WithRole, RevokeOne;
      if !Redeemable(Snapshot(), token, now) {
        return Err(InviteNotFound);
      }
      var inv := invitations[token];
      if !LiveOrg(orgs, inv.org) {
        return Err(InviteNotFound);
      }
      var existing := FindMember(members, inv.org, a);
      if existing.Some? {
        return Ok((inv.org, existing.value));
      }
      invitations := invitations[token := inv.(consumedAt := Some(now), consumedBy := Some(a))];
      members := members + [Member(inv.org, a, inv.role)];
      PrimaryNeedsNoResource(inv.role);
      var _ := MintBundle(a, Primary(inv.role), inv.org, inv.invitedBy, Some(LiveProjects(projects, inv.org)), None);
      Log(AuditRow(ActUpdate, EntInvitation, token, inv.org, OtherDiff), AuditRow(ActCreate, EntMember, a, inv.org, OtherDiff));
      r := Ok((inv.org, inv.role));
    }

    method CountOwnersOf(o: OrgId) returns (n: nat)
      ensures n == CountOwners(members, o)
    {
      n := 0;
      for i := 0 to |members|
        invariant n == CountOwners(members[..i], o)
      {
        if members[i].org == o && members[i].role == RoleOwner {
          n := n + 1;
        }
        assert members[..i + 1][..i] == members[..i];
      }
      assert members[..|members|] == members;
    }

    method ChangeRole(o: OrgId, target: ActorId, role: Role, a: ActorId, now: Time) returns (r: Result<(), Error>)
      modifies this
      ensures (Snapshot(), r) == Services.ChangeRole(old(Snapshot()), o, target, role, a, now)
    {
      hide Bundle, BundleRows, RevokeBundleRows, RevokeRows, CreateRows, LiveProjects, WithRole, RevokeOne;
      var oldRole := FindMember(members, o, target);
      if oldRole.None? {
        return Err(MemberNotFound);
      }
      if oldRole.value == role {
        return Ok(());
      }
      if oldRole.value == RoleOwner {
        var owners := CountOwnersOf(o);
        if owners <= 1 {
          return Err(LastOwner);
        }
      }
      var _ := RevokeBundle(target, Primary(oldRole.value), o, a, now);
      PrimaryNeedsNoResource(role);
      var _ := MintBundle(target, Primary(role), o, a, Some(LiveProjects(projects, o)), None);
      members := WithRole(members, o, target, role);
      audit := audit + [AuditRow(ActUpdate, EntMember, target, o, OtherDiff)];
      r := Ok(());
    }

    method RemoveMember(o: OrgId, target: ActorId, a: ActorId, now: Time) returns (r: Result<(), Error>)
      modifies this
      ensures (Snapshot(), r) == Services.RemoveMember(old(Snapshot()), o, target, a, now)
    {
      var oldRole := FindMember(members, o, target);
      if oldRole.None? {
        return Err(MemberNotFound);
      }
      if oldRole.value == RoleOwner {
        var owners := CountOwnersOf(o);
        if owners <= 1 {
          return Err(LastOwner);
        }
      }
      members := WithoutMember(members, o, target);
      caps := RevokeTagged(caps, o, Some(target), now, a);
      audit := audit + [AuditRow(ActDelete, EntMember, target, o, OtherDiff)];
      r := Ok(());
    }

    // ---- ProjectService ----

    /** The other fan-out: members outside, templates inside, one `mint_capability` per pair. */
    method CreateProject(o: OrgId, slug: string, a: ActorId) returns (r: Result<ProjectId, Error>)
      modifies this
      ensures (Snapshot(), r) == Services.CreateProject(old(Snapshot()), o, slug, a)
    {
      if exists p :: p in projects && p.org == o && p.slug == slug {
        return Err(ProjectSlugTaken);
      }
      var p := |projects|;
      projects := projects + [Project(o, slug, None)];
      var ms := MembersOf(members, o);
      ghost var s0 := Snapshot();
      assert Snapshot() == Mint(s0, o, []);
      for i := 0 to |ms|
        invariant Snapshot() == Mint(s0, o, ProjectRows(ms[..i], o, p, a))
      {
        MintForMember(ms[i], o, p, a, s0, ProjectRows(ms[..i], o, p, a));
        assert ms[..i + 1][..i] == ms[..i];
      }
      assert ms[..|ms|] == ms;
      audit := audit + [AuditRow(ActCreate, EntProject, p, o, OtherDiff)];
      r := Ok(p);
    }

    /** The inner loop of `CreateProject`, over one member's templates. */
    method MintForMember(m: Member, o: OrgId, p: ProjectId, a: ActorId, ghost s0: State, ghost before: seq<Capability>)
      requires Snapshot() == Mint(s0, o, before)
      modifies this`caps, this`audit
      ensures Snapshot() == Mint(s0, o, before + ProjectTemplateRows(MemberGrantee(m, o, a), Bundle(Primary(m.role)), p))
    {
      var templates := Bundle(Primary(m.role));
      var g := MemberGrantee(m, o, a);
      assert before + [] == before;
      for i := 0 to |templates|
        invariant Snapshot() == Mint(s0, o, before + ProjectTemplateRows(g, templates[..i], p))
      {
        ghost var rows := before + ProjectTemplateRows(g, templates[..i], p);
        assert templates[..i + 1][..i] == templates[..i];
        if templates[i].scope != ScopeAllInOrg {
          continue;
        }
        if templates[i].resourceType != RtProject {
          continue;
        }
        var row := Row(g, templates[i], Some(p));
        var _ := MintCapability(row, o);
        MintTwice(s0, o, rows, row);
        assert rows + [row] == before + ProjectTemplateRows(g, templates[..i + 1], p);
      }
      assert templates[..|templates|] == templates;
    }

    static lemma MintTwice(s: State, o: OrgId, rows: seq<Capability>, row: Capability)
      ensures Mint(Mint(s, o, rows), o, [row]) == Mint(s, o, rows + [row])
    {
      assert CreateRows(|s.caps|, rows + [row], o) == CreateRows(|s.caps|, rows, o) + CreateRows(|s.caps + rows|, [row], o);
    }

    method SoftDeleteProject(p: ProjectId, a: ActorId, now: Time) returns (r: Result<(), Error>)
      modifies this
      ensures (Snapshot(), r) == Services.DeleteProject(old(Snapshot()), p, a, now)
    {
      if !LiveProject(projects, p) {
        return Err(ProjectNotFound);
      }
      projects := projects[p := projects[p].(deletedAt := Some(now))];
      audit := audit + [AuditRow(ActDelete, EntProject, p, projects[p].org, OtherDiff)];
      r := Ok(());
    }

    // ---- ProjectShareService ----

    method ShareProject(o: OrgId, p: ProjectId, sharedBy: ActorId, ttl: Option<Time>, now: Time) returns (r: Result<ShareId, Error>)
      modifies this
      ensures (Snapshot(), r) == Services.ShareProject(old(Snapshot()), o, p, sharedBy, ttl, now)
    {
      var effective := if ttl.None? || ttl.value == 0 then SHARE_DEFAULT_TTL else ttl.value;
      if effective > SHARE_MAX_TTL {
        return Err(ShareTtl);
      }
      var sid := |shares|;
      shares := shares + [Share(p, o, sharedBy, now + effective, None, None, None)];
      audit := audit + [AuditRow(ActCreate, EntShare, sid, o, OtherDiff)];
      r := Ok(sid);
    }

    /** The token is consumed first; a failure after that rolls the consumption back. */
    method AcceptShare(token: ShareId, a: ActorId, now: Time) returns (r: Result<(OrgId, ProjectId), Error>)
      modifies this
      ensures (Snapshot(), r) == Services.AcceptShare(old(Snapshot()), token, a, now)
    {
      hide Bundle, BundleRows, RevokeBundleRows, RevokeRows, CreateRows, LiveProjects, WithRole, RevokeOne;
      var saved := shares;
      if !(token < |shares| && shares[token].consumedAt.None? && now < shares[token].expiresAt) {
        return Err(ShareNotFound);
      }
      shares := shares[token := shares[token].(consumedAt := Some(now), consumedBy := Some(a))];
      var sh := shares[token];
      if !LiveProject(projects, sh.project) {
        shares := saved;
        return Err(ShareNotFound);
      }
      if !LiveOrg(orgs, sh.org) {
        shares := saved;
        return Err(ShareNotFound);
      }
      var existing := FindMember(members, sh.org, a);
      if existing.Some? {
        audit := audit + [AuditRow(ActUpdate, EntShare, token, sh.org, OtherDiff)];
        return Ok((sh.org, sh.project));
      }
      var row := GuestRow(sh, token, a);
      var cap := MintCapability(row, sh.org);
      shares := shares[token := sh.(consumedCapability := Some(cap))];
      assert shares == saved[token := sh.(consumedCapability := Some(cap))];
      Log(AuditRow(ActUpdate, EntShare, token, sh.org, OtherDiff), AuditRow(ActCreate, EntCapability, cap, sh.org, CapAfter(row)));
      r := Ok((sh.org, sh.project));
    }

    method RevokeShare(sid: ShareId, revokedBy: ActorId, now: Time) returns (r: Result<(), Error>)
      modifies this
      ensures (Snapshot(), r) == Services.RevokeShare(old(Snapshot()), sid, revokedBy, now)
    {
      hide Bundle, BundleRows, RevokeBundleRows, RevokeRows, CreateRows, LiveProjects, WithRole, RevokeOne;
      if sid >= |shares| {
        return Err(ShareNotFound);
      }
      var sh := shares[sid];
      if sh.consumedAt.None? {
        shares := shares[sid := sh.(consumedAt := Some(now), consumedBy := Some(revokedBy))];
        audit := audit + [AuditRow(ActDelete, EntShare, sid, sh.org, OtherDiff)];
        return Ok(());
      }
      if sh.consumedCapability.None? {
        return Ok(());
      }
      var cap := sh.consumedCapability.value;
      caps := RevokeOne(caps, cap, now, revokedBy);
      Log(AuditRow(ActDelete, EntShare, sid, sh.org, OtherDiff), AuditRow(ActUpdate, EntCapability, cap, sh.org, CapRevoked(now, revokedBy)));
      r := Ok(());
    }
  }
}
