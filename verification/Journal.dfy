/**
 The audit log as a journal: every change of the directory leaves its entry, nothing else does, and an entry
 about a capability describes the row it is about.
 */
module Journal {
  import opened Prelude
  import opened Bundles
  import opened Tables
  import opened Authz
  import opened Services
  import opened Routes
  import opened History
  import opened Invariants
  import opened FanOutSteps
  import opened SaneSteps

  /** The row is written on the way from `s` to `t`. */
  predicate Logged(s: State, t: State, row: AuditRow) {
    exists i :: |s.audit| <= i < |t.audit| && t.audit[i] == row
  }

  predicate NewlySpent(s: State, t: State, sid: ShareId) {
    sid < |s.shares| && s.shares[sid].consumedAt == None && sid < |t.shares| && t.shares[sid].consumedAt != None
  }

  predicate NewlyConsumed(s: State, t: State, i: nat) {
    i < |s.invitations| && s.invitations[i].consumedAt == None && i < |t.invitations| && t.invitations[i].consumedAt != None
  }

  /** Directory entries, by what changed between the tables; a revoke of a share is told by the call. */
  ghost predicate Due(s: State, t: State, call: Call, row: AuditRow) {
    && row.diff == OtherDiff
    && match (row.action, row.entity)
       case (ActCreate, EntOrganisation) => |s.orgs| <= row.entityId < |t.orgs| && row.org == row.entityId
       case (ActDelete, EntOrganisation) => LiveOrg(s.orgs, row.entityId) && !LiveOrg(t.orgs, row.entityId) && row.org == row.entityId
       case (ActCreate, EntInvitation) =>
         |s.invitations| <= row.entityId < |t.invitations| && t.invitations[row.entityId].org == row.org
       case (ActUpdate, EntInvitation) => NewlyConsumed(s, t, row.entityId) && t.invitations[row.entityId].org == row.org
       case (ActCreate, EntMember) =>
         row.org < |s.orgs| && FindMember(s.members, row.org, row.entityId) == None && FindMember(t.members, row.org, row.entityId) != None
       case (ActUpdate, EntMember) =>
         && FindMember(s.members, row.org, row.entityId) != None && FindMember(t.members, row.org, row.entityId) != None
         && FindMember(s.members, row.org, row.entityId) != FindMember(t.members, row.org, row.entityId)
       case (ActDelete, EntMember) =>
         FindMember(s.members, row.org, row.entityId) != None && FindMember(t.members, row.org, row.entityId) == None
       case (ActCreate, EntProject) => |s.projects| <= row.entityId < |t.projects| && t.projects[row.entityId].org == row.org
       case (ActDelete, EntProject) =>
         LiveProject(s.projects, row.entityId) && !LiveProject(t.projects, row.entityId) && s.projects[row.entityId].org == row.org
       case (ActCreate, EntShare) => |s.shares| <= row.entityId < |t.shares| && t.shares[row.entityId].org == row.org
       case (ActUpdate, EntShare) =>
         call.CallAcceptShare? && NewlySpent(s, t, row.entityId) && t.shares[row.entityId].org == row.org
       case (ActDelete, EntShare) =>
         && call.CallRevokeShare? && call.sid == row.entityId && row.entityId < |s.shares| && s.shares[row.entityId].org == row.org
         && (s.shares[row.entityId].consumedAt == None || s.shares[row.entityId].consumedCapability != None)
       case _ => false
  }

  /** What a call appends: entries about capabilities, and after them `tail`. */
  ghost predicate Appends(s: State, t: State, tail: seq<AuditRow>) {
    && |s.audit| + |tail| <= |t.audit| && s.audit <= t.audit
    && t.audit[|t.audit| - |tail|..] == tail
    && forall i :: |s.audit| <= i < |t.audit| - |tail| ==> t.audit[i].entity == EntCapability
  }

  lemma LoggedIffInTail(s: State, t: State, tail: seq<AuditRow>, row: AuditRow)
    requires Appends(s, t, tail) && row.entity != EntCapability
    ensures Logged(s, t, row) <==> row in tail
  {
    var n := |t.audit| - |tail|;
    if row in tail {
      var i :| 0 <= i < |tail| && tail[i] == row;
      assert t.audit[n + i] == row;
    }
    if Logged(s, t, row) {
      var i :| |s.audit| <= i < |t.audit| && t.audit[i] == row;
      assert i >= n && tail[i - n] == row;
    }
  }

  lemma CreateOrgAppends(s: State, slug: string, a: ActorId)
    ensures var r := CreateOrg(s, slug, a);
      Appends(s, r.0, if r.1.Ok? then [AuditRow(ActCreate, EntOrganisation, |s.orgs|, |s.orgs|, OtherDiff)] else [])
  {
    hide Bundle, BundleRows;
  }

  lemma DeleteOrgAppends(s: State, o: OrgId, a: ActorId, now: Time)
    ensures var r := DeleteOrg(s, o, a, now);
      Appends(s, r.0, if r.1.Ok? then [AuditRow(ActDelete, EntOrganisation, o, o, OtherDiff)] else [])
  {
    hide RevokeTagged;
  }

  lemma JoinAppends(s: State, token: nat, a: ActorId, now: Time)
    requires token < |s.invitations|
    ensures var o := s.invitations[token].org;
      Appends(s, Join(s, token, a, now), [AuditRow(ActUpdate, EntInvitation, token, o, OtherDiff), AuditRow(ActCreate, EntMember, a, o, OtherDiff)])
  {
    hide Bundle, BundleRows, LiveProjects;
  }

  lemma NothingAppends(s: State)
    ensures Appends(s, s, [])
  {
  }

  lemma ChangeRoleAppends(s: State, o: OrgId, target: ActorId, role: Role, a: ActorId, now: Time)
    ensures var r := ChangeRole(s, o, target, role, a, now);
      Appends(s, r.0, if r.1.Ok? && FindMember(s.members, o, target) != Some(role) then [AuditRow(ActUpdate, EntMember, target, o, OtherDiff)] else [])
  {
    hide Bundle, BundleRows, RevokeBundleRows, BundleIds, LiveProjects, FindMember, CountOwners, WithRole;
  }

  lemma CreateProjectAppends(s: State, o: OrgId, slug: string, a: ActorId)
    ensures var r := CreateProject(s, o, slug, a);
      Appends(s, r.0, if r.1.Ok? then [AuditRow(ActCreate, EntProject, |s.projects|, o, OtherDiff)] else [])
  {
    hide ProjectRows, MembersOf;
  }

  // ---- one call ----

  lemma CreateOrgIsDue(s: State, slug: string, a: ActorId, row: AuditRow)
    requires MembersSane(s) && row.entity != EntCapability
    ensures var t := CreateOrg(s, slug, a).0; Logged(s, t, row) <==> Due(s, t, CallCreateOrg(slug, a), row)
  {
    hide CreateOrg, Appends, Logged;
    var r := CreateOrg(s, slug, a);
    CreateOrgAppends(s, slug, a);
    LoggedIffInTail(s, r.0, if r.1.Ok? then [AuditRow(ActCreate, EntOrganisation, |s.orgs|, |s.orgs|, OtherDiff)] else [], row);
    if r.1.Ok? {
      CreateOrgDelta(s, slug, a);
    } else {
      RefusedOrg(s, slug, a);
    }
  }

  lemma DeleteOrgIsDue(s: State, o: OrgId, a: ActorId, now: Time, row: AuditRow)
    requires row.entity != EntCapability
    ensures var t := DeleteOrg(s, o, a, now).0; Logged(s, t, row) <==> Due(s, t, CallDeleteOrg(o, a, now), row)
  {
    hide RevokeTagged, FindMember, Appends, Logged;
    var r := DeleteOrg(s, o, a, now);
    DeleteOrgAppends(s, o, a, now);
    LoggedIffInTail(s, r.0, if r.1.Ok? then [AuditRow(ActDelete, EntOrganisation, o, o, OtherDiff)] else [], row);
  }

  /** Where only the rows of one pair change, lookups of all others stay. */
  lemma OthersFound(before: seq<Member>, after: seq<Member>, o: OrgId, a: ActorId)
    requires UniqueMembers(before) && UniqueMembers(after)
    requires forall m: Member :: !(m.org == o && m.actor == a) ==> (m in before <==> m in after)
    ensures forall x: OrgId, b: ActorId :: !(x == o && b == a) ==> FindMember(after, x, b) == FindMember(before, x, b)
  {
    hide FindMember;
    forall x: OrgId, b: ActorId | !(x == o && b == a) ensures FindMember(after, x, b) == FindMember(before, x, b) {
      var f, g := FindMember(before, x, b), FindMember(after, x, b);
      if f.Some? {
        FoundIsUnique(after, x, b, f.value);
      }
      if g.Some? {
        FoundIsUnique(before, x, b, g.value);
      }
    }
  }

  lemma FoundIsUnique(members: seq<Member>, o: OrgId, a: ActorId, role: Role)
    requires UniqueMembers(members) && Member(o, a, role) in members
    ensures FindMember(members, o, a) == Some(role)
  {
    hide FindMember;
    var f := FindMember(members, o, a);
    if f.Some? {
      var i :| 0 <= i < |members| && members[i] == Member(o, a, role);
      var j :| 0 <= j < |members| && members[j] == Member(o, a, f.value);
    }
  }

  lemma AcceptInviteIsDue(s: State, token: nat, a: ActorId, now: Time, row: AuditRow)
    requires MembersSane(s) && RowsSane(s) && row.entity != EntCapability
    ensures var t := AcceptInvite(s, token, a, now).0; Logged(s, t, row) <==> Due(s, t, CallAcceptInvite(token, a, now), row)
  {
    var t := AcceptInvite(s, token, a, now).0;
    if Redeemable(s, token, now) && LiveOrg(s.orgs, s.invitations[token].org)
      && FindMember(s.members, s.invitations[token].org, a).None?
    {
      JoinIsDue(s, token, a, now, row);
    } else {
      hide FindMember;
      assert t == s;
    }
  }

  lemma JoinIsDue(s: State, token: nat, a: ActorId, now: Time, row: AuditRow)
    requires MembersSane(s) && RowsSane(s) && row.entity != EntCapability && Redeemable(s, token, now)
    requires FindMember(s.members, s.invitations[token].org, a).None?
    ensures var t := Join(s, token, a, now); Logged(s, t, row) <==> Due(s, t, CallAcceptInvite(token, a, now), row)
  {
    hide FindMember, Appends, Logged, JoinRows, Join;
    var t, inv := Join(s, token, a, now), s.invitations[token];
    JoinAppends(s, token, a, now);
    LoggedIffInTail(s, t, [AuditRow(ActUpdate, EntInvitation, token, inv.org, OtherDiff), AuditRow(ActCreate, EntMember, a, inv.org, OtherDiff)], row);
    JoinDelta(s, token, a, now);
    JoinConsumes(s, token, a, now);
    MemberAdded(s, t, Member(inv.org, a, inv.role));
    OthersFound(s.members, t.members, inv.org, a);
    assert t.members[|s.members|] == Member(inv.org, a, inv.role);
    FoundIsUnique(t.members, inv.org, a, inv.role);
  }

  lemma JoinConsumes(s: State, token: nat, a: ActorId, now: Time)
    requires token < |s.invitations|
    ensures var inv := s.invitations[token];
      Join(s, token, a, now).invitations == s.invitations[token := inv.(consumedAt := Some(now), consumedBy := Some(a))]
  {
  }

  lemma ChangeRoleIsDue(s: State, o: OrgId, target: ActorId, role: Role, a: ActorId, now: Time, row: AuditRow)
    requires MembersSane(s) && row.entity != EntCapability
    ensures var t := ChangeRole(s, o, target, role, a, now).0; Logged(s, t, row) <==> Due(s, t, CallChangeRole(o, target, role, a, now), row)
  {
    hide FindMember, Appends, Logged, ChangeRole, WithRole;
    var r, f := ChangeRole(s, o, target, role, a, now), FindMember(s.members, o, target);
    ChangeRoleAppends(s, o, target, role, a, now);
    var tail := if r.1.Ok? && f != Some(role) then [AuditRow(ActUpdate, EntMember, target, o, OtherDiff)] else [];
    LoggedIffInTail(s, r.0, tail, row);
    ChangeRoleTables(s, o, target, role, a, now);
    if r.1.Ok? && f != Some(role) {
      WithRoleMembers(s.members, o, target, role, f.value);
      OthersFound(s.members, r.0.members, o, target);
      FoundIsUnique(r.0.members, o, target, role);
    }
  }

  lemma ChangeRoleTables(s: State, o: OrgId, target: ActorId, role: Role, a: ActorId, now: Time)
    ensures var r := ChangeRole(s, o, target, role, a, now);
      && r.0.orgs == s.orgs && r.0.projects == s.projects && r.0.invitations == s.invitations && r.0.shares == s.shares
      && (r.1.Ok? ==> FindMember(s.members, o, target) != None)
      && r.0.members == (if r.1.Ok? && FindMember(s.members, o, target) != Some(role) then WithRole(s.members, o, target, role) else s.members)
  {
    hide Bundle, BundleRows, CreateRows, RevokeBundleRows, RevokeRows, BundleIds, LiveProjects, FindMember, CountOwners, WithRole;
  }

  lemma RemoveMemberIsDue(s: State, o: OrgId, target: ActorId, a: ActorId, now: Time, row: AuditRow)
    requires MembersSane(s) && row.entity != EntCapability
    ensures var t := RemoveMember(s, o, target, a, now).0; Logged(s, t, row) <==> Due(s, t, CallRemoveMember(o, target, a, now), row)
  {
    hide FindMember, Appends, Logged, RevokeTagged, CountOwners, WithoutMember;
    var r := RemoveMember(s, o, target, a, now);
    var tail := if r.1.Ok? then [AuditRow(ActDelete, EntMember, target, o, OtherDiff)] else [];
    RemoveMemberAppends(s, o, target, a, now);
    LoggedIffInTail(s, r.0, tail, row);
    if r.1.Ok? {
      OthersFound(s.members, r.0.members, o, target);
      assert FindMember(r.0.members, o, target) == None;
    }
  }

  lemma RemoveMemberAppends(s: State, o: OrgId, target: ActorId, a: ActorId, now: Time)
    ensures var r := RemoveMember(s, o, target, a, now);
      Appends(s, r.0, if r.1.Ok? then [AuditRow(ActDelete, EntMember, target, o, OtherDiff)] else [])
  {
    hide RevokeTagged, FindMember, CountOwners, WithoutMember;
  }

  lemma CreateProjectIsDue(s: State, o: OrgId, slug: string, a: ActorId, row: AuditRow)
    requires row.entity != EntCapability
    ensures var t := CreateProject(s, o, slug, a).0; Logged(s, t, row) <==> Due(s, t, CallCreateProject(o, slug, a), row)
  {
    hide ProjectRows, MembersOf, CreateRows, Appends, Logged, FindMember;
    var r := CreateProject(s, o, slug, a);
    CreateProjectAppends(s, o, slug, a);
    LoggedIffInTail(s, r.0, if r.1.Ok? then [AuditRow(ActCreate, EntProject, |s.projects|, o, OtherDiff)] else [], row);
  }

  lemma DeleteProjectIsDue(s: State, p: ProjectId, a: ActorId, now: Time, row: AuditRow)
    requires row.entity != EntCapability
    ensures var t := DeleteProject(s, p, a, now).0; Logged(s, t, row) <==> Due(s, t, CallDeleteProject(p, a, now), row)
  {
    hide FindMember, Appends, Logged;
    var r := DeleteProject(s, p, a, now);
    if r.1.Ok? {
      var tail := [AuditRow(ActDelete, EntProject, p, s.projects[p].org, OtherDiff)];
      OneRowAppends(s, r.0, tail[0]);
      LoggedIffInTail(s, r.0, tail, row);
    } else {
      NothingAppends(s);
      LoggedIffInTail(s, s, [], row);
    }
  }

  lemma OneRowAppends(s: State, t: State, entry: AuditRow)
    requires t.audit == s.audit + [entry]
    ensures Appends(s, t, [entry])
  {
  }

  lemma InviteIsDue(s: State, o: OrgId, who: Option<ActorId>, role: Role, a: ActorId, now: Time, row: AuditRow)
    requires row.entity != EntCapability
    ensures var t := Invite(s, o, who, role, a, now).0; Logged(s, t, row) <==> Due(s, t, CallInvite(o, who, role, a, now), row)
  {
    hide FindMember, Appends, Logged;
    var r := Invite(s, o, who, role, a, now);
    if r.1.Ok? {
      var tail := [AuditRow(ActCreate, EntInvitation, |s.invitations|, o, OtherDiff)];
      OneRowAppends(s, r.0, tail[0]);
      LoggedIffInTail(s, r.0, tail, row);
    } else {
      NothingAppends(s);
      LoggedIffInTail(s, s, [], row);
    }
  }

  lemma ShareProjectIsDue(s: State, o: OrgId, p: ProjectId, ttl: Option<Time>, a: ActorId, now: Time, row: AuditRow)
    requires row.entity != EntCapability
    ensures var t := ShareProject(s, o, p, a, ttl, now).0; Logged(s, t, row) <==> Due(s, t, CallShareProject(o, p, ttl, a, now), row)
  {
    hide FindMember, EffectiveTtl, Appends, Logged;
    var r := ShareProject(s, o, p, a, ttl, now);
    if r.1.Ok? {
      var tail := [AuditRow(ActCreate, EntShare, |s.shares|, o, OtherDiff)];
      OneRowAppends(s, r.0, tail[0]);
      LoggedIffInTail(s, r.0, tail, row);
    } else {
      NothingAppends(s);
      LoggedIffInTail(s, s, [], row);
    }
  }

  /** The one call that writes a directory entry among capability entries: what it writes, in any order. */
  lemma AcceptShareLogs(s: State, token: ShareId, a: ActorId, now: Time, row: AuditRow)
    requires row.entity != EntCapability
    ensures var r := AcceptShare(s, token, a, now);
      Logged(s, r.0, row) <==> r.1.Ok? && row == AuditRow(ActUpdate, EntShare, token, s.shares[token].org, OtherDiff)
  {
    hide FindMember, LiveProject, LiveOrg;
    var r := AcceptShare(s, token, a, now);
    if r.1.Ok? {
      var entry := AuditRow(ActUpdate, EntShare, token, s.shares[token].org, OtherDiff);
      if FindMember(s.members, s.shares[token].org, a).Some? {
        assert r.0.audit == s.audit + [entry];
        assert r.0.audit[|s.audit|] == entry;
      } else {
        assert r.0.audit[|s.audit| + 1] == entry;
      }
    }
  }

  lemma AcceptShareIsDue(s: State, token: ShareId, a: ActorId, now: Time, row: AuditRow)
    requires row.entity != EntCapability
    ensures var t := AcceptShare(s, token, a, now).0; Logged(s, t, row) <==> Due(s, t, CallAcceptShare(token, a, now), row)
  {
    hide FindMember, CreateRows, Logged;
    AcceptShareLogs(s, token, a, now, row);
  }

  lemma RevokeShareLogs(s: State, sid: ShareId, a: ActorId, now: Time, row: AuditRow)
    requires row.entity != EntCapability
    ensures var r := RevokeShare(s, sid, a, now);
      Logged(s, r.0, row) <==>
        && sid < |s.shares| && (s.shares[sid].consumedAt == None || s.shares[sid].consumedCapability != None)
        && row == AuditRow(ActDelete, EntShare, sid, s.shares[sid].org, OtherDiff)
  {
    hide RevokeOne;
    var r := RevokeShare(s, sid, a, now);
    if |r.0.audit| > |s.audit| {
      assert r.0.audit[|s.audit|] == AuditRow(ActDelete, EntShare, sid, s.shares[sid].org, OtherDiff);
    }
  }

  lemma RevokeShareIsDue(s: State, sid: ShareId, a: ActorId, now: Time, row: AuditRow)
    requires row.entity != EntCapability
    ensures var t := RevokeShare(s, sid, a, now).0; Logged(s, t, row) <==> Due(s, t, CallRevokeShare(sid, a, now), row)
  {
    hide FindMember, RevokeOne, Logged;
    RevokeShareLogs(s, sid, a, now, row);
  }

  // ---- any request ----

  /**
   A directory entry is written exactly when its change happens: organisations, memberships, invitations,
   projects and shares, with the row and the organisation it names.
   */
  lemma LoggedIffDue(s: State, step: Step, row: AuditRow)
    requires Inv(s) && row.entity != EntCapability
    ensures Logged(s, Next(s, step), row) <==> Due(s, Next(s, step), Route(s, step), row)
  {
    hide Route, Logged, Due, CreateOrg, DeleteOrg, Invite, AcceptInvite, ChangeRole, RemoveMember, CreateProject, DeleteProject,
      ShareProject, AcceptShare, RevokeShare, FanOut, MembersSane, RowsSane, CapsSane, DeadOrgsRevoked;
    match Route(s, step)
    case Refused => RefusedIsNotDue(s, row);
    case CallCreateOrg(slug, a) => CreateOrgIsDue(s, slug, a, row);
    case CallDeleteOrg(o, a, now) => DeleteOrgIsDue(s, o, a, now, row);
    case CallInvite(o, who, role, a, now) => InviteIsDue(s, o, who, role, a, now, row);
    case CallAcceptInvite(token, a, now) => AcceptInviteIsDue(s, token, a, now, row);
    case CallChangeRole(o, target, role, a, now) => ChangeRoleIsDue(s, o, target, role, a, now, row);
    case CallRemoveMember(o, target, a, now) => RemoveMemberIsDue(s, o, target, a, now, row);
    case CallCreateProject(o, slug, a) => CreateProjectIsDue(s, o, slug, a, row);
    case CallDeleteProject(p, a, now) => DeleteProjectIsDue(s, p, a, now, row);
    case CallShareProject(o, p, ttl, a, now) => ShareProjectIsDue(s, o, p, ttl, a, now, row);
    case CallAcceptShare(token, a, now) => AcceptShareIsDue(s, token, a, now, row);
    case CallRevokeShare(sid, a, now) => RevokeShareIsDue(s, sid, a, now, row);
  }

  lemma RefusedIsNotDue(s: State, row: AuditRow)
    requires row.entity != EntCapability
    ensures !Logged(s, s, row) && !Due(s, s, Refused, row)
  {
  }

  // ---- entries about capabilities ----

  /** A creation entry describes its row: the columns a capability is born with, and its organisation. */
  predicate Describes(row: AuditRow, caps: seq<Capability>) {
    row.diff.CapCreated? ==>
      && row.action == ActCreate && row.entity == EntCapability && row.entityId < |caps|
      && var c := caps[row.entityId];
      && row.diff == CapCreated(c.actor, c.operation, c.resourceType, c.resourceId, c.bundle, c.grantedBy, c.expiresAt)
      && TagOrg(c) == Some(row.org)
  }

  /** From `first` on the log has a creation entry for row `c`. */
  ghost predicate HasEntry(log: seq<AuditRow>, first: nat, c: CapId) {
    exists i :: first <= i < |log| && Creates(log[i], c)
  }

  predicate Creates(row: AuditRow, c: CapId) {
    row.diff.CapCreated? && row.entityId == c
  }

  /** New entries describe the rows they are about, and every new row has one. */
  ghost predicate NewDescribed(s: State, t: State) {
    && s.audit <= t.audit && |s.caps| <= |t.caps|
    && (forall i :: |s.audit| <= i < |t.audit| ==> Describes(t.audit[i], t.caps))
    && (forall c: CapId :: |s.caps| <= c < |t.caps| ==> HasEntry(t.audit, |s.audit|, c))
  }

  lemma MintDescribed(s: State, o: OrgId, rows: seq<Capability>)
    requires forall c :: c in rows ==> TagOrg(c) == Some(o)
    ensures NewDescribed(s, Mint(s, o, rows))
  {
    var t := Mint(s, o, rows);
    forall i | |s.audit| <= i < |t.audit| ensures Describes(t.audit[i], t.caps) {
      assert rows[i - |s.audit|] in rows && t.caps[t.audit[i].entityId] == rows[i - |s.audit|];
    }
    forall c: CapId | |s.caps| <= c < |t.caps| ensures HasEntry(t.audit, |s.audit|, c) {
      assert Creates(t.audit[|s.audit| + (c - |s.caps|)], c);
    }
  }

  lemma EntryStays(log: seq<AuditRow>, after: seq<AuditRow>, first: nat, earlier: nat, c: CapId)
    requires HasEntry(log, first, c) && log <= after && earlier <= first
    ensures HasEntry(after, earlier, c)
  {
    var i :| first <= i < |log| && Creates(log[i], c);
    assert after[i] == log[i];
  }

  /** Entries of other kinds may come before and after a mint. */
  lemma AroundMint(s: State, mid: State, u: State, t: State)
    requires NewDescribed(mid, u) && t.caps == u.caps && |mid.caps| == |s.caps|
    requires s.audit <= mid.audit && u.audit <= t.audit
    requires forall i :: |s.audit| <= i < |mid.audit| ==> !mid.audit[i].diff.CapCreated?
    requires forall i :: |u.audit| <= i < |t.audit| ==> Describes(t.audit[i], t.caps)
    ensures NewDescribed(s, t)
  {
    forall i | |s.audit| <= i < |t.audit| ensures Describes(t.audit[i], t.caps) {
      if |mid.audit| <= i < |u.audit| {
        assert t.audit[i] == u.audit[i];
      } else if i < |mid.audit| {
        assert t.audit[i] == mid.audit[i];
      }
    }
    forall c: CapId | |s.caps| <= c < |t.caps| ensures HasEntry(t.audit, |s.audit|, c) {
      EntryStays(u.audit, t.audit, |mid.audit|, |s.audit|, c);
    }
  }

  lemma CreateOrgDescribed(s: State, slug: string, a: ActorId)
    ensures NewDescribed(s, CreateOrg(s, slug, a).0)
  {
    hide Bundle, BundleRows, NewDescribed, Mint;
    var g := Grantee(a, Primary(RoleOwner), a, None, map[MetaOrg := |s.orgs|]);
    BundleRowsPlain(g, Bundle(Primary(RoleOwner)), |s.orgs|, []);
    var rows := BundleRows(g, Bundle(Primary(RoleOwner)), |s.orgs|, [], None);
    var s1 := s.(orgs := s.orgs + [Org(slug, None)], members := s.members + [Member(|s.orgs|, a, RoleOwner)]);
    MintDescribed(s1, |s.orgs|, rows);
    NothingDescribed(s);
    if CreateOrg(s, slug, a).1.Ok? {
      AroundMint(s, s1, Mint(s1, |s.orgs|, rows), CreateOrg(s, slug, a).0);
    }
  }

  lemma NothingDescribed(s: State)
    ensures NewDescribed(s, s)
  {
  }

  lemma AcceptInviteDescribed(s: State, token: nat, a: ActorId, now: Time)
    ensures NewDescribed(s, AcceptInvite(s, token, a, now).0)
  {
    hide Bundle, BundleRows, LiveProjects, FindMember, NewDescribed, Mint;
    NothingDescribed(s);
    if Redeemable(s, token, now) {
      var inv, ps := s.invitations[token], LiveProjects(s.projects, s.invitations[token].org);
      var g := Grantee(a, Primary(inv.role), inv.invitedBy, None, map[MetaOrg := inv.org]);
      BundleRowsPlain(g, Bundle(Primary(inv.role)), inv.org, ps);
      var rows := BundleRows(g, Bundle(Primary(inv.role)), inv.org, ps, None);
      var s1 := s.(invitations := s.invitations[token := inv.(consumedAt := Some(now), consumedBy := Some(a))],
                   members := s.members + [Member(inv.org, a, inv.role)]);
      MintDescribed(s1, inv.org, rows);
      AroundMint(s, s1, Mint(s1, inv.org, rows), Join(s, token, a, now));
    }
  }

  lemma ChangeRoleDescribed(s: State, o: OrgId, target: ActorId, role: Role, a: ActorId, now: Time)
    ensures NewDescribed(s, ChangeRole(s, o, target, role, a, now).0)
  {
    hide Bundle, BundleRows, RevokeBundleRows, BundleIds, LiveProjects, FindMember, CountOwners, WithRole, NewDescribed, Mint;
    NothingDescribed(s);
    var f := FindMember(s.members, o, target);
    if f.Some? {
      var g, ps := Grantee(target, Primary(role), a, None, map[MetaOrg := o]), LiveProjects(s.projects, o);
      BundleRowsPlain(g, Bundle(Primary(role)), o, ps);
      var rows := BundleRows(g, Bundle(Primary(role)), o, ps, None);
      var s1 := RevokeBundle(s, target, Primary(f.value), o, a, now);
      RevokeBundleLength(s.caps, target, Primary(f.value), o, now);
      MintDescribed(s1, o, rows);
      var t := ChangeRole(s, o, target, role, a, now).0;
      if t != s {
        AroundMint(s, s1, Mint(s1, o, rows), t);
      }
    }
  }

  lemma CreateProjectDescribed(s: State, o: OrgId, slug: string, a: ActorId)
    ensures NewDescribed(s, CreateProject(s, o, slug, a).0)
  {
    hide ProjectRows, MembersOf, NewDescribed, Mint;
    NothingDescribed(s);
    var ms := MembersOf(s.members, o);
    var rows := ProjectRows(ms, o, |s.projects|, a);
    ProjectRowsPlain(ms, o, |s.projects|, a);
    var s1 := s.(projects := s.projects + [Project(o, slug, None)]);
    MintDescribed(s1, o, rows);
    if CreateProject(s, o, slug, a).1.Ok? {
      AroundMint(s, s1, Mint(s1, o, rows), CreateProject(s, o, slug, a).0);
    }
  }

  lemma AcceptShareDescribed(s: State, token: ShareId, a: ActorId, now: Time)
    ensures NewDescribed(s, AcceptShare(s, token, a, now).0)
  {
    hide FindMember, LiveProject, LiveOrg, NewDescribed, Mint;
    NothingDescribed(s);
    var r := AcceptShare(s, token, a, now);
    if r.1.Ok? {
      var sh := s.shares[token];
      if FindMember(s.members, sh.org, a).Some? {
        SilentDescribed(s, r.0);
      } else {
        var row := GuestRow(sh, token, a);
        MintDescribed(s, sh.org, [row]);
        MintOne(s, sh.org, row);
        AroundMint(s, s, Mint(s, sh.org, [row]), r.0);
      }
    }
  }

  lemma MintOne(s: State, o: OrgId, row: Capability)
    ensures Mint(s, o, [row]).caps == s.caps + [row] && |Mint(s, o, [row]).audit| == |s.audit| + 1
    ensures Mint(s, o, [row]).audit == s.audit + CreateRows(|s.caps|, [row], o)
  {
  }

  /** A call that mints nothing and logs no creation. */
  lemma SilentDescribed(s: State, t: State)
    requires s.audit <= t.audit && |t.caps| == |s.caps|
    requires forall i :: |s.audit| <= i < |t.audit| ==> !t.audit[i].diff.CapCreated?
    ensures NewDescribed(s, t)
  {
  }

  lemma OthersDescribed(s: State, call: Call)
    requires !call.CallCreateOrg? && !call.CallAcceptInvite? && !call.CallChangeRole? && !call.CallCreateProject? && !call.CallAcceptShare?
    ensures NewDescribed(s, Serve(s, call))
  {
    hide FindMember, CountOwners, WithoutMember, EffectiveTtl, NewDescribed;
    SilentDescribed(s, Serve(s, call));
  }

  lemma ServeDescribed(s: State, call: Call)
    ensures NewDescribed(s, Serve(s, call))
  {
    hide NewDescribed, CreateOrg, AcceptInvite, ChangeRole, CreateProject, AcceptShare, DeleteOrg, Invite, RemoveMember,
      DeleteProject, ShareProject, RevokeShare;
    match call
    case CallCreateOrg(slug, a) => CreateOrgDescribed(s, slug, a);
    case CallAcceptInvite(token, a, now) => AcceptInviteDescribed(s, token, a, now);
    case CallChangeRole(o, target, role, a, now) => ChangeRoleDescribed(s, o, target, role, a, now);
    case CallCreateProject(o, slug, a) => CreateProjectDescribed(s, o, slug, a);
    case CallAcceptShare(token, a, now) => AcceptShareDescribed(s, token, a, now);
    case _ => OthersDescribed(s, call);
  }

  /** What an entry says of a row stays true as rows are revoked. */
  lemma DescriptionStays(row: AuditRow, caps: seq<Capability>, after: seq<Capability>)
    requires Describes(row, caps) && CapsGrow(caps, after)
    ensures Describes(row, after)
  {
    if row.diff.CapCreated? {
      EvolvedTags(caps[row.entityId], after[row.entityId]);
    }
  }

  /** At every point of every run each creation entry describes its capability, and each capability has one. */
  lemma {:induction false} LogDescribesCapabilities(states: seq<State>, steps: seq<Step>, i: nat)
    requires Trace(states, steps) && states[0] == EMPTY && i < |states|
    ensures forall r :: 0 <= r < |states[i].audit| ==> Describes(states[i].audit[r], states[i].caps)
    ensures forall c: CapId :: c < |states[i].caps| ==> HasEntry(states[i].audit, 0, c)
  {
    hide Serve, Route, Describes, HasEntry, CapsGrow, OrgsGrow, ProjectsGrow, InvitationsGrow, SharesGrow;
    if i > 0 {
      LogDescribesCapabilities(states, steps, i - 1);
      var s, t := states[i - 1], states[i];
      assert t == Next(s, steps[i - 1]);
      ServeDescribed(s, Route(s, steps[i - 1]));
      NextGrows(s, steps[i - 1]);
      forall r | 0 <= r < |t.audit| ensures Describes(t.audit[r], t.caps) {
        if r < |s.audit| {
          assert t.audit[r] == s.audit[r];
          DescriptionStays(s.audit[r], s.caps, t.caps);
        }
      }
      forall c: CapId | c < |t.caps| ensures HasEntry(t.audit, 0, c) {
        if c < |s.caps| {
          EntryStays(s.audit, t.audit, 0, 0, c);
        } else {
          EntryStays(t.audit, t.audit, |s.audit|, 0, c);
        }
      }
    }
  }

  /** A revocation entry carries the time and the actor of the request that wrote it. */
  lemma RevocationsAreSigned(s: State, step: Step, i: nat)
    requires |s.audit| <= i < |Next(s, step).audit| && Next(s, step).audit[i].diff.CapRevoked?
    ensures (step.PatchMember? || step.DeleteShare?) && Next(s, step).audit[i].diff == CapRevoked(step.now, step.a)
    ensures Next(s, step).audit[i].action == ActUpdate && Next(s, step).audit[i].entity == EntCapability
  {
    hide AdminGate, ProjectGate, Bundle, BundleRows, ProjectRows, MembersOf, RevokeBundleRows, BundleIds, RevokeTagged, RevokeOne,
      LiveProjects, FindMember, CountOwners, WithRole, WithoutMember, EffectiveTtl;
  }

  // ---- no entry twice ----

  /** A directory entry is written once. */
  predicate WrittenOnce(s: State, t: State) {
    forall i, j :: |s.audit| <= i < j < |t.audit| && t.audit[i].entity != EntCapability ==> t.audit[i] != t.audit[j]
  }

  lemma TailOnce(s: State, t: State, tail: seq<AuditRow>)
    requires Appends(s, t, tail) && forall i, j :: 0 <= i < j < |tail| ==> tail[i] != tail[j]
    ensures WrittenOnce(s, t)
  {
    var n := |t.audit| - |tail|;
    forall i, j | |s.audit| <= i < j < |t.audit| && t.audit[i].entity != EntCapability ensures t.audit[i] != t.audit[j] {
      assert t.audit[i] == tail[i - n] && t.audit[j] == tail[j - n];
    }
  }

  lemma ShareCallsWriteOnce(s: State, sid: ShareId, a: ActorId, now: Time)
    ensures WrittenOnce(s, AcceptShare(s, sid, a, now).0) && WrittenOnce(s, RevokeShare(s, sid, a, now).0)
  {
    hide FindMember, LiveProject, LiveOrg, RevokeOne;
  }

  lemma PlainCallsWriteOnce(s: State, call: Call)
    requires call.Refused? || call.CallInvite? || call.CallDeleteProject? || call.CallShareProject?
    ensures WrittenOnce(s, Serve(s, call))
  {
    hide FindMember, EffectiveTtl;
  }

  /** No request writes the same directory entry twice. */
  lemma EntriesAreSingle(s: State, step: Step)
    ensures WrittenOnce(s, Next(s, step))
  {
    hide Route, Appends, WrittenOnce, CreateOrg, DeleteOrg, ChangeRole, RemoveMember, CreateProject, AcceptShare, RevokeShare, FindMember, Join;
    NothingAppends(s);
    TailOnce(s, s, []);
    match Route(s, step)
    case CallCreateOrg(slug, a) =>
      CreateOrgAppends(s, slug, a);
      var r := CreateOrg(s, slug, a);
      TailOnce(s, r.0, if r.1.Ok? then [AuditRow(ActCreate, EntOrganisation, |s.orgs|, |s.orgs|, OtherDiff)] else []);
    case CallDeleteOrg(o, a, now) =>
      DeleteOrgAppends(s, o, a, now);
      var r := DeleteOrg(s, o, a, now);
      TailOnce(s, r.0, if r.1.Ok? then [AuditRow(ActDelete, EntOrganisation, o, o, OtherDiff)] else []);
    case CallAcceptInvite(token, a, now) =>
      if token < |s.invitations| {
        JoinAppends(s, token, a, now);
        var o := s.invitations[token].org;
        TailOnce(s, Join(s, token, a, now),
          [AuditRow(ActUpdate, EntInvitation, token, o, OtherDiff), AuditRow(ActCreate, EntMember, a, o, OtherDiff)]);
      }
    case CallChangeRole(o, target, role, a, now) =>
      ChangeRoleAppends(s, o, target, role, a, now);
      var r := ChangeRole(s, o, target, role, a, now);
      TailOnce(s, r.0, if r.1.Ok? && FindMember(s.members, o, target) != Some(role) then [AuditRow(ActUpdate, EntMember, target, o, OtherDiff)] else []);
    case CallRemoveMember(o, target, a, now) =>
      RemoveMemberAppends(s, o, target, a, now);
      var r := RemoveMember(s, o, target, a, now);
      TailOnce(s, r.0, if r.1.Ok? then [AuditRow(ActDelete, EntMember, target, o, OtherDiff)] else []);
    case CallCreateProject(o, slug, a) =>
      CreateProjectAppends(s, o, slug, a);
      var r := CreateProject(s, o, slug, a);
      TailOnce(s, r.0, if r.1.Ok? then [AuditRow(ActCreate, EntProject, |s.projects|, o, OtherDiff)] else []);
    case CallAcceptShare(token, a, now) => ShareCallsWriteOnce(s, token, a, now);
    case CallRevokeShare(sid, a, now) => ShareCallsWriteOnce(s, sid, a, now);
    case _ => PlainCallsWriteOnce(s, Route(s, step));
  }
}
