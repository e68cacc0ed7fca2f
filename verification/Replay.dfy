/**
 The audit log tells the whole story of the capability table: replaying it from nothing gives the
 unrevoked capabilities and their holders, even though removing a member and deleting an organisation
 log no row per capability, and accepting a share logs its capability twice.
 */
module Replay {
  import opened Prelude
  import opened Bundles
  import opened Tables
  import opened Authz
  import opened Services
  import opened Routes
  import opened Invariants
  import opened SaneSteps

  datatype Holder = Holder(org: OrgId, actor: ActorId)

  type Ledger = map<CapId, Holder>

  /** What one audit row says happened to the capabilities. */
  function Apply(l: Ledger, row: AuditRow): Ledger {
    if row.action == ActCreate && row.entity == EntCapability && row.diff.CapCreated? then
      l[row.entityId := Holder(row.org, row.diff.actor)]
    else if row.action == ActUpdate && row.entity == EntCapability && row.diff.CapRevoked? then
      l - {row.entityId}
    else if row.action == ActDelete && row.entity == EntMember then
      map i | i in l && l[i] != Holder(row.org, row.entityId) :: l[i]
    else if row.action == ActDelete && row.entity == EntOrganisation then
      map i | i in l && l[i].org != row.entityId :: l[i]
    else l
  }

  function ReplayFrom(l: Ledger, log: seq<AuditRow>): Ledger {
    if log == [] then l else Apply(ReplayFrom(l, log[..|log| - 1]), log[|log| - 1])
  }

  /** The unrevoked capabilities, with the organisation and actor each belongs to. */
  ghost function Unrevoked(caps: seq<Capability>): Ledger {
    map i: CapId | i < |caps| && Active(caps[i]) && TagOrg(caps[i]).Some? :: Holder(TagOrg(caps[i]).value, caps[i].actor)
  }

  ghost predicate Faithful(s: State) {
    ReplayFrom(map[], s.audit) == Unrevoked(s.caps)
  }

  lemma {:induction false} ReplayConcat(l: Ledger, a: seq<AuditRow>, b: seq<AuditRow>)
    ensures ReplayFrom(l, a + b) == ReplayFrom(ReplayFrom(l, a), b)
  {
    hide Apply;
    if b == [] {
      assert a + b == a;
    } else {
      var n := |b| - 1;
      assert (a + b)[..|a + b| - 1] == a + b[..n];
      ReplayConcat(l, a, b[..n]);
    }
  }

  lemma ReplayOne(l: Ledger, row: AuditRow)
    ensures ReplayFrom(l, [row]) == Apply(l, row)
  {
    assert [row][..0] == [];
    assert ReplayFrom(l, [row][..0]) == l;
  }

  // ---- minting ----

  /** The ledger entries of rows minted in a block from `first` on. */
  function Block(first: CapId, rows: seq<Capability>, o: OrgId): (l: Ledger)
    ensures forall i: CapId :: i in l <==> first <= i < first + |rows|
    ensures forall i: CapId :: i in l ==> l[i] == Holder(o, rows[i - first].actor)
  {
    if rows == [] then map[] else
      var n := |rows| - 1;
      Block(first, rows[..n], o)[first + n := Holder(o, rows[n].actor)]
  }

  lemma {:induction false} ReplayCreates(l: Ledger, first: CapId, rows: seq<Capability>, o: OrgId)
    ensures ReplayFrom(l, CreateRows(first, rows, o)) == l + Block(first, rows, o)
  {
    hide CreateRows, Apply;
    CreatesSplit(first, rows, o);
    if rows != [] {
      var n := |rows| - 1;
      ReplayCreates(l, first, rows[..n], o);
      var row := CreateRows(first, rows, o)[n];
      LogCreates(ReplayFrom(l, CreateRows(first, rows[..n], o)), row);
      assert l + Block(first, rows, o) == (l + Block(first, rows[..n], o))[first + n := Holder(o, rows[n].actor)];
    } else {
      assert l + Block(first, rows, o) == l;
    }
  }

  lemma CreatesSplit(first: CapId, rows: seq<Capability>, o: OrgId)
    ensures |CreateRows(first, rows, o)| == |rows|
    ensures rows != [] ==> var n := |rows| - 1;
      && CreateRows(first, rows, o)[..n] == CreateRows(first, rows[..n], o)
      && CreateRows(first, rows, o)[n] == AuditRow(ActCreate, EntCapability, first + n, o, CapAfter(rows[n]))
  {
  }

  lemma LogCreates(l: Ledger, row: AuditRow)
    requires row.action == ActCreate && row.entity == EntCapability && row.diff.CapCreated?
    ensures Apply(l, row) == l[row.entityId := Holder(row.org, row.diff.actor)]
  {
  }

  lemma UnrevokedAppend(caps: seq<Capability>, rows: seq<Capability>, o: OrgId)
    requires forall c :: c in rows ==> Active(c) && TagOrg(c) == Some(o)
    ensures Unrevoked(caps + rows) == Unrevoked(caps) + Block(|caps|, rows, o)
  {
    forall i: CapId | |caps| <= i < |caps| + |rows| ensures Active((caps + rows)[i]) && TagOrg((caps + rows)[i]) == Some(o) {
      assert (caps + rows)[i] == rows[i - |caps|] && rows[i - |caps|] in rows;
    }
  }

  lemma MintFaithful(s: State, o: OrgId, rows: seq<Capability>)
    requires Faithful(s) && forall c :: c in rows ==> Active(c) && TagOrg(c) == Some(o)
    ensures Faithful(Mint(s, o, rows))
  {
    hide Unrevoked;
    ReplayConcat(map[], s.audit, CreateRows(|s.caps|, rows, o));
    ReplayCreates(Unrevoked(s.caps), |s.caps|, rows, o);
    UnrevokedAppend(s.caps, rows, o);
  }

  /** Rows that say nothing about capabilities. */
  predicate Silent(row: AuditRow) {
    row.diff.OtherDiff? && !(row.action == ActDelete && (row.entity == EntMember || row.entity == EntOrganisation))
  }

  lemma SilentRow(s: State, row: AuditRow)
    requires Faithful(s) && Silent(row)
    ensures Faithful(s.(audit := s.audit + [row]))
  {
    ReplayConcat(map[], s.audit, [row]);
    ReplayOne(ReplayFrom(map[], s.audit), row);
  }

  lemma LoudRow(s: State, t: State, row: AuditRow)
    requires Faithful(s) && t.audit == s.audit + [row] && Unrevoked(t.caps) == Apply(Unrevoked(s.caps), row)
    ensures Faithful(t)
  {
    ReplayConcat(map[], s.audit, [row]);
    ReplayOne(ReplayFrom(map[], s.audit), row);
  }

  // ---- revoking ----

  lemma {:induction false} ReplayRevokes(l: Ledger, ids: seq<CapId>, o: OrgId, now: Time, a: ActorId)
    ensures ReplayFrom(l, RevokeRows(ids, o, now, a)) == l - set i | i in ids
  {
    if ids != [] {
      var n := |ids| - 1;
      assert RevokeRows(ids, o, now, a)[..n] == RevokeRows(ids[..n], o, now, a);
      ReplayRevokes(l, ids[..n], o, now, a);
      assert ids == ids[..n] + [ids[n]];
    }
  }

  lemma RevokeBundleFaithful(s: State, a: ActorId, b: BundleName, o: OrgId, revokedBy: ActorId, now: Time)
    requires Faithful(s)
    ensures Faithful(RevokeBundle(s, a, b, o, revokedBy, now))
  {
    var ids := BundleIds(s.caps, a, b, o);
    var rows := RevokeRows(ids, o, now, revokedBy);
    ReplayConcat(map[], s.audit, rows);
    ReplayRevokes(Unrevoked(s.caps), ids, o, now, revokedBy);
    UnrevokedBundle(s.caps, a, b, o, now);
  }

  lemma UnrevokedBundle(caps: seq<Capability>, a: ActorId, b: BundleName, o: OrgId, now: Time)
    ensures Unrevoked(RevokeBundleRows(caps, a, b, o, now)) == Unrevoked(caps) - set i | i in BundleIds(caps, a, b, o)
  {
  }

  lemma DeleteOrgFaithful(s: State, o: OrgId, a: ActorId, now: Time)
    requires Faithful(s)
    ensures Faithful(DeleteOrg(s, o, a, now).0)
  {
    if LiveOrg(s.orgs, o) {
      var row := AuditRow(ActDelete, EntOrganisation, o, o, OtherDiff);
      UnrevokedOrg(s.caps, o, now, a);
      LoudRow(s, DeleteOrg(s, o, a, now).0, row);
    }
  }

  lemma UnrevokedOrg(caps: seq<Capability>, o: OrgId, now: Time, a: ActorId)
    ensures var l := Unrevoked(caps);
      Unrevoked(RevokeTagged(caps, o, None, now, a)) == map i | i in l && l[i].org != o :: l[i]
  {
  }

  lemma UnrevokedMember(caps: seq<Capability>, o: OrgId, target: ActorId, now: Time, a: ActorId)
    ensures var l := Unrevoked(caps);
      Unrevoked(RevokeTagged(caps, o, Some(target), now, a)) == map i | i in l && l[i] != Holder(o, target) :: l[i]
  {
  }

  lemma RemoveMemberFaithful(s: State, o: OrgId, target: ActorId, a: ActorId, now: Time)
    requires Faithful(s)
    ensures Faithful(RemoveMember(s, o, target, a, now).0)
  {
    hide Unrevoked, RevokeTagged;
    var r := RemoveMember(s, o, target, a, now);
    if r.1.Ok? {
      var row := AuditRow(ActDelete, EntMember, target, o, OtherDiff);
      UnrevokedMember(s.caps, o, target, now, a);
      LoudRow(s, r.0, row);
    }
  }

  // ---- the services ----

  lemma PlainRowsTagged(rows: seq<Capability>, o: OrgId)
    requires forall c :: c in rows ==> Plain(c, o)
    ensures forall c :: c in rows ==> Active(c) && TagOrg(c) == Some(o)
  {
  }

  lemma CreateOrgFaithful(s: State, slug: string, a: ActorId)
    requires Faithful(s)
    ensures Faithful(CreateOrg(s, slug, a).0)
  {
    hide Bundle, BundleRows, CreateRows, Unrevoked;
    var r := CreateOrg(s, slug, a);
    if r.1.Ok? {
      var o := |s.orgs|;
      var g := Grantee(a, Primary(RoleOwner), a, None, map[MetaOrg := o]);
      var rows := BundleRows(g, Bundle(Primary(RoleOwner)), o, [], None);
      BundleRowsPlain(g, Bundle(Primary(RoleOwner)), o, []);
      PlainRowsTagged(rows, o);
      var s1 := s.(orgs := r.0.orgs, members := r.0.members);
      MintFaithful(s1, o, rows);
      SilentRow(Mint(s1, o, rows), AuditRow(ActCreate, EntOrganisation, o, o, OtherDiff));
    }
  }

  lemma AcceptInviteFaithful(s: State, token: nat, a: ActorId, now: Time)
    requires Faithful(s)
    ensures Faithful(AcceptInvite(s, token, a, now).0)
  {
    hide Bundle, BundleRows, CreateRows, Unrevoked, LiveProjects;
    if AcceptInvite(s, token, a, now).0 != s {
      var t, inv, rows := Join(s, token, a, now), s.invitations[token], JoinRows(s, s.invitations[token], a);
      JoinDelta(s, token, a, now);
      PlainRowsTagged(rows, inv.org);
      var s1 := s.(invitations := t.invitations, members := t.members);
      MintFaithful(s1, inv.org, rows);
      var s2 := Mint(s1, inv.org, rows);
      var r1 := AuditRow(ActUpdate, EntInvitation, token, inv.org, OtherDiff);
      var r2 := AuditRow(ActCreate, EntMember, a, inv.org, OtherDiff);
      SilentRow(s2, r1);
      SilentRow(s2.(audit := s2.audit + [r1]), r2);
      assert t.audit == s2.audit + [r1] + [r2];
    }
  }

  lemma ChangeRoleFaithful(s: State, o: OrgId, target: ActorId, role: Role, a: ActorId, now: Time)
    requires Faithful(s)
    ensures Faithful(ChangeRole(s, o, target, role, a, now).0)
  {
    hide Bundle, BundleRows, RevokeBundle, CreateRows, Unrevoked, LiveProjects, WithRole;
    var r := ChangeRole(s, o, target, role, a, now);
    var f := FindMember(s.members, o, target);
    if r.1.Ok? && f.value != role {
      var ps := LiveProjects(s.projects, o);
      var g := Grantee(target, Primary(role), a, None, map[MetaOrg := o]);
      var rows := BundleRows(g, Bundle(Primary(role)), o, ps, None);
      BundleRowsPlain(g, Bundle(Primary(role)), o, ps);
      PlainRowsTagged(rows, o);
      var s1 := RevokeBundle(s, target, Primary(f.value), o, a, now);
      RevokeBundleFaithful(s, target, Primary(f.value), o, a, now);
      MintFaithful(s1, o, rows);
      SilentRow(Mint(s1, o, rows), AuditRow(ActUpdate, EntMember, target, o, OtherDiff));
    }
  }

  lemma CreateProjectFaithful(s: State, o: OrgId, slug: string, a: ActorId)
    requires Faithful(s)
    ensures Faithful(CreateProject(s, o, slug, a).0)
  {
    hide Bundle, ProjectRows, CreateRows, Unrevoked, MembersOf;
    var r := CreateProject(s, o, slug, a);
    if r.1.Ok? {
      var p, ms := |s.projects|, MembersOf(s.members, o);
      var rows := ProjectRows(ms, o, p, a);
      ProjectRowsPlain(ms, o, p, a);
      PlainRowsTagged(rows, o);
      var s1 := s.(projects := r.0.projects);
      MintFaithful(s1, o, rows);
      SilentRow(Mint(s1, o, rows), AuditRow(ActCreate, EntProject, p, o, OtherDiff));
    }
  }

  lemma AcceptShareFaithful(s: State, token: ShareId, a: ActorId, now: Time)
    requires Faithful(s)
    ensures Faithful(AcceptShare(s, token, a, now).0)
  {
    hide CreateRows, Unrevoked;
    var r := AcceptShare(s, token, a, now);
    if r.1.Ok? {
      var sh := s.shares[token];
      var logged := AuditRow(ActUpdate, EntShare, token, sh.org, OtherDiff);
      if FindMember(s.members, sh.org, a).Some? {
        SilentRow(s, logged);
      } else {
        var row := GuestRow(sh, token, a);
        var s1 := Mint(s, sh.org, [row]);
        MintFaithful(s, sh.org, [row]);
        SilentRow(s1, logged);
        var again := AuditRow(ActCreate, EntCapability, |s.caps|, sh.org, CapAfter(row));
        RecreateIsNoOp(s.caps, row, sh.org, again);
        LoudRow(s1.(audit := s1.audit + [logged]), s1.(audit := s1.audit + [logged] + [again]), again);
        assert r.0.audit == s1.audit + [logged] + [again];
      }
    }
  }

  lemma RecreateIsNoOp(caps: seq<Capability>, row: Capability, o: OrgId, again: AuditRow)
    requires Active(row) && TagOrg(row) == Some(o)
    requires again == AuditRow(ActCreate, EntCapability, |caps|, o, CapAfter(row))
    ensures Apply(Unrevoked(caps + [row]), again) == Unrevoked(caps + [row])
  {
    assert (caps + [row])[|caps|] == row;
  }

  lemma RevokeShareFaithful(s: State, sid: ShareId, a: ActorId, now: Time)
    requires Faithful(s)
    ensures Faithful(RevokeShare(s, sid, a, now).0)
  {
    hide Unrevoked, RevokeOne;
    var t := RevokeShare(s, sid, a, now).0;
    if sid < |s.shares| && t != s {
      var sh := s.shares[sid];
      var logged := AuditRow(ActDelete, EntShare, sid, sh.org, OtherDiff);
      SilentRow(s, logged);
      if sh.consumedAt.Some? {
        var cap := sh.consumedCapability.value;
        var gone := AuditRow(ActUpdate, EntCapability, cap, sh.org, CapRevoked(now, a));
        UnrevokedOne(s.caps, cap, now, a);
        LoudRow(s.(audit := s.audit + [logged]), t.(audit := s.audit + [logged] + [gone]), gone);
        assert t.audit == s.audit + [logged] + [gone];
      }
    }
  }

  lemma UnrevokedOne(caps: seq<Capability>, cap: CapId, now: Time, a: ActorId)
    ensures Unrevoked(RevokeOne(caps, cap, now, a)) == Unrevoked(caps) - {cap}
  {
  }

  lemma InviteFaithful(s: State, o: OrgId, who: Option<ActorId>, role: Role, a: ActorId, now: Time)
    requires Faithful(s)
    ensures Faithful(Invite(s, o, who, role, a, now).0)
  {
    hide Unrevoked, ReplayFrom, FindMember;
    SilentRow(s, AuditRow(ActCreate, EntInvitation, |s.invitations|, o, OtherDiff));
  }

  lemma DeleteProjectFaithful(s: State, p: ProjectId, a: ActorId, now: Time)
    requires Faithful(s)
    ensures Faithful(DeleteProject(s, p, a, now).0)
  {
    hide Unrevoked, ReplayFrom;
    if LiveProject(s.projects, p) {
      SilentRow(s, AuditRow(ActDelete, EntProject, p, s.projects[p].org, OtherDiff));
    }
  }

  lemma ShareProjectFaithful(s: State, o: OrgId, p: ProjectId, ttl: Option<Time>, a: ActorId, now: Time)
    requires Faithful(s)
    ensures Faithful(ShareProject(s, o, p, a, ttl, now).0)
  {
    hide Unrevoked, ReplayFrom, EffectiveTtl;
    SilentRow(s, AuditRow(ActCreate, EntShare, |s.shares|, o, OtherDiff));
  }

  lemma ServeFaithful(s: State, call: Call)
    requires Faithful(s)
    ensures Faithful(Serve(s, call))
  {
    hide CreateOrg, DeleteOrg, Invite, AcceptInvite, ChangeRole, RemoveMember, CreateProject, DeleteProject,
      ShareProject, AcceptShare, RevokeShare, Faithful;
    match call
    case Refused =>
    case CallCreateOrg(slug, a) => CreateOrgFaithful(s, slug, a);
    case CallDeleteOrg(o, a, now) => DeleteOrgFaithful(s, o, a, now);
    case CallInvite(o, who, role, a, now) => InviteFaithful(s, o, who, role, a, now);
    case CallAcceptInvite(token, a, now) => AcceptInviteFaithful(s, token, a, now);
    case CallChangeRole(o, target, role, a, now) => ChangeRoleFaithful(s, o, target, role, a, now);
    case CallRemoveMember(o, target, a, now) => RemoveMemberFaithful(s, o, target, a, now);
    case CallCreateProject(o, slug, a) => CreateProjectFaithful(s, o, slug, a);
    case CallDeleteProject(p, a, now) => DeleteProjectFaithful(s, p, a, now);
    case CallShareProject(o, p, ttl, a, now) => ShareProjectFaithful(s, o, p, ttl, a, now);
    case CallAcceptShare(token, a, now) => AcceptShareFaithful(s, token, a, now);
    case CallRevokeShare(sid, a, now) => RevokeShareFaithful(s, sid, a, now);
  }

  lemma {:induction false} RunsFaithful(states: seq<State>, steps: seq<Step>, i: nat)
    requires Trace(states, steps) && states[0] == EMPTY && i < |states|
    ensures Faithful(states[i])
  {
    hide Serve, Route;
    if i > 0 {
      RunsFaithful(states, steps, i - 1);
      assert states[i] == Next(states[i - 1], steps[i - 1]);
      ServeFaithful(states[i - 1], Route(states[i - 1], steps[i - 1]));
    }
  }

  /** At every point of every run, replaying the log from empty yields exactly the unrevoked capabilities and their holders. */
  lemma LogReplaysToTable(states: seq<State>, steps: seq<Step>, i: nat)
    requires Trace(states, steps) && states[0] == EMPTY && i < |states|
    ensures var l, caps := ReplayFrom(map[], states[i].audit), states[i].caps;
      && (forall c: CapId :: c in l <==> c < |caps| && Active(caps[c]))
      && (forall c: CapId :: c in l ==> caps[c].actor == l[c].actor && TagOrg(caps[c]) == Some(l[c].org))
  {
    hide Next, FanOut, ReplayFrom, RowsSane, MembersSane, DeadOrgsRevoked;
    RunsFaithful(states, steps, i);
    RunsKeepInv(states, steps, i);
    var caps := states[i].caps;
    forall c: CapId | c < |caps| ensures TagOrg(caps[c]).Some? {
      assert CapSane(states[i], caps[c], c);
    }
  }
}
