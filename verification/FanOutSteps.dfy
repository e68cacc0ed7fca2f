/** Every service call behind its gate keeps the capability fan-out exact. */
module FanOutSteps {
  import opened Prelude
  import opened Bundles
  import opened Tables
  import opened Authz
  import opened Services
  import opened Minting
  import opened Invariants

  lemma CreateOrgFanOut(s: State, slug: string, a: ActorId)
    requires Inv(s)
    ensures FanOut(CreateOrg(s, slug, a).0)
  {
    hide Bundle, BundleRows, Granted, Holds;
    var r := CreateOrg(s, slug, a);
    if r.1.Ok? {
      var t, o := r.0, |s.orgs|;
      var g := Grantee(a, Primary(RoleOwner), a, None, map[MetaOrg := o]);
      var rows := BundleRows(g, Bundle(Primary(RoleOwner)), o, [], None);
      PrimaryRows(g, RoleOwner, o, []);
      AppendKeepsFanOut(s, t, rows);
    }
  }

  lemma DeleteOrgFanOut(s: State, o: OrgId, a: ActorId, now: Time)
    requires Inv(s)
    ensures FanOut(DeleteOrg(s, o, a, now).0)
  {
    hide Bundle, Granted;
    if LiveOrg(s.orgs, o) {
      var t := DeleteOrg(s, o, a, now).0;
      forall i, k | 0 <= i < |s.caps| && Holds(t.caps[i], k) ensures Holds(s.caps[i], k) && Tolerated(t, k) {
        assert t.caps[i] == s.caps[i] && s.caps[i] in s.caps;
        assert HasActive(s.caps, k);
      }
      ShrinkKeepsFanOut(s, t);
    }
  }

  lemma JoinFanOut(s: State, token: nat, a: ActorId, now: Time)
    requires Inv(s) && token < |s.invitations| && LiveOrg(s.orgs, s.invitations[token].org)
    requires FindMember(s.members, s.invitations[token].org, a).None?
    ensures FanOut(Join(s, token, a, now))
  {
    hide Bundle, BundleRows, Granted, Holds;
    var t, inv := Join(s, token, a, now), s.invitations[token];
    var ps := LiveProjects(s.projects, inv.org);
    var g := Grantee(a, Primary(inv.role), inv.invitedBy, None, map[MetaOrg := inv.org]);
    var rows := BundleRows(g, Bundle(Primary(inv.role)), inv.org, ps, None);
    PrimaryRows(g, inv.role, inv.org, ps);
    AppendKeepsFanOut(s, t, rows);
  }

  lemma RemoveMemberFanOut(s: State, o: OrgId, target: ActorId, a: ActorId, now: Time)
    requires Inv(s)
    ensures FanOut(RemoveMember(s, o, target, a, now).0)
  {
    hide Bundle, Granted;
    var t := RemoveMember(s, o, target, a, now).0;
    if RemoveMember(s, o, target, a, now).1.Ok? {
      forall i, k | 0 <= i < |s.caps| && Holds(t.caps[i], k) ensures Holds(s.caps[i], k) && Tolerated(t, k) {
        assert t.caps[i] == s.caps[i] && s.caps[i] in s.caps;
        assert HasActive(s.caps, k);
      }
      ShrinkKeepsFanOut(s, t);
    }
  }

  lemma CreateProjectFanOut(s: State, o: OrgId, slug: string, a: ActorId)
    requires Inv(s) && LiveOrg(s.orgs, o)
    ensures FanOut(CreateProject(s, o, slug, a).0)
  {
    hide Bundle, ProjectRows, Granted, Holds;
    var r := CreateProject(s, o, slug, a);
    if r.1.Ok? {
      var p, ms := |s.projects|, MembersOf(s.members, o);
      ProjectRowsHold(ms, o, p, a);
      AppendKeepsFanOut(s, r.0, ProjectRows(ms, o, p, a));
    }
  }

  lemma DeleteProjectFanOut(s: State, p: ProjectId, a: ActorId, now: Time)
    requires Inv(s)
    ensures FanOut(DeleteProject(s, p, a, now).0)
  {
    hide Bundle, Granted, Holds;
    if LiveProject(s.projects, p) {
      DirectoryKeepsFanOut(s, DeleteProject(s, p, a, now).0);
    }
  }

  lemma AcceptShareFanOut(s: State, token: ShareId, a: ActorId, now: Time)
    requires Inv(s)
    ensures FanOut(AcceptShare(s, token, a, now).0)
  {
    hide Bundle, Granted, CapSane;
    var t := AcceptShare(s, token, a, now).0;
    if |t.caps| > |s.caps| {
      var rows := [GuestRow(s.shares[token], token, a)];
      assert forall k :: !HasActive(rows, k);
      AppendKeepsFanOut(s, t, rows);
    } else {
      assert t.caps == s.caps;
      DirectoryKeepsFanOut(s, t);
    }
  }

  lemma RevokeShareFanOut(s: State, sid: ShareId, revokedBy: ActorId, now: Time)
    requires Inv(s)
    ensures FanOut(RevokeShare(s, sid, revokedBy, now).0)
  {
    hide Bundle, Granted;
    var t := RevokeShare(s, sid, revokedBy, now).0;
    if sid < |s.shares| {
      assert ShareSane(s, s.shares[sid], sid);
      forall i, k | 0 <= i < |s.caps| && Holds(t.caps[i], k) ensures Holds(s.caps[i], k) && Tolerated(t, k) {
        assert t.caps[i] == s.caps[i] && s.caps[i] in s.caps;
        assert HasActive(s.caps, k);
      }
      ShrinkKeepsFanOut(s, t);
    }
  }

  // ---- change_role: the old bundle goes, the new one comes ----

  /** Between the two halves of a role change the target holds no primary row and no role. */
  lemma DemotedFanOut(s: State, o: OrgId, target: ActorId, oldRole: Role, a: ActorId, now: Time) returns (mid: State)
    requires Inv(s) && FindMember(s.members, o, target) == Some(oldRole)
    ensures mid == RevokeBundle(s, target, Primary(oldRole), o, a, now).(members := WithoutMember(s.members, o, target))
    ensures FanOut(mid)
  {
    hide Bundle, Granted;
    mid := RevokeBundle(s, target, Primary(oldRole), o, a, now).(members := WithoutMember(s.members, o, target));
    forall i, k | 0 <= i < |s.caps| && Holds(mid.caps[i], k) ensures Holds(s.caps[i], k) && Tolerated(mid, k) {
      assert mid.caps[i] == s.caps[i];
      assert HasActive(s.caps, k);
      MemberRoleUnique(s, k.org, k.actor, k.role);
    }
    ShrinkKeepsFanOut(s, mid);
  }

  lemma MemberRoleUnique(s: State, o: OrgId, a: ActorId, r: Role)
    requires MembersSane(s)
    ensures Member(o, a, r) in s.members <==> FindMember(s.members, o, a) == Some(r)
  {
    var f := FindMember(s.members, o, a);
    if Member(o, a, r) in s.members {
      var i :| 0 <= i < |s.members| && s.members[i] == Member(o, a, r);
      var j :| 0 <= j < |s.members| && s.members[j] == Member(o, a, f.value);
    }
  }

  lemma WithRoleMembers(members: seq<Member>, o: OrgId, a: ActorId, r: Role, oldRole: Role)
    requires FindMember(members, o, a) == Some(oldRole)
    ensures forall m :: m in WithRole(members, o, a, r) <==>
      m == Member(o, a, r) || (m in members && !(m.org == o && m.actor == a))
    ensures UniqueMembers(members) ==> UniqueMembers(WithRole(members, o, a, r))
  {
    var n := WithRole(members, o, a, r);
    forall m ensures m in n <==> m == Member(o, a, r) || (m in members && !(m.org == o && m.actor == a)) {
      if m == Member(o, a, r) {
        var i :| 0 <= i < |members| && members[i] == Member(o, a, oldRole);
        assert n[i] == m;
      } else if m in members && !(m.org == o && m.actor == a) {
        var i :| 0 <= i < |members| && members[i] == m;
        assert n[i] == m;
      }
    }
  }

  lemma ChangeRoleFanOut(s: State, o: OrgId, target: ActorId, role: Role, a: ActorId, now: Time)
    requires Inv(s) && LiveOrg(s.orgs, o)
    ensures FanOut(ChangeRole(s, o, target, role, a, now).0)
  {
    hide Bundle, BundleRows, Granted, Holds, WithRole, RevokeBundleRows;
    var r := ChangeRole(s, o, target, role, a, now);
    var f := FindMember(s.members, o, target);
    if r.1.Ok? && f.value != role {
      var t := r.0;
      var mid := DemotedFanOut(s, o, target, f.value, a, now);
      WithRoleMembers(s.members, o, target, role, f.value);
      var ps := LiveProjects(s.projects, o);
      var g := Grantee(target, Primary(role), a, None, map[MetaOrg := o]);
      var rows := BundleRows(g, Bundle(Primary(role)), o, ps, None);
      PrimaryRows(g, role, o, ps);
      assert t.caps == mid.caps + rows;
      AppendKeepsFanOut(mid, t, rows);
    }
  }
}
