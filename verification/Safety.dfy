/** Whole-run safety of the tenancy store. */
module Safety {
  import opened Prelude
  import opened Bundles
  import opened Tables
  import opened Authz
  import opened Services
  import opened Routes
  import opened History
  import opened Minting
  import opened Invariants
  import opened FanOutSteps
  import opened SaneSteps
  import opened Refinement

  // ---- exactly one row per entitlement ----

  function CountHolding(caps: seq<Capability>, k: Key): nat {
    if caps == [] then 0 else
      var n := |caps| - 1;
      CountHolding(caps[..n], k) + if Holds(caps[n], k) then 1 else 0
  }

  lemma {:induction false} UniqueCount(caps: seq<Capability>, k: Key)
    requires Unique(caps)
    ensures CountHolding(caps, k) == if HasActive(caps, k) then 1 else 0
  {
    hide Holds;
    if caps != [] {
      var n := |caps| - 1;
      var first := caps[..n];
      forall i, j, l | 0 <= i < j < n && Holds(first[i], l) ensures !Holds(first[j], l) {
        assert Holds(caps[i], l);
      }
      UniqueCount(first, k);
      if HasActive(first, k) {
        var c :| c in first && Holds(c, k);
        var i :| 0 <= i < n && first[i] == c;
        assert Holds(caps[i], k) && c in caps;
        assert !Holds(caps[n], k);
      } else if HasActive(caps, k) {
        assert caps == first + [caps[n]];
      }
    }
  }

  /**
   In every reachable state each member of a live organisation holds exactly one active row per
   template and live target of its role; any other active primary row names a project that has been
   deleted since, and still belongs to a member under the role it has now.
   */
  lemma ExactFanOut(states: seq<State>, steps: seq<Step>, i: nat, k: Key)
    requires Trace(states, steps) && states[0] == EMPTY && i < |states|
    ensures Wanted(states[i], k) ==> CountHolding(states[i].caps, k) == 1
    ensures !Wanted(states[i], k) ==>
      CountHolding(states[i].caps, k) <=
        if Tolerated(states[i], k) && k.resourceType == RtProject && !LiveProject(states[i].projects, k.resource.value) then 1 else 0
  {
    hide Next, Granted, Sane, Holds, HasActive;
    RunsKeepInv(states, steps, i);
    UniqueCount(states[i].caps, k);
  }

  // ---- every organisation keeps an owner ----

  ghost predicate HasOwner(members: seq<Member>, o: OrgId) {
    exists a: ActorId :: Member(o, a, RoleOwner) in members
  }

  lemma {:induction false} SoleOwnerCount(members: seq<Member>, o: OrgId, a: ActorId)
    requires UniqueMembers(members)
    requires forall m :: m in members && m.org == o && m.role == RoleOwner ==> m.actor == a
    ensures CountOwners(members, o) <= if Member(o, a, RoleOwner) in members then 1 else 0
  {
    if members != [] {
      var n := |members| - 1;
      SoleOwnerCount(members[..n], o, a);
      if Member(o, a, RoleOwner) in members[..n] {
        var i :| 0 <= i < n && members[i] == Member(o, a, RoleOwner);
      }
    }
  }

  /** The guard of `change_role` and `remove`: with two owners, losing one leaves another. */
  lemma AnotherOwner(members: seq<Member>, o: OrgId, target: ActorId) returns (a: ActorId)
    requires UniqueMembers(members) && CountOwners(members, o) >= 2
    ensures a != target && Member(o, a, RoleOwner) in members
  {
    if forall m :: m in members && m.org == o && m.role == RoleOwner ==> m.actor == target {
      SoleOwnerCount(members, o, target);
    }
    var m :| m in members && m.org == o && m.role == RoleOwner && m.actor != target;
    a := m.actor;
  }

  ghost predicate AllOwned(s: State) {
    forall o: OrgId :: o < |s.orgs| ==> HasOwner(s.members, o)
  }

  lemma RoleChangeKeepsOwners(s: State, o: OrgId, target: ActorId, role: Role, a: ActorId, now: Time)
    requires MembersSane(s) && AllOwned(s)
    ensures AllOwned(ChangeRole(s, o, target, role, a, now).0)
  {
    hide MintBundle, RevokeBundle, WithRole;
    var r := ChangeRole(s, o, target, role, a, now);
    var f := FindMember(s.members, o, target);
    if r.1.Ok? && f.value != role {
      WithRoleMembers(s.members, o, target, role, f.value);
      MintLeavesOrgs(s, o, target, f.value, role, a, now);
      assert r.0.members == WithRole(s.members, o, target, role);
      forall x: OrgId | x < |s.orgs| ensures HasOwner(r.0.members, x) {
        assert HasOwner(s.members, x);
        var b: ActorId :| Member(x, b, RoleOwner) in s.members;
        if x == o && b == target {
          MemberRoleUnique(s, o, target, RoleOwner);
          b := AnotherOwner(s.members, o, target);
        }
        assert Member(x, b, RoleOwner) in r.0.members;
      }
    }
  }

  lemma MintLeavesOrgs(s: State, o: OrgId, target: ActorId, oldRole: Role, role: Role, a: ActorId, now: Time)
    ensures MintBundle(RevokeBundle(s, target, Primary(oldRole), o, a, now), target, Primary(role), o, a,
                       LiveProjects(s.projects, o), None).orgs == s.orgs
  {
  }

  lemma RemovalKeepsOwners(s: State, o: OrgId, target: ActorId, a: ActorId, now: Time)
    requires MembersSane(s) && AllOwned(s)
    ensures AllOwned(RemoveMember(s, o, target, a, now).0)
  {
    hide RevokeTagged;
    var r := RemoveMember(s, o, target, a, now);
    if r.1.Ok? {
      forall x: OrgId | x < |s.orgs| ensures HasOwner(r.0.members, x) {
        assert HasOwner(s.members, x);
        var b: ActorId :| Member(x, b, RoleOwner) in s.members;
        if x == o && b == target {
          MemberRoleUnique(s, o, target, RoleOwner);
          b := AnotherOwner(s.members, o, target);
        }
        assert Member(x, b, RoleOwner) in r.0.members;
      }
    }
  }

  lemma OtherCallsKeepOwners(s: State, slug: string, o: OrgId, token: nat, a: ActorId, now: Time)
    requires AllOwned(s)
    ensures AllOwned(CreateOrg(s, slug, a).0)
    ensures AllOwned(DeleteOrg(s, o, a, now).0)
    ensures AllOwned(AcceptInvite(s, token, a, now).0)
  {
    hide MintBundle, RevokeTagged;
    MintBundleLeavesDirectory(s, slug, token, a, now);
    var t := CreateOrg(s, slug, a).0;
    forall x: OrgId | x < |t.orgs| ensures HasOwner(t.members, x) {
      if x < |s.orgs| {
        assert HasOwner(s.members, x);
        var b: ActorId :| Member(x, b, RoleOwner) in s.members;
        assert Member(x, b, RoleOwner) in t.members;
      } else {
        assert Member(x, a, RoleOwner) in t.members;
      }
    }
    var u := AcceptInvite(s, token, a, now).0;
    forall x: OrgId | x < |u.orgs| ensures HasOwner(u.members, x) {
      assert HasOwner(s.members, x);
      var b: ActorId :| Member(x, b, RoleOwner) in s.members;
      assert Member(x, b, RoleOwner) in u.members;
    }
  }

  lemma MintBundleLeavesDirectory(s: State, slug: string, token: nat, a: ActorId, now: Time)
    ensures var r := CreateOrg(s, slug, a);
      r.1.Ok? ==> r.0.orgs == s.orgs + [Org(slug, None)] && r.0.members == s.members + [Member(|s.orgs|, a, RoleOwner)]
    ensures var t := AcceptInvite(s, token, a, now).0;
      t.orgs == s.orgs && (t == s || (Redeemable(s, token, now) && t.members == s.members + [Member(s.invitations[token].org, a, s.invitations[token].role)]))
  {
  }

  lemma ServeKeepsOwners(s: State, call: Call)
    requires MembersSane(s) && AllOwned(s)
    ensures AllOwned(Serve(s, call))
  {
    hide CreateOrg, DeleteOrg, AcceptInvite, ChangeRole, RemoveMember, BundleRows, ProjectRows;
    match call
    case CallCreateOrg(slug, a) => OtherCallsKeepOwners(s, slug, 0, 0, a, 0);
    case CallDeleteOrg(o, a, now) => OtherCallsKeepOwners(s, "", o, 0, a, now);
    case CallAcceptInvite(token, a, now) => OtherCallsKeepOwners(s, "", 0, token, a, now);
    case CallChangeRole(o, target, role, a, now) => RoleChangeKeepsOwners(s, o, target, role, a, now);
    case CallRemoveMember(o, target, a, now) => RemovalKeepsOwners(s, o, target, a, now);
    case _ =>
  }

  /** Every organisation ever created, deleted or not, has an owner at every point of every run. */
  lemma {:induction false} LastOwnerStays(states: seq<State>, steps: seq<Step>, i: nat)
    requires Trace(states, steps) && states[0] == EMPTY && i < |states|
    ensures forall o: OrgId :: o < |states[i].orgs| ==> HasOwner(states[i].members, o)
  {
    hide Next, Route, Serve, HasOwner, FanOut;
    if i > 0 {
      LastOwnerStays(states, steps, i - 1);
      RunsKeepInv(states, steps, i - 1);
      assert states[i] == Next(states[i - 1], steps[i - 1]);
      NextIsServe(states[i - 1], steps[i - 1]);
      ServeKeepsOwners(states[i - 1], Route(states[i - 1], steps[i - 1]));
    }
  }

  lemma NextIsServe(s: State, step: Step)
    ensures Next(s, step) == Serve(s, Route(s, step))
  {
  }

  /** Owners come from organisation creation or a role change, never from an invitation. */
  lemma WhereOwnersComeFrom(s: State, step: Step, o: OrgId, a: ActorId)
    requires Inv(s)
    requires Member(o, a, RoleOwner) in Next(s, step).members && Member(o, a, RoleOwner) !in s.members
    ensures || (step.PostOrg? && step.a == a && o == |s.orgs|)
            || (step.PatchMember? && step.target == a && step.role == RoleOwner)
  {
    hide Bundle, BundleRows, ProjectRows, RevokeTagged, RevokeBundleRows, RevokeRows, CreateRows, WithRole, FanOut,
      CapsSane, LiveProjects, MembersOf, DeadOrgsRevoked, AdminGate, ProjectGate, ShareSane, UniqueMembers;
    var call := Route(s, step);
    if call.CallChangeRole? {
      var f := FindMember(s.members, call.o, call.target);
      if f.Some? {
        WithRoleMembers(s.members, call.o, call.target, call.role, f.value);
      }
    }
  }

  // ---- deletion of an organisation is terminal ----

  /** Once an organisation is deleted, none of its capabilities is active in any later state. */
  lemma OrgDeletionIsTerminal(states: seq<State>, steps: seq<Step>, i: nat, j: nat, o: OrgId)
    requires Trace(states, steps) && states[0] == EMPTY && i <= j < |states|
    requires o < |states[i].orgs| && states[i].orgs[o].deletedAt.Some?
    ensures forall c :: c in states[j].caps && TagOrg(c) == Some(o) ==> !Active(c)
    ensures forall a: ActorId, op, now: Time :: !Can(states[j].caps, a, op, RtOrganisation, Some(o), now)
  {
    hide Next, FanOut, LoadActive, RowsSane, MembersSane;
    RunsGrow(states, steps, i, j);
    RunsKeepInv(states, steps, j);
  }

  // ---- revoking a share is final ----

  /** Nothing active stems from the share, and nothing ever will. */
  predicate ShareDead(s: State, sid: ShareId) {
    && sid < |s.shares| && s.shares[sid].consumedAt.Some?
    && forall c :: c in s.caps && TagShare(c) == Some(sid) ==> !Active(c)
  }

  lemma RevokeKillsShare(s: State, sid: ShareId, a: ActorId, now: Time)
    requires Sane(s) && RevokeShare(s, sid, a, now).1.Ok?
    ensures ShareDead(RevokeShare(s, sid, a, now).0, sid)
  {
    hide MembersSane, DeadOrgsRevoked, RevokeOne;
    ShareRowsRevoked(s, sid, a, now);
    RevokeShareGrows(s, sid, a, now);
    var t := RevokeShare(s, sid, a, now).0;
    forall c | c in t.caps && TagShare(c) == Some(sid) ensures !Active(c) {
      var i :| 0 <= i < |t.caps| && t.caps[i] == c;
      EvolvedTags(s.caps[i], t.caps[i]);
      assert CapSane(s, s.caps[i], i);
    }
  }

  lemma DeadSharesStayDead(s: State, t: State, sid: ShareId)
    requires Sane(s) && Sane(t) && Grows(s, t) && ShareDead(s, sid)
    ensures ShareDead(t, sid)
  {
    hide MembersSane, DeadOrgsRevoked;
    assert ShareSane(s, s.shares[sid], sid);
    forall c | c in t.caps && TagShare(c) == Some(sid) ensures !Active(c) {
      var i :| 0 <= i < |t.caps| && t.caps[i] == c;
      assert CapSane(t, c, i);
      if i < |s.caps| {
        EvolvedTags(s.caps[i], t.caps[i]);
        assert s.caps[i] in s.caps;
      }
    }
  }

  /** After a successful revoke: no active capability from the share, and no accept of its token, ever. */
  lemma ShareRevocationIsFinal(states: seq<State>, steps: seq<Step>, i: nat, j: nat, sid: ShareId, revokedBy: ActorId, at: Time)
    requires Trace(states, steps) && states[0] == EMPTY && i < j < |states|
    requires Route(states[i], steps[i]) == CallRevokeShare(sid, revokedBy, at) && RevokeShare(states[i], sid, revokedBy, at).1.Ok?
    ensures forall c :: c in states[j].caps && TagShare(c) == Some(sid) ==> !Active(c)
    ensures forall a: ActorId, now: Time :: AcceptShare(states[j], sid, a, now).1.Err?
  {
    hide FanOut, Sane, Route, Grows, RevokeShare, Mint, Next;
    RunsKeepInv(states, steps, i);
    RunsKeepInv(states, steps, i + 1);
    RunsKeepInv(states, steps, j);
    RunsGrow(states, steps, i + 1, j);
    assert states[i + 1] == Next(states[i], steps[i]);
    NextIsServe(states[i], steps[i]);
    RevokeKillsShare(states[i], sid, revokedBy, at);
    DeadSharesStayDead(states[i + 1], states[j], sid);
  }
}
