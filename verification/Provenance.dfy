/**
 Where every membership and every guest capability comes from: who admitted whom, and on what terms.
 The conditions speak of roles and rows only; the capability table behind the gates does not appear.
 */
module Provenance {
  import opened Prelude
  import opened Bundles
  import opened Tables
  import opened Authz
  import opened Services
  import opened Routes
  import opened History
  import opened Invariants
  import opened FanOutSteps
  import opened SaneSteps
  import opened Safety
  import opened Guests

  /** `a` is an owner or an admin of `o`. */
  predicate Rules(s: State, o: OrgId, a: ActorId) {
    FindMember(s.members, o, a) == Some(RoleOwner) || FindMember(s.members, o, a) == Some(RoleAdmin)
  }

  /** Losing `a`'s role would leave `o` with an owner. */
  predicate Spare(s: State, o: OrgId, a: ActorId) {
    Member(o, a, RoleOwner) in s.members ==> exists m :: m in s.members && m.org == o && m.role == RoleOwner && m.actor != a
  }

  /** The request gives `a` the role in `o`. */
  predicate Admits(s: State, step: Step, o: OrgId, a: ActorId, role: Role) {
    match step
    case PostOrg(slug, who) =>
      a == who && role == RoleOwner && o == |s.orgs| && forall x :: x in s.orgs ==> x.slug != slug
    case PostAcceptInvite(token, who, now) =>
      && a == who && FindMember(s.members, o, a).None? && LiveOrg(s.orgs, o)
      && Redeemable(s, token, now) && s.invitations[token].org == o && s.invitations[token].role == role
    case PatchMember(slug, target, given, who, now) =>
      && a == target && role == given && OrgBySlug(s.orgs, slug) == Some(o) && Rules(s, o, who)
      && FindMember(s.members, o, a).Some? && FindMember(s.members, o, a) != Some(role) && Spare(s, o, a)
    case _ => false
  }

  /** The request takes `a`'s role in `o` away. */
  predicate Dismisses(s: State, step: Step, o: OrgId, a: ActorId) {
    match step
    case PatchMember(slug, target, given, who, now) =>
      && a == target && OrgBySlug(s.orgs, slug) == Some(o) && Rules(s, o, who)
      && FindMember(s.members, o, a) != Some(given) && Spare(s, o, a)
    case DeleteMember(slug, target, who, now) =>
      a == target && OrgBySlug(s.orgs, slug) == Some(o) && Rules(s, o, who) && Spare(s, o, a)
    case _ => false
  }

  // ---- the last-owner guard, said with rows ----

  lemma {:induction false} OwnerCounts(members: seq<Member>, o: OrgId, a: ActorId)
    requires Member(o, a, RoleOwner) in members
    ensures CountOwners(members, o) >= 1
  {
    var n := |members| - 1;
    if Member(o, a, RoleOwner) in members[..n] {
      OwnerCounts(members[..n], o, a);
    }
  }

  lemma {:induction false} TwoOwnersCount(members: seq<Member>, o: OrgId, a: ActorId, b: ActorId)
    requires Member(o, a, RoleOwner) in members && Member(o, b, RoleOwner) in members && a != b
    ensures CountOwners(members, o) >= 2
  {
    var n := |members| - 1;
    if members[n] == Member(o, a, RoleOwner) {
      OwnerCounts(members[..n], o, b);
    } else if members[n] == Member(o, b, RoleOwner) {
      OwnerCounts(members[..n], o, a);
    } else {
      TwoOwnersCount(members[..n], o, a, b);
    }
  }

  lemma GuardIsSpare(s: State, o: OrgId, a: ActorId, role: Role)
    requires MembersSane(s) && FindMember(s.members, o, a) == Some(role)
    ensures Spare(s, o, a) <==> !(role == RoleOwner && CountOwners(s.members, o) <= 1)
  {
    if Member(o, a, RoleOwner) in s.members {
      MemberRoleUnique(s, o, a, RoleOwner);
      if CountOwners(s.members, o) >= 2 {
        var b := AnotherOwner(s.members, o, a);
        assert Member(o, b, RoleOwner) in s.members;
      }
      if Spare(s, o, a) {
        var m :| m in s.members && m.org == o && m.role == RoleOwner && m.actor != a;
        assert m == Member(o, m.actor, RoleOwner);
        TwoOwnersCount(s.members, o, a, m.actor);
      }
    }
  }

  // ---- one request ----

  /** The memberships after each kind of request. */
  lemma PatchedMembers(s: State, slug: string, target: ActorId, given: Role, who: ActorId, now: Time, m: Member)
    requires Inv(s)
    ensures var had := FindMember(s.members, m.org, m.actor);
      var hit := m.actor == target && OrgBySlug(s.orgs, slug) == Some(m.org) && Rules(s, m.org, who)
        && had.Some? && had != Some(given) && Spare(s, m.org, m.actor);
      m in Next(s, PatchMember(slug, target, given, who, now)).members <==> if hit then m.role == given else m in s.members
  {
    hide Inv, Rules, Spare, AdminGate, FindMember, OrgBySlug, MintBundle, RevokeBundle, WithRole;
    var step := PatchMember(slug, target, given, who, now);
    var g := AdminGate(s, slug, who, now, false);
    GateIsRules(s, slug, who, now, false, m.org);
    if g.Some? {
      var o := g.value;
      GateIsRules(s, slug, who, now, false, o);
      var f := FindMember(s.members, o, target);
      if f.Some? {
        InvMembers(s);
        GuardIsSpare(s, o, target, f.value);
        WithRoleMembers(s.members, o, target, given, f.value);
        ChangeRoleMembers(s, o, target, given, who, now);
      }
    }
  }

  lemma InvMembers(s: State)
    requires Inv(s)
    ensures MembersSane(s)
  {
  }

  lemma GateIsRules(s: State, slug: string, who: ActorId, now: Time, guestsRefused: bool, o: OrgId)
    requires Inv(s)
    ensures AdminGate(s, slug, who, now, guestsRefused) == Some(o) <==> OrgBySlug(s.orgs, slug) == Some(o) && Rules(s, o, who)
  {
    hide Inv, AdminGate, OrgBySlug, FindMember;
    AdminGateIsByRole(s, slug, who, now, guestsRefused, o);
  }

  lemma ChangeRoleMembers(s: State, o: OrgId, target: ActorId, given: Role, who: ActorId, now: Time)
    ensures var had := FindMember(s.members, o, target);
      ChangeRole(s, o, target, given, who, now).0.members ==
        if had.Some? && had.value != given && !(had.value == RoleOwner && CountOwners(s.members, o) <= 1)
        then WithRole(s.members, o, target, given) else s.members
  {
  }

  lemma DeletedMembers(s: State, slug: string, target: ActorId, who: ActorId, now: Time, m: Member)
    requires Inv(s)
    ensures var hit := m.actor == target && OrgBySlug(s.orgs, slug) == Some(m.org) && Rules(s, m.org, who) && Spare(s, m.org, m.actor);
      m in Next(s, DeleteMember(slug, target, who, now)).members <==> m in s.members && !hit
  {
    hide Inv, Rules, Spare, AdminGate, OrgBySlug, RevokeTagged, WithoutMember, CountOwners;
    var g := AdminGate(s, slug, who, now, false);
    GateIsRules(s, slug, who, now, false, m.org);
    if g.Some? {
      var o := g.value;
      GateIsRules(s, slug, who, now, false, o);
      var f := FindMember(s.members, o, target);
      if f.Some? {
        InvMembers(s);
        GuardIsSpare(s, o, target, f.value);
      }
    }
  }

  /** The membership row an organisation or an accept adds, if any. */
  function Added(s: State, step: Step): seq<Member> {
    match step
    case PostOrg(slug, a) => if forall x :: x in s.orgs ==> x.slug != slug then [Member(|s.orgs|, a, RoleOwner)] else []
    case PostAcceptInvite(token, a, now) =>
      if !Redeemable(s, token, now) then []
      else
        var inv := s.invitations[token];
        if LiveOrg(s.orgs, inv.org) && FindMember(s.members, inv.org, a).None? then [Member(inv.org, a, inv.role)] else []
    case _ => []
  }

  lemma AddedMembers(s: State, step: Step)
    requires step.PostOrg? || step.PostAcceptInvite?
    ensures Next(s, step).members == s.members + Added(s, step)
  {
    hide Bundle, BundleRows, CreateRows, FindMember, LiveProjects, AdminGate, ProjectGate;
    assert s.members + [] == s.members;
    if step.PostOrg? {
      assert Next(s, step) == CreateOrg(s, step.slug, step.a).0;
    } else if step.PostAcceptInvite? {
      assert Next(s, step) == AcceptInvite(s, step.token, step.a, step.now).0;
    }
  }

  lemma SameMembers(s: State, step: Step)
    requires !step.PostOrg? && !step.PostAcceptInvite? && !step.PatchMember? && !step.DeleteMember?
    ensures Next(s, step).members == s.members
  {
    hide Bundle, BundleRows, CreateRows, ProjectRows, RevokeTagged, RevokeOne, FindMember, LiveProjects, AdminGate, ProjectGate;
  }

  /** A row appears exactly when the request admits it. */
  lemma AdmittedIff(s: State, step: Step, m: Member)
    requires Inv(s) && m !in s.members
    ensures m in Next(s, step).members <==> Admits(s, step, m.org, m.actor, m.role)
  {
    hide Inv, Rules, Spare, Next, FindMember, OrgBySlug, LiveOrg, Redeemable;
    if step.PatchMember? {
      PatchedMembers(s, step.slug, step.target, step.role, step.a, step.now, m);
    } else if step.DeleteMember? {
      DeletedMembers(s, step.slug, step.target, step.a, step.now, m);
    } else if step.PostOrg? || step.PostAcceptInvite? {
      AddedMembers(s, step);
    } else {
      SameMembers(s, step);
    }
  }

  /** A row disappears exactly when the request dismisses it. */
  lemma DismissedIff(s: State, step: Step, m: Member)
    requires Inv(s) && m in s.members
    ensures m !in Next(s, step).members <==> Dismisses(s, step, m.org, m.actor)
  {
    hide Inv, Rules, Spare, Next, FindMember, OrgBySlug, LiveOrg, Redeemable;
    InvMembers(s);
    MemberRoleUnique(s, m.org, m.actor, m.role);
    if step.PatchMember? {
      PatchedMembers(s, step.slug, step.target, step.role, step.a, step.now, m);
    } else if step.DeleteMember? {
      DeletedMembers(s, step.slug, step.target, step.a, step.now, m);
    } else if step.PostOrg? || step.PostAcceptInvite? {
      AddedMembers(s, step);
    } else {
      SameMembers(s, step);
    }
  }

  // ---- whole runs ----

  /** Every membership at any point of a run was admitted by an earlier request of that run. */
  lemma {:induction false} EveryMemberWasAdmitted(states: seq<State>, steps: seq<Step>, i: nat, m: Member) returns (j: nat)
    requires Trace(states, steps) && states[0] == EMPTY && i < |states| && m in states[i].members
    ensures j < i && m !in states[j].members && Admits(states[j], steps[j], m.org, m.actor, m.role)
  {
    hide Next, Admits, FanOut;
    var k := i - 1;
    assert states[i] == Next(states[k], steps[k]);
    if m in states[k].members {
      j := EveryMemberWasAdmitted(states, steps, k, m);
    } else {
      RunsKeepInv(states, steps, k);
      AdmittedIff(states[k], steps[k], m);
      j := k;
    }
  }

  /** The request writes invitation number `token`, on the word of an owner or admin. */
  predicate Invites(s: State, step: Step, token: nat, inv: Invitation) {
    && step.PostInvite? && token == |s.invitations|
    && OrgBySlug(s.orgs, step.slug) == Some(inv.org) && Rules(s, inv.org, step.a)
    && inv.role == step.role && inv.role != RoleOwner && inv.invitedBy == step.a
    && inv.expiresAt == step.now + INVITE_TTL
  }

  lemma InvitationWritten(s: State, step: Step)
    requires Inv(s)
    ensures var t := Next(s, step);
      |t.invitations| == |s.invitations| ||
      (|t.invitations| == |s.invitations| + 1 && Invites(s, step, |s.invitations|, t.invitations[|s.invitations|]))
  {
    hide Inv, Bundle, BundleRows, CreateRows, ProjectRows, RevokeTagged, RevokeOne, RevokeBundleRows,
      RevokeRows, BundleIds, FindMember, LiveProjects, AdminGate, ProjectGate, OrgBySlug, Rules, CountOwners;
    if step.PostInvite? {
      var g := AdminGate(s, step.slug, step.a, step.now, false);
      if g.Some? {
        GateIsRules(s, step.slug, step.a, step.now, false, g.value);
      }
    }
  }

  /** Every invitation was written by someone who was owner or admin of its organisation at that moment. */
  lemma {:induction false} EveryInvitationWasIssued(states: seq<State>, steps: seq<Step>, i: nat, token: nat) returns (j: nat)
    requires Trace(states, steps) && states[0] == EMPTY && i < |states| && token < |states[i].invitations|
    ensures j < i
    ensures var inv := states[i].invitations[token];
      Invites(states[j], steps[j], token, inv.(consumedAt := None, consumedBy := None))
  {
    hide Next, Invites, FanOut;
    var k := i - 1;
    assert states[i] == Next(states[k], steps[k]);
    NextGrows(states[k], steps[k]);
    if token < |states[k].invitations| {
      j := EveryInvitationWasIssued(states, steps, k, token);
    } else {
      RunsKeepInv(states, steps, k);
      InvitationWritten(states[k], steps[k]);
      j := k;
      InvitesIgnoresConsumption(states[k], steps[k], token, states[i].invitations[token]);
    }
  }

  lemma InvitesIgnoresConsumption(s: State, step: Step, token: nat, inv: Invitation)
    ensures Invites(s, step, token, inv) <==> Invites(s, step, token, inv.(consumedAt := None, consumedBy := None))
  {
  }

  // ---- guests ----

  /** The request writes share number `sid`, on the word of an owner or admin. */
  predicate Offers(s: State, step: Step, sid: ShareId, sh: Share) {
    && step.PostShare? && sid == |s.shares|
    && OrgBySlug(s.orgs, step.slug) == Some(sh.org) && Rules(s, sh.org, step.a)
    && ProjectBySlug(s.projects, sh.org, step.projectSlug) == Some(sh.project)
    && sh.sharedBy == step.a && step.now < sh.expiresAt <= step.now + SHARE_MAX_TTL
  }

  lemma ShareWritten(s: State, step: Step)
    requires Inv(s)
    ensures var t := Next(s, step);
      |t.shares| == |s.shares| || (|t.shares| == |s.shares| + 1 && Offers(s, step, |s.shares|, t.shares[|s.shares|]))
  {
    hide Inv, Bundle, BundleRows, CreateRows, ProjectRows, RevokeTagged, RevokeOne, RevokeBundleRows,
      RevokeRows, BundleIds, FindMember, LiveProjects, AdminGate, ProjectGate, OrgBySlug, ProjectBySlug, Rules, CountOwners;
    if step.PostShare? {
      var g := ProjectGate(s, step.slug, step.projectSlug, OpShare, step.a, step.now);
      if g.Some? {
        ProjectGateIsByRole(s, step.slug, step.projectSlug, OpShare, step.a, step.now, g.value.0, g.value.1);
        RulesIs(s, g.value.0, step.a);
      }
    }
  }

  lemma RulesIs(s: State, o: OrgId, a: ActorId)
    ensures Rules(s, o, a) <==> FindMember(s.members, o, a) == Some(RoleOwner) || FindMember(s.members, o, a) == Some(RoleAdmin)
  {
  }

  /** Every share was offered by an owner or admin of the project's organisation, for at most 30 days. */
  lemma {:induction false} EveryShareWasOffered(states: seq<State>, steps: seq<Step>, i: nat, sid: ShareId) returns (j: nat)
    requires Trace(states, steps) && states[0] == EMPTY && i < |states| && sid < |states[i].shares|
    ensures j < i && Offers(states[j], steps[j], sid, states[i].shares[sid])
  {
    hide Next, FanOut, Rules, OrgBySlug, ProjectBySlug;
    var k := i - 1;
    assert states[i] == Next(states[k], steps[k]);
    NextGrows(states[k], steps[k]);
    if sid < |states[k].shares| {
      j := EveryShareWasOffered(states, steps, k, sid);
    } else {
      RunsKeepInv(states, steps, k);
      ShareWritten(states[k], steps[k]);
      j := k;
    }
  }

  /** The request redeems the share the row stems from: in time, for the first time, by a non-member. */
  predicate RedeemsShare(s: State, step: Step, c: Capability) {
    && step.PostAcceptShare? && step.a == c.actor && TagShare(c) == Some(step.token)
    && step.token < |s.shares|
    && var sh := s.shares[step.token];
    && sh.consumedAt.None? && step.now < sh.expiresAt
    && LiveProject(s.projects, sh.project) && LiveOrg(s.orgs, sh.org) && FindMember(s.members, sh.org, c.actor).None?
    && c.operation == OpRead && c.resourceType == RtProject && c.resourceId == Some(sh.project)
    && c.expiresAt == Some(sh.expiresAt) && c.grantedBy == sh.sharedBy
  }

  /** Minting for members writes no guest row. */
  lemma {:induction false} BundleRowsKeepName(g: Grantee, ts: seq<Template>, o: OrgId, ps: seq<ProjectId>, resource: Option<nat>)
    ensures forall c :: c in BundleRows(g, ts, o, ps, resource) ==> c.bundle == g.bundle
  {
    if ts != [] {
      BundleRowsKeepName(g, ts[..|ts| - 1], o, ps, resource);
    }
  }

  lemma {:induction false} ProjectTemplateRowsKeepName(g: Grantee, ts: seq<Template>, p: ProjectId)
    ensures forall c :: c in ProjectTemplateRows(g, ts, p) ==> c.bundle == g.bundle
  {
    if ts != [] {
      ProjectTemplateRowsKeepName(g, ts[..|ts| - 1], p);
    }
  }

  lemma {:induction false} ProjectRowsArePrimary(members: seq<Member>, o: OrgId, p: ProjectId, grantedBy: ActorId)
    ensures forall c :: c in ProjectRows(members, o, p, grantedBy) ==> c.bundle.Primary?
  {
    hide ProjectTemplateRows, Bundle;
    if members != [] {
      var n := |members| - 1;
      ProjectRowsArePrimary(members[..n], o, p, grantedBy);
      ProjectTemplateRowsKeepName(MemberGrantee(members[n], o, grantedBy), Bundle(Primary(members[n].role)), p);
    }
  }

  /** Everything past the old rows belongs to a primary bundle. */
  predicate AddsPrimary(before: seq<Capability>, after: seq<Capability>) {
    forall i :: |before| <= i < |after| ==> after[i].bundle.Primary?
  }

  lemma MintBundleAddsPrimary(s: State, a: ActorId, role: Role, o: OrgId, grantedBy: ActorId, ps: seq<ProjectId>)
    ensures AddsPrimary(s.caps, MintBundle(s, a, Primary(role), o, grantedBy, ps, None).caps)
  {
    hide Bundle, BundleRows;
    var g := Grantee(a, Primary(role), grantedBy, None, map[MetaOrg := o]);
    BundleRowsKeepName(g, Bundle(Primary(role)), o, ps, None);
    var rows := BundleRows(g, Bundle(Primary(role)), o, ps, None);
    assert forall i :: 0 <= i < |rows| ==> rows[i] in rows;
  }

  lemma JoinAddsPrimary(s: State, token: nat, a: ActorId, now: Time)
    ensures AddsPrimary(s.caps, AcceptInvite(s, token, a, now).0.caps)
  {
    hide MintBundle, LiveProjects, FindMember, AddsPrimary;
    var t := AcceptInvite(s, token, a, now).0;
    assert AddsPrimary(s.caps, s.caps) by {
      NothingAdded(s.caps);
    }
    if Redeemable(s, token, now) {
      var inv := s.invitations[token];
      var s1 := s.(invitations := s.invitations[token := inv.(consumedAt := Some(now), consumedBy := Some(a))],
                   members := s.members + [Member(inv.org, a, inv.role)]);
      MintBundleAddsPrimary(s1, a, inv.role, inv.org, inv.invitedBy, LiveProjects(s.projects, inv.org));
    }
  }

  lemma NothingAdded(caps: seq<Capability>)
    ensures AddsPrimary(caps, caps)
  {
  }

  lemma RoleChangeAddsPrimary(s: State, o: OrgId, target: ActorId, role: Role, a: ActorId, now: Time)
    ensures AddsPrimary(s.caps, ChangeRole(s, o, target, role, a, now).0.caps)
  {
    hide MintBundle, LiveProjects, FindMember, RevokeRows, BundleIds, CountOwners, WithRole;
    var f := FindMember(s.members, o, target);
    if f.Some? {
      MintBundleAddsPrimary(RevokeBundle(s, target, Primary(f.value), o, a, now), target, role, o, a, LiveProjects(s.projects, o));
    }
  }

  lemma CreationsAddPrimary(s: State, o: OrgId, slug: string, a: ActorId)
    ensures AddsPrimary(s.caps, CreateOrg(s, slug, a).0.caps)
    ensures AddsPrimary(s.caps, CreateProject(s, o, slug, a).0.caps)
  {
    hide MintBundle, ProjectRows, MembersOf, CreateRows;
    MintBundleAddsPrimary(s.(orgs := s.orgs + [Org(slug, None)], members := s.members + [Member(|s.orgs|, a, RoleOwner)]),
                          a, RoleOwner, |s.orgs|, a, []);
    var rows := ProjectRows(MembersOf(s.members, o), o, |s.projects|, a);
    ProjectRowsArePrimary(MembersOf(s.members, o), o, |s.projects|, a);
    assert forall i :: 0 <= i < |rows| ==> rows[i] in rows;
  }

  lemma OthersAddNothing(s: State, call: Call)
    requires !call.CallCreateOrg? && !call.CallAcceptInvite? && !call.CallChangeRole? && !call.CallCreateProject? && !call.CallAcceptShare?
    ensures |Serve(s, call).caps| == |s.caps|
  {
  }

  lemma AcceptWritesGuestRow(s: State, token: ShareId, a: ActorId, now: Time, i: CapId)
    requires |s.caps| <= i < |AcceptShare(s, token, a, now).0.caps|
    ensures RedeemsShare(s, PostAcceptShare(token, a, now), AcceptShare(s, token, a, now).0.caps[i])
  {
    hide Bundle, CreateRows, FindMember;
  }

  /** A guest row appears only where a share is redeemed. */
  lemma GuestRowWritten(s: State, step: Step, i: CapId)
    requires |s.caps| <= i < |Next(s, step).caps| && Next(s, step).caps[i].bundle == GuestViewer
    ensures RedeemsShare(s, step, Next(s, step).caps[i])
  {
    hide CreateOrg, CreateProject, AcceptInvite, ChangeRole, AcceptShare, RedeemsShare, AdminGate, ProjectGate;
    var call := Route(s, step);
    match call
    case CallCreateOrg(slug, a) => CreationsAddPrimary(s, 0, slug, a);
    case CallCreateProject(o, slug, a) => CreationsAddPrimary(s, o, slug, a);
    case CallAcceptInvite(token, a, now) => JoinAddsPrimary(s, token, a, now);
    case CallChangeRole(o, target, role, a, now) => RoleChangeAddsPrimary(s, o, target, role, a, now);
    case CallAcceptShare(token, a, now) => AcceptWritesGuestRow(s, token, a, now, i);
    case _ => OthersAddNothing(s, call);
  }

  lemma RedeemsIgnoresRevocation(s: State, step: Step, c: Capability, d: Capability)
    requires RedeemsShare(s, step, c) && Evolves(c, d)
    ensures RedeemsShare(s, step, d)
  {
    EvolvedTags(c, d);
  }

  /**
   Every guest capability, revoked since or not, comes from one redemption of a share by the actor it
   names, and the share from an owner or admin of the project's organisation.
   */
  lemma {:induction false} EveryGuestWasInvited(states: seq<State>, steps: seq<Step>, i: nat, c: CapId) returns (j: nat, k: nat)
    requires Trace(states, steps) && states[0] == EMPTY && i < |states|
    requires c < |states[i].caps| && states[i].caps[c].bundle == GuestViewer
    ensures k < j < i && RedeemsShare(states[j], steps[j], states[i].caps[c])
    ensures var sid := TagShare(states[i].caps[c]).value; Offers(states[k], steps[k], sid, states[j].shares[sid])
  {
    hide Next, FanOut, RedeemsShare, Offers, Evolves;
    var n := i - 1;
    assert states[i] == Next(states[n], steps[n]);
    NextGrows(states[n], steps[n]);
    if c < |states[n].caps| {
      assert states[n].caps[c].bundle == GuestViewer by {
        EvolvedName(states[n].caps[c], states[i].caps[c]);
      }
      j, k := EveryGuestWasInvited(states, steps, n, c);
      RedeemsIgnoresRevocation(states[j], steps[j], states[n].caps[c], states[i].caps[c]);
      EvolvedTags(states[n].caps[c], states[i].caps[c]);
    } else {
      GuestRowWritten(states[n], steps[n], c);
      j := n;
      RedeemedShare(states[n], steps[n], states[i].caps[c]);
      k := EveryShareWasOffered(states, steps, n, TagShare(states[i].caps[c]).value);
    }
  }

  lemma EvolvedName(c: Capability, d: Capability)
    requires Evolves(c, d)
    ensures d.bundle == c.bundle
  {
  }

  lemma RedeemedShare(s: State, step: Step, c: Capability)
    requires RedeemsShare(s, step, c)
    ensures TagShare(c).Some? && TagShare(c).value < |s.shares|
  {
  }
}
