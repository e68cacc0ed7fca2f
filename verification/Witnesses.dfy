/** Concrete runs: inputs for which a property one might expect does not hold. */
module Witnesses {
  import opened Prelude
  import opened Bundles
  import opened Tables
  import opened Authz
  import opened Services
  import opened Routes
  import opened Invariants
  import opened SaneSteps
  import opened Directory
  import opened Isolation
  import opened Interleaving

  // ---- what single requests do to the tables the runs look at ----

  lemma OrgAdded(s: State, slug: string, a: ActorId)
    requires forall x :: x in s.orgs ==> x.slug != slug
    ensures var t := Next(s, PostOrg(slug, a));
      && t.orgs == s.orgs + [Org(slug, None)] && t.members == s.members + [Member(|s.orgs|, a, RoleOwner)]
      && t.projects == s.projects && t.shares == s.shares && t.invitations == s.invitations
  {
    hide Bundle, BundleRows, CreateRows;
  }

  lemma ProjectAdded(s: State, slug: string, projectSlug: string, a: ActorId, now: Time, o: OrgId)
    requires Inv(s) && Commands(s, slug, o, a)
    requires forall x :: x in s.projects && x.org == o ==> x.slug != projectSlug
    ensures var t := Next(s, PostProject(slug, projectSlug, a, now));
      && t.projects == s.projects + [Project(o, projectSlug, None)]
      && t.orgs == s.orgs && t.members == s.members && t.shares == s.shares && t.invitations == s.invitations
  {
    hide Inv, Commands, AdminGate, ProjectRows, MembersOf, CreateRows;
    AdminGateCommands(s, slug, a, now, true);
  }

  lemma ShareAdded(s: State, slug: string, projectSlug: string, a: ActorId, now: Time, o: OrgId, p: ProjectId)
    requires Inv(s) && CommandsProject(s, slug, projectSlug, o, p, a)
    ensures var t := Next(s, PostShare(slug, projectSlug, None, a, now));
      && t.shares == s.shares + [Share(p, o, a, now + SHARE_DEFAULT_TTL, None, None, None)]
      && t.orgs == s.orgs && t.members == s.members && t.projects == s.projects
  {
    hide Inv, CommandsProject, ProjectGate;
    ProjectGateCommands(s, slug, projectSlug, OpShare, a, now);
  }

  lemma ShareRedeemed(s: State, sid: ShareId, a: ActorId, now: Time)
    requires Inv(s) && sid < |s.shares| && s.shares[sid].consumedAt.None? && Spends(s, PostAcceptShare(sid, a, now), sid)
    requires FindMember(s.members, s.shares[sid].org, a).None?
    ensures var t := Next(s, PostAcceptShare(sid, a, now));
      && t.caps == s.caps + [GuestRow(s.shares[sid], sid, a)]
      && t.orgs == s.orgs && t.members == s.members && t.projects == s.projects && |t.shares| == |s.shares|
  {
    hide Inv, Bundle, CreateRows, FindMember;
  }

  /** The tables of two organisations with one project each. */
  predicate TwoTenants(s: State) {
    && s.orgs == [Org("acme", None), Org("globex", None)]
    && s.members == [Member(0, 1, RoleOwner), Member(1, 2, RoleOwner)]
    && s.projects == [Project(0, "road", None), Project(1, "tunnel", None)]
  }

  lemma TwoTenantsCommand(s: State)
    requires TwoTenants(s)
    ensures CommandsProject(s, "acme", "road", 0, 0, 1) && CommandsProject(s, "globex", "tunnel", 1, 1, 2)
    ensures FindMember(s.members, 1, 1).None? && FindMember(s.members, 1, 3).None?
  {
    hide FindMember, OrgBySlug, ProjectBySlug;
    assert LiveOrg(s.orgs, 0) && LiveOrg(s.orgs, 1);
    assert LiveProject(s.projects, 0) && LiveProject(s.projects, 1);
    assert Member(0, 1, RoleOwner) == s.members[0] && Member(1, 2, RoleOwner) == s.members[1];
  }

  lemma BuildTwoTenants() returns (states: seq<State>, steps: seq<Step>)
    ensures Trace(states, steps) && states[0] == EMPTY && |steps| == 4
    ensures TwoTenants(states[4]) && states[4].shares == []
  {
    hide Next, Inv, OrgBySlug, FindMember;
    steps := [PostOrg("acme", 1), PostProject("acme", "road", 1, 0), PostOrg("globex", 2), PostProject("globex", "tunnel", 2, 0)];
    var s1 := Next(EMPTY, steps[0]);
    var s2 := Next(s1, steps[1]);
    var s3 := Next(s2, steps[2]);
    var s4 := Next(s3, steps[3]);
    states := [EMPTY, s1, s2, s3, s4];
    RunsKeepInv(states, steps, 1);
    RunsKeepInv(states, steps, 3);
    OrgAdded(EMPTY, "acme", 1);
    assert Member(0, 1, RoleOwner) == s1.members[0] && LiveOrg(s1.orgs, 0);
    ProjectAdded(s1, "acme", "road", 1, 0, 0);
    OrgAdded(s2, "globex", 2);
    assert Member(1, 2, RoleOwner) == s3.members[1] && LiveOrg(s3.orgs, 1);
    ProjectAdded(s3, "globex", "tunnel", 2, 0, 1);
  }

  lemma TraceGrows(states: seq<State>, steps: seq<Step>, step: Step) returns (longer: seq<State>)
    requires Trace(states, steps)
    ensures Trace(longer, steps + [step]) && longer[..|states|] == states
    ensures longer[|states|] == Next(states[|states| - 1], step)
  {
    hide Next;
    longer := states + [Next(states[|states| - 1], step)];
    var all := steps + [step];
    forall i {:trigger all[i]} | 0 <= i < |all| ensures longer[i + 1] == Next(longer[i], all[i]) {
      if i < |steps| {
        assert states[i + 1] == Next(states[i], steps[i]);
      }
    }
  }

  /** Two tenants, and a guest of the second. */
  lemma BuildGuest() returns (states: seq<State>, steps: seq<Step>, c: CapId)
    ensures Trace(states, steps) && states[0] == EMPTY && |steps| == 6 && TwoTenants(states[6])
    ensures c < |states[6].caps| && Active(states[6].caps[c]) && states[6].caps[c].bundle == GuestViewer
    ensures TagOrg(states[6].caps[c]) == Some(1) && TagShare(states[6].caps[c]) == Some(0)
  {
    hide Next, Inv, OrgBySlug, FindMember, TwoTenants, CommandsProject;
    states, steps := BuildTwoTenants();
    RunsKeepInv(states, steps, 4);
    TwoTenantsCommand(states[4]);
    ShareAdded(states[4], "globex", "tunnel", 2, 0, 1, 1);
    states := TraceGrows(states, steps, PostShare("globex", "tunnel", None, 2, 0));
    steps := steps + [PostShare("globex", "tunnel", None, 2, 0)];
    SameTwoTenants(states[4], states[5]);
    RunsKeepInv(states, steps, 5);
    TwoTenantsCommand(states[5]);
    TwoTenantsLive(states[5]);
    ShareRedeemed(states[5], 0, 3, 1);
    c := |states[5].caps|;
    states := TraceGrows(states, steps, PostAcceptShare(0, 3, 1));
    steps := steps + [PostAcceptShare(0, 3, 1)];
    SameTwoTenants(states[5], states[6]);
  }

  lemma SameTwoTenants(s: State, t: State)
    requires TwoTenants(s) && t.orgs == s.orgs && t.members == s.members && t.projects == s.projects
    ensures TwoTenants(t)
  {
  }

  lemma TwoTenantsLive(s: State)
    requires TwoTenants(s)
    ensures LiveOrg(s.orgs, 1) && LiveProject(s.projects, 1)
  {
  }

  /**
   A run in which the owner of one organisation, no member of the other, ends a guest's access there:
   the request names neither the other organisation nor any project of it, only the share.
   */
  lemma OutsiderEndsGuest() returns (states: seq<State>, steps: seq<Step>, c: CapId)
    ensures Trace(states, steps) && states[0] == EMPTY && |steps| == 7
    ensures var s, t, step := states[6], states[7], steps[6];
      && step.DeleteShare? && FindMember(s.members, 1, step.a).None? && !Names(s, step, 1) && RevokesFrom(s, step, 1)
      && c < |s.caps| && c < |t.caps| && TagOrg(s.caps[c]) == Some(1) && Active(s.caps[c]) && !Active(t.caps[c])
      && TwoTenants(s) && step == DeleteShare("acme", "road", 0, 1, 2)
      && s.caps[c].bundle == GuestViewer && TagShare(s.caps[c]) == Some(0)
  {
    hide Next, Inv, OrgBySlug, FindMember, TwoTenants, CommandsProject, LiveOrg, LiveProject, EndsGuest, Names, RevokesFrom;
    states, steps, c := BuildGuest();
    var step := DeleteShare("acme", "road", 0, 1, 2);
    RunsKeepInv(states, steps, 6);
    TwoTenantsCommand(states[6]);
    GuestEndsIff(states[6], step, c);
    OutsiderRevokes(states[6], c);
    states := TraceGrows(states, steps, step);
    steps := steps + [step];
  }

  lemma OutsiderRevokes(s: State, c: CapId)
    requires Inv(s) && TwoTenants(s) && c < |s.caps| && Active(s.caps[c]) && s.caps[c].bundle == GuestViewer
    requires TagOrg(s.caps[c]) == Some(1) && TagShare(s.caps[c]) == Some(0)
    ensures var step := DeleteShare("acme", "road", 0, 1, 2);
      !Names(s, step, 1) && RevokesFrom(s, step, 1) && EndsGuest(s, step, 1, s.caps[c].actor, 0)
  {
    hide FindMember, ProjectBySlug, CommandsProject, Commands, FanOut, MembersSane, DeadOrgsRevoked;
    TwoTenantsCommand(s);
    GuestTags(s, c);
    assert CapSane(s, s.caps[c], c);
    assert CommandsProject(s, "acme", "road", 0, 0, 1);
    assert OrgBySlug(s.orgs, "acme") != Some(1);
  }

  /** What the outsider's revoke leaves: the same two tenants, and a share ended with its capability. */
  lemma OutsiderRevoked(s: State, c: CapId)
    requires Inv(s) && TwoTenants(s) && c < |s.caps| && Active(s.caps[c]) && s.caps[c].bundle == GuestViewer
    requires TagOrg(s.caps[c]) == Some(1) && TagShare(s.caps[c]) == Some(0)
    ensures var step := DeleteShare("acme", "road", 0, 1, 2);
      var t := Next(s, step);
      && TwoTenants(t) && 0 < |t.shares| && t.shares[0].consumedCapability == Some(c)
      && !Names(t, step, 1) && RevokesShareOf(t, step, 1) && !Revocable(t, 0)
  {
    hide FindMember, ProjectBySlug, OrgBySlug, CommandsProject, ProjectGate, MembersSane, DeadOrgsRevoked, FanOut;
    var step := DeleteShare("acme", "road", 0, 1, 2);
    var t := Next(s, step);
    TwoTenantsCommand(s);
    ProjectGateCommands(s, "acme", "road", OpShare, 1, 2);
    GuestTags(s, c);
    assert CapSane(s, s.caps[c], c);
    TwoTenantsCommand(t);
    assert OrgBySlug(t.orgs, "acme") != Some(1);
  }

  /**
   The run goes on: the outsider revokes the same share again. No table of the other organisation changes,
   and two rows are written into its log.
   */
  lemma OutsiderWritesLog() returns (states: seq<State>, steps: seq<Step>)
    ensures Trace(states, steps) && states[0] == EMPTY && |steps| == 8
    ensures var s, t, step := states[7], states[8], steps[7];
      && FindMember(s.members, 1, step.a).None? && !Names(s, step, 1) && !RevokesFrom(s, step, 1) && RevokesShareOf(s, step, 1)
      && SameHoldings(s, t, 1) && !SameLog(s, t, 1) && |t.audit| == |s.audit| + 2
      && t.audit[|s.audit|].org == 1 && t.audit[|s.audit| + 1].org == 1
  {
    hide Next, Inv, FindMember, TwoTenants, CommandsProject, OrgBySlug, ProjectBySlug, Names, Revocable, SameHoldings, RevokesShareOf;
    var c: CapId;
    states, steps, c := OutsiderEndsGuest();
    var step := DeleteShare("acme", "road", 0, 1, 2);
    RunsKeepInv(states, steps, 6);
    RunsKeepInv(states, steps, 7);
    assert states[7] == Next(states[6], steps[6]);
    OutsiderRevoked(states[6], c);
    TwoTenantsCommand(states[7]);
    TwoTenantsOrgs(states[7]);
    SameHoldingsIff(states[7], step, 1);
    SameLogIff(states[7], step, 1);
    EndedShareIsLoggedAgain(states[7], step, 1);
    states := TraceGrows(states, steps, step);
    steps := steps + [step];
  }

  lemma TwoTenantsOrgs(s: State)
    requires TwoTenants(s)
    ensures |s.orgs| == 2
  {
  }

  // ---- a deletion between the two halves of an accept ----

  lemma InvitationAdded(s: State, slug: string, a: ActorId, now: Time, o: OrgId)
    requires Inv(s) && Commands(s, slug, o, a)
    ensures var t := Next(s, PostInvite(slug, None, RoleViewer, a, now));
      && t.invitations == s.invitations + [Invitation(o, RoleViewer, a, now + INVITE_TTL, None, None)]
      && t.orgs == s.orgs && t.members == s.members
  {
    hide Inv, Commands, AdminGate;
    AdminGateCommands(s, slug, a, now, false);
  }

  lemma OrgRemoved(s: State, slug: string, a: ActorId, now: Time, o: OrgId)
    requires Inv(s) && Commands(s, slug, o, a) && LiveOrg(s.orgs, o)
    ensures var t := Next(s, DeleteOrgRoute(slug, a, now));
      && |t.orgs| == |s.orgs| && !LiveOrg(t.orgs, o) && t.invitations == s.invitations && t.members == s.members
  {
    hide Inv, Commands, AdminGate, RevokeTagged;
    AdminGateCommands(s, slug, a, now, true);
  }

  lemma InvitingIsCalm(w: World, step: Step)
    requires step.PostOrg? || step.PostInvite?
    ensures Calm(w, Request(step)) && !Waits(w, step)
  {
    hide AdminGate;
  }

  lemma DeletionIsNotCalm(w: World, slug: string, a: ActorId, now: Time, tid: nat, o: OrgId)
    requires Inv(w.s) && Commands(w.s, slug, o, a) && tid in w.inFlight && w.inFlight[tid].inv.org == o
    ensures !Calm(w, Request(DeleteOrgRoute(slug, a, now))) && !Waits(w, DeleteOrgRoute(slug, a, now))
  {
    hide Inv, Commands, AdminGate;
    AdminGateCommands(w.s, slug, a, now, true);
  }

  /** An organisation with an invitation. */
  lemma BuildInvited() returns (states: seq<State>, steps: seq<Step>)
    ensures steps == [PostOrg("acme", 1), PostInvite("acme", None, RoleViewer, 1, 0)]
    ensures Trace(states, steps) && states[0] == EMPTY
    ensures states[2].invitations == [Invitation(0, RoleViewer, 1, INVITE_TTL, None, None)]
    ensures 0 < |states[2].orgs| && LiveOrg(states[2].orgs, 0) && Commands(states[2], "acme", 0, 1) && FindMember(states[2].members, 0, 3).None?
  {
    hide Next, Inv, OrgBySlug, FindMember;
    steps := [PostOrg("acme", 1), PostInvite("acme", None, RoleViewer, 1, 0)];
    var s1 := Next(EMPTY, steps[0]);
    states := [EMPTY, s1, Next(s1, steps[1])];
    OrgAdded(EMPTY, "acme", 1);
    RunsKeepInv(states, steps, 1);
    assert s1.members[0] == Member(0, 1, RoleOwner) && LiveOrg(s1.orgs, 0);
    InvitationAdded(s1, "acme", 1, 0, 0);
  }

  /** Every move of the run but one is calm, and it leaves an active capability in a deleted organisation. */
  lemma CalmIsNeeded() returns (worlds: seq<World>, moves: seq<Move>, c: CapId)
    ensures Interleaved(worlds, moves) && worlds[0] == World(EMPTY, map[], map[]) && |moves| == 5
    ensures forall k :: 0 <= k < 5 ==> (Calm(worlds[k], moves[k]) <==> k != 3)
    ensures var s := worlds[5].s;
      && 0 < |s.orgs| && !LiveOrg(s.orgs, 0)
      && c < |s.caps| && Active(s.caps[c]) && TagOrg(s.caps[c]) == Some(0)
  {
    hide Next, Inv, Finish, Calm, Commands, FindMember, Waits, LiveOrg;
    var states, steps := BuildInvited();
    RunsKeepInv(states, steps, 2);
    var s2, remove := states[2], DeleteOrgRoute("acme", 1, 2);
    OrgRemoved(s2, "acme", 1, 2, 0);
    var s3, p := Next(s2, remove), Pending(0, s2.invitations[0], 3, 1);
    c := LateConsumeOutlivesOrg(s3, p);
    moves := [Request(steps[0]), Request(steps[1]), Lookup(0, 0, 3, 1), Request(remove), Consume(0)];
    worlds := [World(EMPTY, map[], map[]), World(states[1], map[], map[]), World(s2, map[], map[]), World(s2, map[0 := p], map[]),
               World(s3, map[0 := p], map[]), World(Finish(s3, p).0, map[], map[])];
    InvitingIsCalm(worlds[0], steps[0]);
    InvitingIsCalm(worlds[1], steps[1]);
    AcceptingIsCalm(worlds[2], moves[2]);
    DeletionIsNotCalm(worlds[3], "acme", 1, 2, 0, 0);
    AcceptingIsCalm(worlds[4], moves[4]);
    assert worlds[1] == MoveNext(worlds[0], moves[0]);
    assert worlds[2] == MoveNext(worlds[1], moves[1]);
    assert worlds[3] == MoveNext(worlds[2], moves[2]);
    assert worlds[4] == MoveNext(worlds[3], moves[3]);
    assert worlds[4].inFlight - {0} == map[];
    assert worlds[5] == MoveNext(worlds[4], moves[4]);
  }

  lemma AcceptingIsCalm(w: World, m: Move)
    requires m.Lookup? || m.Consume?
    ensures Calm(w, m)
  {
  }
}
