/** The two fan-out loops agree: joining and creating a project commute. */
module Commute {
  import opened Prelude
  import opened Bundles
  import opened Tables
  import opened Authz
  import opened Services
  import opened Routes
  import opened Minting
  import opened Invariants
  import opened FanOutSteps
  import opened SaneSteps

  predicate SameTables(s: State, t: State) {
    s.orgs == t.orgs && s.projects == t.projects && s.members == t.members && s.invitations == t.invitations && s.shares == t.shares
  }

  /** Every resource but a deleted project. */
  predicate OnLiveTarget(projects: seq<Project>, k: Key) {
    k.resourceType == RtProject && k.resource.Some? ==> LiveProject(projects, k.resource.value)
  }

  /** Two exact tables over the same directory hold the same entitlements, deleted projects aside. */
  lemma SameDirectorySameEntitlements(s: State, t: State, k: Key)
    requires Sound(s) && Complete(s) && Sound(t) && Complete(t) && SameTables(s, t)
    requires OnLiveTarget(s.projects, k)
    ensures HasActive(s.caps, k) <==> HasActive(t.caps, k)
  {
    hide Granted, HasActive;
    if Tolerated(s, k) {
      assert Wanted(s, k) && Wanted(t, k);
    }
  }

  lemma CreateProjectInv(s: State, o: OrgId, slug: string, creator: ActorId)
    requires Inv(s) && LiveOrg(s.orgs, o)
    ensures Inv(CreateProject(s, o, slug, creator).0)
  {
    hide CreateProject, Sane, FanOut;
    CreateProjectFanOut(s, o, slug, creator);
    CreateProjectSane(s, o, slug, creator);
  }

  lemma DirectoriesCommute(s: State, token: nat, a: ActorId, now: Time, o: OrgId, slug: string, creator: ActorId)
    ensures SameTables(CreateProject(AcceptInvite(s, token, a, now).0, o, slug, creator).0,
                       AcceptInvite(CreateProject(s, o, slug, creator).0, token, a, now).0)
    ensures AcceptInvite(s, token, a, now).0.orgs == s.orgs
  {
    hide Bundle, BundleRows, ProjectRows, CreateRows, LiveProjects, MembersOf;
  }

  lemma NoGuestRowsMinted(s: State, token: nat, a: ActorId, now: Time, o: OrgId, slug: string, creator: ActorId, c: Capability)
    requires c.bundle == GuestViewer
    ensures c in AcceptInvite(s, token, a, now).0.caps <==> c in s.caps
    ensures c in CreateProject(s, o, slug, creator).0.caps <==> c in s.caps
  {
    hide Join, Bundle, ProjectRows, CreateRows, MembersOf;
    if Redeemable(s, token, now) {
      JoinDelta(s, token, a, now);
    }
    ProjectRowsPlain(MembersOf(s.members, o), o, |s.projects|, creator);
  }

  /** The same directory, the same active entitlements on live targets, the same guest rows. */
  ghost predicate Agree(s: State, t: State) {
    && SameTables(s, t)
    && (forall k: Key :: OnLiveTarget(s.projects, k) ==> (HasActive(s.caps, k) <==> HasActive(t.caps, k)))
    && (forall c: Capability :: c.bundle == GuestViewer ==> (c in s.caps <==> c in t.caps))
  }

  lemma ExactStatesCommute(s: State, token: nat, a: ActorId, now: Time, o: OrgId, slug: string, creator: ActorId)
    requires Inv(s) && LiveOrg(s.orgs, o)
    ensures Agree(CreateProject(AcceptInvite(s, token, a, now).0, o, slug, creator).0,
                  AcceptInvite(CreateProject(s, o, slug, creator).0, token, a, now).0)
  {
    hide CreateProject, AcceptInvite, Sane, HasActive, Wanted, Tolerated, LiveProject;
    var joined, created := AcceptInvite(s, token, a, now).0, CreateProject(s, o, slug, creator).0;
    var s1, s2 := CreateProject(joined, o, slug, creator).0, AcceptInvite(created, token, a, now).0;
    DirectoriesCommute(s, token, a, now, o, slug, creator);
    AcceptInviteInv(s, token, a, now);
    CreateProjectInv(joined, o, slug, creator);
    CreateProjectInv(s, o, slug, creator);
    AcceptInviteInv(created, token, a, now);
    forall k: Key | OnLiveTarget(s1.projects, k) ensures HasActive(s1.caps, k) <==> HasActive(s2.caps, k) {
      SameDirectorySameEntitlements(s1, s2, k);
    }
    forall c: Capability | c.bundle == GuestViewer ensures c in s1.caps <==> c in s2.caps {
      NoGuestRowsMinted(s, token, a, now, o, slug, creator, c);
      NoGuestRowsMinted(joined, token, a, now, o, slug, creator, c);
      NoGuestRowsMinted(created, token, a, now, o, slug, creator, c);
    }
  }

  /**
   At any point of any run, whichever comes first, the same directory results, the same entitlements
   are active on every live project and organisation, and the same guest rows exist. Only `granted_by`
   and the row keys differ.
   */
  lemma JoinAndCreateCommute(states: seq<State>, steps: seq<Step>, i: nat,
                             token: nat, a: ActorId, now: Time, o: OrgId, slug: string, creator: ActorId)
    requires Trace(states, steps) && states[0] == EMPTY && i < |states| && LiveOrg(states[i].orgs, o)
    ensures Agree(CreateProject(AcceptInvite(states[i], token, a, now).0, o, slug, creator).0,
                  AcceptInvite(CreateProject(states[i], o, slug, creator).0, token, a, now).0)
  {
    hide Next, CreateProject, AcceptInvite, Agree, Sane, FanOut;
    RunsKeepInv(states, steps, i);
    ExactStatesCommute(states[i], token, a, now, o, slug, creator);
  }
}
