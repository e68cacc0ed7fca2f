/**
 The token a service hands out is the one its accept takes: round trips from offering to accepting, over
 whatever happens in between.
 */
module Tokens {
  import opened Prelude
  import opened Bundles
  import opened Tables
  import opened Authz
  import opened Services
  import opened Routes
  import opened History

  const WEEK: Time := 7 * 24 * 3600

  /** The result of an invite names the invitation it wrote, and none that was there before. */
  lemma InviteNamesItsRow(s: State, o: OrgId, invitee: Option<ActorId>, role: Role, host: ActorId, now: Time)
    ensures var r := Invite(s, o, invitee, role, host, now);
      match r.1
      case Ok(t) =>
        && t >= |s.invitations| && t < |r.0.invitations|
        && r.0.invitations[t] == Invitation(o, role, host, now + WEEK, None, None)
      case Err(e) =>
        && r.0 == s
        && (e == InviteRole <==> role == RoleOwner)
        && (e == InviteAlreadyMember <==> role != RoleOwner && invitee.Some? && exists x :: Member(o, invitee.value, x) in s.members)
  {
    hide FindMember;
  }

  lemma InviteSucceedsIff(s: State, o: OrgId, invitee: Option<ActorId>, role: Role, host: ActorId, now: Time)
    ensures Invite(s, o, invitee, role, host, now).1.Ok? <==>
      role != RoleOwner && (invitee.Some? ==> forall x :: Member(o, invitee.value, x) !in s.members)
  {
    hide FindMember;
  }

  /** What accepting an invitation comes to, read off its row: exactly when it succeeds, with what, and whom it adds. */
  lemma AcceptInviteOutcome(s: State, t: nat, b: ActorId, now: Time)
    requires t < |s.invitations|
    ensures var inv, r := s.invitations[t], AcceptInvite(s, t, b, now);
      && (r.1.Ok? <==> inv.consumedAt.None? && now < inv.expiresAt && LiveOrg(s.orgs, inv.org))
      && (r.1.Err? ==> r == (s, Err(InviteNotFound)))
      && (r.1.Ok? && FindMember(s.members, inv.org, b).None? ==>
        && r.1 == Ok((inv.org, inv.role)) && Member(inv.org, b, inv.role) in r.0.members
        && r.0.invitations == s.invitations[t := inv.(consumedAt := Some(now), consumedBy := Some(b))])
      && (r.1.Ok? && FindMember(s.members, inv.org, b).Some? ==>
        r == (s, Ok((inv.org, FindMember(s.members, inv.org, b).value))))
  {
    hide Bundle, BundleRows, CreateRows, LiveProjects, FindMember;
    var inv, r := s.invitations[t], AcceptInvite(s, t, b, now);
    if r.1.Ok? && FindMember(s.members, inv.org, b).None? {
      assert r.0.members == s.members + [Member(inv.org, b, inv.role)];
    }
  }

  lemma UnknownInvitation(s: State, t: nat, b: ActorId, now: Time)
    requires t >= |s.invitations|
    ensures AcceptInvite(s, t, b, now) == (s, Err(InviteNotFound))
  {
  }

  /** An invitation keeps its terms, and once spent stays spent. */
  lemma TermsStay(s: State, u: State, t: nat)
    requires Grows(s, u) && t < |s.invitations|
    ensures t < |u.invitations|
    ensures var i, j := s.invitations[t], u.invitations[t]; j == i.(consumedAt := j.consumedAt, consumedBy := j.consumedBy)
  {
    hide CapsGrow, OrgsGrow, ProjectsGrow, SharesGrow;
  }

  /**
   The round trip: the token an invite returned admits, at any later point of the run, exactly until it is
   spent, a week has passed or the organisation is gone; and it admits to that organisation in that role.
   */
  lemma InvitationRoundTrip(states: seq<State>, steps: seq<Step>, i: nat, j: nat,
                            o: OrgId, invitee: Option<ActorId>, role: Role, host: ActorId, at: Time, t: nat, b: ActorId, now: Time)
    requires Trace(states, steps) && i < j < |states|
    requires Route(states[i], steps[i]) == CallInvite(o, invitee, role, host, at)
    requires Invite(states[i], o, invitee, role, host, at).1 == Ok(t)
    ensures t >= |states[i].invitations| && t < |states[j].invitations|
    ensures var u := states[j];
      var r := AcceptInvite(u, t, b, now);
      && (r.1.Ok? <==> u.invitations[t].consumedAt.None? && now < at + WEEK && LiveOrg(u.orgs, o))
      && (r.1.Ok? && FindMember(u.members, o, b).None? ==> r.1 == Ok((o, role)) && Member(o, b, role) in r.0.members)
  {
    hide Next, Route, Invite, AcceptInvite, FindMember, LiveOrg, Grows;
    var s := states[i];
    InviteNamesItsRow(s, o, invitee, role, host, at);
    NextServes(s, steps[i], CallInvite(o, invitee, role, host, at));
    assert states[i + 1] == Next(s, steps[i]);
    RunsGrow(states, steps, i + 1, j);
    TermsStay(states[i + 1], states[j], t);
    AcceptInviteOutcome(states[j], t, b, now);
  }

  lemma NextServes(s: State, step: Step, call: Call)
    requires Route(s, step) == call
    ensures Next(s, step) == Serve(s, call)
  {
  }

  // ---- shares ----

  const DAYS_14: Time := 14 * 24 * 3600
  const DAYS_30: Time := 30 * 24 * 3600

  /** How long a share is asked to last; absent and zero mean fourteen days. */
  function Lifetime(ttl: Option<Time>): Time {
    match ttl
    case None => DAYS_14
    case Some(t) => if t == 0 then DAYS_14 else t
  }

  lemma ShareNamesItsRow(s: State, o: OrgId, p: ProjectId, host: ActorId, ttl: Option<Time>, now: Time)
    ensures var r := ShareProject(s, o, p, host, ttl, now);
      && (r.1.Ok? <==> Lifetime(ttl) <= DAYS_30)
      && (r.1.Err? ==> r == (s, Err(ShareTtl)))
      && (r.1.Ok? ==>
        && |s.shares| <= r.1.value < |r.0.shares|
        && r.0.shares[r.1.value] == Share(p, o, host, now + Lifetime(ttl), None, None, None))
  {
  }

  /** What accepting a share comes to, read off its row. */
  lemma AcceptShareOutcome(s: State, t: ShareId, b: ActorId, now: Time)
    requires t < |s.shares|
    ensures var sh, r := s.shares[t], AcceptShare(s, t, b, now);
      && (r.1.Ok? <==> sh.consumedAt.None? && now < sh.expiresAt && LiveProject(s.projects, sh.project) && LiveOrg(s.orgs, sh.org))
      && (r.1.Err? ==> r == (s, Err(ShareNotFound)))
      && (r.1.Ok? ==>
        && r.1 == Ok((sh.org, sh.project)) && t < |r.0.shares|
        && r.0.shares[t].consumedAt == Some(now) && r.0.shares[t].consumedBy == Some(b))
      && (r.1.Ok? && FindMember(s.members, sh.org, b).None? ==>
        && r.0.shares[t].consumedCapability == Some(|s.caps|)
        && r.0.caps == s.caps + [Capability(b, OpRead, RtProject, Some(sh.project), GuestViewer, sh.sharedBy, Some(sh.expiresAt), None,
                                            false, map[MetaOrg := sh.org, MetaShare := t, MetaProject := sh.project])])
      && (r.1.Ok? && FindMember(s.members, sh.org, b).Some? ==> r.0.caps == s.caps && r.0.shares[t].consumedCapability == sh.consumedCapability)
  {
    hide FindMember, LiveProject, LiveOrg, CreateRows;
  }

  lemma UnknownShare(s: State, t: ShareId, b: ActorId, now: Time)
    requires t >= |s.shares|
    ensures AcceptShare(s, t, b, now) == (s, Err(ShareNotFound))
  {
  }

  lemma OfferStays(s: State, u: State, t: ShareId)
    requires Grows(s, u) && t < |s.shares|
    ensures t < |u.shares|
    ensures var i, j := s.shares[t], u.shares[t];
      j == i.(consumedAt := j.consumedAt, consumedBy := j.consumedBy, consumedCapability := j.consumedCapability)
  {
    hide CapsGrow, OrgsGrow, ProjectsGrow, InvitationsGrow;
  }

  /** The round trip of a share: the same, for the project shared and for as long as was asked. */
  lemma ShareRoundTrip(states: seq<State>, steps: seq<Step>, i: nat, j: nat,
                       o: OrgId, p: ProjectId, ttl: Option<Time>, host: ActorId, at: Time, t: ShareId, b: ActorId, now: Time)
    requires Trace(states, steps) && i < j < |states|
    requires Route(states[i], steps[i]) == CallShareProject(o, p, ttl, host, at)
    requires ShareProject(states[i], o, p, host, ttl, at).1 == Ok(t)
    ensures t >= |states[i].shares| && t < |states[j].shares|
    ensures var u := states[j];
      var r := AcceptShare(u, t, b, now);
      && (r.1.Ok? <==>
        u.shares[t].consumedAt.None? && now < at + Lifetime(ttl) && LiveProject(u.projects, p) && LiveOrg(u.orgs, o))
      && (r.1.Ok? ==> r.1 == Ok((o, p)))
      && (r.1.Ok? && FindMember(u.members, o, b).None? ==>
        && |r.0.caps| == |u.caps| + 1
        && r.0.caps[|u.caps|].actor == b && r.0.caps[|u.caps|].resourceId == Some(p)
        && r.0.caps[|u.caps|].expiresAt == Some(at + Lifetime(ttl)))
  {
    hide Next, Route, ShareProject, AcceptShare, FindMember, LiveOrg, LiveProject, Grows, Lifetime;
    var s := states[i];
    ShareNamesItsRow(s, o, p, host, ttl, at);
    NextServes(s, steps[i], CallShareProject(o, p, ttl, host, at));
    assert states[i + 1] == Next(s, steps[i]);
    RunsGrow(states, steps, i + 1, j);
    OfferStays(states[i + 1], states[j], t);
    AcceptShareOutcome(states[j], t, b, now);
  }
}
