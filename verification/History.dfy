/** What no service call ever undoes: the store only grows, and a revocation is final. */
module History {
  import opened Prelude
  import opened Bundles
  import opened Tables
  import opened Authz
  import opened Services
  import opened Routes

  /** A capability row is untouched, or it was active and got revoked; nothing else can happen to it. */
  predicate Evolves(c: Capability, d: Capability) {
    || d == c
    || (&& Active(c) && !Active(d)
        && d == c.(revokedAt := d.revokedAt, meta := d.meta)
        && c.meta.Keys <= d.meta.Keys <= c.meta.Keys + {MetaRevokedBy, MetaRevokedAt}
        && (forall k :: k in c.meta && k != MetaRevokedBy && k != MetaRevokedAt ==> d.meta[k] == c.meta[k]))
  }

  predicate CapsGrow(a: seq<Capability>, b: seq<Capability>) {
    |a| <= |b| && forall i :: 0 <= i < |a| ==> Evolves(a[i], b[i])
  }

  predicate OrgsGrow(a: seq<Org>, b: seq<Org>) {
    |a| <= |b| && forall i :: 0 <= i < |a| ==> b[i] == a[i] || (a[i].deletedAt.None? && b[i] == a[i].(deletedAt := b[i].deletedAt))
  }

  predicate ProjectsGrow(a: seq<Project>, b: seq<Project>) {
    |a| <= |b| && forall i :: 0 <= i < |a| ==> b[i] == a[i] || (a[i].deletedAt.None? && b[i] == a[i].(deletedAt := b[i].deletedAt))
  }

  predicate InvitationsGrow(a: seq<Invitation>, b: seq<Invitation>) {
    |a| <= |b| && forall i :: 0 <= i < |a| ==>
      || b[i] == a[i]
      || (&& a[i].consumedAt.None? && b[i].consumedAt.Some?
          && b[i] == a[i].(consumedAt := b[i].consumedAt, consumedBy := b[i].consumedBy))
  }

  predicate SharesGrow(a: seq<Share>, b: seq<Share>) {
    |a| <= |b| && forall i :: 0 <= i < |a| ==>
      || b[i] == a[i]
      || (&& a[i].consumedAt.None? && b[i].consumedAt.Some?
          && b[i] == a[i].(consumedAt := b[i].consumedAt, consumedBy := b[i].consumedBy, consumedCapability := b[i].consumedCapability))
  }

  predicate Grows(s: State, t: State) {
    && CapsGrow(s.caps, t.caps) && OrgsGrow(s.orgs, t.orgs) && ProjectsGrow(s.projects, t.projects)
    && InvitationsGrow(s.invitations, t.invitations) && SharesGrow(s.shares, t.shares) && s.audit <= t.audit
  }

  lemma GrowsTransitive(s: State, t: State, u: State)
    requires Grows(s, t) && Grows(t, u)
    ensures Grows(s, u)
  {
    forall i | 0 <= i < |s.caps| ensures Evolves(s.caps[i], u.caps[i]) {
      assert Evolves(s.caps[i], t.caps[i]) && Evolves(t.caps[i], u.caps[i]);
    }
  }

  lemma StampEvolves(c: Capability, now: Time, revokedBy: ActorId)
    requires Active(c)
    ensures Evolves(c, Stamped(c, now, revokedBy))
  {
  }

  lemma RevokesGrow(caps: seq<Capability>, o: OrgId, a: Option<ActorId>, now: Time, revokedBy: ActorId)
    ensures CapsGrow(caps, RevokeTagged(caps, o, a, now, revokedBy))
  {
    forall i | 0 <= i < |caps| && Active(caps[i]) ensures Evolves(caps[i], Stamped(caps[i], now, revokedBy)) {
      StampEvolves(caps[i], now, revokedBy);
    }
  }

  lemma ChangeRoleGrows(s: State, o: OrgId, target: ActorId, role: Role, a: ActorId, now: Time)
    ensures Grows(s, ChangeRole(s, o, target, role, a, now).0)
  {
    var r := FindMember(s.members, o, target);
    if r.Some? {
      var s1 := RevokeBundle(s, target, Primary(r.value), o, a, now);
      assert CapsGrow(s.caps, s1.caps);
      assert Grows(s, s1);
    }
  }

  lemma RevokeShareGrows(s: State, sid: ShareId, revokedBy: ActorId, now: Time)
    ensures Grows(s, RevokeShare(s, sid, revokedBy, now).0)
  {
    if sid < |s.shares| && s.shares[sid].consumedCapability.Some? {
      var cap := s.shares[sid].consumedCapability.value;
      if cap < |s.caps| && Active(s.caps[cap]) {
        StampEvolves(s.caps[cap], now, revokedBy);
      }
    }
  }

  lemma CreationsGrow(s: State, o: OrgId, slug: string, a: ActorId)
    ensures Grows(s, CreateOrg(s, slug, a).0)
    ensures Grows(s, CreateProject(s, o, slug, a).0)
  {
  }

  lemma JoinGrows(s: State, token: nat, a: ActorId, now: Time)
    requires token < |s.invitations| && s.invitations[token].consumedAt.None?
    ensures Grows(s, Join(s, token, a, now))
  {
    var t := Join(s, token, a, now);
    assert CapsGrow(s.caps, t.caps);
    assert InvitationsGrow(s.invitations, t.invitations);
  }

  lemma AcceptInviteGrows(s: State, token: nat, a: ActorId, now: Time)
    ensures Grows(s, AcceptInvite(s, token, a, now).0)
  {
    hide Join;
    if Redeemable(s, token, now) {
      JoinGrows(s, token, a, now);
    }
  }

  lemma AcceptShareGrows(s: State, token: nat, a: ActorId, now: Time)
    ensures Grows(s, AcceptShare(s, token, a, now).0)
  {
    hide Bundle;
    var t := AcceptShare(s, token, a, now).0;
    assert CapsGrow(s.caps, t.caps);
    assert SharesGrow(s.shares, t.shares);
  }

  lemma DirectoryCallsGrow(s: State, o: OrgId, p: ProjectId, who: Option<ActorId>, role: Role, ttl: Option<Time>, a: ActorId, now: Time)
    ensures Grows(s, Invite(s, o, who, role, a, now).0)
    ensures Grows(s, DeleteProject(s, p, a, now).0)
    ensures Grows(s, ShareProject(s, o, p, a, ttl, now).0)
  {
  }

  lemma RevocationsGrow(s: State, o: OrgId, target: ActorId, a: ActorId, now: Time)
    ensures Grows(s, DeleteOrg(s, o, a, now).0)
    ensures Grows(s, RemoveMember(s, o, target, a, now).0)
  {
    RevokesGrow(s.caps, o, None, now, a);
    RevokesGrow(s.caps, o, Some(target), now, a);
  }

  /** Append-only, for one service call, whatever the state and the arguments. */
  lemma ServeGrows(s: State, call: Call)
    ensures Grows(s, Serve(s, call))
  {
    hide CreateOrg, DeleteOrg, Invite, AcceptInvite, ChangeRole, RemoveMember, CreateProject, DeleteProject,
      ShareProject, AcceptShare, RevokeShare;
    match call
    case Refused =>
    case CallCreateOrg(slug, a) => CreationsGrow(s, 0, slug, a);
    case CallDeleteOrg(o, a, now) => RevocationsGrow(s, o, a, a, now);
    case CallInvite(o, who, role, a, now) => DirectoryCallsGrow(s, o, 0, who, role, None, a, now);
    case CallAcceptInvite(token, a, now) => AcceptInviteGrows(s, token, a, now);
    case CallChangeRole(o, target, role, a, now) => ChangeRoleGrows(s, o, target, role, a, now);
    case CallRemoveMember(o, target, a, now) => RevocationsGrow(s, o, target, a, now);
    case CallCreateProject(o, slug, a) => CreationsGrow(s, o, slug, a);
    case CallDeleteProject(p, a, now) => DirectoryCallsGrow(s, 0, p, None, RoleViewer, None, a, now);
    case CallShareProject(o, p, ttl, a, now) => DirectoryCallsGrow(s, o, p, None, RoleViewer, ttl, a, now);
    case CallAcceptShare(token, a, now) => AcceptShareGrows(s, token, a, now);
    case CallRevokeShare(sid, a, now) => RevokeShareGrows(s, sid, a, now);
  }

  lemma NextGrows(s: State, step: Step)
    ensures Grows(s, Next(s, step))
  {
    hide Serve, Route;
    ServeGrows(s, Route(s, step));
  }

  /** Append-only, over whole runs. */
  lemma {:induction false} RunsGrow(states: seq<State>, steps: seq<Step>, i: nat, j: nat)
    requires Trace(states, steps) && i <= j < |states|
    ensures Grows(states[i], states[j])
    decreases j
  {
    hide Next, Serve;
    if i < j {
      RunsGrow(states, steps, i, j - 1);
      assert states[j] == Next(states[j - 1], steps[j - 1]);
      NextGrows(states[j - 1], steps[j - 1]);
      GrowsTransitive(states[i], states[j - 1], states[j]);
    }
  }
}
