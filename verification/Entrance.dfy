/** Whom the gate in front of the tenant routes lets in, and as what. */
module Entrance {
  import opened Prelude
  import opened Tables
  import opened Routes
  import opened AccessSpec
  import opened Invariants
  import opened Refinement
  import opened Guests

  /** `a` redeemed share `sid` of `o`, its capability has not been ended, and time remains. */
  predicate OpenGrant(s: State, sid: ShareId, o: OrgId, a: ActorId, now: Time) {
    && sid < |s.shares|
    && var sh := s.shares[sid];
    && sh.org == o && sh.consumedBy == Some(a) && now < sh.expiresAt
    && sh.consumedCapability.Some? && sh.consumedCapability.value < |s.caps|
    && s.caps[sh.consumedCapability.value].revokedAt.None?
  }

  /** Guests are the non-members with an open grant; members are never guests; everyone else stays out. */
  lemma ResolvedIff(s: State, slug: string, a: ActorId, now: Time, o: OrgId)
    requires Inv(s)
    ensures ResolveMembership(s, slug, a, now) == Some(TenantContext(o, false)) <==>
      OrgBySlug(s.orgs, slug) == Some(o) && exists r :: Member(o, a, r) in s.members
    ensures ResolveMembership(s, slug, a, now) == Some(TenantContext(o, true)) <==>
      && OrgBySlug(s.orgs, slug) == Some(o) && (forall r :: Member(o, a, r) !in s.members)
      && exists sid :: OpenGrant(s, sid, o, a, now)
    ensures ResolveMembership(s, slug, a, now).None? <==>
      forall x: OrgId :: OrgBySlug(s.orgs, slug) == Some(x) ==>
        (forall r :: Member(x, a, r) !in s.members) && forall sid :: !OpenGrant(s, sid, x, a, now)
  {
    hide Inv, OrgBySlug, GuestCap, OpenGrant;
    var x := OrgBySlug(s.orgs, slug);
    if x.Some? && FindMember(s.members, x.value, a).None? {
      GuestCapIff(s, x.value, a, now);
    }
  }

  /** On any table, whatever wrote its rows: a non-member is let in by a row of their own that could still be used. */
  lemma StrangerResolvedIff(s: State, slug: string, a: ActorId, now: Time, o: OrgId)
    requires OrgBySlug(s.orgs, slug) == Some(o) && FindMember(s.members, o, a).None?
    ensures ResolveMembership(s, slug, a, now).Some? <==>
      exists i: CapId :: i < |s.caps| &&
        var c := s.caps[i];
        && c.actor == a && c.revokedAt == None && !c.policyBlocked && TagOrg(c) == Some(o)
        && (c.expiresAt == None || c.expiresAt.value > now)
  {
    hide OrgBySlug, FindMember;
    if ResolveMembership(s, slug, a, now).Some? {
      var c :| c in s.caps && GuestCap(c, a, o, now);
      var i: nat :| i < |s.caps| && s.caps[i] == c;
    } else {
      forall i: CapId | i < |s.caps| ensures !GuestCap(s.caps[i], a, o, now) {
        assert s.caps[i] in s.caps;
      }
    }
  }

  /** The rows the gate looks at, for someone who is no member, are the open grants. */
  lemma GuestCapIff(s: State, o: OrgId, a: ActorId, now: Time)
    requires Inv(s) && FindMember(s.members, o, a).None?
    ensures (exists c :: c in s.caps && GuestCap(c, a, o, now)) <==> exists sid :: OpenGrant(s, sid, o, a, now)
  {
    hide Inv, FindMember, GuestCap, OpenGrant;
    if exists c :: c in s.caps && GuestCap(c, a, o, now) {
      var c :| c in s.caps && GuestCap(c, a, o, now);
      var i: nat :| i < |s.caps| && s.caps[i] == c;
      GuestCapIsOpen(s, i, o, a, now);
    }
    if exists sid :: OpenGrant(s, sid, o, a, now) {
      var sid :| OpenGrant(s, sid, o, a, now);
      OpenGrantIsCap(s, sid, o, a, now);
    }
  }

  lemma GuestCapIsOpen(s: State, i: CapId, o: OrgId, a: ActorId, now: Time)
    requires Inv(s) && FindMember(s.members, o, a).None? && i < |s.caps| && GuestCap(s.caps[i], a, o, now)
    ensures exists sid :: OpenGrant(s, sid, o, a, now)
  {
    hide MembersSane, RowsSane, DeadOrgsRevoked, FanOut, FindMember;
    assert CapSane(s, s.caps[i], i);
    if s.caps[i].bundle.Primary? {
      PrimaryRowsAreMembers(s, i, o);
    } else {
      assert OpenGrant(s, TagShare(s.caps[i]).value, o, a, now);
    }
  }

  lemma OpenGrantIsCap(s: State, sid: ShareId, o: OrgId, a: ActorId, now: Time)
    requires Inv(s) && OpenGrant(s, sid, o, a, now)
    ensures exists c :: c in s.caps && GuestCap(c, a, o, now)
  {
    hide MembersSane, DeadOrgsRevoked, FanOut;
    var i := s.shares[sid].consumedCapability.value;
    assert ShareSane(s, s.shares[sid], sid);
    assert CapSane(s, s.caps[i], i);
    assert s.caps[i] in s.caps && GuestCap(s.caps[i], a, o, now);
  }

  /** The same over runs, in the terms of the access specification: guests hold an unexpired grant there. */
  lemma GuestsHoldGrants(states: seq<State>, steps: seq<Step>, accesses: seq<Access>, i: nat, slug: string, a: ActorId, now: Time, o: OrgId)
    requires Trace(states, steps) && states[0] == EMPTY
    requires Shadows(accesses, states, steps) && accesses[0] == NOBODY && i < |states|
    ensures var s, x := states[i], accesses[i];
      ResolveMembership(s, slug, a, now) == Some(TenantContext(o, true)) <==>
        && OrgBySlug(s.orgs, slug) == Some(o) && (o, a) !in x.roles
        && exists sid :: sid in x.grants && x.grants[sid].actor == a && x.grants[sid].org == o && now < x.grants[sid].expiresAt
  {
    hide Next, After, EventOf, Inv, OrgBySlug, ResolveMembership, OpenGrant, SameGrants;
    RunsSimulate(states, steps, accesses, i);
    var s, x := states[i], accesses[i];
    ResolvedIff(s, slug, a, now, o);
    if (o, a) in x.roles {
      assert Member(o, a, x.roles[(o, a)]) in s.members;
    }
    forall sid ensures OpenGrant(s, sid, o, a, now) <==>
      sid in x.grants && x.grants[sid].actor == a && x.grants[sid].org == o && now < x.grants[sid].expiresAt
    {
      OpenIffGranted(s, x, sid, o, a, now);
    }
  }

  lemma OpenIffGranted(s: State, x: Access, sid: ShareId, o: OrgId, a: ActorId, now: Time)
    requires Inv(s) && SameGrants(s, x)
    ensures OpenGrant(s, sid, o, a, now) <==>
      sid in x.grants && x.grants[sid].actor == a && x.grants[sid].org == o && now < x.grants[sid].expiresAt
  {
    hide MembersSane, DeadOrgsRevoked, FanOut;
    if OpenGrant(s, sid, o, a, now) {
      var i := s.shares[sid].consumedCapability.value;
      assert ShareSane(s, s.shares[sid], sid) && CapSane(s, s.caps[i], i) && s.caps[i] in s.caps;
      assert GuestRowFor(s.caps[i], sid, x.grants[sid]);
    }
    if sid in x.grants && x.grants[sid].actor == a && x.grants[sid].org == o && now < x.grants[sid].expiresAt {
      var c :| c in s.caps && GuestRowFor(c, sid, x.grants[sid]);
      var i: nat :| i < |s.caps| && s.caps[i] == c;
      assert CapSane(s, c, i);
    }
  }
}
