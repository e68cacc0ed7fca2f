/** What holds of every reachable state: well-formed rows, and the exact capability fan-out. */
module Invariants {
  import opened Prelude
  import opened Bundles
  import opened Tables
  import opened History
  import opened Minting

  // ---- well-formed rows ----

  predicate ProjectIn(projects: seq<Project>, p: ProjectId, o: OrgId) {
    p < |projects| && projects[p].org == o
  }

  /** The resource an `rt` row of organisation `o` may name; deleted projects included. */
  predicate TargetOf(projects: seq<Project>, rt: ResourceType, resource: Option<nat>, o: OrgId) {
    if rt == RtOrganisation then resource == Some(o)
    else if rt == RtProject then resource.Some? && ProjectIn(projects, resource.value, o)
    else resource.None?
  }

  /** `c` is the row minted by the accept of share `sid`. */
  predicate FromShare(s: State, c: Capability, i: CapId, sid: ShareId) {
    && sid < |s.shares|
    && var sh := s.shares[sid];
    && sh.consumedCapability == Some(i) && sh.consumedBy == Some(c.actor) && sh.consumedAt.Some?
    && TagOrg(c) == Some(sh.org) && c.resourceId == Some(sh.project) && c.expiresAt == Some(sh.expiresAt)
  }

  predicate CapSane(s: State, c: Capability, i: CapId) {
    && !c.policyBlocked
    && TagOrg(c).Some? && TagOrg(c).value < |s.orgs|
    && TargetOf(s.projects, c.resourceType, c.resourceId, TagOrg(c).value)
    && match c.bundle
       case Primary(_) => c.expiresAt.None? && TagShare(c).None?
       case GuestViewer =>
         && c.operation == OpRead && c.resourceType == RtProject
         && TagShare(c).Some? && FromShare(s, c, i, TagShare(c).value)
  }

  predicate MembersSane(s: State) {
    UniqueMembers(s.members) && forall m :: m in s.members ==> m.org < |s.orgs|
  }

  predicate ShareSane(s: State, sh: Share, sid: ShareId) {
    && ProjectIn(s.projects, sh.project, sh.org)
    && (sh.consumedCapability.Some? ==>
          && sh.consumedAt.Some? && sh.consumedCapability.value < |s.caps|
          && s.caps[sh.consumedCapability.value].bundle == GuestViewer
          && TagShare(s.caps[sh.consumedCapability.value]) == Some(sid))
  }

  predicate RowsSane(s: State) {
    && (forall p :: 0 <= p < |s.projects| ==> s.projects[p].org < |s.orgs|)
    && (forall i :: 0 <= i < |s.invitations| ==> s.invitations[i].org < |s.orgs| && s.invitations[i].role != RoleOwner)
    && (forall sid :: 0 <= sid < |s.shares| ==> ShareSane(s, s.shares[sid], sid))
  }

  predicate CapsSane(s: State) {
    forall i :: 0 <= i < |s.caps| ==> CapSane(s, s.caps[i], i)
  }

  /** No capability of a deleted organisation is active. */
  predicate DeadOrgsRevoked(s: State) {
    forall c :: c in s.caps && Active(c) && TagOrg(c).Some? ==> LiveOrg(s.orgs, TagOrg(c).value)
  }

  predicate Sane(s: State) {
    MembersSane(s) && RowsSane(s) && CapsSane(s) && DeadOrgsRevoked(s)
  }

  lemma EvolvedTags(c: Capability, d: Capability)
    requires Evolves(c, d)
    ensures TagOrg(d) == TagOrg(c) && TagShare(d) == TagShare(c)
  {
  }

  lemma CapStaysSane(s: State, t: State, i: CapId)
    requires Grows(s, t) && i < |s.caps| && CapSane(s, s.caps[i], i)
    ensures CapSane(t, t.caps[i], i)
  {
    EvolvedTags(s.caps[i], t.caps[i]);
  }

  lemma RowsStaySane(s: State, t: State)
    requires Grows(s, t) && RowsSane(s) && CapsSane(s)
    ensures forall i :: 0 <= i < |s.caps| ==> CapSane(t, t.caps[i], i)
    ensures forall p :: 0 <= p < |s.projects| ==> t.projects[p].org < |t.orgs|
    ensures forall i :: 0 <= i < |s.invitations| ==> t.invitations[i].org < |t.orgs| && t.invitations[i].role != RoleOwner
    ensures forall sid :: 0 <= sid < |s.shares| ==>
      t.shares[sid].consumedCapability == s.shares[sid].consumedCapability ==> ShareSane(t, t.shares[sid], sid)
  {
    forall i | 0 <= i < |s.caps| ensures CapSane(t, t.caps[i], i) {
      CapStaysSane(s, t, i);
    }
    forall sid | 0 <= sid < |s.shares| && t.shares[sid].consumedCapability == s.shares[sid].consumedCapability
      ensures ShareSane(t, t.shares[sid], sid)
    {
      assert ShareSane(s, s.shares[sid], sid);
      if s.shares[sid].consumedCapability.Some? {
        var i := s.shares[sid].consumedCapability.value;
        EvolvedTags(s.caps[i], t.caps[i]);
      }
    }
  }

  // ---- exact fan-out ----

  /** The directory entitles the member to this: a live organisation, the member's role, a live target. */
  ghost predicate Wanted(s: State, k: Key) {
    && LiveOrg(s.orgs, k.org) && Member(k.org, k.actor, k.role) in s.members
    && Granted(k.role, k.operation, k.resourceType)
    && TargetOf(s.projects, k.resourceType, k.resource, k.org)
    && (k.resourceType == RtProject ==> s.projects[k.resource.value].deletedAt.None?)
  }

  /** As `Wanted`, except that the project may have been deleted since. */
  ghost predicate Tolerated(s: State, k: Key) {
    && LiveOrg(s.orgs, k.org) && Member(k.org, k.actor, k.role) in s.members
    && Granted(k.role, k.operation, k.resourceType)
    && TargetOf(s.projects, k.resourceType, k.resource, k.org)
  }

  ghost predicate Complete(s: State) {
    forall k :: Wanted(s, k) ==> HasActive(s.caps, k)
  }

  ghost predicate Sound(s: State) {
    forall k :: HasActive(s.caps, k) ==> Tolerated(s, k)
  }

  ghost predicate FanOut(s: State) {
    Complete(s) && Sound(s) && Unique(s.caps)
  }

  /** Minting rows keeps the fan-out exact if they are new, distinct, allowed, and all that became wanted. */
  lemma AppendKeepsFanOut(s: State, t: State, rows: seq<Capability>)
    requires FanOut(s) && t.caps == s.caps + rows && Unique(rows)
    requires forall k :: Wanted(t, k) ==> Wanted(s, k) || HasActive(rows, k)
    requires forall k :: Tolerated(s, k) ==> Tolerated(t, k) && !HasActive(rows, k)
    requires forall k :: HasActive(rows, k) ==> Tolerated(t, k)
    ensures FanOut(t)
  {
    hide Wanted, Tolerated, Holds;
    forall k ensures HasActive(t.caps, k) <==> HasActive(s.caps, k) || HasActive(rows, k) {
      HasActiveAppend(s.caps, rows, k);
    }
    UniqueAppend(s.caps, rows);
  }

  /** Revoking rows keeps it exact if exactly the rows that stopped being allowed are revoked. */
  lemma ShrinkKeepsFanOut(s: State, t: State)
    requires FanOut(s) && |t.caps| == |s.caps|
    requires forall k :: Wanted(t, k) ==> Wanted(s, k)
    requires forall i, k {:trigger Holds(t.caps[i], k)} :: 0 <= i < |s.caps| && Holds(t.caps[i], k) ==> Holds(s.caps[i], k) && Tolerated(t, k)
    requires forall i, k {:trigger Holds(s.caps[i], k)} :: 0 <= i < |s.caps| && Holds(s.caps[i], k) && Wanted(t, k) ==> Holds(t.caps[i], k)
    ensures FanOut(t)
  {
    hide Wanted, Tolerated, Holds;
    forall k | Wanted(t, k) ensures HasActive(t.caps, k) {
      var c :| c in s.caps && Holds(c, k);
      var i :| 0 <= i < |s.caps| && s.caps[i] == c;
      assert Holds(t.caps[i], k) && t.caps[i] in t.caps;
    }
    forall k | HasActive(t.caps, k) ensures Tolerated(t, k) {
      var c :| c in t.caps && Holds(c, k);
      var i :| 0 <= i < |t.caps| && t.caps[i] == c;
      assert Holds(t.caps[i], k);
    }
    forall i, j, k | 0 <= i < j < |t.caps| && Holds(t.caps[i], k) ensures !Holds(t.caps[j], k) {
      assert Holds(s.caps[i], k);
    }
  }

  /** Directory changes that leave the capabilities alone. */
  lemma DirectoryKeepsFanOut(s: State, t: State)
    requires FanOut(s) && t.caps == s.caps
    requires forall k :: Wanted(t, k) ==> Wanted(s, k)
    requires forall k :: Tolerated(s, k) ==> Tolerated(t, k)
    ensures FanOut(t)
  {
  }

  ghost predicate Inv(s: State) {
    Sane(s) && FanOut(s)
  }
}
