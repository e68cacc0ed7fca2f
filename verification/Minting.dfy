/** What the two fan-out loops mint, stated independently of how they iterate. */
module Minting {
  import opened Prelude
  import opened Bundles
  import opened Tables
  import opened Authz
  import opened Services

  /** One entitlement: what an active primary-bundle row grants, to whom, under which role. */
  datatype Key = Key(
    org: OrgId, actor: ActorId, role: Role, operation: Operation, resourceType: ResourceType, resource: Option<nat>)

  /** `c` is an active primary-bundle row for exactly this entitlement. */
  predicate Holds(c: Capability, k: Key) {
    && Active(c) && c.bundle == Primary(k.role) && TagOrg(c) == Some(k.org) && c.actor == k.actor
    && c.operation == k.operation && c.resourceType == k.resourceType && c.resourceId == k.resource
  }

  ghost predicate HasActive(caps: seq<Capability>, k: Key) {
    exists c :: c in caps && Holds(c, k)
  }

  /** No entitlement is held by two rows. */
  ghost predicate Unique(caps: seq<Capability>) {
    forall i, j, k :: 0 <= i < j < |caps| && Holds(caps[i], k) ==> !Holds(caps[j], k)
  }

  /** The resource an `rt` template of organisation `o` names, when its projects are `ps`. */
  predicate TargetIn(rt: ResourceType, resource: Option<nat>, o: OrgId, ps: seq<ProjectId>) {
    if rt == RtOrganisation then resource == Some(o)
    else if rt == RtProject then resource.Some? && resource.value in ps
    else resource.None?
  }

  // ---- mint_bundle: templates x projects ----

  ghost predicate Minted(g: Grantee, ts: seq<Template>, o: OrgId, ps: seq<ProjectId>, c: Capability) {
    exists t, x :: t in ts && x in Targets(t, o, ps, None) && c == Row(g, t, x)
  }

  lemma {:induction false} BundleRowsMinted(g: Grantee, ts: seq<Template>, o: OrgId, ps: seq<ProjectId>, c: Capability)
    ensures c in BundleRows(g, ts, o, ps, None) <==> Minted(g, ts, o, ps, c)
  {
    if ts != [] {
      var n := |ts| - 1;
      var targets := Targets(ts[n], o, ps, None);
      var last := TemplateRows(g, ts[n], targets);
      BundleRowsMinted(g, ts[..n], o, ps, c);
      assert ts == ts[..n] + [ts[n]];
      assert c in last <==> exists x :: x in targets && c == Row(g, ts[n], x) by {
        if x :| x in targets && c == Row(g, ts[n], x) {
          var i :| 0 <= i < |targets| && targets[i] == x;
          assert last[i] == c;
        }
      }
    }
  }

  ghost predicate NoDup(rows: seq<Capability>) {
    forall i, j :: 0 <= i < j < |rows| ==> rows[i] != rows[j]
  }

  lemma NoDupAppend(a: seq<Capability>, b: seq<Capability>)
    requires NoDup(a) && NoDup(b) && forall c :: c in a ==> c !in b
    ensures NoDup(a + b)
  {
    var r := a + b;
    forall i, j | 0 <= i < j < |r| ensures r[i] != r[j] {
      if i < |a| <= j {
        assert r[i] in a && r[j] in b;
      }
    }
  }

  lemma TemplateRowsNoDup(g: Grantee, t: Template, o: OrgId, ps: seq<ProjectId>)
    requires forall i, j :: 0 <= i < j < |ps| ==> ps[i] < ps[j]
    ensures NoDup(TemplateRows(g, t, Targets(t, o, ps, None)))
  {
    var rows := TemplateRows(g, t, Targets(t, o, ps, None));
    forall i, j | 0 <= i < j < |rows| ensures rows[i].resourceId != rows[j].resourceId {
      assert ps[i] < ps[j];
    }
  }

  lemma {:induction false} BundleRowsNoDup(g: Grantee, ts: seq<Template>, o: OrgId, ps: seq<ProjectId>)
    requires Increasing(ts)
    requires forall i, j :: 0 <= i < j < |ps| ==> ps[i] < ps[j]
    ensures NoDup(BundleRows(g, ts, o, ps, None))
  {
    hide Rank;
    if ts != [] {
      var n := |ts| - 1;
      var t := ts[n];
      var first := BundleRows(g, ts[..n], o, ps, None);
      var last := TemplateRows(g, t, Targets(t, o, ps, None));
      BundleRowsNoDup(g, ts[..n], o, ps);
      TemplateRowsNoDup(g, t, o, ps);
      forall c | c in first ensures c !in last {
        BundleRowsMinted(g, ts[..n], o, ps, c);
        var u, x :| u in ts[..n] && x in Targets(u, o, ps, None) && c == Row(g, u, x);
        var i :| 0 <= i < n && ts[i] == u;
        IncreasingPairs(ts, i, n);
        LaterTemplateRows(g, u, t, x, Targets(t, o, ps, None));
      }
      NoDupAppend(first, last);
    }
  }

  lemma LaterTemplateRows(g: Grantee, u: Template, t: Template, x: Option<nat>, targets: seq<Option<nat>>)
    requires Rank(u) < Rank(t)
    ensures Row(g, u, x) !in TemplateRows(g, t, targets)
  {
    hide Rank;
    if Row(g, u, x) in TemplateRows(g, t, targets) {
      RankIsByPair(u, t);
    }
  }

  lemma RankIsByPair(t: Template, u: Template)
    requires t.operation == u.operation && t.resourceType == u.resourceType
    ensures Rank(t) == Rank(u)
  {
  }

  /** One `mint_bundle` of a primary bundle grants exactly the role's templates on their targets, each once. */
  lemma PrimaryRows(g: Grantee, role: Role, o: OrgId, ps: seq<ProjectId>)
    requires g.bundle == Primary(role) && g.meta == map[MetaOrg := o]
    requires forall i, j :: 0 <= i < j < |ps| ==> ps[i] < ps[j]
    ensures var rows := BundleRows(g, Bundle(Primary(role)), o, ps, None);
      && Unique(rows)
      && forall k :: HasActive(rows, k) <==>
        k.org == o && k.actor == g.actor && k.role == role && Granted(role, k.operation, k.resourceType)
        && TargetIn(k.resourceType, k.resource, o, ps)
  {
    hide Bundle, BundleRows;
    var ts := Bundle(Primary(role));
    var rows := BundleRows(g, ts, o, ps, None);
    BundlesIncrease(role);
    BundleRowsNoDup(g, ts, o, ps);
    forall c ensures c in rows <==> Minted(g, ts, o, ps, c) {
      BundleRowsMinted(g, ts, o, ps, c);
    }
    forall k ensures HasActive(rows, k) <==>
      k.org == o && k.actor == g.actor && k.role == role && Granted(role, k.operation, k.resourceType)
      && TargetIn(k.resourceType, k.resource, o, ps)
    {
      PrimaryRowsHold(g, role, o, ps, rows, k);
    }
    forall i, j, k | 0 <= i < j < |rows| && Holds(rows[i], k) ensures !Holds(rows[j], k) {
      assert rows[i] in rows && rows[j] in rows;
      assert Minted(g, ts, o, ps, rows[i]) && Minted(g, ts, o, ps, rows[j]);
    }
  }

  lemma PrimaryRowsHold(g: Grantee, role: Role, o: OrgId, ps: seq<ProjectId>, rows: seq<Capability>, k: Key)
    requires g.bundle == Primary(role) && g.meta == map[MetaOrg := o]
    requires forall c :: c in rows <==> Minted(g, Bundle(Primary(role)), o, ps, c)
    ensures HasActive(rows, k) <==>
      k.org == o && k.actor == g.actor && k.role == role && Granted(role, k.operation, k.resourceType)
      && TargetIn(k.resourceType, k.resource, o, ps)
  {
    hide Bundle;
    var ts := Bundle(Primary(role));
    if HasActive(rows, k) {
      var c :| c in rows && Holds(c, k);
      assert Minted(g, ts, o, ps, c);
      var t, x :| t in ts && x in Targets(t, o, ps, None) && c == Row(g, t, x);
      ScopesFollowTypes(role, t);
      assert t == Template(k.operation, k.resourceType, ScopeFor(k.resourceType));
    }
    if k.org == o && k.actor == g.actor && k.role == role && Granted(role, k.operation, k.resourceType)
       && TargetIn(k.resourceType, k.resource, o, ps)
    {
      var t := Template(k.operation, k.resourceType, ScopeFor(k.resourceType));
      var targets := Targets(t, o, ps, None);
      if k.resourceType == RtProject {
        var i :| 0 <= i < |ps| && ps[i] == k.resource.value;
        assert targets[i] == k.resource;
      } else {
        assert targets[0] == k.resource;
      }
      var c := Row(g, t, k.resource);
      assert Minted(g, ts, o, ps, c);
      assert c in rows && Holds(c, k);
    }
  }

  // ---- ProjectService.create: members x templates ----

  lemma {:induction false} ProjectTemplateRowsMinted(g: Grantee, ts: seq<Template>, p: ProjectId, c: Capability)
    ensures c in ProjectTemplateRows(g, ts, p) <==>
      exists t :: t in ts && t.scope == ScopeAllInOrg && t.resourceType == RtProject && c == Row(g, t, Some(p))
  {
    if ts != [] {
      var n := |ts| - 1;
      ProjectTemplateRowsMinted(g, ts[..n], p, c);
      assert ts == ts[..n] + [ts[n]];
    }
  }

  lemma {:induction false} ProjectTemplateRowsNoDup(g: Grantee, ts: seq<Template>, p: ProjectId)
    requires Increasing(ts)
    ensures NoDup(ProjectTemplateRows(g, ts, p))
  {
    hide Rank;
    if ts != [] {
      var n := |ts| - 1;
      var t := ts[n];
      var first := ProjectTemplateRows(g, ts[..n], p);
      ProjectTemplateRowsNoDup(g, ts[..n], p);
      var c := Row(g, t, Some(p));
      if c in first {
        ProjectTemplateRowsMinted(g, ts[..n], p, c);
        var u :| u in ts[..n] && u.scope == ScopeAllInOrg && u.resourceType == RtProject && c == Row(g, u, Some(p));
        var i :| 0 <= i < n && ts[i] == u;
        IncreasingPairs(ts, i, n);
        RankIsByPair(u, t);
      }
    }
  }

  /** The rows one member gets for project `p`. */
  lemma MemberProjectRows(m: Member, o: OrgId, p: ProjectId, grantedBy: ActorId)
    ensures var rows := ProjectTemplateRows(MemberGrantee(m, o, grantedBy), Bundle(Primary(m.role)), p);
      && Unique(rows)
      && forall k :: HasActive(rows, k) <==>
        k.org == o && k.actor == m.actor && k.role == m.role && k.resourceType == RtProject && k.resource == Some(p)
        && Granted(m.role, k.operation, RtProject)
  {
    hide Bundle, ProjectTemplateRows;
    var g := MemberGrantee(m, o, grantedBy);
    var ts := Bundle(Primary(m.role));
    var rows := ProjectTemplateRows(g, ts, p);
    BundlesIncrease(m.role);
    ProjectTemplateRowsNoDup(g, ts, p);
    forall c ensures c in rows <==>
      exists t :: t in ts && t.scope == ScopeAllInOrg && t.resourceType == RtProject && c == Row(g, t, Some(p))
    {
      ProjectTemplateRowsMinted(g, ts, p, c);
    }
    forall k ensures HasActive(rows, k) <==>
      k.org == o && k.actor == m.actor && k.role == m.role && k.resourceType == RtProject && k.resource == Some(p)
      && Granted(m.role, k.operation, RtProject)
    {
      var t := Template(k.operation, RtProject, ScopeAllInOrg);
      if t in ts && k.org == o && k.actor == m.actor && k.role == m.role && k.resourceType == RtProject && k.resource == Some(p) {
        assert Row(g, t, Some(p)) in rows && Holds(Row(g, t, Some(p)), k);
      }
    }
    forall i, j, k | 0 <= i < j < |rows| && Holds(rows[i], k) ensures !Holds(rows[j], k) {
      assert rows[i] in rows && rows[j] in rows;
    }
  }

  lemma UniqueAppend(a: seq<Capability>, b: seq<Capability>)
    requires Unique(a) && Unique(b) && forall k :: HasActive(a, k) ==> !HasActive(b, k)
    ensures Unique(a + b)
  {
    var r := a + b;
    forall i, j, k | 0 <= i < j < |r| && Holds(r[i], k) ensures !Holds(r[j], k) {
      if i < |a| <= j {
        assert r[i] in a && r[j] in b;
        assert HasActive(a, k);
      } else if j < |a| {
        assert Holds(a[i], k);
      } else {
        assert Holds(b[i - |a|], k);
      }
    }
  }

  lemma HasActiveAppend(a: seq<Capability>, b: seq<Capability>, k: Key)
    ensures HasActive(a + b, k) <==> HasActive(a, k) || HasActive(b, k)
  {
    if c :| c in a && Holds(c, k) {
      assert c in a + b;
    }
    if c :| c in b && Holds(c, k) {
      assert c in a + b;
    }
  }

  /** A project creation grants exactly the project templates of every member's role on `p`, each once. */
  lemma {:induction false} ProjectRowsHold(ms: seq<Member>, o: OrgId, p: ProjectId, grantedBy: ActorId)
    requires UniqueMembers(ms) && forall m :: m in ms ==> m.org == o
    ensures var rows := ProjectRows(ms, o, p, grantedBy);
      && Unique(rows)
      && forall k :: HasActive(rows, k) <==>
        k.org == o && k.resourceType == RtProject && k.resource == Some(p)
        && Member(o, k.actor, k.role) in ms && Granted(k.role, k.operation, RtProject)
  {
    hide Bundle, ProjectTemplateRows, Granted;
    if ms != [] {
      var n := |ms| - 1;
      var m := ms[n];
      var first := ProjectRows(ms[..n], o, p, grantedBy);
      var last := ProjectTemplateRows(MemberGrantee(m, o, grantedBy), Bundle(Primary(m.role)), p);
      ProjectRowsHold(ms[..n], o, p, grantedBy);
      MemberProjectRows(m, o, p, grantedBy);
      assert ms == ms[..n] + [m];
      forall k | HasActive(first, k) ensures !HasActive(last, k) {
        var x := Member(o, k.actor, k.role);
        var i :| 0 <= i < n && ms[i] == x;
      }
      UniqueAppend(first, last);
      forall k ensures HasActive(first + last, k) <==> HasActive(first, k) || HasActive(last, k) {
        HasActiveAppend(first, last, k);
      }
    }
  }
}
