/**
 The access specification: who may do what, with no capability table at all. Its state is the live
 organisations and projects, the role of each member and the guest grants; its steps are events.
 */
module AccessSpec {
  import opened Prelude
  import opened Bundles
  import opened Tables
  import opened Services
  import opened Routes

  datatype Grant = Grant(actor: ActorId, org: OrgId, project: ProjectId, expiresAt: Time)

  datatype Access = Access(
    live: set<OrgId>, roles: map<(OrgId, ActorId), Role>, projects: map<ProjectId, OrgId>, grants: map<ShareId, Grant>)

  const NOBODY := Access({}, map[], map[], map[])

  datatype Event =
    | Nothing
    | OrgCreated(o: OrgId, owner: ActorId)
    | OrgDeleted(o: OrgId)
    | Joined(o: OrgId, a: ActorId, role: Role)
    | RoleChanged(o: OrgId, a: ActorId, role: Role)
    | Left(o: OrgId, a: ActorId)
    | ProjectCreated(p: ProjectId, o: OrgId)
    | ProjectDeleted(p: ProjectId)
    | ShareAccepted(sid: ShareId, grant: Grant)
    | ShareRevoked(sid: ShareId)

  function After(x: Access, e: Event): Access {
    match e
    case Nothing => x
    case OrgCreated(o, owner) => x.(live := x.live + {o}, roles := x.roles[(o, owner) := RoleOwner])
    case OrgDeleted(o) => x.(live := x.live - {o}, grants := map sid | sid in x.grants && x.grants[sid].org != o :: x.grants[sid])
    case Joined(o, a, role) => if (o, a) in x.roles then x else x.(roles := x.roles[(o, a) := role])
    case RoleChanged(o, a, role) => x.(roles := x.roles[(o, a) := role])
    case Left(o, a) =>
      x.(roles := x.roles - {(o, a)},
         grants := map sid | sid in x.grants && !(x.grants[sid].org == o && x.grants[sid].actor == a) :: x.grants[sid])
    case ProjectCreated(p, o) => x.(projects := x.projects[p := o])
    case ProjectDeleted(p) => x.(projects := x.projects - {p})
    case ShareAccepted(sid, grant) => if (grant.org, grant.actor) in x.roles then x else x.(grants := x.grants[sid := grant])
    case ShareRevoked(sid) => x.(grants := x.grants - {sid})
  }

  /** On a project: a member by role, anyone else by an unexpired grant, and then only to read. */
  predicate MayProject(x: Access, a: ActorId, op: Operation, p: ProjectId, now: Time) {
    && p in x.projects && x.projects[p] in x.live
    && (|| ((x.projects[p], a) in x.roles && Granted(x.roles[(x.projects[p], a)], op, RtProject))
        || (op == OpRead && exists sid :: sid in x.grants && x.grants[sid].actor == a && x.grants[sid].project == p
                                          && now < x.grants[sid].expiresAt))
  }

  /** On an organisation: members only, by role. */
  predicate MayOrganisation(x: Access, a: ActorId, op: Operation, o: OrgId) {
    o in x.live && (o, a) in x.roles && Granted(x.roles[(o, a)], op, RtOrganisation)
  }

  /** What a service call did, read off its arguments and its result. */
  function EventOf(s: State, call: Call): Event {
    match call
    case Refused => Nothing
    case CallCreateOrg(slug, a) =>
      var r := CreateOrg(s, slug, a).1;
      if r.Ok? then OrgCreated(r.value, a) else Nothing
    case CallDeleteOrg(o, a, now) => if DeleteOrg(s, o, a, now).1.Ok? then OrgDeleted(o) else Nothing
    case CallInvite(_, _, _, _, _) => Nothing
    case CallAcceptInvite(token, a, now) =>
      var r := AcceptInvite(s, token, a, now).1;
      if r.Ok? then Joined(r.value.0, a, r.value.1) else Nothing
    case CallChangeRole(o, target, role, a, now) =>
      if ChangeRole(s, o, target, role, a, now).1.Ok? then RoleChanged(o, target, role) else Nothing
    case CallRemoveMember(o, target, a, now) =>
      if RemoveMember(s, o, target, a, now).1.Ok? then Left(o, target) else Nothing
    case CallCreateProject(o, slug, a) =>
      var r := CreateProject(s, o, slug, a).1;
      if r.Ok? then ProjectCreated(r.value, o) else Nothing
    case CallDeleteProject(p, a, now) => if DeleteProject(s, p, a, now).1.Ok? then ProjectDeleted(p) else Nothing
    case CallShareProject(_, _, _, _, _) => Nothing
    case CallAcceptShare(token, a, now) =>
      var r := AcceptShare(s, token, a, now).1;
      if r.Ok? then ShareAccepted(token, Grant(a, r.value.0, r.value.1, s.shares[token].expiresAt)) else Nothing
    case CallRevokeShare(sid, a, now) => if RevokeShare(s, sid, a, now).1.Ok? then ShareRevoked(sid) else Nothing
  }

  /** The specification's run beside a run of the system. */
  ghost predicate Shadows(accesses: seq<Access>, states: seq<State>, steps: seq<Step>) {
    && |accesses| == |states| == |steps| + 1
    && forall i {:trigger steps[i]} :: 0 <= i < |steps| ==>
      accesses[i + 1] == After(accesses[i], EventOf(states[i], Route(states[i], steps[i])))
  }
}
