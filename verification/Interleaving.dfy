/**
 Accepting an invitation or a share as it really interleaves, with any number of accepts in flight and
 whole requests in between.

 An invitation is looked up first and consumed later; a conditional update of an already consumed row
 fails, and so does inserting a second membership row (its primary key). A share is consumed first:
 the conditional update holds the row until its transaction commits or, when the project or the
 organisation turns out to be gone, rolls back. Whoever else wants to write the row waits meanwhile,
 and nobody sees the uncommitted update.
 */
module Interleaving {
  import opened Prelude
  import opened Bundles
  import opened Tables
  import opened Authz
  import opened Services
  import opened Routes
  import opened History
  import opened Minting
  import opened Invariants
  import opened SaneSteps

  /** An accept between its lookup and its consume, holding the invitation row it read. */
  datatype Pending = Pending(token: nat, inv: Invitation, a: ActorId, now: Time)

  /** An accept that has consumed a share and not committed yet, holding the row it consumed. */
  datatype Claim = Claim(row: Share, a: ActorId, now: Time)

  /** `s` is the committed state; `claims` are the locked share rows. */
  datatype World = World(s: State, inFlight: map<nat, Pending>, claims: map<ShareId, Claim>)

  datatype Move =
    | Lookup(tid: nat, token: nat, a: ActorId, now: Time)
    | Consume(tid: nat)
    | ClaimShare(sid: ShareId, a: ActorId, now: Time)
    | Conclude(sid: ShareId)
    | Request(step: Step)

  /** The rest of an accept, working from the row it read earlier. The flag says whether it won. */
  function Finish(s: State, p: Pending): (State, bool) {
    if !(p.token < |s.invitations| && s.invitations[p.token].consumedAt.None?) then (s, false)
    else if FindMember(s.members, p.inv.org, p.a).Some? then (s, false)
    else
      var row := s.invitations[p.token].(consumedAt := Some(p.now), consumedBy := Some(p.a));
      var s1 := s.(invitations := s.invitations[p.token := row], members := s.members + [Member(p.inv.org, p.a, p.inv.role)]);
      var s2 := MintBundle(s1, p.a, Primary(p.inv.role), p.inv.org, p.inv.invitedBy, LiveProjects(s.projects, p.inv.org), None);
      (s2.(audit := s2.audit + [AuditRow(ActUpdate, EntInvitation, p.token, p.inv.org, OtherDiff),
                                AuditRow(ActCreate, EntMember, p.a, p.inv.org, OtherDiff)]), true)
  }

  /** The rest of a share accept, working from the row it consumed; it rolls back when project or organisation is gone. */
  function ConcludeShare(s: State, sid: ShareId, c: Claim): (State, bool)
    requires sid < |s.shares|
  {
    var used := c.row.(consumedAt := Some(c.now), consumedBy := Some(c.a));
    var logged := AuditRow(ActUpdate, EntShare, sid, c.row.org, OtherDiff);
    if !LiveProject(s.projects, c.row.project) || !LiveOrg(s.orgs, c.row.org) then (s, false)
    else if FindMember(s.members, c.row.org, c.a).Some? then
      (s.(shares := s.shares[sid := used], audit := s.audit + [logged]), true)
    else
      var row := GuestRow(c.row, sid, c.a);
      var s1 := Mint(s.(shares := s.shares[sid := used]), c.row.org, [row]);
      (s1.(shares := s1.shares[sid := used.(consumedCapability := Some(|s.caps|))],
           audit := s1.audit + [logged, AuditRow(ActCreate, EntCapability, |s.caps|, c.row.org, CapAfter(row))]), true)
  }

  /** The request would write a share row that an accept holds, so it waits. */
  predicate Waits(w: World, step: Step) {
    match Route(w.s, step)
    case CallAcceptShare(token, _, _) => token in w.claims
    case CallRevokeShare(sid, _, _) => sid in w.claims
    case _ => false
  }

  predicate Claimable(s: State, sid: ShareId, now: Time) {
    sid < |s.shares| && s.shares[sid].consumedAt.None? && now < s.shares[sid].expiresAt
  }

  function MoveNext(w: World, m: Move): World {
    match m
    case Lookup(tid, token, a, now) =>
      if tid !in w.inFlight && Redeemable(w.s, token, now) && LiveOrg(w.s.orgs, w.s.invitations[token].org)
         && FindMember(w.s.members, w.s.invitations[token].org, a).None?
      then w.(inFlight := w.inFlight[tid := Pending(token, w.s.invitations[token], a, now)])
      else w
    case Consume(tid) =>
      if tid in w.inFlight then w.(s := Finish(w.s, w.inFlight[tid]).0, inFlight := w.inFlight - {tid}) else w
    case ClaimShare(sid, a, now) =>
      if sid !in w.claims && Claimable(w.s, sid, now) then w.(claims := w.claims[sid := Claim(w.s.shares[sid], a, now)]) else w
    case Conclude(sid) =>
      if sid in w.claims && sid < |w.s.shares|
      then w.(s := ConcludeShare(w.s, sid, w.claims[sid]).0, claims := w.claims - {sid})
      else w
    case Request(step) => if Waits(w, step) then w else w.(s := Next(w.s, step))
  }

  ghost predicate Interleaved(worlds: seq<World>, moves: seq<Move>) {
    && |worlds| == |moves| + 1
    && forall i {:trigger moves[i]} :: 0 <= i < |moves| ==> worlds[i + 1] == MoveNext(worlds[i], moves[i])
  }

  /** The assumption: no request deletes an organisation while one of its invitations is being accepted. */
  predicate Calm(w: World, m: Move) {
    m.Request? && Route(w.s, m.step).CallDeleteOrg? ==>
      forall tid :: tid in w.inFlight ==> w.inFlight[tid].inv.org != Route(w.s, m.step).o
  }

  /** The row an accept read still describes its invitation. */
  predicate Current(s: State, p: Pending) {
    && p.token < |s.invitations| && p.now < p.inv.expiresAt
    && s.invitations[p.token].org == p.inv.org && s.invitations[p.token].role == p.inv.role
    && s.invitations[p.token].invitedBy == p.inv.invitedBy && s.invitations[p.token].expiresAt == p.inv.expiresAt
  }

  /** A late consume does what a whole accept would do at that moment, exactly in these cases. */
  lemma FinishIsAtomicIff(s: State, p: Pending)
    requires Current(s, p)
    ensures Finish(s, p).0 == AcceptInvite(s, p.token, p.a, p.now).0 <==>
      || LiveOrg(s.orgs, p.inv.org)
      || s.invitations[p.token].consumedAt.Some?
      || FindMember(s.members, p.inv.org, p.a).Some?
    ensures Finish(s, p).1 <==> Finish(s, p).0 != s
  {
    hide Bundle, BundleRows, CreateRows, LiveProjects;
    var t := Finish(s, p).0;
    if s.invitations[p.token].consumedAt.None? && FindMember(s.members, p.inv.org, p.a).None? {
      assert t.invitations[p.token].consumedAt.Some?;
      if LiveOrg(s.orgs, p.inv.org) {
        assert t == Join(s, p.token, p.a, p.now);
      }
    }
  }

  predicate AcceptsCurrent(w: World) {
    forall tid :: tid in w.inFlight ==> Current(w.s, w.inFlight[tid]) && LiveOrg(w.s.orgs, w.inFlight[tid].inv.org)
  }

  // ---- a held share row ----

  predicate ClaimsCurrent(w: World) {
    forall sid :: sid in w.claims ==> Claimable(w.s, sid, w.claims[sid].now) && w.s.shares[sid] == w.claims[sid].row
  }

  /** While the row is held, concluding is exactly what the whole accept would do at that moment. */
  lemma ConcludeIsAccept(s: State, sid: ShareId, c: Claim)
    requires Claimable(s, sid, c.now) && s.shares[sid] == c.row
    ensures ConcludeShare(s, sid, c).0 == AcceptShare(s, sid, c.a, c.now).0
    ensures ConcludeShare(s, sid, c).1 <==> AcceptShare(s, sid, c.a, c.now).1.Ok?
    ensures ConcludeShare(s, sid, c).1 <==> ConcludeShare(s, sid, c).0 != s
    ensures ConcludeShare(s, sid, c).1 <==> LiveProject(s.projects, c.row.project) && LiveOrg(s.orgs, c.row.org)
  {
    hide FindMember, CreateRows, LiveProject, LiveOrg;
    var t := ConcludeShare(s, sid, c).0;
    if ConcludeShare(s, sid, c).1 {
      assert t.shares[sid].consumedAt.Some?;
      assert t == AcceptShare(s, sid, c.a, c.now).0;
    }
  }

  /** Only an accept or a revoke of a share writes its row. */
  lemma OthersKeepShareRows(s: State, call: Call, sid: ShareId)
    requires sid < |s.shares|
    requires !(call.CallAcceptShare? && call.token == sid) && !(call.CallRevokeShare? && call.sid == sid)
    ensures var t := Serve(s, call); sid < |t.shares| && t.shares[sid] == s.shares[sid]
  {
    hide Bundle, BundleRows, ProjectRows, RevokeTagged, RevokeBundleRows, CreateRows, RevokeRows, BundleIds, RevokeOne, MembersOf,
      LiveProjects, FindMember, CountOwners, WithRole;
  }

  lemma MovesKeepClaims(w: World, m: Move)
    requires ClaimsCurrent(w)
    ensures ClaimsCurrent(MoveNext(w, m))
  {
    hide Route, Serve, Finish, AcceptInvite, ConcludeShare, AcceptShare;
    match m
    case Lookup(_, _, _, _) =>
    case Consume(tid) =>
      if tid in w.inFlight {
        FinishKeepsShares(w.s, w.inFlight[tid]);
      }
    case ClaimShare(_, _, _) =>
    case Conclude(sid) =>
      if sid in w.claims {
        ConcludeIsAccept(w.s, sid, w.claims[sid]);
        ServeAccept(w.s, sid, w.claims[sid].a, w.claims[sid].now);
        forall k | k in w.claims && k != sid ensures ConcludeShare(w.s, sid, w.claims[sid]).0.shares[k] == w.s.shares[k] {
          OthersKeepShareRows(w.s, CallAcceptShare(sid, w.claims[sid].a, w.claims[sid].now), k);
        }
      }
    case Request(step) =>
      if !Waits(w, step) {
        forall k | k in w.claims ensures k < |Next(w.s, step).shares| && Next(w.s, step).shares[k] == w.s.shares[k] {
          OthersKeepShareRows(w.s, Route(w.s, step), k);
        }
      }
  }

  lemma ServeAccept(s: State, sid: ShareId, a: ActorId, now: Time)
    ensures Serve(s, CallAcceptShare(sid, a, now)) == AcceptShare(s, sid, a, now).0
    ensures |AcceptShare(s, sid, a, now).0.shares| == |s.shares|
  {
  }

  lemma FinishKeepsShares(s: State, p: Pending)
    ensures Finish(s, p).0.shares == s.shares
  {
  }

  lemma {:induction false} InterleavedClaims(worlds: seq<World>, moves: seq<Move>, i: nat)
    requires Interleaved(worlds, moves) && i < |worlds| && worlds[0].claims == map[]
    ensures ClaimsCurrent(worlds[i])
  {
    hide MoveNext;
    if i > 0 {
      InterleavedClaims(worlds, moves, i - 1);
      assert worlds[i] == MoveNext(worlds[i - 1], moves[i - 1]);
      MovesKeepClaims(worlds[i - 1], moves[i - 1]);
    }
  }

  // ---- pending invitations ----

  lemma OnlyDeletionEndsOrgs(s: State, call: Call, o: OrgId)
    requires LiveOrg(s.orgs, o) && !(call.CallDeleteOrg? && call.o == o)
    ensures LiveOrg(Serve(s, call).orgs, o)
  {
    hide Bundle, BundleRows, ProjectRows, RevokeTagged, RevokeBundleRows, CreateRows, RevokeRows, MembersOf, LiveProjects;
  }

  lemma RequestKeepsPending(s: State, step: Step, p: Pending)
    requires Current(s, p) && LiveOrg(s.orgs, p.inv.org)
    requires Route(s, step).CallDeleteOrg? ==> Route(s, step).o != p.inv.org
    ensures Current(Next(s, step), p) && LiveOrg(Next(s, step).orgs, p.inv.org)
  {
    hide Serve, Route, CapsGrow, SharesGrow, ProjectsGrow;
    OnlyDeletionEndsOrgs(s, Route(s, step), p.inv.org);
    NextGrows(s, step);
  }

  lemma MovesKeepSound(w: World, m: Move)
    requires AcceptsCurrent(w) && Calm(w, m)
    ensures AcceptsCurrent(MoveNext(w, m))
  {
    hide Next, Route, Finish, AcceptInvite, ConcludeShare;
    if m.Conclude? && m.sid in w.claims && m.sid < |w.s.shares| {
      ConcludeKeepsOrgs(w.s, m.sid, w.claims[m.sid]);
    } else if m.Consume? && m.tid in w.inFlight {
      var p := w.inFlight[m.tid];
      FinishIsAtomicIff(w.s, p);
      forall tid | tid in w.inFlight ensures Current(Finish(w.s, p).0, w.inFlight[tid]) && LiveOrg(Finish(w.s, p).0.orgs, w.inFlight[tid].inv.org) {
        AcceptKeepsPending(w.s, p.token, p.a, p.now, w.inFlight[tid]);
      }
    } else if m.Request? && !Waits(w, m.step) {
      forall tid | tid in w.inFlight
        ensures Current(Next(w.s, m.step), w.inFlight[tid]) && LiveOrg(Next(w.s, m.step).orgs, w.inFlight[tid].inv.org)
      {
        RequestKeepsPending(w.s, m.step, w.inFlight[tid]);
      }
    }
  }

  lemma ConcludeKeepsOrgs(s: State, sid: ShareId, c: Claim)
    requires sid < |s.shares|
    ensures var t := ConcludeShare(s, sid, c).0; t.orgs == s.orgs && t.invitations == s.invitations
  {
  }

  lemma AcceptKeepsPending(s: State, token: nat, a: ActorId, now: Time, p: Pending)
    requires Current(s, p) && LiveOrg(s.orgs, p.inv.org)
    ensures Current(AcceptInvite(s, token, a, now).0, p) && LiveOrg(AcceptInvite(s, token, a, now).0.orgs, p.inv.org)
  {
    hide Bundle, BundleRows, CreateRows, LiveProjects;
  }

  /** The whole request a move stands for. */
  function SerialStep(w: World, m: Move): Option<Step> {
    match m
    case Lookup(_, _, _, _) => None
    case Consume(tid) => if tid in w.inFlight then Some(PostAcceptInvite(w.inFlight[tid].token, w.inFlight[tid].a, w.inFlight[tid].now)) else None
    case ClaimShare(_, _, _) => None
    case Conclude(sid) => if sid in w.claims then Some(PostAcceptShare(sid, w.claims[sid].a, w.claims[sid].now)) else None
    case Request(step) => if Waits(w, step) then None else Some(step)
  }

  lemma MoveIsSerial(w: World, m: Move)
    requires AcceptsCurrent(w) && ClaimsCurrent(w)
    ensures MoveNext(w, m).s == match SerialStep(w, m) case None => w.s case Some(step) => Next(w.s, step)
  {
    hide AcceptInvite, AcceptShare, Finish, ConcludeShare;
    if m.Consume? && m.tid in w.inFlight {
      FinishIsAtomicIff(w.s, w.inFlight[m.tid]);
    } else if m.Conclude? && m.sid in w.claims {
      ConcludeIsAccept(w.s, m.sid, w.claims[m.sid]);
    }
  }

  lemma {:induction false} InterleavedSound(worlds: seq<World>, moves: seq<Move>, i: nat)
    requires Interleaved(worlds, moves) && i < |worlds| && AcceptsCurrent(worlds[0])
    requires forall j :: 0 <= j < |moves| ==> Calm(worlds[j], moves[j])
    ensures AcceptsCurrent(worlds[i])
  {
    hide MoveNext, AcceptsCurrent, Calm;
    if i > 0 {
      InterleavedSound(worlds, moves, i - 1);
      assert worlds[i] == MoveNext(worlds[i - 1], moves[i - 1]);
      MovesKeepSound(worlds[i - 1], moves[i - 1]);
    }
  }

  /** Every interleaved run ends where some run of whole requests ends. */
  lemma {:induction false} InterleavedIsSerial(worlds: seq<World>, moves: seq<Move>, i: nat) returns (states: seq<State>, steps: seq<Step>)
    requires Interleaved(worlds, moves) && i < |worlds| && worlds[0].inFlight == map[] && worlds[0].claims == map[]
    requires forall j :: 0 <= j < |moves| ==> Calm(worlds[j], moves[j])
    ensures Trace(states, steps) && states[0] == worlds[0].s && states[|steps|] == worlds[i].s
  {
    hide MoveNext, Calm, Next;
    if i == 0 {
      states, steps := [worlds[0].s], [];
    } else {
      states, steps := InterleavedIsSerial(worlds, moves, i - 1);
      InterleavedSound(worlds, moves, i - 1);
      InterleavedClaims(worlds, moves, i - 1);
      var w, m := worlds[i - 1], moves[i - 1];
      assert worlds[i] == MoveNext(w, m);
      MoveIsSerial(w, m);
      var next := SerialStep(w, m);
      if next.Some? {
        ghost var before, done := states, steps;
        states, steps := states + [worlds[i].s], steps + [next.value];
        forall k {:trigger steps[k]} | 0 <= k < |steps| ensures states[k + 1] == Next(states[k], steps[k]) {
          if k < |done| {
            assert before[k + 1] == Next(before[k], done[k]);
          }
        }
      }
    }
  }

  /** What happens otherwise: the member and the bundle are written into a deleted organisation. */
  lemma LateConsumeOutlivesOrg(s: State, p: Pending) returns (c: CapId)
    requires Current(s, p) && !LiveOrg(s.orgs, p.inv.org)
    requires s.invitations[p.token].consumedAt.None? && FindMember(s.members, p.inv.org, p.a).None?
    ensures var t := Finish(s, p).0;
      && t.orgs == s.orgs && !LiveOrg(t.orgs, p.inv.org) && Member(p.inv.org, p.a, p.inv.role) in t.members
      && c < |t.caps| && Active(t.caps[c]) && TagOrg(t.caps[c]) == Some(p.inv.org) && t.caps[c].actor == p.a
  {
    hide Bundle, BundleRows, CreateRows, LiveProjects, FindMember;
    var inv, ps := p.inv, LiveProjects(s.projects, p.inv.org);
    var g := Grantee(p.a, Primary(inv.role), inv.invitedBy, None, map[MetaOrg := inv.org]);
    var rows := BundleRows(g, Bundle(Primary(inv.role)), inv.org, ps, None);
    PrimaryRows(g, inv.role, inv.org, ps);
    var op, rt := EveryRoleGrants(inv.role);
    var k := Key(inv.org, p.a, inv.role, op, rt, if rt == RtOrganisation then Some(inv.org) else None);
    assert HasActive(rows, k);
    var row :| row in rows && Holds(row, k);
    var i :| 0 <= i < |rows| && rows[i] == row;
    c := |s.caps| + i;
    assert Finish(s, p).0.caps == s.caps + rows;
    assert Finish(s, p).0.members[|s.members|] == Member(inv.org, p.a, inv.role);
  }

  lemma EveryRoleGrants(role: Role) returns (op: Operation, rt: ResourceType)
    ensures Granted(role, op, rt) && rt != RtProject && rt != RtPlatform
  {
    op, rt := OpRead, if role.RoleComplianceOfficer? || role.RoleDpo? then RtAuditLog else RtOrganisation;
    assert Template(op, rt, ScopeSelf) == Bundle(Primary(role))[0];
  }

  /** So everything that holds of reachable states holds while accepts interleave. */
  lemma InterleavedKeepsInv(worlds: seq<World>, moves: seq<Move>, n: nat)
    requires Interleaved(worlds, moves) && n < |worlds| && worlds[0] == World(EMPTY, map[], map[])
    requires forall k :: 0 <= k < |moves| ==> Calm(worlds[k], moves[k])
    ensures Inv(worlds[n].s)
  {
    hide MoveNext, Calm, Next, Inv;
    var states, steps := InterleavedIsSerial(worlds, moves, n);
    RunsKeepInv(states, steps, |steps|);
  }

  // ---- single use ----

  /** This move creates a membership from the invitation. */
  predicate Wins(w: World, m: Move, token: nat) {
    match m
    case Lookup(_, _, _, _) => false
    case Consume(tid) => tid in w.inFlight && w.inFlight[tid].token == token && Finish(w.s, w.inFlight[tid]).1
    case ClaimShare(_, _, _) => false
    case Conclude(_) => false
    case Request(step) => step.PostAcceptInvite? && step.token == token && AcceptInvite(w.s, token, step.a, step.now).0 != w.s
  }

  ghost function CountWins(worlds: seq<World>, moves: seq<Move>, token: nat, n: nat): nat
    requires n <= |moves| && |worlds| == |moves| + 1
  {
    if n == 0 then 0 else CountWins(worlds, moves, token, n - 1) + if Wins(worlds[n - 1], moves[n - 1], token) then 1 else 0
  }

  predicate Spent(s: State, token: nat) {
    token < |s.invitations| && s.invitations[token].consumedAt.Some?
  }

  lemma WinsSpend(w: World, m: Move, token: nat)
    ensures Wins(w, m, token) ==> !Spent(w.s, token) && Spent(MoveNext(w, m).s, token)
  {
    hide Bundle, BundleRows, CreateRows, LiveProjects;
  }

  lemma SpentStays(w: World, m: Move, token: nat)
    requires Spent(w.s, token)
    ensures Spent(MoveNext(w, m).s, token)
  {
    hide Next, BundleRows, CreateRows, LiveProjects;
    if m.Request? && !Waits(w, m.step) {
      NextGrows(w.s, m.step);
      GrowthKeepsSpent(w.s, Next(w.s, m.step), token);
    }
  }

  lemma GrowthKeepsSpent(s: State, t: State, token: nat)
    requires Grows(s, t) && Spent(s, token)
    ensures Spent(t, token)
  {
    hide CapsGrow, OrgsGrow, ProjectsGrow, SharesGrow;
    assert InvitationsGrow(s.invitations, t.invitations);
  }

  /** However accepts interleave, one invitation yields at most one membership, and then it is spent. */
  lemma {:induction false} InvitationsAreSingleUse(worlds: seq<World>, moves: seq<Move>, token: nat, n: nat)
    requires Interleaved(worlds, moves) && n <= |moves|
    ensures CountWins(worlds, moves, token, n) <= if Spent(worlds[n].s, token) then 1 else 0
  {
    hide Wins, MoveNext, Spent;
    if n > 0 {
      InvitationsAreSingleUse(worlds, moves, token, n - 1);
      var w, m := worlds[n - 1], moves[n - 1];
      assert worlds[n] == MoveNext(w, m);
      WinsSpend(w, m, token);
      if Spent(w.s, token) {
        SpentStays(w, m, token);
      }
    }
  }

  /** This move redeems the share. */
  predicate WinsShare(w: World, m: Move, sid: ShareId) {
    match m
    case Conclude(k) => k == sid && sid in w.claims && sid < |w.s.shares| && ConcludeShare(w.s, sid, w.claims[sid]).1
    case Request(step) =>
      step.PostAcceptShare? && step.token == sid && !Waits(w, step) && AcceptShare(w.s, sid, step.a, step.now).1.Ok?
    case _ => false
  }

  ghost function CountShareWins(worlds: seq<World>, moves: seq<Move>, sid: ShareId, n: nat): nat
    requires n <= |moves| && |worlds| == |moves| + 1
  {
    if n == 0 then 0 else CountShareWins(worlds, moves, sid, n - 1) + if WinsShare(worlds[n - 1], moves[n - 1], sid) then 1 else 0
  }

  predicate ShareSpent(s: State, sid: ShareId) {
    sid < |s.shares| && s.shares[sid].consumedAt.Some?
  }

  lemma WinsSpendShare(w: World, m: Move, sid: ShareId)
    requires ClaimsCurrent(w)
    ensures WinsShare(w, m, sid) ==> !ShareSpent(w.s, sid) && ShareSpent(MoveNext(w, m).s, sid)
  {
    hide CreateRows, FindMember, LiveProject, LiveOrg, GuestRow;
    if m.Conclude? && m.sid in w.claims {
      assert Claimable(w.s, m.sid, w.claims[m.sid].now);
    }
  }

  lemma ShareSpentStays(w: World, m: Move, sid: ShareId)
    requires ClaimsCurrent(w) && ShareSpent(w.s, sid)
    ensures ShareSpent(MoveNext(w, m).s, sid)
  {
    hide Next, Finish, ConcludeShare, AcceptShare, Waits;
    match m
    case Consume(tid) =>
      if tid in w.inFlight {
        FinishKeepsShares(w.s, w.inFlight[tid]);
      }
    case Conclude(k) =>
      if k in w.claims {
        ConcludeIsAccept(w.s, k, w.claims[k]);
        AcceptShareGrows(w.s, k, w.claims[k].a, w.claims[k].now);
      }
    case Request(step) => NextGrows(w.s, step);
    case _ =>
  }

  /** However accepts interleave, one share is redeemed at most once, and then it is spent. */
  lemma {:induction false} SharesAreRedeemedOnce(worlds: seq<World>, moves: seq<Move>, sid: ShareId, n: nat)
    requires Interleaved(worlds, moves) && n <= |moves| && worlds[0].claims == map[]
    ensures CountShareWins(worlds, moves, sid, n) <= if ShareSpent(worlds[n].s, sid) then 1 else 0
  {
    hide WinsShare, MoveNext, ShareSpent, ClaimsCurrent;
    if n > 0 {
      SharesAreRedeemedOnce(worlds, moves, sid, n - 1);
      InterleavedClaims(worlds, moves, n - 1);
      var w, m := worlds[n - 1], moves[n - 1];
      assert worlds[n] == MoveNext(w, m);
      WinsSpendShare(w, m, sid);
      if ShareSpent(w.s, sid) {
        ShareSpentStays(w, m, sid);
      }
    }
  }

  /** And it never has more than one capability row. */
  lemma SharesAreSingleUse(worlds: seq<World>, moves: seq<Move>, n: nat, i: CapId, j: CapId)
    requires Interleaved(worlds, moves) && n < |worlds| && worlds[0] == World(EMPTY, map[], map[])
    requires forall k :: 0 <= k < |moves| ==> Calm(worlds[k], moves[k])
    requires i < j < |worlds[n].s.caps| && TagShare(worlds[n].s.caps[i]).Some?
    ensures TagShare(worlds[n].s.caps[i]) != TagShare(worlds[n].s.caps[j])
  {
    hide MoveNext, Calm, Next, FanOut, MembersSane, DeadOrgsRevoked, RowsSane;
    InterleavedKeepsInv(worlds, moves, n);
    assert CapSane(worlds[n].s, worlds[n].s.caps[i], i);
    assert CapSane(worlds[n].s, worlds[n].s.caps[j], j);
  }

  /**
   An accept that loses, or that consumes the row and rolls back, leaves the token as redeemable as it
   was: nothing is committed, the row is free again, and the next claim in time gets it.
   */
  lemma FailedShareAcceptsLeaveTheToken(worlds: seq<World>, moves: seq<Move>, n: nat, sid: ShareId, b: ActorId, later: Time)
    requires Interleaved(worlds, moves) && n < |moves| && worlds[0].claims == map[]
    requires moves[n] == Conclude(sid) && sid in worlds[n].claims
    ensures var w, v := worlds[n], worlds[n + 1];
      var row := w.claims[sid].row;
      && sid < |w.s.shares| && row == w.s.shares[sid]
      && (WinsShare(w, moves[n], sid) <==> LiveProject(w.s.projects, row.project) && LiveOrg(w.s.orgs, row.org))
      && (!WinsShare(w, moves[n], sid) ==> v.s == w.s && sid !in v.claims)
      && (!WinsShare(w, moves[n], sid) ==> (sid in MoveNext(v, ClaimShare(sid, b, later)).claims <==> later < row.expiresAt))
  {
    hide ConcludeShare, LiveProject, LiveOrg;
    InterleavedClaims(worlds, moves, n);
    assert worlds[n + 1] == MoveNext(worlds[n], moves[n]);
    ConcludeIsAccept(worlds[n].s, sid, worlds[n].claims[sid]);
  }

  /** A claim is granted exactly for an unspent share in time whose row nobody holds; refused, it changes nothing. */
  lemma ClaimGrantedIff(w: World, sid: ShareId, a: ActorId, now: Time)
    ensures MoveNext(w, ClaimShare(sid, a, now)).s == w.s
    ensures MoveNext(w, ClaimShare(sid, a, now)) != w <==> sid !in w.claims && Claimable(w.s, sid, now)
  {
    if sid !in w.claims && Claimable(w.s, sid, now) {
      assert sid in MoveNext(w, ClaimShare(sid, a, now)).claims;
    }
  }

  // ---- the halves make a whole ----

  /** A lookup gets as far as the consume exactly when the accept would join; otherwise the accept is over. */
  lemma LookupHoldsIff(w: World, tid: nat, token: nat, a: ActorId, now: Time)
    requires tid !in w.inFlight
    ensures var v := MoveNext(w, Lookup(tid, token, a, now));
      && v.s == w.s && v.claims == w.claims
      && (tid in v.inFlight <==>
        && token < |w.s.invitations| && w.s.invitations[token].consumedAt == None && now < w.s.invitations[token].expiresAt
        && LiveOrg(w.s.orgs, w.s.invitations[token].org) && FindMember(w.s.members, w.s.invitations[token].org, a) == None)
      && (tid in v.inFlight ==> v.inFlight == w.inFlight[tid := Pending(token, w.s.invitations[token], a, now)])
      && (tid !in v.inFlight ==> v == w && AcceptInvite(w.s, token, a, now).0 == w.s)
  {
    hide FindMember, Join;
  }

  /** With nothing in between, the two halves of an invitation accept are the accept. */
  lemma HalvesAreTheAccept(w: World, tid: nat, token: nat, a: ActorId, now: Time)
    requires tid !in w.inFlight
    ensures MoveNext(MoveNext(w, Lookup(tid, token, a, now)), Consume(tid)) == w.(s := AcceptInvite(w.s, token, a, now).0)
  {
    hide AcceptInvite, Finish, FindMember, LiveOrg;
    LookupHoldsIff(w, tid, token, a, now);
    var v := MoveNext(w, Lookup(tid, token, a, now));
    if tid in v.inFlight {
      FinishIsAtomicIff(v.s, v.inFlight[tid]);
      assert v.inFlight - {tid} == w.inFlight;
    }
  }

  /** And so are the two of a share accept. */
  lemma ShareHalvesAreTheAccept(w: World, sid: ShareId, a: ActorId, now: Time)
    requires sid !in w.claims
    ensures MoveNext(MoveNext(w, ClaimShare(sid, a, now)), Conclude(sid)) == w.(s := AcceptShare(w.s, sid, a, now).0)
  {
    hide AcceptShare, ConcludeShare;
    var v := MoveNext(w, ClaimShare(sid, a, now));
    if Claimable(w.s, sid, now) {
      ConcludeIsAccept(w.s, sid, Claim(w.s.shares[sid], a, now));
      assert v.claims - {sid} == w.claims;
    } else {
      UnclaimableIsRefused(w.s, sid, a, now);
    }
  }

  lemma UnclaimableIsRefused(s: State, sid: ShareId, a: ActorId, now: Time)
    requires !Claimable(s, sid, now)
    ensures AcceptShare(s, sid, a, now).0 == s
  {
  }

  /** A request that waits for no held row is served as ever. */
  lemma FreeRequestsAreServed(w: World, step: Step)
    ensures MoveNext(w, Request(step)) ==
      if (step.PostAcceptShare? && step.token in w.claims) || (Route(w.s, step).CallRevokeShare? && step.sid in w.claims)
      then w else w.(s := Next(w.s, step))
  {
    hide AdminGate, ProjectGate, Serve;
  }
}
