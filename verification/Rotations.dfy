/** Whole runs of the family store: what was minted, what was redeemed, and what a replay does. */
module Rotations {
  import opened Prelude
  import opened Tables
  import opened Families

  datatype Command =
    | Start(family: FamilyId, jti: Jti, actor: ActorId)
    | Present(family: FamilyId, jti: Jti, actor: ActorId, next: Jti)
    | Logout(family: FamilyId, actor: ActorId)
    | Reset(actor: ActorId)

  datatype Stamped = At(now: Time, command: Command)

  function Apply(r: Redis, c: Stamped): Redis {
    match c.command
    case Start(f, jti, a) => StartFamily(r, f, jti, a, c.now)
    case Present(f, jti, a, next) => Rotate(r, f, jti, next, a, c.now).0
    case Logout(f, a) => RevokeFamily(r, f, a, c.now)
    case Reset(a) => RevokeAll(r, a, c.now).0
  }

  function Run(cs: seq<Stamped>): Redis {
    if cs == [] then NO_KEYS else Apply(Run(cs[..|cs| - 1]), cs[|cs| - 1])
  }

  /** The answer to a presentation made after `cs`. */
  function Answer(cs: seq<Stamped>, c: Stamped): Rotation
    requires c.command.Present?
  {
    Rotate(Run(cs), c.command.family, c.command.jti, c.command.next, c.command.actor, c.now).1
  }

  /** Token number `i` of the run is accepted and rotated. */
  predicate Redeems(cs: seq<Stamped>, i: nat, f: FamilyId)
    requires i < |cs|
  {
    cs[i].command.Present? && cs[i].command.family == f && Answer(cs[..i], cs[i]).Rotated?
  }

  /** The jtis issued in a family, in the order they were issued. */
  function Minted(cs: seq<Stamped>, f: FamilyId): seq<Jti> {
    if cs == [] then []
    else
      var n := |cs| - 1;
      var before := Minted(cs[..n], f);
      match cs[n].command
      case Start(g, jti, _) => if g == f then before + [jti] else before
      case Present(_, _, _, next) => if Redeems(cs, n, f) then before + [next] else before
      case Logout(_, _) => before
      case Reset(_) => before
  }

  /** The jtis accepted in a family, in the order they were accepted. */
  function Redeemed(cs: seq<Stamped>, f: FamilyId): seq<Jti> {
    if cs == [] then []
    else
      var n := |cs| - 1;
      var before := Redeemed(cs[..n], f);
      if Redeems(cs, n, f) then before + [cs[n].command.jti] else before
  }

  /** Family ids are never drawn twice. */
  ghost predicate FamiliesFresh(cs: seq<Stamped>) {
    forall i, k :: 0 <= i < k < |cs| && cs[i].command.Start? && cs[k].command.Start? ==>
      cs[i].command.family != cs[k].command.family
  }

  /** The jti drawn by a command; a failing presentation draws one too. */
  function Drawn(c: Command): Option<Jti> {
    match c
    case Start(_, jti, _) => Some(jti)
    case Present(_, _, _, next) => Some(next)
    case Logout(_, _) => None
    case Reset(_) => None
  }

  ghost predicate JtisFresh(cs: seq<Stamped>) {
    forall i, k :: 0 <= i < k < |cs| && Drawn(cs[i].command).Some? ==> Drawn(cs[i].command) != Drawn(cs[k].command)
  }

  ghost predicate Monotone(cs: seq<Stamped>) {
    forall i, k :: 0 <= i < k < |cs| ==> cs[i].now <= cs[k].now
  }

  predicate Started(cs: seq<Stamped>, f: FamilyId) {
    exists i :: 0 <= i < |cs| && cs[i].command.Start? && cs[i].command.family == f
  }

  lemma StartedGrows(cs: seq<Stamped>, f: FamilyId)
    requires cs != []
    ensures var n := |cs| - 1; Started(cs, f) <==>
      Started(cs[..n], f) || (cs[n].command.Start? && cs[n].command.family == f)
  {
    var n := |cs| - 1;
    if Started(cs[..n], f) {
      var i :| 0 <= i < n && cs[..n][i].command.Start? && cs[..n][i].command.family == f;
      assert cs[i] == cs[..n][i];
    }
    if Started(cs, f) {
      var i :| 0 <= i < |cs| && cs[i].command.Start? && cs[i].command.family == f;
      assert i < n ==> cs[..n][i] == cs[i];
    }
  }

  /** A family that was started is not started again. */
  lemma StartIsOnce(cs: seq<Stamped>, f: FamilyId)
    requires FamiliesFresh(cs) && cs != [] && Started(cs[..|cs| - 1], f)
    ensures !(cs[|cs| - 1].command.Start? && cs[|cs| - 1].command.family == f)
  {
    var n := |cs| - 1;
    var i :| 0 <= i < n && cs[..n][i].command.Start? && cs[..n][i].command.family == f;
    assert cs[i] == cs[..n][i];
  }

  /** Redemptions replay the mints in order, one behind: only the newest jti is unredeemed, and only it is current. */
  lemma {:induction false} RedemptionsFollowMints(cs: seq<Stamped>, f: FamilyId)
    requires FamiliesFresh(cs)
    ensures Redeemed(cs, f) <= Minted(cs, f)
    ensures Started(cs, f) ==> |Minted(cs, f)| == |Redeemed(cs, f)| + 1
    ensures !Started(cs, f) ==> Minted(cs, f) == [] && f !in Run(cs).families
    ensures f in Run(cs).families ==> Run(cs).families[f].current == Minted(cs, f)[|Redeemed(cs, f)|]
  {
    if cs != [] {
      var n := |cs| - 1;
      RedemptionsFollowMints(cs[..n], f);
      StartedGrows(cs, f);
      if Started(cs[..n], f) {
        StartIsOnce(cs, f);
      }
    }
  }

  /** A presentation succeeds exactly when the family is live and the token is the newest one issued in it. */
  lemma {:induction false} RedeemsIffNewest(cs: seq<Stamped>, c: Stamped)
    requires FamiliesFresh(cs) && c.command.Present?
    ensures var minted := Minted(cs, c.command.family); Answer(cs, c).Rotated? <==>
      Live(Run(cs), c.command.family, c.now) && minted != [] && c.command.jti == minted[|minted| - 1]
    ensures Answer(cs, c).Unknown? <==> !Live(Run(cs), c.command.family, c.now)
  {
    RedemptionsFollowMints(cs, c.command.family);
  }

  /** Histories only grow. */
  lemma {:induction false} HistoryGrows(cs: seq<Stamped>, n: nat, f: FamilyId)
    requires n <= |cs|
    ensures Minted(cs[..n], f) <= Minted(cs, f)
    ensures Redeemed(cs[..n], f) <= Redeemed(cs, f)
  {
    if n < |cs| {
      var m := |cs| - 1;
      HistoryGrows(cs[..m], n, f);
      assert cs[..m][..n] == cs[..n];
    } else {
      assert cs[..n] == cs;
    }
  }

  lemma {:induction false} MintsAreDrawn(cs: seq<Stamped>, f: FamilyId, m: nat) returns (i: nat)
    requires m < |Minted(cs, f)|
    ensures i < |cs| && Drawn(cs[i].command) == Some(Minted(cs, f)[m])
  {
    var n := |cs| - 1;
    if m < |Minted(cs[..n], f)| {
      i := MintsAreDrawn(cs[..n], f, m);
    } else {
      i := n;
    }
  }

  /** Fresh draws make the jtis of a family distinct. */
  lemma {:induction false} MintsAreDistinct(cs: seq<Stamped>, f: FamilyId)
    requires JtisFresh(cs)
    ensures forall i, k :: 0 <= i < k < |Minted(cs, f)| ==> Minted(cs, f)[i] != Minted(cs, f)[k]
  {
    if cs != [] {
      var n := |cs| - 1;
      var before := Minted(cs[..n], f);
      assert forall i :: 0 <= i < n ==> cs[..n][i] == cs[i];
      MintsAreDistinct(cs[..n], f);
      forall i | 0 <= i < |before| ensures Drawn(cs[n].command) != Some(before[i]) {
        var d := MintsAreDrawn(cs[..n], f, i);
        assert cs[d] == cs[..n][d];
      }
    }
  }

  /** What a redemption redeems: the next mint in line. */
  lemma RedemptionIsNextMint(cs: seq<Stamped>, i: nat, f: FamilyId)
    requires FamiliesFresh(cs) && i < |cs| && Redeems(cs, i, f)
    ensures var k := |Redeemed(cs[..i], f)|;
      && k < |Minted(cs, f)| && cs[i].command.jti == Minted(cs, f)[k]
      && |Redeemed(cs[..i + 1], f)| == k + 1
  {
    assert FamiliesFresh(cs[..i]) by {
      assert forall k :: 0 <= k < i ==> cs[..i][k] == cs[k];
    }
    RedemptionsFollowMints(cs[..i], f);
    HistoryGrows(cs, i, f);
    assert cs[..i + 1][..i] == cs[..i] && cs[..i + 1][i] == cs[i];
  }

  predicate Precedes(s: seq<Jti>, x: Jti, y: Jti) {
    exists m, n :: 0 <= m < n < |s| && s[m] == x && s[n] == y
  }

  /** No jti of a family is redeemed twice, and an earlier redemption redeems an earlier mint. */
  lemma RedeemedAtMostOnce(cs: seq<Stamped>, i: nat, k: nat, f: FamilyId)
    requires FamiliesFresh(cs) && JtisFresh(cs)
    requires i < k < |cs| && Redeems(cs, i, f) && Redeems(cs, k, f)
    ensures cs[i].command.jti != cs[k].command.jti
    ensures Precedes(Minted(cs, f), cs[i].command.jti, cs[k].command.jti)
  {
    RedemptionIsNextMint(cs, i, f);
    RedemptionIsNextMint(cs, k, f);
    HistoryGrows(cs[..k], i + 1, f);
    assert cs[..k][..i + 1] == cs[..i + 1];
    MintsAreDistinct(cs, f);
    var m, n := |Redeemed(cs[..i], f)|, |Redeemed(cs[..k], f)|;
    assert 0 <= m < n < |Minted(cs, f)|;
  }

  /** Started once, and no longer answering at the moment of the last command. */
  predicate Ended(cs: seq<Stamped>, f: FamilyId) {
    cs != [] && Started(cs, f) && !Live(Run(cs), f, cs[|cs| - 1].now)
  }

  lemma {:induction false} EndedStaysEnded(cs: seq<Stamped>, n: nat, f: FamilyId)
    requires FamiliesFresh(cs) && Monotone(cs)
    requires n <= |cs| && Ended(cs[..n], f)
    ensures Ended(cs, f)
  {
    hide Ended;
    if n == |cs| {
      assert cs[..n] == cs;
    } else {
      var m := |cs| - 1;
      assert cs[..m][..n] == cs[..n];
      assert forall i :: 0 <= i < m ==> cs[..m][i] == cs[i];
      EndedStaysEnded(cs[..m], n, f);
      EndedOnce(cs, f);
    }
  }

  lemma EndedOnce(cs: seq<Stamped>, f: FamilyId)
    requires FamiliesFresh(cs) && Monotone(cs) && cs != [] && Ended(cs[..|cs| - 1], f)
    ensures Ended(cs, f)
  {
    var m := |cs| - 1;
    assert cs[..m][m - 1] == cs[m - 1];
    StartedGrows(cs, f);
    StartIsOnce(cs, f);
    assert cs[m - 1].now <= cs[m].now;
  }

  /** What ends a family: a presentation that fails, a logout, or a reset that lists it. */
  predicate Ends(cs: seq<Stamped>, i: nat, f: FamilyId)
    requires i < |cs|
  {
    match cs[i].command
    case Start(_, _, _) => false
    case Present(g, _, _, _) => g == f && !Answer(cs[..i], cs[i]).Rotated?
    case Logout(g, _) => g == f
    case Reset(a) => f in Listed(Run(cs[..i]).indexes, a, cs[i].now)
  }

  lemma EndingEnds(cs: seq<Stamped>, i: nat, f: FamilyId)
    requires i < |cs| && Started(cs[..i], f) && Ends(cs, i, f)
    ensures Ended(cs[..i + 1], f)
  {
    assert cs[..i + 1][..i] == cs[..i] && cs[..i + 1][i] == cs[i];
    StartedGrows(cs[..i + 1], f);
  }

  /** Once a family has ended, no token of it is ever accepted again. */
  lemma EndIsFinal(cs: seq<Stamped>, i: nat, k: nat, f: FamilyId)
    requires FamiliesFresh(cs) && Monotone(cs)
    requires i < k < |cs| && Started(cs[..i], f) && Ends(cs, i, f)
    requires cs[k].command.Present? && cs[k].command.family == f
    ensures Answer(cs[..k], cs[k]) == Unknown
  {
    hide Started, Ends, Run;
    EndingEnds(cs, i, f);
    assert forall m :: 0 <= m < k ==> cs[..k][m] == cs[m];
    assert cs[..k][..i + 1] == cs[..i + 1];
    EndedStaysEnded(cs[..k], i + 1, f);
    assert cs[k - 1].now <= cs[k].now;
  }

  /** Replaying a superseded token ends its family, whether or not anything of the family was left. */
  lemma StalePresentationEndsFamily(cs: seq<Stamped>, i: nat, k: nat, f: FamilyId)
    requires FamiliesFresh(cs) && Monotone(cs)
    requires i < k < |cs|
    requires cs[i].command.Present? && cs[i].command.family == f
    requires var minted := Minted(cs[..i], f); minted != [] && cs[i].command.jti != minted[|minted| - 1]
    requires cs[k].command.Present? && cs[k].command.family == f
    ensures !Answer(cs[..i], cs[i]).Rotated? && Answer(cs[..k], cs[k]) == Unknown
  {
    assert FamiliesFresh(cs[..i]) by {
      assert forall m :: 0 <= m < i ==> cs[..i][m] == cs[m];
    }
    RedemptionsFollowMints(cs[..i], f);
    RedeemsIffNewest(cs[..i], cs[i]);
    EndIsFinal(cs, i, k, f);
  }
}
