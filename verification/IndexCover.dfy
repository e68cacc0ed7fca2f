/**
 When a password reset reaches a family. Rotation renews the family's own deadline but not the
 index's, so what decides is how long ago the actor's logins were, not the last use of the token.
 */
module IndexCover {
  import opened Prelude
  import opened Tables
  import opened Families
  import opened Rotations

  /** The actor a family was started for. */
  function Owner(cs: seq<Stamped>, f: FamilyId): Option<ActorId> {
    if cs == [] then None
    else
      var n := |cs| - 1;
      match cs[n].command
      case Start(g, _, a) => if g == f then Some(a) else Owner(cs[..n], f)
      case _ => Owner(cs[..n], f)
  }

  /**
   The time until which the family stays listed: 30 days from its start, and 30 days from each later
   start by the same actor that happens while it is still listed.
   */
  function Cover(cs: seq<Stamped>, f: FamilyId): Time {
    if cs == [] then 0
    else
      var n := |cs| - 1;
      var before := Cover(cs[..n], f);
      match cs[n].command
      case Start(g, _, a) =>
        if g == f || (Owner(cs[..n], f) == Some(a) && cs[n].now < before) then cs[n].now + TTL else before
      case _ => before
  }

  /** Tokens are signed: one that names a started family names that family's actor. */
  ghost predicate Signed(cs: seq<Stamped>) {
    forall i :: 0 <= i < |cs| ==> SignedFor(Owner(cs[..i], Subject(cs[i].command)), cs[i].command)
  }

  lemma {:induction false} OwnedIffStarted(cs: seq<Stamped>, f: FamilyId)
    ensures Owner(cs, f).Some? <==> Started(cs, f)
  {
    if cs != [] {
      OwnedIffStarted(cs[..|cs| - 1], f);
      StartedGrows(cs, f);
    }
  }

  function Subject(c: Command): FamilyId {
    match c
    case Start(f, _, _) => f
    case Present(f, _, _, _) => f
    case Logout(f, _) => f
    case Reset(_) => 0
  }

  predicate SignedFor(owner: Option<ActorId>, c: Command) {
    (c.Present? || c.Logout?) && owner.Some? ==> c.actor == owner.value
  }

  function Clock(cs: seq<Stamped>): Time {
    if cs == [] then 0 else cs[|cs| - 1].now
  }

  ghost predicate FamilyIndexed(cs: seq<Stamped>, r: Redis, f: FamilyId) {
    f in r.families ==>
      && Owner(cs, f) == Some(r.families[f].actor)
      && (Clock(cs) < Cover(cs, f) ==>
        r.families[f].actor in r.indexes && f in r.indexes[r.families[f].actor].members)
  }

  ghost predicate ListingExact(cs: seq<Stamped>, r: Redis, a: ActorId, f: FamilyId) {
    a in r.indexes && f in r.indexes[a].members ==>
      && Owner(cs, f) == Some(a)
      && r.indexes[a].expires == Cover(cs, f)
      && (Clock(cs) < r.indexes[a].expires ==> f in r.families)
  }

  ghost predicate IndexSound(cs: seq<Stamped>) {
    && (forall f: FamilyId {:trigger FamilyIndexed(cs, Run(cs), f)} :: FamilyIndexed(cs, Run(cs), f))
    && (forall a: ActorId, f: FamilyId {:trigger ListingExact(cs, Run(cs), a, f)} :: ListingExact(cs, Run(cs), a, f))
  }

  lemma {:induction false} RunsKeepIndex(cs: seq<Stamped>)
    requires FamiliesFresh(cs) && Monotone(cs) && Signed(cs)
    ensures IndexSound(cs)
  {
    if cs != [] {
      var n := |cs| - 1;
      var before := cs[..n];
      assert forall i :: 0 <= i < n ==> before[i] == cs[i] && before[..i] == cs[..i];
      RunsKeepIndex(before);
      assert n > 0 ==> cs[n - 1].now <= cs[n].now;
      forall f: FamilyId ensures FamilyIndexed(cs, Run(cs), f) {
        FamilyStaysIndexed(cs, f);
      }
      forall a: ActorId, f: FamilyId ensures ListingExact(cs, Run(cs), a, f) {
        ListingStaysExact(cs, a, f);
      }
    }
  }

  ghost predicate Extends(cs: seq<Stamped>) {
    && cs != [] && FamiliesFresh(cs) && Signed(cs)
    && Clock(cs[..|cs| - 1]) <= Clock(cs)
    && IndexSound(cs[..|cs| - 1])
  }

  lemma FamilyStaysIndexed(cs: seq<Stamped>, f: FamilyId)
    requires Extends(cs)
    ensures FamilyIndexed(cs, Run(cs), f)
  {
    var n := |cs| - 1;
    var r := Run(cs[..n]);
    assert FamilyIndexed(cs[..n], r, f);
    if f in r.families {
      assert ListingExact(cs[..n], r, r.families[f].actor, f);
    }
    assert SignedFor(Owner(cs[..n], Subject(cs[n].command)), cs[n].command);
  }

  lemma ListingStaysExact(cs: seq<Stamped>, a: ActorId, f: FamilyId)
    requires Extends(cs)
    ensures ListingExact(cs, Run(cs), a, f)
  {
    var n := |cs| - 1;
    var r := Run(cs[..n]);
    assert ListingExact(cs[..n], r, a, f);
    OwnedIffStarted(cs[..n], f);
    if Started(cs[..n], f) {
      StartIsOnce(cs, f);
    }
    if cs[n].command.Reset? {
      assert ListingExact(cs[..n], r, cs[n].command.actor, f);
    }
    assert SignedFor(Owner(cs[..n], Subject(cs[n].command)), cs[n].command);
  }

  /** The index lists a family until its cover runs out, and not a moment longer. */
  lemma ListedWhileCovered(cs: seq<Stamped>, f: FamilyId, now: Time)
    requires FamiliesFresh(cs) && Monotone(cs) && Signed(cs) && Clock(cs) <= now
    requires f in Run(cs).families
    ensures Owner(cs, f) == Some(Run(cs).families[f].actor)
    ensures f in Listed(Run(cs).indexes, Run(cs).families[f].actor, now) <==> now < Cover(cs, f)
  {
    RunsKeepIndex(cs);
    assert FamilyIndexed(cs, Run(cs), f);
    assert ListingExact(cs, Run(cs), Run(cs).families[f].actor, f);
  }

  lemma {:induction false} CoverBounds(cs: seq<Stamped>, i: nat, f: FamilyId)
    requires Monotone(cs) && i < |cs| && cs[i].command.Start? && cs[i].command.family == f
    ensures cs[i].now + TTL <= Cover(cs, f) <= Clock(cs) + TTL
  {
    var n := |cs| - 1;
    assert forall m :: 0 <= m < n ==> cs[..n][m] == cs[m];
    if i < n {
      CoverBounds(cs[..n], i, f);
    }
  }

  /** A reset leaves a live family of the actor standing exactly when the family's cover has run out. */
  lemma ResetMissesIffUncovered(cs: seq<Stamped>, f: FamilyId, a: ActorId, now: Time)
    requires FamiliesFresh(cs) && Monotone(cs) && Signed(cs) && Clock(cs) <= now
    requires Live(Run(cs), f, now)
    ensures Live(RevokeAll(Run(cs), a, now).0, f, now) <==> Owner(cs, f) != Some(a) || Cover(cs, f) <= now
  {
    ListedWhileCovered(cs, f, now);
    RunsKeepIndex(cs);
    assert ListingExact(cs, Run(cs), a, f);
  }

  /** So a reset ends every family the actor started within the last 30 days. */
  lemma ResetEndsRecentFamilies(cs: seq<Stamped>, i: nat, f: FamilyId, a: ActorId, now: Time)
    requires FamiliesFresh(cs) && Monotone(cs) && Signed(cs) && Clock(cs) <= now
    requires i < |cs| && cs[i].command.Start? && cs[i].command.family == f && cs[i].command.actor == a
    requires now < cs[i].now + TTL
    ensures !Live(RevokeAll(Run(cs), a, now).0, f, now)
  {
    CoverBounds(cs, i, f);
    StartedBy(cs, i, f);
    if Live(Run(cs), f, now) {
      ResetMissesIffUncovered(cs, f, a, now);
    }
  }

  lemma {:induction false} StartedBy(cs: seq<Stamped>, i: nat, f: FamilyId)
    requires FamiliesFresh(cs) && i < |cs| && cs[i].command.Start? && cs[i].command.family == f
    ensures Owner(cs, f) == Some(cs[i].command.actor)
  {
    var n := |cs| - 1;
    if i < n {
      assert forall m :: 0 <= m < n ==> cs[..n][m] == cs[m];
      StartedBy(cs[..n], i, f);
    }
  }

  /** Last use is not what counts: a session kept alive by a refresh on day 29 outlives a reset on day 31. */
  lemma RefreshedFamilyOutlivesReset()
    ensures var cs := [At(0, Start(7, 1, 5)), At(29 * DAY, Present(7, 1, 5, 2))];
      && FamiliesFresh(cs) && Monotone(cs) && Signed(cs)
      && Live(Run(cs), 7, 31 * DAY)
      && RevokeAll(Run(cs), 5, 31 * DAY) == (Run(cs), 0)
  {
    var cs := [At(0, Start(7, 1, 5)), At(29 * DAY, Present(7, 1, 5, 2))];
    assert cs[..1] == [cs[0]] && cs[..1][..0] == [] && cs[..0] == [];
    assert Run([cs[0]]) == Apply(NO_KEYS, cs[0]);
    assert Run(cs) == Apply(Run([cs[0]]), cs[1]);
    assert Owner([cs[0]], 7) == Some(5);
  }

  // ---- the count a reset reports ----

  /** When the family was last started or rotated. */
  function LastUse(cs: seq<Stamped>, f: FamilyId): Time {
    if cs == [] then 0
    else
      var n := |cs| - 1;
      match cs[n].command
      case Start(g, _, _) => if g == f then cs[n].now else LastUse(cs[..n], f)
      case Present(_, _, _, _) => if Redeems(cs, n, f) then cs[n].now else LastUse(cs[..n], f)
      case _ => LastUse(cs[..n], f)
  }

  lemma {:induction false} DeadlineIsLastUse(cs: seq<Stamped>, f: FamilyId)
    ensures f in Run(cs).families ==> Run(cs).families[f].expires == LastUse(cs, f) + TTL
  {
    if cs != [] {
      DeadlineIsLastUse(cs[..|cs| - 1], f);
    }
  }

  /** The sessions a reset ends: live before it and not after it. */
  function EndedBy(r: Redis, a: ActorId, now: Time): set<FamilyId> {
    set f: FamilyId | f in r.families && Live(r, f, now) && !Live(RevokeAll(r, a, now).0, f, now)
  }

  /**
   The count a reset returns is the number of sessions it ends exactly when every family the index lists
   was started or rotated within the last 30 days; it is never smaller.
   */
  lemma ResetCountIsExactIff(cs: seq<Stamped>, a: ActorId, now: Time)
    requires FamiliesFresh(cs) && Monotone(cs) && Signed(cs) && Clock(cs) <= now
    ensures var count := RevokeAll(Run(cs), a, now).1;
      && |EndedBy(Run(cs), a, now)| <= count
      && (|EndedBy(Run(cs), a, now)| == count <==>
        forall f :: f in Listed(Run(cs).indexes, a, now) ==> now < LastUse(cs, f) + TTL)
  {
    hide Run, LastUse, RevokeAll;
    var r := Run(cs);
    RunsKeepIndex(cs);
    var listed := Listed(r.indexes, a, now);
    forall f: FamilyId | f in listed ensures f in r.families && (Live(r, f, now) <==> now < LastUse(cs, f) + TTL) {
      assert ListingExact(cs, r, a, f);
      DeadlineIsLastUse(cs, f);
    }
    EndedAreListed(r, a, now);
    SubsetSize(EndedBy(r, a, now), listed);
    if forall f :: f in listed ==> now < LastUse(cs, f) + TTL {
      assert EndedBy(r, a, now) == listed;
    }
    if |EndedBy(r, a, now)| == |listed| {
      assert forall f :: f in listed ==> f in EndedBy(r, a, now);
    }
  }

  lemma EndedAreListed(r: Redis, a: ActorId, now: Time)
    ensures RevokeAll(r, a, now).1 == |Listed(r.indexes, a, now)|
    ensures forall f :: f in EndedBy(r, a, now) <==> f in Listed(r.indexes, a, now) && Live(r, f, now)
  {
  }

  lemma SubsetSize(small: set<FamilyId>, large: set<FamilyId>)
    requires small <= large
    ensures |small| <= |large|
    ensures |small| == |large| ==> small == large
  {
    assert |large - small| == |large| - |small|;
  }

  const TWO_LOGINS := [At(0, Start(7, 1, 5)), At(20 * DAY, Start(8, 2, 5))]

  lemma TwoLogins()
    ensures Run(TWO_LOGINS) == Redis(map[7 := Family(1, 5, TTL), 8 := Family(2, 5, 20 * DAY + TTL)],
                                     map[5 := Index({7, 8}, 20 * DAY + TTL)])
  {
    var first := [TWO_LOGINS[0]];
    assert TWO_LOGINS[..1] == first && first[..0] == [];
    assert Run(first) == Apply(NO_KEYS, first[0]);
    assert Run(TWO_LOGINS) == Apply(Run(first), TWO_LOGINS[1]);
    assert Listed(Run(first).indexes, 5, 20 * DAY) + {8} == {7, 8};
  }

  /** Two logins twenty days apart: on day 35 the reset reports two sessions and ends one. */
  lemma ResetOvercounts()
    ensures FamiliesFresh(TWO_LOGINS) && Monotone(TWO_LOGINS) && Signed(TWO_LOGINS)
    ensures RevokeAll(Run(TWO_LOGINS), 5, 35 * DAY).1 == 2 && EndedBy(Run(TWO_LOGINS), 5, 35 * DAY) == {8}
  {
    hide Run, EndedBy;
    TwoLogins();
    EndedAreListed(Run(TWO_LOGINS), 5, 35 * DAY);
  }
}
