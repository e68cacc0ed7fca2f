/**
 The family store without Redis: a session per family, told by the commands alone. No keys, no sets and
 no deadlines on keys; a session knows its owner, its newest token, when it was last used and how long
 a reset will still find it.
 */
module SessionSpec {
  import opened Prelude
  import opened Tables
  import opened Families
  import opened Rotations
  import opened IndexCover

  const THIRTY_DAYS: Time := 30 * 24 * 3600

  datatype Session = Session(owner: ActorId, newest: Jti, used: Time, cover: Time)

  type Ledger = map<FamilyId, Session>

  predicate Alive(l: Ledger, f: FamilyId, now: Time) {
    f in l && now < l[f].used + THIRTY_DAYS
  }

  /** A login by the same actor extends the cover of the sessions still covered. */
  function Extended(s: Session, a: ActorId, now: Time): Session {
    if s.owner == a && now < s.cover then s.(cover := now + THIRTY_DAYS) else s
  }

  function After(l: Ledger, c: Stamped): Ledger {
    match c.command
    case Start(f, jti, a) =>
      (map g | g in l :: Extended(l[g], a, c.now))[f := Session(a, jti, c.now, c.now + THIRTY_DAYS)]
    case Present(f, jti, _, next) =>
      if !Alive(l, f, c.now) then l
      else if l[f].newest == jti then l[f := l[f].(newest := next, used := c.now)]
      else l - {f}
    case Logout(f, _) => l - {f}
    case Reset(a) => map g | g in l && !(l[g].owner == a && c.now < l[g].cover) :: l[g]
  }

  function Told(cs: seq<Stamped>): Ledger {
    if cs == [] then map[] else After(Told(cs[..|cs| - 1]), cs[|cs| - 1])
  }

  /** The hash of a family is what its session says. */
  predicate TellsOf(r: Redis, l: Ledger, cs: seq<Stamped>, f: FamilyId) {
    && (f in r.families <==> f in l)
    && (f in l ==>
      && r.families[f] == Family(l[f].newest, l[f].owner, l[f].used + TTL)
      && Owner(cs, f) == Some(l[f].owner) && Cover(cs, f) == l[f].cover)
  }

  ghost predicate Tells(r: Redis, l: Ledger, cs: seq<Stamped>) {
    forall f: FamilyId {:trigger TellsOf(r, l, cs, f)} :: TellsOf(r, l, cs, f)
  }

  lemma {:induction false} RunsAreTold(cs: seq<Stamped>)
    requires FamiliesFresh(cs) && Monotone(cs) && Signed(cs)
    ensures Tells(Run(cs), Told(cs), cs)
  {
    if cs != [] {
      var n := |cs| - 1;
      assert forall i :: 0 <= i < n ==> cs[..n][i] == cs[i] && cs[..n][..i] == cs[..i];
      RunsAreTold(cs[..n]);
      RunsKeepIndex(cs[..n]);
      assert n > 0 ==> cs[n - 1].now <= cs[n].now;
      forall f: FamilyId ensures TellsOf(Run(cs), Told(cs), cs, f) {
        OneMoreIsTold(cs, f);
      }
    }
  }

  /** A run whose history up to the last command is already told. */
  ghost predicate ToldSoFar(cs: seq<Stamped>) {
    && cs != [] && FamiliesFresh(cs) && Signed(cs) && Clock(cs[..|cs| - 1]) <= Clock(cs)
    && var before := cs[..|cs| - 1];
    && Tells(Run(before), Told(before), before) && IndexSound(before)
  }

  lemma StartIsTold(cs: seq<Stamped>, f: FamilyId)
    requires ToldSoFar(cs) && cs[|cs| - 1].command.Start?
    ensures TellsOf(Run(cs), Told(cs), cs, f)
  {
    hide IndexSound, Signed, Listed;
    var n := |cs| - 1;
    assert TellsOf(Run(cs[..n]), Told(cs[..n]), cs[..n], f);
    OwnedIffStarted(cs[..n], f);
    if Started(cs[..n], f) {
      StartIsOnce(cs, f);
    }
  }

  lemma PresentIsTold(cs: seq<Stamped>, f: FamilyId)
    requires ToldSoFar(cs) && cs[|cs| - 1].command.Present?
    ensures TellsOf(Run(cs), Told(cs), cs, f)
  {
    hide IndexSound, Signed, FamiliesFresh, Unlist;
    var n := |cs| - 1;
    assert TellsOf(Run(cs[..n]), Told(cs[..n]), cs[..n], f);
    assert TellsOf(Run(cs[..n]), Told(cs[..n]), cs[..n], cs[n].command.family);
  }

  lemma LogoutIsTold(cs: seq<Stamped>, f: FamilyId)
    requires ToldSoFar(cs) && cs[|cs| - 1].command.Logout?
    ensures TellsOf(Run(cs), Told(cs), cs, f)
  {
    hide IndexSound, Signed, FamiliesFresh, Unlist;
    var n := |cs| - 1;
    assert TellsOf(Run(cs[..n]), Told(cs[..n]), cs[..n], f);
  }

  lemma ResetCommandIsTold(cs: seq<Stamped>, f: FamilyId)
    requires ToldSoFar(cs) && cs[|cs| - 1].command.Reset?
    ensures TellsOf(Run(cs), Told(cs), cs, f)
  {
    hide IndexSound, Signed, FamiliesFresh, Listed;
    var n := |cs| - 1;
    ResetIsTold(cs[..n], cs[n].command.actor, cs[n].now);
    assert TellsOf(Run(cs[..n]), Told(cs[..n]), cs[..n], f);
  }

  lemma OneMoreIsTold(cs: seq<Stamped>, f: FamilyId)
    requires ToldSoFar(cs)
    ensures TellsOf(Run(cs), Told(cs), cs, f)
  {
    hide ToldSoFar, TellsOf, Run, Told;
    assert cs != [] by {
      ToldIsSome(cs);
    }
    match cs[|cs| - 1].command
    case Start(_, _, _) => StartIsTold(cs, f);
    case Present(_, _, _, _) => PresentIsTold(cs, f);
    case Logout(_, _) => LogoutIsTold(cs, f);
    case Reset(_) => ResetCommandIsTold(cs, f);
  }

  lemma ToldIsSome(cs: seq<Stamped>)
    requires ToldSoFar(cs)
    ensures cs != []
  {
  }

  /** A reset finds the covered sessions of the actor: those are what the index lists. */
  lemma ResetIsTold(cs: seq<Stamped>, a: ActorId, now: Time)
    requires Tells(Run(cs), Told(cs), cs) && IndexSound(cs) && Clock(cs) <= now
    ensures forall f: FamilyId :: f in Listed(Run(cs).indexes, a, now) <==>
      f in Told(cs) && Told(cs)[f].owner == a && now < Told(cs)[f].cover
  {
    forall f: FamilyId ensures f in Listed(Run(cs).indexes, a, now) <==> f in Told(cs) && Told(cs)[f].owner == a && now < Told(cs)[f].cover {
      assert TellsOf(Run(cs), Told(cs), cs, f);
      assert ListingExact(cs, Run(cs), a, f);
      assert FamilyIndexed(cs, Run(cs), f);
    }
  }

  // ---- what the store answers ----

  /** A family is live exactly when its session is, with the same newest token and owner. */
  lemma LiveIffAlive(cs: seq<Stamped>, f: FamilyId, now: Time)
    requires FamiliesFresh(cs) && Monotone(cs) && Signed(cs)
    ensures Live(Run(cs), f, now) <==> Alive(Told(cs), f, now)
    ensures f in Run(cs).families <==> f in Told(cs)
    ensures f in Told(cs) ==> Run(cs).families[f].current == Told(cs)[f].newest && Run(cs).families[f].actor == Told(cs)[f].owner
  {
    RunsAreTold(cs);
    assert TellsOf(Run(cs), Told(cs), cs, f);
  }

  /** The answer to a token is read off the session. */
  lemma AnswersAreTold(cs: seq<Stamped>, c: Stamped)
    requires FamiliesFresh(cs) && Monotone(cs) && Signed(cs) && c.command.Present?
    ensures var l, f := Told(cs), c.command.family;
      Answer(cs, c) ==
        if !Alive(l, f, c.now) then Unknown
        else if l[f].newest == c.command.jti then Rotated(c.command.next)
        else Reused
  {
    LiveIffAlive(cs, c.command.family, c.now);
  }

  /** A reset ends exactly the actor's covered sessions and counts those of them it finds listed. */
  lemma ResetsAreTold(cs: seq<Stamped>, a: ActorId, now: Time)
    requires FamiliesFresh(cs) && Monotone(cs) && Signed(cs) && Clock(cs) <= now
    ensures var l, found := Told(cs), set f | f in Told(cs) && Told(cs)[f].owner == a && now < Told(cs)[f].cover;
      && RevokeAll(Run(cs), a, now).1 == |found|
      && forall f: FamilyId :: Live(RevokeAll(Run(cs), a, now).0, f, now) <==> Alive(l, f, now) && f !in found
  {
    RunsAreTold(cs);
    RunsKeepIndex(cs);
    ResetIsTold(cs, a, now);
    var found := set f | f in Told(cs) && Told(cs)[f].owner == a && now < Told(cs)[f].cover;
    assert found == Listed(Run(cs).indexes, a, now);
    forall f: FamilyId ensures Live(RevokeAll(Run(cs), a, now).0, f, now) <==> Alive(Told(cs), f, now) && f !in found {
      LiveIffAlive(cs, f, now);
    }
  }

  // ---- liveness over runs ----

  /** `f` was started at `i`, and nothing since has ended it. */
  ghost predicate Unended(cs: seq<Stamped>, i: nat, f: FamilyId) {
    && i < |cs| && cs[i].command.Start? && cs[i].command.family == f
    && forall k :: i < k < |cs| ==> !Ends(cs, k, f)
  }

  /**
   A family is live exactly when it was started, no failed token, logout or reset that lists it came
   after, and it was last used less than 30 days ago. What happens to other families is no matter.
   */
  lemma LiveIffUnended(cs: seq<Stamped>, f: FamilyId, now: Time)
    requires FamiliesFresh(cs) && Monotone(cs) && Signed(cs) && Clock(cs) <= now
    ensures Live(Run(cs), f, now) <==> now < LastUse(cs, f) + THIRTY_DAYS && exists i :: Unended(cs, i, f)
  {
    DeadlineIsLastUse(cs, f);
    if Live(Run(cs), f, now) {
      var i := LiveIsUnended(cs, f, now);
    }
    if now < LastUse(cs, f) + THIRTY_DAYS && exists i :: Unended(cs, i, f) {
      var i :| Unended(cs, i, f);
      UnendedIsPresent(cs, i, f);
    }
  }

  lemma LiveIsUnended(cs: seq<Stamped>, f: FamilyId, now: Time) returns (i: nat)
    requires FamiliesFresh(cs) && Monotone(cs) && Clock(cs) <= now && Live(Run(cs), f, now)
    ensures Unended(cs, i, f)
  {
    RedemptionsFollowMints(cs, f);
    i :| 0 <= i < |cs| && cs[i].command.Start? && cs[i].command.family == f;
    forall k | i < k < |cs| ensures !Ends(cs, k, f) {
      if Ends(cs, k, f) {
        assert cs[..k][i] == cs[i];
        EndingEnds(cs, k, f);
        EndedStaysEnded(cs, k + 1, f);
      }
    }
  }

  lemma OneMoreKeeps(cs: seq<Stamped>, f: FamilyId)
    requires cs != [] && !Ends(cs, |cs| - 1, f) && f in Run(cs[..|cs| - 1]).families
    ensures f in Run(cs).families
  {
    hide Unlist;
  }

  lemma StartKeeps(cs: seq<Stamped>, f: FamilyId)
    requires cs != [] && cs[|cs| - 1].command.Start? && cs[|cs| - 1].command.family == f
    ensures f in Run(cs).families
  {
  }

  lemma {:induction false} UnendedIsPresent(cs: seq<Stamped>, i: nat, f: FamilyId)
    requires Unended(cs, i, f)
    ensures f in Run(cs).families
  {
    hide Run, Ends;
    var n := |cs| - 1;
    if i < n {
      forall k | i < k < n ensures !Ends(cs[..n], k, f) {
        assert !Ends(cs, k, f);
        EndsOfPrefix(cs, n, k, f);
      }
      assert cs[..n][i] == cs[i];
      UnendedIsPresent(cs[..n], i, f);
      OneMoreKeeps(cs, f);
    } else {
      StartKeeps(cs, f);
    }
  }

  lemma EndsOfPrefix(cs: seq<Stamped>, n: nat, k: nat, f: FamilyId)
    requires k < n <= |cs|
    ensures Ends(cs[..n], k, f) <==> Ends(cs, k, f)
  {
    assert cs[..n][..k] == cs[..k] && cs[..n][k] == cs[k];
  }

  /** And a command touches no index but its own actor's. */
  lemma OtherIndexesStay(r: Redis, c: Stamped, b: ActorId)
    requires b != c.command.actor
    ensures b in Apply(r, c).indexes <==> b in r.indexes
    ensures b in r.indexes ==> Apply(r, c).indexes[b] == r.indexes[b]
  {
  }
}
