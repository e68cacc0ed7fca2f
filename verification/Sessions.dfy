/**
 One browser tab against the family store: refreshes on a 401 and at boot, logins and logouts, each
 request and each response a step of its own, with other browsers at work on the same server.
 */
module Sessions {
  import opened Prelude
  import opened Tables
  import opened Families
  import opened Rotations

  datatype Token = Token(family: FamilyId, jti: Jti, actor: ActorId)

  datatype AccessToken = AccessToken(actor: ActorId, family: FamilyId)

  datatype CookieChange = Keep | Clear | Put(token: Token)

  /** The module variable `inFlight`: absent, or how far its request has come. */
  datatype InFlight =
    | Idle
    | Starting
    | Asked(cookie: Option<Token>)
    | Answered(change: CookieChange, access: Option<AccessToken>)
    | Landed(access: Option<AccessToken>)

  datatype Caller = OnUnauthorised | OnBoot

  datatype Tab = Tab(inFlight: InFlight, waiting: seq<Caller>, access: Option<AccessToken>, booted: bool)

  const NEW_TAB := Tab(Idle, [], None, false)

  function Refresh(t: Tab, caller: Caller): Tab {
    if t.inFlight.Idle? then t.(inFlight := Starting, waiting := [caller])
    else t.(waiting := t.waiting + [caller])
  }

  function Boot(t: Tab): Tab {
    if t.booted then t
    else if t.access.Some? then t.(booted := true)
    else Refresh(t.(booted := true), OnBoot)
  }

  /** What every waiting caller leaves in the store: a 401 that cannot be recovered clears it, a boot does not. */
  function Stored(before: Option<AccessToken>, got: Option<AccessToken>, waiting: seq<Caller>): Option<AccessToken> {
    if got.Some? && waiting != [] then got
    else if got.None? && OnUnauthorised in waiting then None
    else before
  }

  function Settle(t: Tab): Tab {
    if t.inFlight.Landed?
    then Tab(Idle, [], Stored(t.access, t.inFlight.access, t.waiting), t.booted)
    else t
  }

  /** The refresh flow as the tab runs it. */
  class RefreshFlow {
    var inFlight: InFlight
    var waiting: seq<Caller>
    var access: Option<AccessToken>
    var booted: bool

    function State(): Tab
      reads this
    {
      Tab(inFlight, waiting, access, booted)
    }

    constructor ()
      ensures State() == NEW_TAB
    {
      inFlight, waiting, access, booted := Idle, [], None, false;
    }

    /** Joins the request in flight, or becomes the one that starts it. */
    method RefreshAccessToken(caller: Caller)
      modifies this`inFlight, this`waiting
      ensures State() == Refresh(old(State()), caller)
      ensures !old(inFlight.Idle?) ==> inFlight == old(inFlight)
    {
      if !inFlight.Idle? {
        waiting := waiting + [caller];
        return;
      }
      inFlight := Starting;
      waiting := [caller];
    }

    method BootRefresh()
      modifies this
      ensures State() == Boot(old(State()))
    {
      if booted {
        return;
      }
      booted := true;
      if access.Some? {
        return;
      }
      RefreshAccessToken(OnBoot);
    }

    /** The promise settles: the variable is cleared and the callers resume one after another. */
    method SettleRefresh()
      requires inFlight.Landed?
      modifies this
      ensures State() == Settle(old(State()))
      ensures inFlight == Idle && waiting == [] && booted == old(booted)
      ensures old(inFlight.access).Some? && old(waiting) != [] ==> access == old(inFlight.access)
      ensures old(inFlight.access).None? ==> access == if OnUnauthorised in old(waiting) then None else old(access)
    {
      var got := inFlight.access;
      inFlight := Idle;
      for i := 0 to |waiting|
        invariant inFlight == Idle && waiting == old(waiting) && booted == old(booted)
        invariant access == Stored(old(access), got, waiting[..i])
      {
        assert waiting[..i + 1] == waiting[..i] + [waiting[i]];
        if got.Some? {
          access := got;
        } else if waiting[i].OnUnauthorised? {
          access := None;
        }
      }
      assert waiting[..|waiting|] == waiting;
      waiting := [];
    }
  }

  // ---- tab, network and server together ----

  datatype Call =
    | LoginAsked(actor: ActorId)
    | LoginAnswered(token: Token)
    | LogoutAsked(cookie: Option<Token>)
    | LogoutAnswered
    | Done

  /** `drawn`: every family ever started; `mine`: those started by this tab's logins. */
  datatype World = World(
    server: Redis, now: Time, cookie: Option<Token>, tab: Tab, calls: seq<Call>,
    drawn: set<FamilyId>, mine: set<FamilyId>, reuseReported: bool)

  const FIRST_VISIT := World(NO_KEYS, 0, None, NEW_TAB, [], {}, {}, false)

  datatype Step =
    | Unauthorised
    | OpenApp
    | SendRefresh
    | ServeRefresh(decodes: bool, next: Jti, clears: bool, disabled: bool)
    | DeliverRefresh
    | SettleFlight
    | SendLogin(actor: ActorId)
    | ServeLogin(call: nat, family: FamilyId, jti: Jti)
    | RefuseLogin(call: nat)
    | DeliverLogin(call: nat)
    | SendLogout
    | ServeLogout(call: nat, decodes: bool)
    | DeliverLogout(call: nat)
    | Reload
    | Tick(to: Time)
    | Elsewhere(command: Command)

  /**
   The refresh handler. A cookie that does not decode is refused before the store is touched; a failed
   rotation may or may not clear the cookie; a disabled actor is found out after the rotation.
   */
  function HandleRefresh(w: World, step: Step): World
    requires step.ServeRefresh? && w.tab.inFlight.Asked?
  {
    var cookie := w.tab.inFlight.cookie;
    if cookie.None? || !step.decodes then w.(tab := w.tab.(inFlight := Answered(Keep, None)))
    else
      var t := cookie.value;
      var (server, out) := Rotate(w.server, t.family, t.jti, step.next, t.actor, w.now);
      var answer :=
        if !out.Rotated? then Answered(if step.clears then Clear else Keep, None)
        else if step.disabled then Answered(Keep, None)
        else Answered(Put(t.(jti := out.jti)), Some(AccessToken(t.actor, t.family)));
      w.(server := server, tab := w.tab.(inFlight := answer), reuseReported := w.reuseReported || out.Reused?)
  }

  function Changed(cookie: Option<Token>, change: CookieChange): Option<Token> {
    match change
    case Keep => cookie
    case Clear => None
    case Put(t) => Some(t)
  }

  /** Other clients present only tokens they were given; a password reset can end anyone's sessions. */
  predicate Possible(w: World, c: Command) {
    match c
    case Start(f, _, _) => f !in w.drawn
    case Present(f, _, _, _) => f !in w.mine
    case Logout(f, _) => f !in w.mine
    case Reset(_) => true
  }

  function StepWorld(w: World, step: Step): World {
    match step
    case Unauthorised => w.(tab := Refresh(w.tab, OnUnauthorised))
    case OpenApp => w.(tab := Boot(w.tab))
    case SendRefresh =>
      if w.tab.inFlight.Starting? then w.(tab := w.tab.(inFlight := Asked(w.cookie))) else w
    case ServeRefresh(_, _, _, _) =>
      if w.tab.inFlight.Asked? then HandleRefresh(w, step) else w
    case DeliverRefresh =>
      if w.tab.inFlight.Answered?
      then w.(cookie := Changed(w.cookie, w.tab.inFlight.change), tab := w.tab.(inFlight := Landed(w.tab.inFlight.access)))
      else w
    case SettleFlight => w.(tab := Settle(w.tab))
    case SendLogin(a) => w.(calls := w.calls + [LoginAsked(a)])
    case ServeLogin(i, f, jti) =>
      if i < |w.calls| && w.calls[i].LoginAsked? && f !in w.drawn
      then
        var a := w.calls[i].actor;
        w.(server := StartFamily(w.server, f, jti, a, w.now), calls := w.calls[i := LoginAnswered(Token(f, jti, a))],
           drawn := w.drawn + {f}, mine := w.mine + {f})
      else w
    case RefuseLogin(i) =>
      if i < |w.calls| && w.calls[i].LoginAsked? then w.(calls := w.calls[i := Done]) else w
    case DeliverLogin(i) =>
      if i < |w.calls| && w.calls[i].LoginAnswered?
      then
        var t := w.calls[i].token;
        w.(cookie := Some(t), calls := w.calls[i := Done], tab := w.tab.(access := Some(AccessToken(t.actor, t.family))))
      else w
    case SendLogout => w.(calls := w.calls + [LogoutAsked(w.cookie)])
    case ServeLogout(i, decodes) =>
      if i < |w.calls| && w.calls[i].LogoutAsked?
      then
        var t := w.calls[i].cookie;
        w.(server := if t.Some? && decodes then RevokeFamily(w.server, t.value.family, t.value.actor, w.now) else w.server,
           calls := w.calls[i := LogoutAnswered])
      else w
    case DeliverLogout(i) =>
      if i < |w.calls| && w.calls[i].LogoutAnswered?
      then w.(cookie := None, calls := w.calls[i := Done], tab := w.tab.(access := None))
      else w
    case Reload => w.(tab := NEW_TAB)
    case Tick(to) => if w.now <= to then w.(now := to) else w
    case Elsewhere(c) =>
      if Possible(w, c)
      then w.(server := Apply(w.server, At(w.now, c)), drawn := if c.Start? then w.drawn + {c.family} else w.drawn)
      else w
  }

  /** Every refresh response reaches the tab that asked, and the actor of a refresh is not disabled. */
  predicate Orderly(w: World, step: Step) {
    && (step.ServeRefresh? ==> !step.disabled)
    && (step.Reload? ==> !w.tab.inFlight.Asked? && !w.tab.inFlight.Answered?)
  }

  ghost predicate WorldTrace(worlds: seq<World>, steps: seq<Step>) {
    && |worlds| == |steps| + 1
    && forall i {:trigger steps[i]} :: 0 <= i < |steps| ==> worlds[i + 1] == StepWorld(worlds[i], steps[i])
  }

  // ---- what every step keeps ----

  /** The token is its family's newest, or the family is gone. */
  predicate Current(r: Redis, t: Token) {
    t.family in r.families ==> r.families[t.family].current == t.jti
  }

  /** The token a refresh in flight has sent, or is bringing back. */
  function Carried(t: InFlight): Option<Token> {
    match t
    case Asked(cookie) => cookie
    case Answered(Put(token), _) => Some(token)
    case _ => None
  }

  predicate CookieSound(w: World) {
    w.cookie.Some? ==>
      && w.cookie.value.family in w.mine
      && (Current(w.server, w.cookie.value) ||
        (w.tab.inFlight.Answered? && w.tab.inFlight.change.Put? && w.tab.inFlight.change.token.family == w.cookie.value.family))
  }

  predicate FlightSound(w: World) {
    var t := Carried(w.tab.inFlight);
    t.Some? ==> t.value.family in w.mine && Current(w.server, t.value)
  }

  predicate Elsewise(t: Option<Token>, f: FamilyId) {
    t.Some? ==> t.value.family != f
  }

  /** A login on its way back is newest in a family that nothing else in the tab knows yet. */
  predicate LoginSound(w: World, i: nat)
    requires i < |w.calls|
  {
    w.calls[i].LoginAnswered? ==>
      var f := w.calls[i].token.family;
      && f in w.mine && Current(w.server, w.calls[i].token)
      && Elsewise(w.cookie, f) && Elsewise(Carried(w.tab.inFlight), f)
  }

  predicate LoginsApart(w: World, i: nat, k: nat)
    requires i < |w.calls| && k < |w.calls|
  {
    i != k && w.calls[i].LoginAnswered? && w.calls[k].LoginAnswered? ==> w.calls[i].token.family != w.calls[k].token.family
  }

  ghost predicate TokensSound(w: World) {
    && w.mine <= w.drawn
    && CookieSound(w) && FlightSound(w)
    && (forall i: nat :: i < |w.calls| ==> LoginSound(w, i))
    && (forall i: nat, k: nat :: i < |w.calls| && k < |w.calls| ==> LoginsApart(w, i, k))
    && !w.reuseReported
  }

  lemma CookieStaysSound(w: World, step: Step)
    requires TokensSound(w) && Orderly(w, step)
    ensures CookieSound(StepWorld(w, step)) && FlightSound(StepWorld(w, step)) && !StepWorld(w, step).reuseReported
  {
    hide Settle, Refresh, Boot;
    TabStepsCarryNothing(w.tab);
    if step.DeliverLogin? && step.call < |w.calls| {
      assert LoginSound(w, step.call);
    }
  }

  /** Joining, booting and settling leave alone whatever a request carries. */
  lemma TabStepsCarryNothing(t: Tab)
    ensures forall c :: Refresh(t, c).inFlight == t.inFlight || (t.inFlight.Idle? && Refresh(t, c).inFlight.Starting?)
    ensures Boot(t).inFlight == t.inFlight || (t.inFlight.Idle? && Boot(t).inFlight.Starting?)
    ensures Settle(t).inFlight == t.inFlight || (t.inFlight.Landed? && Settle(t).inFlight.Idle?)
  {
  }

  lemma LoginStaysSound(w: World, step: Step, i: nat)
    requires TokensSound(w) && Orderly(w, step) && i < |StepWorld(w, step).calls|
    ensures LoginSound(StepWorld(w, step), i)
  {
    hide Settle, Refresh, Boot;
    TabStepsCarryNothing(w.tab);
    if i < |w.calls| {
      assert LoginSound(w, i);
      if step.DeliverLogin? && step.call < |w.calls| {
        assert LoginsApart(w, i, step.call);
      }
    }
  }

  lemma LoginsStayApart(w: World, step: Step, i: nat, k: nat)
    requires TokensSound(w) && i < |StepWorld(w, step).calls| && k < |StepWorld(w, step).calls|
    ensures LoginsApart(StepWorld(w, step), i, k)
  {
    if i < |w.calls| && k < |w.calls| {
      assert LoginsApart(w, i, k) && LoginSound(w, i) && LoginSound(w, k);
    }
  }

  lemma NextKeepsSound(w: World, step: Step)
    requires TokensSound(w) && Orderly(w, step)
    ensures TokensSound(StepWorld(w, step))
  {
    hide Orderly, CookieSound, FlightSound, LoginSound, LoginsApart;
    CookieStaysSound(w, step);
    var v := StepWorld(w, step);
    forall i: nat | i < |v.calls| ensures LoginSound(v, i) {
      LoginStaysSound(w, step, i);
    }
    forall i: nat, k: nat | i < |v.calls| && k < |v.calls| ensures LoginsApart(v, i, k) {
      LoginsStayApart(w, step, i, k);
    }
  }

  lemma {:induction false} RunsKeepSound(worlds: seq<World>, steps: seq<Step>, n: nat)
    requires WorldTrace(worlds, steps) && n <= |steps|
    requires worlds[0] == FIRST_VISIT
    requires forall i {:trigger steps[i]} :: 0 <= i < |steps| ==> Orderly(worlds[i], steps[i])
    ensures TokensSound(worlds[n])
  {
    hide StepWorld, TokensSound, Orderly;
    if n == 0 {
      FirstVisitIsSound();
    } else {
      RunsKeepSound(worlds, steps, n - 1);
      var step := steps[n - 1];
      NextKeepsSound(worlds[n - 1], step);
    }
  }

  lemma FirstVisitIsSound()
    ensures TokensSound(FIRST_VISIT)
  {
  }

  /**
   However 401s, boots, logins, logouts and other clients interleave, this tab never makes the server
   report reuse; and with nothing in flight its cookie is the newest of its family, or the family is gone.
   */
  lemma NeverReportsReuse(worlds: seq<World>, steps: seq<Step>, n: nat)
    requires WorldTrace(worlds, steps) && n <= |steps|
    requires worlds[0] == FIRST_VISIT
    requires forall i {:trigger steps[i]} :: 0 <= i < |steps| ==> Orderly(worlds[i], steps[i])
    ensures !worlds[n].reuseReported
    ensures worlds[n].cookie.Some? && !worlds[n].tab.inFlight.Answered? ==> Current(worlds[n].server, worlds[n].cookie.value)
  {
    RunsKeepSound(worlds, steps, n);
  }

  /** One refresh, from the 401 to the server's answer. */
  function Asking(w: World, next: Jti, clears: bool, disabled: bool): World {
    StepWorld(StepWorld(StepWorld(w, Unauthorised), SendRefresh), ServeRefresh(true, next, clears, disabled))
  }

  /** With nothing in flight and the session alive, one round trip recovers from a 401. */
  lemma RoundTripRecovers(w: World, next: Jti, clears: bool)
    requires TokensSound(w) && w.tab.inFlight.Idle? && w.cookie.Some? && Live(w.server, w.cookie.value.family, w.now)
    ensures var t := w.cookie.value;
      var v := StepWorld(StepWorld(Asking(w, next, clears, false), DeliverRefresh), SettleFlight);
      && v.cookie == Some(t.(jti := next)) && v.tab.inFlight.Idle?
      && v.tab.access == Some(AccessToken(t.actor, t.family))
      && Live(v.server, t.family, w.now + TTL - 1) && Current(v.server, v.cookie.value)
  {
    hide TokensSound;
    CookieIsCurrent(w);
    assert Asking(w, next, clears, false).tab.waiting == [OnUnauthorised];
  }

  /** What settling leaves: a token obtained is stored whoever waited; without one a 401 empties the store and a boot does not. */
  lemma SettlingStores(t: Tab)
    requires t.inFlight.Landed? && t.waiting != []
    ensures var v := Settle(t);
      && v.inFlight == Idle && v.waiting == [] && v.booted == t.booted
      && (t.inFlight.access != None ==> v.access == t.inFlight.access)
      && (t.inFlight.access == None && OnUnauthorised in t.waiting ==> v.access == None)
      && (t.inFlight.access == None && (forall c :: c in t.waiting ==> c == OnBoot) ==> v.access == t.access)
  {
  }

  /** A request is in flight exactly while somebody waits for it. */
  predicate Awaited(t: Tab) {
    t.inFlight == Idle <==> t.waiting == []
  }

  lemma StepsKeepAwaited(w: World, step: Step)
    requires Awaited(w.tab)
    ensures Awaited(StepWorld(w, step).tab)
  {
  }

  /** Joining does not disturb the request in flight, and starts one only if there is none. */
  lemma JoiningStartsOne(t: Tab, caller: Caller)
    ensures var v := Refresh(t, caller);
      && v.waiting == (if t.inFlight == Idle then [caller] else t.waiting + [caller])
      && v.inFlight == (if t.inFlight == Idle then Starting else t.inFlight)
      && v.access == t.access && v.booted == t.booted
  {
  }

  /** Opening the app asks once per page, and only when there is no access token yet. */
  lemma BootAsksOnce(t: Tab)
    ensures Boot(t).booted && Boot(t).access == t.access && Boot(Boot(t)) == Boot(t)
    ensures Boot(t).waiting == if t.booted || t.access != None then t.waiting
      else if t.inFlight == Idle then [OnBoot] else t.waiting + [OnBoot]
  {
  }

  /** A freshly loaded page with a live cookie is signed in by its boot refresh. */
  lemma BootSignsIn(w: World, next: Jti, clears: bool)
    requires TokensSound(w) && w.tab == NEW_TAB && w.cookie.Some? && Live(w.server, w.cookie.value.family, w.now)
    ensures var t := w.cookie.value;
      var asked := StepWorld(StepWorld(StepWorld(w, OpenApp), SendRefresh), ServeRefresh(true, next, clears, false));
      var v := StepWorld(StepWorld(asked, DeliverRefresh), SettleFlight);
      && v.tab == Tab(Idle, [], Some(AccessToken(t.actor, t.family)), true)
      && v.cookie == Some(t.(jti := next)) && Current(v.server, t.(jti := next)) && !v.reuseReported
      && Live(v.server, t.family, w.now + TTL - 1)
  {
    CookieIsCurrent(w);
    var sent := StepWorld(StepWorld(w, OpenApp), SendRefresh);
    assert sent.tab == Tab(Asked(w.cookie), [OnBoot], None, true) && sent.server == w.server && sent.now == w.now;
    var t := w.cookie.value;
    var asked := StepWorld(sent, ServeRefresh(true, next, clears, false));
    assert asked.tab == Tab(Answered(Put(t.(jti := next)), Some(AccessToken(t.actor, t.family))), [OnBoot], None, true);
  }

  /** A login that is answered and delivered leaves its token in the cookie, newest in a family of its own, and signs in. */
  lemma LoginSignsIn(w: World, a: ActorId, f: FamilyId, jti: Jti)
    requires f !in w.drawn
    ensures var i := |w.calls|;
      var v := StepWorld(StepWorld(StepWorld(w, SendLogin(a)), ServeLogin(i, f, jti)), DeliverLogin(i));
      && v.cookie == Some(Token(f, jti, a)) && v.tab == w.tab.(access := Some(AccessToken(a, f)))
      && Live(v.server, f, w.now + TTL - 1) && Current(v.server, Token(f, jti, a)) && f in v.mine
      && v.server.families - {f} == w.server.families - {f}
  {
  }

  /** A logout that is served and delivered ends the cookie's family and no other, and empties cookie and store. */
  lemma LogoutSignsOut(w: World)
    requires w.cookie.Some?
    ensures var i, f := |w.calls|, w.cookie.value.family;
      var v := StepWorld(StepWorld(StepWorld(w, SendLogout), ServeLogout(i, true)), DeliverLogout(i));
      && v.cookie == None && v.tab == w.tab.(access := None) && f !in v.server.families
      && v.server.families - {f} == w.server.families - {f}
  {
  }

  /** Time passes, and other clients act, as the step says. No family is started twice. */
  lemma WorldMovesOn(w: World, to: Time, c: Command)
    ensures w.now <= to ==> StepWorld(w, Tick(to)) == w.(now := to)
    ensures to < w.now ==> StepWorld(w, Tick(to)) == w
    ensures Possible(w, c) ==> StepWorld(w, Elsewhere(c)).server == Apply(w.server, At(w.now, c))
    ensures !Possible(w, c) ==> StepWorld(w, Elsewhere(c)) == w
    ensures StepWorld(w, Elsewhere(c)).tab == w.tab && StepWorld(w, Elsewhere(c)).cookie == w.cookie
    ensures c.Start? ==> StepWorld(StepWorld(w, Elsewhere(c)), Elsewhere(c)) == StepWorld(w, Elsewhere(c))
  {
  }

  /** A cookie that is missing or does not decode is refused before the store is touched, and stays. */
  lemma UndecodedIsRefused(w: World, next: Jti, clears: bool, disabled: bool, decodes: bool)
    requires w.tab.inFlight.Asked? && (w.tab.inFlight.cookie == None || !decodes)
    ensures var v := StepWorld(w, ServeRefresh(decodes, next, clears, disabled));
      v == w.(tab := w.tab.(inFlight := Answered(Keep, None)))
  {
  }

  /** A logout with such a cookie ends no session, and a refused login changes nothing but its own call. */
  lemma IdleCalls(w: World, i: nat)
    requires i < |w.calls|
    ensures w.calls[i].LogoutAsked? ==> StepWorld(w, ServeLogout(i, false)) == w.(calls := w.calls[i := LogoutAnswered])
    ensures w.calls[i].LoginAsked? ==> StepWorld(w, RefuseLogin(i)) == w.(calls := w.calls[i := Done])
  {
  }

  /** A reload forgets what the page held, and neither the cookie nor the server. */
  lemma ReloadForgets(w: World)
    ensures StepWorld(w, Reload) == w.(tab := Tab(Idle, [], None, false))
  {
  }

  lemma CookieIsCurrent(w: World)
    requires TokensSound(w) && w.cookie.Some? && !w.tab.inFlight.Answered?
    ensures Current(w.server, w.cookie.value)
  {
  }

  // ---- after a refused refresh ----

  /** The family of `t` has ended, and the tab has no other token in its cookie or on the way back to it. */
  predicate Over(w: World, t: Token) {
    && t.family in w.drawn && !Live(w.server, t.family, w.now)
    && (w.cookie.Some? ==> w.cookie.value == t)
    && match w.tab.inFlight
       case Asked(cookie) => cookie.Some? ==> cookie.value == t
       case Answered(change, access) => !change.Put? && access.None?
       case Landed(access) => access.None?
       case _ => true
  }

  /** A refusal that does not clear the cookie leaves the tab holding a token of a family that has ended. */
  lemma RefusedRefreshKeepsTheCookie(w: World, next: Jti, disabled: bool)
    requires w.tab.inFlight.Idle? && w.cookie.Some? && w.cookie.value.family in w.drawn
    requires !(Live(w.server, w.cookie.value.family, w.now) && Current(w.server, w.cookie.value))
    ensures var v := StepWorld(StepWorld(Asking(w, next, false, disabled), DeliverRefresh), SettleFlight);
      v.cookie == w.cookie && v.tab.inFlight.Idle? && v.tab.access.None? && Over(v, w.cookie.value)
  {
    assert Asking(w, next, false, disabled).tab.waiting == [OnUnauthorised];
  }

  /** One that does clear it leaves the tab signed out: no cookie, nothing in flight and no access token. */
  lemma ClearingRefusalSignsOut(w: World, next: Jti, disabled: bool)
    requires w.tab.inFlight.Idle? && w.cookie.Some? && w.cookie.value.family in w.drawn
    requires !(Live(w.server, w.cookie.value.family, w.now) && Current(w.server, w.cookie.value))
    ensures var v := StepWorld(StepWorld(Asking(w, next, true, disabled), DeliverRefresh), SettleFlight);
      v.cookie == None && v.tab.inFlight.Idle? && v.tab.access.None? && !Live(v.server, w.cookie.value.family, v.now)
  {
    var asked := StepWorld(StepWorld(w, Unauthorised), SendRefresh);
    assert asked.tab.inFlight == Asked(w.cookie) && OnUnauthorised in asked.tab.waiting;
  }

  lemma StaysOver(w: World, step: Step, t: Token)
    requires Over(w, t) && !step.DeliverLogin?
    ensures Over(StepWorld(w, step), t)
  {
    hide Settle, Refresh, Boot;
    TabStepsCarryNothing(w.tab);
  }

  /**
   Until a login is delivered the family stays gone: every refresh the tab makes, with the cookie or
   without, is answered without a token and without a word of reuse, and changes nothing on the server.
   */
  lemma {:induction false} OverUntilLogin(worlds: seq<World>, steps: seq<Step>, t: Token, i: nat, j: nat)
    requires WorldTrace(worlds, steps) && i <= j < |steps| && Over(worlds[i], t)
    requires forall k {:trigger steps[k]} :: i <= k < j ==> !steps[k].DeliverLogin?
    ensures Over(worlds[j], t)
    ensures steps[j].ServeRefresh? && worlds[j].tab.inFlight.Asked? ==>
      && worlds[j + 1].tab.inFlight.Answered? && worlds[j + 1].tab.inFlight.access.None?
      && worlds[j + 1].server == worlds[j].server && worlds[j + 1].reuseReported == worlds[j].reuseReported
    ensures Rotate(worlds[j].server, t.family, t.jti, t.jti, t.actor, worlds[j].now).1 == Unknown
    decreases j
  {
    assert Over(worlds[j], t) by {
      if i < j {
        hide StepWorld, Over;
        OverUntilLogin(worlds, steps, t, i, j - 1);
        assert worlds[j] == StepWorld(worlds[j - 1], steps[j - 1]);
        StaysOver(worlds[j - 1], steps[j - 1], t);
      }
    }
    assert worlds[j + 1] == StepWorld(worlds[j], steps[j]);
    RefreshWhenOver(worlds[j], steps[j], t);
  }

  lemma RefreshWhenOver(w: World, step: Step, t: Token)
    requires Over(w, t)
    ensures step.ServeRefresh? && w.tab.inFlight.Asked? ==>
      var v := StepWorld(w, step);
      v.tab.inFlight.Answered? && v.tab.inFlight.access.None? && v.server == w.server && v.reuseReported == w.reuseReported
  {
  }

  /** As long as no answer clears it and no logout is delivered, the dead cookie stays and is sent each time. */
  lemma {:induction false} DeadCookieStays(worlds: seq<World>, steps: seq<Step>, t: Token, i: nat, j: nat)
    requires WorldTrace(worlds, steps) && i <= j < |worlds| && Over(worlds[i], t)
    requires worlds[i].cookie == Some(t) && worlds[i].tab.inFlight.Idle?
    requires forall k {:trigger steps[k]} :: i <= k < j ==>
      !steps[k].DeliverLogin? && !steps[k].DeliverLogout? && !(steps[k].ServeRefresh? && steps[k].clears)
    ensures Over(worlds[j], t) && worlds[j].cookie == Some(t)
    ensures worlds[j].tab.inFlight.Asked? ==> worlds[j].tab.inFlight.cookie == Some(t)
    ensures !(worlds[j].tab.inFlight.Answered? && worlds[j].tab.inFlight.change.Clear?)
    decreases j
  {
    if i < j {
      DeadCookieStays(worlds, steps, t, i, j - 1);
      assert worlds[j] == StepWorld(worlds[j - 1], steps[j - 1]);
      StaysOver(worlds[j - 1], steps[j - 1], t);
      hide Settle, Refresh, Boot;
      TabStepsCarryNothing(worlds[j - 1].tab);
    }
  }

  // ---- both conditions are needed ----

  /** A cookie that is no longer the newest of a live family ends the session as soon as it is used. */
  lemma SpentCookieReportsReuse(w: World, next: Jti, clears: bool, disabled: bool)
    requires w.tab.inFlight.Idle? && w.cookie.Some?
    requires Live(w.server, w.cookie.value.family, w.now) && !Current(w.server, w.cookie.value)
    ensures Asking(w, next, clears, disabled).reuseReported
    ensures w.cookie.value.family !in Asking(w, next, clears, disabled).server.families
  {
  }

  /** A page closed over an answered refresh keeps the spent cookie, and the next refresh reports reuse. */
  lemma LostResponseReportsReuse(w: World, next: Jti, later: Jti, clears: bool)
    requires TokensSound(w) && w.tab.inFlight.Idle? && w.cookie.Some? && Live(w.server, w.cookie.value.family, w.now)
    requires next != w.cookie.value.jti
    ensures var lost := StepWorld(Asking(w, next, clears, false), Reload);
      !lost.reuseReported && Asking(lost, later, clears, false).reuseReported
  {
    CookieIsCurrent(w);
    SpentByAsking(w, next, clears, false);
    SpentCookieReportsReuse(StepWorld(Asking(w, next, clears, false), Reload), later, clears, false);
  }

  /** A disabled actor's token is rotated and then withheld, so the next refresh reports reuse. */
  lemma DisabledActorReportsReuse(w: World, next: Jti, later: Jti, clears: bool)
    requires TokensSound(w) && w.tab.inFlight.Idle? && w.cookie.Some? && Live(w.server, w.cookie.value.family, w.now)
    requires next != w.cookie.value.jti
    ensures var refused := StepWorld(StepWorld(Asking(w, next, clears, true), DeliverRefresh), SettleFlight);
      !refused.reuseReported && Asking(refused, later, clears, true).reuseReported
  {
    CookieIsCurrent(w);
    SpentByAsking(w, next, clears, true);
    SpentCookieReportsReuse(StepWorld(StepWorld(Asking(w, next, clears, true), DeliverRefresh), SettleFlight), later, clears, true);
  }

  lemma SpentByAsking(w: World, next: Jti, clears: bool, disabled: bool)
    requires w.tab.inFlight.Idle? && w.cookie.Some? && Live(w.server, w.cookie.value.family, w.now)
    requires Current(w.server, w.cookie.value) && next != w.cookie.value.jti
    ensures var v := Asking(w, next, clears, disabled);
      && v.cookie == w.cookie && v.now == w.now && v.reuseReported == w.reuseReported && v.tab.inFlight.Answered?
      && (disabled ==> v.tab.inFlight.change.Keep?)
      && Live(v.server, w.cookie.value.family, v.now) && !Current(v.server, w.cookie.value)
  {
  }
}
